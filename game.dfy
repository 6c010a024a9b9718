/** The game loop and the frame update (js/game.js): the clamped frame time, the running and
    paused states, the enemy and particle passes with their rewards, the nearest-enemy search,
    the keyboard rules, level assembly, collisions and item removal. */
module Game {
  import opened Utils
  import opened Classes
  import opened Characters
  import opened Enemies
  import opened World

  // ===========================================================================
  // Frame time and game state

  /** The longest frame `gameLoop` lets through, in seconds. */
  const MaxDelta: real := 0.1

  /** `gameLoop`'s delta time: the milliseconds since the last frame in seconds, clamped to at
      most 0.1. */
  function FrameDelta(currentTime: real, lastTime: real): (dt: real)
    ensures dt <= MaxDelta
    ensures (currentTime - lastTime) / 1000.0 <= MaxDelta ==> dt == (currentTime - lastTime) / 1000.0
    ensures (currentTime - lastTime) / 1000.0 > MaxDelta ==> dt == MaxDelta
  {
    Min((currentTime - lastTime) / 1000.0, MaxDelta)
  }

  /** A frame time never exceeds the clamp, and no frame of at least the clamp time gets more. */
  lemma FrameDeltaIsClamped(lastTime: real, currentTime: real)
    requires currentTime >= lastTime
    ensures 0.0 <= FrameDelta(currentTime, lastTime) <= MaxDelta
    ensures FrameDelta(currentTime, lastTime) <= (currentTime - lastTime) / 1000.0
  {
  }

  datatype GameState = Menu | Playing | Paused | GameOver

  /** The state after `pause`: only a game in play pauses. */
  function PauseOf(s: GameState): (r: GameState)
    ensures r == Paused <==> s == Playing || s == Paused
    ensures r != Paused ==> r == s
  {
    if s == Playing then Paused else s
  }

  /** The state after `resume`: only a paused game resumes. */
  function ResumeOf(s: GameState): (r: GameState)
    ensures r == Playing <==> s == Playing || s == Paused
    ensures r != Playing ==> r == s
  {
    if s == Paused then Playing else s
  }

  /** Resuming undoes pausing and pausing undoes resuming; both are idempotent, and neither
      leaves the menu or the game-over screen. */
  lemma PauseResumeRoundTrip(s: GameState)
    ensures s == Playing ==> ResumeOf(PauseOf(s)) == s
    ensures s == Paused ==> PauseOf(ResumeOf(s)) == s
    ensures PauseOf(PauseOf(s)) == PauseOf(s) && ResumeOf(ResumeOf(s)) == ResumeOf(s)
    ensures s == Menu || s == GameOver ==> PauseOf(s) == s && ResumeOf(s) == s
  {
  }

  /** The menu flag and the game state across a frame's input. When the input ran to its end
      with a character in play (`acted`) and Escape is held, the menu flips; opening it pauses
      the game and closing it resumes it. Otherwise both stay. */
  predicate Escaped(keys: set<string>, acted: bool, s0: GameState, open0: bool, s: GameState, open: bool)
  {
    if acted && "Escape" in keys then open == !open0 && s == (if open then PauseOf(s0) else ResumeOf(s0))
    else open == open0 && s == s0
  }

  // ===========================================================================
  // Distances

  /** The squared distance between the centres of two 32 by 32 boxes with the given corners:
      what `distanceTo` measures, squared. The square root is left out: every use compares a
      distance with another distance or with a non-negative range, and squaring keeps those
      comparisons. */
  function CentreGap(x1: real, y1: real, x2: real, y2: real): (d: real)
    ensures d >= 0.0
  {
    var dx := (x2 + BoxSize / 2.0) - (x1 + BoxSize / 2.0);
    var dy := (y2 + BoxSize / 2.0) - (y1 + BoxSize / 2.0);
    dx * dx + dy * dy
  }

  /** The gap is symmetric, and zero between boxes at the same corner. */
  lemma CentreGapIsSymmetric(x1: real, y1: real, x2: real, y2: real)
    ensures CentreGap(x1, y1, x2, y2) == CentreGap(x2, y2, x1, y1)
    ensures CentreGap(x1, y1, x1, y1) == 0.0
  {
    var dx, dy := x2 - x1, y2 - y1;
    assert CentreGap(x1, y1, x2, y2) == dx * dx + dy * dy;
    assert CentreGap(x2, y2, x1, y1) == (-dx) * (-dx) + (-dy) * (-dy) == dx * dx + dy * dy;
  }

  /** The squared centre distance from the character to an enemy. */
  function Gap(p: Character, e: Enemy): real
    reads p`x, p`y, e`x, e`y
  {
    CentreGap(p.x, p.y, e.x, e.y)
  }

  /** Whether a centre at squared distance `gap` is within `range`: a range that is missing
      (`undefined` in a comparison) reaches nothing. */
  predicate InReach(gap: real, range: Option<real>)
  {
    range.Some? && range.value >= 0.0 && gap <= range.value * range.value
  }

  /** Characters carry no attack range of their own. */
  const CharacterAttackRange: Option<real> := None

  // ===========================================================================
  // Keyboard rules

  /** `handleInput`'s movement vector for the held keys: S or Down overrides W or Up, D or Right
      overrides A or Left, and a diagonal is scaled by 0.707 on both axes. */
  function Direction(keys: set<string>): (d: (real, real))
    ensures d.1 > 0.0 <==> "KeyS" in keys || "ArrowDown" in keys
    ensures d.1 < 0.0 <==> !("KeyS" in keys || "ArrowDown" in keys) && ("KeyW" in keys || "ArrowUp" in keys)
    ensures d.0 > 0.0 <==> "KeyD" in keys || "ArrowRight" in keys
    ensures d.0 < 0.0 <==> !("KeyD" in keys || "ArrowRight" in keys) && ("KeyA" in keys || "ArrowLeft" in keys)
    ensures d.0 != 0.0 && d.1 != 0.0 ==> (d.0 == 0.707 || d.0 == -0.707) && (d.1 == 0.707 || d.1 == -0.707)
    ensures d.0 == 0.0 || d.1 == 0.0 ==> -1.0 <= d.0 <= 1.0 && -1.0 <= d.1 <= 1.0 && (d.0 * d.0 == 1.0 || d.1 * d.1 == 1.0 || d == (0.0, 0.0))
  {
    var moveY := if "KeyS" in keys || "ArrowDown" in keys then 1.0
                 else if "KeyW" in keys || "ArrowUp" in keys then -1.0 else 0.0;
    var moveX := if "KeyD" in keys || "ArrowRight" in keys then 1.0
                 else if "KeyA" in keys || "ArrowLeft" in keys then -1.0 else 0.0;
    if moveX != 0.0 && moveY != 0.0 then (moveX * 0.707, moveY * 0.707) else (moveX, moveY)
  }

  /** The facing after a movement: horizontal movement decides before vertical; without
      movement the facing stays. */
  function FacingFor(d: (real, real), facing: Facing): (f: Facing)
    ensures d.0 != 0.0 ==> (f == Right <==> d.0 > 0.0) && (f == Left <==> d.0 < 0.0)
    ensures d.0 == 0.0 && d.1 != 0.0 ==> (f == Down <==> d.1 > 0.0) && (f == Up <==> d.1 < 0.0)
    ensures d == (0.0, 0.0) ==> f == facing
  {
    if d.0 > 0.0 then Right
    else if d.0 < 0.0 then Left
    else if d.1 > 0.0 then Down
    else if d.1 < 0.0 then Up
    else facing
  }

  /** Opposite keys held together: the later test wins, so down and right. */
  lemma OppositeKeysResolve()
    ensures Direction({"KeyW", "KeyS"}) == (0.0, 1.0)
    ensures Direction({"KeyA", "KeyD"}) == (1.0, 0.0)
    ensures Direction({"KeyW", "KeyS", "KeyA", "KeyD"}) == (0.707, 0.707)
    ensures FacingFor(Direction({"KeyW", "KeyS", "KeyA", "KeyD"}), Up) == Right
  {
  }

  // ===========================================================================
  // Keep-in-order pruning

  /** The entries whose flag is set, in their order: what a backward loop that splices out the
      unflagged entries leaves. */
  function Keep<T>(s: seq<T>, flags: seq<bool>): (r: seq<T>)
    requires |flags| == |s|
    ensures |r| <= |s|
  {
    if s == [] then [] else (if flags[0] then [s[0]] else []) + Keep(s[1..], flags[1..])
  }

  /** The suffix starting at i is its first entry, kept or not, followed by the next suffix. */
  lemma KeepStep<T>(s: seq<T>, flags: seq<bool>, i: int)
    requires |flags| == |s| && 0 <= i < |s|
    ensures Keep(s[i..], flags[i..]) == (if flags[i] then [s[i]] else []) + Keep(s[i + 1..], flags[i + 1..])
  {
    assert s[i..][1..] == s[i + 1..];
    assert flags[i..][1..] == flags[i + 1..];
  }

  /** Pruning a concatenation prunes each part. */
  lemma {:induction false} KeepAppend<T>(a: seq<T>, fa: seq<bool>, b: seq<T>, fb: seq<bool>)
    requires |fa| == |a| && |fb| == |b|
    ensures Keep(a + b, fa + fb) == Keep(a, fa) + Keep(b, fb)
    decreases |a|
  {
    if a != [] {
      assert (a + b)[1..] == a[1..] + b && (fa + fb)[1..] == fa[1..] + fb;
      KeepAppend(a[1..], fa[1..], b, fb);
    } else {
      assert a + b == b && fa + fb == fb;
    }
  }

  /** Pruning one more entry at the end: a forward filter's step. */
  lemma KeepSnoc<T>(s: seq<T>, flags: seq<bool>, k: int)
    requires |flags| == |s| && 0 <= k < |s|
    ensures Keep(s[..k + 1], flags[..k + 1]) == Keep(s[..k], flags[..k]) + (if flags[k] then [s[k]] else [])
  {
    assert s[..k + 1] == s[..k] + [s[k]] && flags[..k + 1] == flags[..k] + [flags[k]];
    KeepAppend(s[..k], flags[..k], [s[k]], [flags[k]]);
    assert [s[k]][1..] == [] && [flags[k]][1..] == [];
  }

  /** Nothing survives pruning exactly when no flag is set. */
  lemma {:induction false} KeepEmpty<T>(s: seq<T>, flags: seq<bool>)
    requires |flags| == |s|
    ensures Keep(s, flags) == [] <==> !(true in flags)
    decreases |s|
  {
    if s != [] {
      KeepEmpty(s[1..], flags[1..]);
      assert flags == [flags[0]] + flags[1..];
    }
  }

  /** One step of a backward pruning loop: with the entries before i untouched and the suffix
      after i pruned, splicing out entry i exactly when its flag is clear prunes the suffix from i. */
  lemma PruneStep<T>(s: seq<T>, flags: seq<bool>, i: int, list: seq<T>)
    requires |flags| == |s| && 0 <= i < |s|
    requires list == s[..i + 1] + Keep(s[i + 1..], flags[i + 1..])
    ensures i < |list| && list[i] == s[i]
    ensures flags[i] ==> list == s[..i] + Keep(s[i..], flags[i..])
    ensures !flags[i] ==> list[..i] + list[i + 1..] == s[..i] + Keep(s[i..], flags[i..])
  {
    var rest := Keep(s[i + 1..], flags[i + 1..]);
    KeepStep(s, flags, i);
    assert s[..i + 1] == s[..i] + [s[i]];
    assert list == s[..i] + [s[i]] + rest;
    if flags[i] {
      assert s[..i] + [s[i]] + rest == s[..i] + ([s[i]] + rest);
    } else {
      assert list[..i] == s[..i] && list[i + 1..] == rest;
    }
  }

  // ===========================================================================
  // Items on the level

  /** An entry of the level's item list: a generated loot item (which carries no position) or
      an exit placed by `placeItemsOnMap`, 32 by 32 and interactable. */
  datatype GameItem = Drop(item: LevelItem) | Exit(x: int, y: int, level: int)

  // ===========================================================================
  // Particles

  /** A floating damage number (`createDamageNumber`): it rises at 50 per second, slowed by a
      gravity of 100, and lives for one second. */
  class Particle {
    const x: real
    var y: real
    var velocityY: real
    var life: real
    var isAlive: bool

    constructor (x: real, y: real)
      ensures this.x == x && this.y == y && velocityY == -50.0 && life == 1.0 && isAlive
    {
      this.x, this.y := x, y;
      velocityY, life, isAlive := -50.0, 1.0, true;
    }

    /** The particle's `update`: it moves, slows and ages, and is alive while life remains. */
    method Update(dt: real)
      modifies this`y, this`velocityY, this`life, this`isAlive
      ensures y == old(y) + old(velocityY) * dt && velocityY == old(velocityY) + 100.0 * dt
      ensures life == old(life) - dt && isAlive == (life > 0.0)
    {
      y := y + velocityY * dt;
      velocityY := velocityY + 100.0 * dt;
      life := life - dt;
      isAlive := life > 0.0;
    }
  }

  /** The particles from i on have aged by dt from the given lives, the ones before i not yet. */
  ghost predicate Aged(ps: seq<Particle>, lives: seq<real>, i: int, dt: real)
    reads set p | p in ps
  {
    |lives| == |ps| && 0 <= i <= |ps| &&
    (forall k :: 0 <= k < i ==> ps[k].life == lives[k]) &&
    (forall k :: i <= k < |ps| ==> ps[k].life == lives[k] - dt)
  }

  /** The particle at i updates; it stays alive exactly when its life outlasts dt. */
  method AgeAt(p: Particle, ghost ps: seq<Particle>, ghost lives: seq<real>, ghost i: int, dt: real)
    requires 0 <= i < |ps| && ps[i] == p && Distinct(ps) && Aged(ps, lives, i + 1, dt)
    modifies p
    ensures Aged(ps, lives, i, dt) && p.isAlive == (lives[i] - dt > 0.0)
  {
    forall k | 0 <= k < |ps| && k != i
      ensures ps[k] != p
    {
    }
    p.Update(dt);
  }

  /** The particle pass after the particles from i on have been handled: they have aged, and
      the list holds the first i particles followed by the survivors among the rest. */
  ghost predicate Pruned(i: int, ps: seq<Particle>, lives: seq<real>, survivors: seq<bool>, list: seq<Particle>, dt: real)
    reads set p | p in ps
  {
    0 <= i <= |ps| && |survivors| == |ps| && Distinct(ps) && Aged(ps, lives, i, dt) &&
    (forall k :: 0 <= k < |ps| ==> survivors[k] == (lives[k] - dt > 0.0)) &&
    list == ps[..i] + Keep(ps[i..], survivors[i..])
  }

  /** One step of the particle pass: the particle at i updates, and is spliced out if it
      is no longer alive. */
  method ParticleStep(i: int, list: seq<Particle>, ghost ps: seq<Particle>, ghost lives: seq<real>,
                      ghost survivors: seq<bool>, dt: real) returns (list': seq<Particle>)
    requires 0 <= i < |ps| && Pruned(i + 1, ps, lives, survivors, list, dt)
    modifies ps[i]
    ensures Pruned(i, ps, lives, survivors, list', dt)
  {
    PruneStep(ps, survivors, i, list);
    var p := list[i];
    AgeAt(p, ps, lives, i, dt);
    list' := list;
    if !p.isAlive {
      list' := list[..i] + list[i + 1..];
    }
  }

  lemma ParticlesStart(ps: seq<Particle>, lives: seq<real>, survivors: seq<bool>, list: seq<Particle>, dt: real)
    requires list == ps && Distinct(ps) && |lives| == |ps| && |survivors| == |ps|
    requires forall k :: 0 <= k < |ps| ==> lives[k] == ps[k].life && survivors[k] == (lives[k] - dt > 0.0)
    ensures Pruned(|ps|, ps, lives, survivors, list, dt)
  {
    assert ps[|ps|..] == [] && survivors[|survivors|..] == [] && ps[..|ps|] == ps;
  }

  lemma ParticlesEnd(ps: seq<Particle>, lives: seq<real>, survivors: seq<bool>, list: seq<Particle>, dt: real)
    requires Pruned(0, ps, lives, survivors, list, dt)
    ensures list == Keep(ps, survivors) && Distinct(list)
    ensures forall k :: 0 <= k < |ps| ==> ps[k].life == lives[k] - dt
  {
    assert ps[0..] == ps && survivors[0..] == survivors && ps[..0] == [];
    KeepDistinct(ps, survivors);
  }

  /** Pruning keeps no entry that was not there, and only entries whose flag is set. */
  lemma {:induction false} KeepIsSubsequence<T>(s: seq<T>, flags: seq<bool>, x: T)
    requires |flags| == |s| && x in Keep(s, flags)
    ensures exists j :: 0 <= j < |s| && s[j] == x && flags[j]
    decreases |s|
  {
    if flags[0] && x == s[0] {
      assert s[0] == x && flags[0];
    } else {
      KeepIsSubsequence(s[1..], flags[1..], x);
      var j :| 0 <= j < |s| - 1 && s[1..][j] == x && flags[1..][j];
      assert s[j + 1] == x && flags[j + 1];
    }
  }

  /** Pruning a sequence without repeats leaves one without repeats. */
  lemma {:induction false} KeepDistinct<T>(s: seq<T>, flags: seq<bool>)
    requires |flags| == |s| && Distinct(s)
    ensures Distinct(Keep(s, flags))
    decreases |s|
  {
    if s != [] {
      var tail := Keep(s[1..], flags[1..]);
      KeepDistinct(s[1..], flags[1..]);
      if flags[0] {
        forall n | 0 <= n < |tail|
          ensures tail[n] != s[0]
        {
          KeepIsSubsequence(s[1..], flags[1..], tail[n]);
          assert tail[n] in s[1..];
        }
        var r := [s[0]] + tail;
        forall m, n | 0 <= m < n < |r|
          ensures r[m] != r[n]
        {
          assert r[n] == tail[n - 1];
        }
      }
    }
  }

  // ===========================================================================
  // Enemies in the frame

  /** An enemy whose state is consistent, as every enemy the factory builds. */
  ghost predicate Ready(e: Enemy)
    reads e
  {
    e.Valid() && e.Scaled()
  }

  ghost predicate AllReady(es: seq<Enemy>)
    reads es
  {
    forall k :: 0 <= k < |es| ==> Ready(es[k])
  }

  /** Which enemies are alive. */
  ghost function AliveFlags(es: seq<Enemy>): (f: seq<bool>)
    reads (set e | e in es)`isAlive
    ensures |f| == |es|
    decreases |es|
  {
    if es == [] then [] else [es[0].isAlive] + AliveFlags(es[1..])
  }

  lemma {:induction false} AliveFlagsAt(es: seq<Enemy>)
    ensures forall k :: 0 <= k < |es| ==> AliveFlags(es)[k] == es[k].isAlive
    decreases |es|
  {
    if es != [] {
      AliveFlagsAt(es[1..]);
    }
  }

  /** The gold of the enemies whose flag is clear. */
  function DeathGold(es: seq<Enemy>, flags: seq<bool>): int
    requires |flags| == |es|
  {
    if es == [] then 0 else (if flags[0] then 0 else es[0].goldReward) + DeathGold(es[1..], flags[1..])
  }

  lemma DeathGoldStep(es: seq<Enemy>, flags: seq<bool>, i: int)
    requires |flags| == |es| && 0 <= i < |es|
    ensures DeathGold(es[i..], flags[i..]) == (if flags[i] then 0 else es[i].goldReward) + DeathGold(es[i + 1..], flags[i + 1..])
  {
    assert es[i..][1..] == es[i + 1..];
    assert flags[i..][1..] == flags[i + 1..];
  }

  /** The gold of all the enemies. */
  function Bounty(es: seq<Enemy>): int
  {
    if es == [] then 0 else es[0].goldReward + Bounty(es[1..])
  }

  /** The experience of the enemies whose flag is clear. */
  function DeathExperience(es: seq<Enemy>, flags: seq<bool>): int
    requires |flags| == |es|
  {
    if es == [] then 0 else (if flags[0] then 0 else es[0].experienceReward) + DeathExperience(es[1..], flags[1..])
  }

  /** The character's progress after `gainExperience` of each enemy whose flag is clear, handed
      over from the last enemy to the first, as the backward enemy pass hands them over. */
  function DeathProgress(p: Progress, es: seq<Enemy>, flags: seq<bool>): (r: Progress)
    requires |flags| == |es| && p.level >= 1 && p.experienceToNext >= 100
    ensures r.level >= p.level && r.experienceToNext >= 100
    decreases |es|
  {
    if es == [] then p
    else
      var q := DeathProgress(p, es[1..], flags[1..]);
      if flags[0] then q else CharLevelLoop(q.(experience := q.experience + es[0].experienceReward))
  }

  lemma DeathProgressStep(p: Progress, es: seq<Enemy>, flags: seq<bool>, i: int)
    requires |flags| == |es| && 0 <= i < |es| && p.level >= 1 && p.experienceToNext >= 100
    ensures var q := DeathProgress(p, es[i + 1..], flags[i + 1..]);
            DeathProgress(p, es[i..], flags[i..]) ==
            if flags[i] then q else CharLevelLoop(q.(experience := q.experience + es[i].experienceReward))
  {
    assert es[i..][1..] == es[i + 1..];
    assert flags[i..][1..] == flags[i + 1..];
  }

  /** Levelling up on one amount and then on a second, non-negative one ends where levelling up
      on their sum does. */
  lemma {:induction false} LevelLoopAdds(p: Progress, a: int)
    requires p.level >= 1 && p.experienceToNext >= 100 && a >= 0
    ensures var q := CharLevelLoop(p);
            CharLevelLoop(q.(experience := q.experience + a)) == CharLevelLoop(p.(experience := p.experience + a))
    decreases p.experience
  {
    if p.experience >= p.experienceToNext {
      var u := LevelUpOnce(p);
      assert LevelUpOnce(p.(experience := p.experience + a)) == u.(experience := u.experience + a);
      LevelLoopAdds(u, a);
    }
  }

  /** However the rewards are handed over one by one, the character ends as if it had gained the
      experience of all the dead enemies at once. */
  lemma {:induction false} DeathProgressIsTotal(p: Progress, es: seq<Enemy>, flags: seq<bool>)
    requires |flags| == |es| && p.level >= 1 && p.experienceToNext >= 100 && p.experience < p.experienceToNext
    requires forall k :: 0 <= k < |es| ==> es[k].experienceReward >= 0
    ensures DeathProgress(p, es, flags) == CharLevelLoop(p.(experience := p.experience + DeathExperience(es, flags)))
    decreases |es|
  {
    if es != [] {
      var tail := DeathExperience(es[1..], flags[1..]);
      var q := DeathProgress(p, es[1..], flags[1..]);
      var mid := p.(experience := p.experience + tail);
      DeathProgressIsTotal(p, es[1..], flags[1..]);
      assert q == CharLevelLoop(mid);
      if flags[0] {
        assert DeathProgress(p, es, flags) == q;
        assert DeathExperience(es, flags) == tail;
      } else {
        var x := es[0].experienceReward;
        assert DeathProgress(p, es, flags) == CharLevelLoop(q.(experience := q.experience + x));
        LevelLoopAdds(mid, x);
        assert DeathExperience(es, flags) == tail + x;
        assert mid.(experience := mid.experience + x) == p.(experience := p.experience + DeathExperience(es, flags));
      }
    }
  }

  /** With no enemy alive the pass keeps none of them and pays the gold of every one. */
  lemma {:induction false} NoneAliveEmptiesThePass(es: seq<Enemy>, flags: seq<bool>)
    requires |flags| == |es| && !(true in flags)
    ensures Keep(es, flags) == [] && DeathGold(es, flags) == Bounty(es)
    decreases |es|
  {
    KeepEmpty(es, flags);
    if es != [] {
      assert flags == [flags[0]] + flags[1..];
      NoneAliveEmptiesThePass(es[1..], flags[1..]);
    }
  }

  /** The world level after n calls of `changeLevel(currentLevel + 1)`: each call moves up one
      level unless that would pass the last. */
  function Climb(level: int, n: nat): int
    decreases n
  {
    if n == 0 then level else Climb(LevelAfter(level), n - 1)
  }

  /** `changeLevel(level + 1)` on the world's level: it moves up unless that passes the last. */
  function LevelAfter(level: int): int
  {
    if 1 <= level + 1 <= MaxLevel then level + 1 else level
  }

  /** From a valid level, n completions raise the level by n, but never past 100. */
  lemma {:induction false} ClimbIsCapped(level: int, n: nat)
    requires 1 <= level <= MaxLevel
    ensures Climb(level, n) == if level + n <= MaxLevel then level + n else MaxLevel
    decreases n
  {
    if n > 0 {
      if level + 1 <= MaxLevel {
        ClimbIsCapped(level + 1, n - 1);
      } else {
        ClimbIsCapped(level, n - 1);
      }
    }
  }

  /** One more completion after n is one completion from where the n left the level. */
  lemma {:induction false} ClimbStep(level: int, n: nat)
    ensures Climb(level, n + 1) == LevelAfter(Climb(level, n))
    decreases n
  {
    if n > 0 {
      ClimbStep(LevelAfter(level), n - 1);
    }
  }

  /** The books of one removal: the dead enemy at i adds its gold, and the level climbs once
      more when no enemy is alive. */
  lemma RemovalBooks(es: seq<Enemy>, flags: seq<bool>, i: int, level0: int, p0: Progress)
    requires |flags| == |es| && 0 <= i < |es| && !flags[i] && p0.level >= 1 && p0.experienceToNext >= 100
    ensures DeathGold(es[i..], flags[i..]) == DeathGold(es[i + 1..], flags[i + 1..]) + es[i].goldReward
    ensures var q := DeathProgress(p0, es[i + 1..], flags[i + 1..]);
            DeathProgress(p0, es[i..], flags[i..]) == CharLevelLoop(q.(experience := q.experience + es[i].experienceReward))
    ensures Climb(level0, if true in flags then 0 else |es| - i) ==
            if true in flags then Climb(level0, 0) else LevelAfter(Climb(level0, |es| - i - 1))
  {
    DeathGoldStep(es, flags, i);
    DeathProgressStep(p0, es, flags, i);
    ClimbStep(level0, |es| - i - 1);
  }

  /** What a character can change when it is rewarded: its own fields, its attribute sheet, its
      skills and its inventory. */
  ghost function RewardFrame(p: Character?, skills: seq<CharSkill>): set<object>
  {
    if p == null then {} else {p, p.attributes, p.inventory} + set s | s in skills
  }

  /** Rewarding the character leaves the game and its world alone. */
  lemma OutsideRewardFrame(g: Game, p: Character?, skills: seq<CharSkill>)
    ensures g !in RewardFrame(p, skills) && g.world !in RewardFrame(p, skills)
  {
  }

  /** The player's skill objects, none without a player. */
  ghost function SkillsOf(p: Character?): seq<CharSkill>
    reads p
  {
    if p == null then [] else p.skills
  }

  /** When the flags are the enemies' own alive flags, some enemy of a partly pruned list is
      alive exactly when some flag is set. */
  lemma AliveAfterPrune(es: seq<Enemy>, flags: seq<bool>, i: int)
    requires |flags| == |es| && 0 <= i <= |es|
    requires forall k :: 0 <= k < |es| ==> es[k].isAlive == flags[k]
    ensures true in AliveFlags(es[..i] + Keep(es[i..], flags[i..])) <==> true in flags
  {
    var list := es[..i] + Keep(es[i..], flags[i..]);
    AliveFlagsAt(list);
    if true in AliveFlags(list) {
      var m :| 0 <= m < |list| && list[m].isAlive;
      LiveEntryIsFlagged(es, flags, i, m);
    }
    if true in flags {
      var m :| 0 <= m < |flags| && flags[m];
      FlaggedEntryIsKept(es, flags, i, m);
    }
  }

  /** A living enemy of a partly pruned list carries a set flag. */
  lemma LiveEntryIsFlagged(es: seq<Enemy>, flags: seq<bool>, i: int, m: int)
    requires |flags| == |es| && 0 <= i <= |es|
    requires forall k :: 0 <= k < |es| ==> es[k].isAlive == flags[k]
    requires 0 <= m < |es[..i] + Keep(es[i..], flags[i..])| && (es[..i] + Keep(es[i..], flags[i..]))[m].isAlive
    ensures true in flags
  {
    var list := es[..i] + Keep(es[i..], flags[i..]);
    if m >= i {
      KeepIsSubsequence(es[i..], flags[i..], list[m]);
      var j :| 0 <= j < |es[i..]| && es[i..][j] == list[m] && flags[i..][j];
      assert flags[i + j];
    } else {
      assert flags[m];
    }
  }

  /** When some flag is set, the partly pruned list has a living enemy. */
  lemma FlaggedEntryIsKept(es: seq<Enemy>, flags: seq<bool>, i: int, m: int)
    requires |flags| == |es| && 0 <= i <= |es|
    requires forall k :: 0 <= k < |es| ==> es[k].isAlive == flags[k]
    requires 0 <= m < |flags| && flags[m]
    ensures exists n :: 0 <= n < |es[..i] + Keep(es[i..], flags[i..])| && (es[..i] + Keep(es[i..], flags[i..]))[n].isAlive
  {
    var kept := Keep(es[i..], flags[i..]);
    var list := es[..i] + kept;
    if m < i {
      assert list[m].isAlive;
    } else {
      assert flags[i..][m - i];
      KeepEmpty(es[i..], flags[i..]);
      KeepIsSubsequence(es[i..], flags[i..], kept[0]);
      var j :| 0 <= j < |es[i..]| && es[i..][j] == kept[0] && flags[i..][j];
      assert es[i + j].isAlive;
      assert list[i].isAlive;
    }
  }

  /** The enemies carry the given alive flags and are consistent. */
  ghost predicate Marked(es: seq<Enemy>, flags: seq<bool>)
    reads es
  {
    |flags| == |es| && forall k :: 0 <= k < |es| ==> es[k].isAlive == flags[k] && Ready(es[k])
  }

  /** The player, if there is one, is consistent, has the given level and experience, holds
      the given gold and keeps the given skill objects. */
  ghost predicate PlayerAt(p: Character?, progress: Progress, gold: int, skills: seq<CharSkill>)
    reads RewardFrame(p, skills)
  {
    p != null ==> p.skills == skills && p.Valid() && p.GetProgress() == progress && p.inventory.gold == gold
  }

  /** An enemy's `update` as the game calls it, with no player: it moves, idles and lets its
      attack cooldown run down; whether it is alive does not change. */
  method TickEnemy(e: Enemy, dt: real)
    requires Ready(e)
    modifies e
    ensures Ready(e) && e.isAlive == old(e.isAlive)
    ensures e.x == Advance(old(e.x), old(e.velocityX), dt) && e.y == Advance(old(e.y), old(e.velocityY), dt)
    ensures e.state == Idle && e.attackCooldown == CooldownTick(old(e.attackCooldown), dt)
  {
    e.Update(dt, null, (a, b) => 0.0, 0.0, 0.0);
  }

  /** Updating the i-th of the enemies keeps all of them marked as before. */
  method TickAt(e: Enemy, ghost es: seq<Enemy>, ghost flags: seq<bool>, ghost i: int, dt: real)
    requires 0 <= i < |es| && es[i] == e && Distinct(es) && Marked(es, flags)
    modifies e
    ensures Marked(es, flags)
  {
    forall k | 0 <= k < |es| && k != i
      ensures es[k] != e
    {
    }
    TickEnemy(e, dt);
  }

  /** The player's share of an enemy's death: its experience, then its gold. */
  method Reward(p: Character, experience: int, gold: int)
    requires p.Valid()
    modifies RewardFrame(p, p.skills)
    ensures p.Valid() && p.level >= old(p.level) && p.skills == old(p.skills)
    ensures p.GetProgress() == CharLevelLoop(old(p.GetProgress()).(experience := old(p.experience) + experience))
    ensures p.inventory.gold == old(p.inventory.gold) + gold
    ensures p.activeEffects == old(p.activeEffects)
  {
    p.GainExperience(experience);
    var _ := p.inventory.AddGold(gold);
  }

  /** The character, as a set: empty without one. */
  function Someone(p: Character?): set<Character>
  {
    if p == null then {} else {p}
  }

  /** The player's active effects, none without a player. */
  ghost function EffectsOf(p: Character?): set<object>
    reads p
  {
    if p == null then {} else set e | e in p.activeEffects
  }

  /** The character's frame, from the state before it: it moves by its velocity and keeps its
      skills; its effects tick and exactly the expired ones are dropped, the rest keeping their
      order; its skill cooldowns run down; and while alive it regains 10 stamina a second up to
      the maximum, and 5 mana a second up to the maximum when stamina is at least half. */
  twostate predicate PlayerTicked(p: Character, dt: real)
    reads p, p.skills
  {
    p.skills == old(p.skills) &&
    p.x == Advance(old(p.x), p.velocityX, dt) && p.y == Advance(old(p.y), p.velocityY, dt) &&
    p.activeEffects == Kept(old(p.activeEffects), Ticked(old(Remaining(p.activeEffects)), dt)) &&
    (forall j :: 0 <= j < |p.skills| ==> p.skills[j].cooldown == CooldownTick(old(p.skills[j].cooldown), dt)) &&
    (!p.isAlive ==> p.stamina == old(p.stamina) && p.mana == old(p.mana)) &&
    (p.isAlive ==> p.stamina == Min(p.stats.maxStamina, old(p.stamina) + 10.0 * dt)) &&
    (p.isAlive && p.stamina >= p.stats.maxStamina * 0.5 ==> p.mana == Min(p.stats.maxMana, old(p.mana) + 5.0 * dt)) &&
    (p.stamina < p.stats.maxStamina * 0.5 ==> p.mana == old(p.mana))
  }

  /** Whether the character can interact with a level item: only exits are interactable, and
      only within 50 of the character's centre (an exit is 32 by 32, like the character). */
  predicate Reachable(p: Character, item: GameItem)
    reads p`x, p`y
  {
    item.Exit? && InReach(CentreGap(p.x, p.y, item.x as real, item.y as real), Some(50.0))
  }

  /** The character is consistent, holds the given skills and stands at (x, y). */
  ghost predicate Poised(p: Character, skills: seq<CharSkill>, x: real, y: real)
    reads p, skills
  {
    p.skills == skills && p.Valid() && p.x == x && p.y == y
  }

  /** The character's side of `useSkill`: the skill is used if `canUse` allows and its
      outcome on the target (at squared distance `gap`, if any) is returned. The character
      stays consistent, keeps its skills and does not move. */
  method Cast(p: Character, index: int, gap: Option<real>, critDraw: real) returns (used: bool, outcome: SkillOutcome)
    requires p.Valid() && 0 <= index < |p.skills|
    modifies p, SkillsOf(p), EffectsOf(p)
    ensures Poised(p, old(p.skills), old(p.x), old(p.y))
    ensures forall e :: e in p.activeEffects ==> e in old(p.activeEffects) || fresh(e)
    ensures used <==> old(p.skills[index].CanUse(p.mana, p.stamina))
    ensures !used ==> outcome == Nothing
    ensures used ==>
              outcome == old(Execute(p.skills[index].kind, p.attributes.Values(), p.stats.criticalChance,
                                     p.criticalMultiplier, gap, critDraw))
  {
    used, outcome := p.UseSkill(index, gap, critDraw);
  }

  // ===========================================================================
  // Laying out a level

  /** The exit items `placeItemsOnMap` adds for a map's exit points, in order. */
  function ExitItems(exits: seq<ExitPoint>): seq<GameItem>
  {
    seq(|exits|, k requires 0 <= k < |exits| => Exit(exits[k].x, exits[k].y, exits[k].level))
  }

  /** The spawn point `placeItemsOnMap` leaves the character on: every player spawn moves it in
      turn, so the last one wins; none when the map has no player spawn. */
  function LastPlayerSpawn(spawns: seq<SpawnPoint>): Option<SpawnPoint>
  {
    if spawns == [] then None
    else if spawns[|spawns| - 1].role == PlayerSpawn then Some(spawns[|spawns| - 1])
    else LastPlayerSpawn(spawns[..|spawns| - 1])
  }

  /** On a map whose only player spawn is the first point (as `createLevelMap` makes them), the
      character ends on that first point. */
  lemma {:induction false} OnlyFirstSpawnIsThePlayers(spawns: seq<SpawnPoint>)
    requires |spawns| >= 1 && spawns[0].role == PlayerSpawn
    requires forall k :: 1 <= k < |spawns| ==> spawns[k].role.EnemySpawn?
    ensures LastPlayerSpawn(spawns) == Some(spawns[0])
  {
    if |spawns| > 1 {
      var init := spawns[..|spawns| - 1];
      assert init[0] == spawns[0];
      OnlyFirstSpawnIsThePlayers(init);
    }
  }

  /** The enemies of a level as `generateLevel` lays them out: the level's spawned enemies, all
      distinct and consistent, then the boss at (400, 300) on a boss level. */
  ghost predicate EnemiesLaidOut(enemies: seq<Enemy>, level: int)
    requires level >= 1
    reads enemies
  {
    Distinct(enemies) && AllReady(enemies) &&
    |enemies| == EnemyCount(level) + (if IsBossLevel(level) then 1 else 0) &&
    (forall k :: 0 <= k < EnemyCount(level) ==> Spawned(enemies[k], level)) &&
    (IsBossLevel(level) ==>
      var boss := enemies[EnemyCount(level)];
      boss.isAlive && boss.level == level && boss.x == 400.0 && boss.y == 300.0)
  }

  /** The items of a level as `generateLevel` lays them out: the level's loot, then the exit to
      the next level and, past the first level, the exit back. */
  predicate ItemsLaidOut(items: seq<GameItem>, level: int)
    requires level >= 1
  {
    |items| == ItemCount(level) + (if level > 1 then 2 else 1) &&
    (forall k :: 0 <= k < ItemCount(level) ==> items[k].Drop? && Loot(items[k].item, level)) &&
    items[ItemCount(level)].Exit? && items[ItemCount(level)].level == level + 1 &&
    (level > 1 ==> items[ItemCount(level) + 1].Exit? && items[ItemCount(level) + 1].level == level - 1)
  }

  /** The enemies of `generateLevel`: the level's generated enemies, and on a boss level the
      boss after them. */
  method LevelEnemies(level: int, rs: seq<real>, i: nat) returns (es: seq<Enemy>, j: nat)
    requires level >= 1 && AreDraws(rs)
    ensures (forall k :: 0 <= k < |es| ==> fresh(es[k])) && j >= i
    ensures EnemiesLaidOut(es, level)
  {
    es, j := GenerateEnemies(level, rs, i);
    if IsBossLevel(level) {
      var boss := GenerateBoss(level);
      es := es + [boss];
    }
  }

  /** The loot of `generateLevel`: the level's generated items. */
  method LevelLoot(level: int, rs: seq<real>, i: nat) returns (loot: seq<GameItem>, j: nat)
    requires level >= 1 && AreDraws(rs)
    ensures |loot| == ItemCount(level) && j >= i
    ensures forall k :: 0 <= k < |loot| ==> loot[k].Drop? && Loot(loot[k].item, level)
  {
    var found;
    found, j := GenerateItems(level, rs, i);
    loot := seq(|found|, k requires 0 <= k < |found| => Drop(found[k]));
  }

  /** The loot followed by the exits of a level's map is the level's item layout. */
  lemma LootThenExits(loot: seq<GameItem>, exits: seq<ExitPoint>, level: int)
    requires level >= 1 && |loot| == ItemCount(level)
    requires forall k :: 0 <= k < |loot| ==> loot[k].Drop? && Loot(loot[k].item, level)
    requires |exits| == (if level > 1 then 2 else 1) && exits[0].level == level + 1
    requires level > 1 ==> exits[1].level == level - 1
    ensures ItemsLaidOut(loot + ExitItems(exits), level)
  {
    var items := loot + ExitItems(exits);
    assert items[ItemCount(level)] == Exit(exits[0].x, exits[0].y, exits[0].level);
  }

  /** What `generateLevel` asks the world for: a new map, the level's enemies with the boss
      appended on a boss level, and the level's loot, drawing from rs in that order from
      position i on. The map's exits follow the loot as `placeItemsOnMap` adds them, and its
      only player spawn is the first spawn point. */
  method LevelContents(level: int, rs: seq<real>, i: nat) returns (m: LevelMap, es: seq<Enemy>, loot: seq<GameItem>, j: nat)
    requires level >= 1 && AreDraws(rs)
    ensures fresh(m) && (forall k :: 0 <= k < |es| ==> fresh(es[k])) && j >= i
    ensures EnemiesLaidOut(es, level) && ItemsLaidOut(loot + ExitItems(m.exitPoints), level)
    ensures LastPlayerSpawn(m.spawnPoints) == Some(SpawnPoint(25 + level, 25 + level, PlayerSpawn, level))
  {
    m, j := CreateLevelMap(level, rs, i);
    OnlyFirstSpawnIsThePlayers(m.spawnPoints);
    es, j := LevelEnemies(level, rs, j);
    loot, j := LevelLoot(level, rs, j);
    LootThenExits(loot, m.exitPoints, level);
  }

  // ===========================================================================
  // Collisions

  /** The 32 by 32 box of a character or an enemy with its corner at (x, y). */
  function BoxAt(x: real, y: real): Body
  {
    Body(x, y, BoxSize, BoxSize)
  }

  /** An enemy that strikes the character standing at (px, py) in `checkCollisions`: it is
      alive, its box overlaps the character's, and its attack is off cooldown. */
  predicate Strikes(px: real, py: real, e: Enemy)
    reads e`isAlive, e`x, e`y, e`attackCooldown
  {
    e.isAlive && CollidesWith(BoxAt(px, py), BoxAt(e.x, e.y)) && e.attackCooldown <= 0.0
  }

  /** Which enemies strike the character standing at (px, py), by position. */
  ghost function StrikeFlags(px: real, py: real, es: seq<Enemy>): seq<bool>
    reads es
  {
    seq(|es|, k requires 0 <= k < |es| reads es => Strikes(px, py, es[k]))
  }

  /** The damage each enemy rolls with its draw, by position. */
  ghost function Rolls(es: seq<Enemy>, rs: seq<real>): seq<real>
    requires AreDraws(rs)
    reads es
  {
    seq(|es|, k requires 0 <= k < |es| reads es => es[k].CalculateDamage(Draw(rs, k)))
  }

  /** One blow through the character's `takeDamage`, on its health and alive flag: a dead
      character takes nothing; otherwise the physical damage is mitigated and taken, and at 0
      the character dies. */
  function Absorb(s: (real, bool), blow: real, defense: real, magicDefense: real): (real, bool)
  {
    if !s.1 then s
    else
      var h := s.0 - Mitigated(blow, Physical, defense, magicDefense);
      if h > 0.0 then (h, true) else (0.0, false)
  }

  /** The blows in order, through `takeDamage` one after another. */
  function AbsorbAll(s: (real, bool), blows: seq<real>, defense: real, magicDefense: real): (real, bool)
  {
    if blows == [] then s
    else Absorb(AbsorbAll(s, blows[..|blows| - 1], defense, magicDefense), blows[|blows| - 1], defense, magicDefense)
  }

  /** The damage the blows would deal after mitigation, all together. */
  function Suffered(blows: seq<real>, defense: real, magicDefense: real): real
  {
    if blows == [] then 0.0
    else Suffered(blows[..|blows| - 1], defense, magicDefense) + Mitigated(blows[|blows| - 1], Physical, defense, magicDefense)
  }

  /** A run of blows on a living character (whose health is above 0) subtracts their total
      mitigated damage: the character survives exactly when that leaves health above 0, and
      otherwise ends dead at 0 health. A dead character is left as it is. */
  lemma {:induction false} AbsorbAllIsTotal(s: (real, bool), blows: seq<real>, defense: real, magicDefense: real)
    requires s.1 ==> s.0 > 0.0
    ensures AbsorbAll(s, blows, defense, magicDefense).1 <==> s.1 && s.0 - Suffered(blows, defense, magicDefense) > 0.0
    ensures AbsorbAll(s, blows, defense, magicDefense).1 ==> AbsorbAll(s, blows, defense, magicDefense).0 == s.0 - Suffered(blows, defense, magicDefense)
    ensures s.1 && !AbsorbAll(s, blows, defense, magicDefense).1 ==> AbsorbAll(s, blows, defense, magicDefense).0 == 0.0
    ensures !s.1 ==> AbsorbAll(s, blows, defense, magicDefense) == s
  {
    if blows != [] {
      var init := blows[..|blows| - 1];
      AbsorbAllIsTotal(s, init, defense, magicDefense);
      var before := AbsorbAll(s, init, defense, magicDefense);
      var m := Mitigated(blows[|blows| - 1], Physical, defense, magicDefense);
      assert AbsorbAll(s, blows, defense, magicDefense) == Absorb(before, blows[|blows| - 1], defense, magicDefense);
      assert Suffered(blows, defense, magicDefense) == Suffered(init, defense, magicDefense) + m && m >= 1.0;
    }
  }

  /** Blows never heal: the total mitigated damage of a run of blows is at least one per blow. */
  lemma {:induction false} SufferedIsAtLeastTheBlows(blows: seq<real>, defense: real, magicDefense: real)
    ensures Suffered(blows, defense, magicDefense) >= |blows| as real
  {
    if blows != [] {
      SufferedIsAtLeastTheBlows(blows[..|blows| - 1], defense, magicDefense);
    }
  }

  /** The first position of an item in a list, -1 when it is absent (`indexOf`). */
  method IndexOf(items: seq<GameItem>, item: GameItem) returns (index: int)
    ensures -1 <= index < |items|
    ensures index == -1 <==> item !in items
    ensures index != -1 ==> items[index] == item && item !in items[..index]
  {
    index := 0;
    while index < |items|
      invariant 0 <= index <= |items| && item !in items[..index]
    {
      if items[index] == item {
        return;
      }
      index := index + 1;
      assert items[..index] == items[..index - 1] + [items[index - 1]];
    }
    assert items[..index] == items;
    index := -1;
  }

  // ===========================================================================
  // A frame's inputs

  /** The keys `handleInput` reads for the four skills, in order. */
  const SkillKeys: seq<string> := ["Digit1", "Digit2", "Digit3", "Digit4"]

  /** The random draws one frame of `update` consumes: the world's weather and event draws, the
      weather draws of level changes in the enemy pass, the critical-hit draw of each skill key,
      and each enemy's damage roll in the collision pass. */
  datatype FrameDraws = FrameDraws(weather: real, event: real, eventWeather: real, levelUps: seq<real>,
                                   crits: seq<real>, blows: seq<real>)

  /** Every draw of a frame lies in [0, 1). */
  predicate DrawsOk(d: FrameDraws)
  {
    IsDraw(d.weather) && IsDraw(d.event) && IsDraw(d.eventWeather) && AreDraws(d.levelUps) &&
    AreDraws(d.crits) && AreDraws(d.blows)
  }

  /** Whether a skill key is held. */
  predicate SkillKeyHeld(keys: set<string>)
  {
    exists n :: 0 <= n < |SkillKeys| && SkillKeys[n] in keys
  }

  /** Whether the level has an exit, the one interactable kind of item. */
  predicate HasExit(items: seq<GameItem>)
  {
    exists k :: 0 <= k < |items| && items[k].Exit?
  }

  // ===========================================================================
  // The game

  /** `Game`: the running flag and state, the frame clock, the player, the enemies, the items and
      particles on the level, and the world. `menuOpen` is the interface's `isMenuOpen`, the one
      part of the interface that changes the game. */
  class Game {
    var isRunning: bool
    var lastTime: real
    var deltaTime: real
    var gameState: GameState
    var menuOpen: bool
    var player: Character?
    var enemies: seq<Enemy>
    var items: seq<GameItem>
    var particles: seq<Particle>
    const world: GameWorld

    constructor ()
      ensures !isRunning && lastTime == 0.0 && deltaTime == 0.0 && gameState == Menu && !menuOpen
      ensures player == null && enemies == [] && items == [] && particles == []
      ensures fresh(world) && world.currentLevel == 1 && world.TimersValid()
      ensures Consistent()
    {
      isRunning, lastTime, deltaTime, gameState, menuOpen := false, 0.0, 0.0, Menu, false;
      player, enemies, items, particles := null, [], [], [];
      world := new GameWorld();
    }

    /** The particle pass of `update`: every particle updates, from the last to the first, and
        those no longer alive are spliced out; the rest keep their order. A particle survives
        exactly when its life outlasts the frame. */
    method UpdateParticles(dt: real) returns (ghost survivors: seq<bool>)
      requires Distinct(particles)
      modifies this`particles, particles
      ensures |survivors| == |old(particles)| &&
              forall k :: 0 <= k < |survivors| ==> survivors[k] == (old(particles[k].life) - dt > 0.0)
      ensures particles == Keep(old(particles), survivors) && Distinct(particles)
      ensures forall k :: 0 <= k < |old(particles)| ==> old(particles)[k].life == old(particles[k].life) - dt
    {
      ghost var ps := particles;
      ghost var lives := seq(|ps|, k requires 0 <= k < |ps| reads ps => ps[k].life);
      survivors := seq(|ps|, k requires 0 <= k < |ps| => lives[k] - dt > 0.0);
      var list := particles;
      ParticlesStart(ps, lives, survivors, list, dt);
      var i := |list|;
      while i > 0
        invariant Pruned(i, ps, lives, survivors, list, dt)
      {
        i := i - 1;
        list := ParticleStep(i, list, ps, lives, survivors, dt);
      }
      ParticlesEnd(ps, lives, survivors, list, dt);
      particles := list;
    }

    /** `enemies.filter(enemy => enemy.isAlive)`: the living enemies, in order. */
    method LivingEnemies() returns (alive: seq<Enemy>)
      ensures alive == Keep(enemies, AliveFlags(enemies))
    {
      ghost var flags := AliveFlags(enemies);
      AliveFlagsAt(enemies);
      alive := [];
      for k := 0 to |enemies|
        invariant alive == Keep(enemies[..k], flags[..k])
      {
        KeepSnoc(enemies, flags, k);
        if enemies[k].isAlive {
          alive := alive + [enemies[k]];
        }
      }
      assert enemies[..|enemies|] == enemies && flags[..|flags|] == flags;
    }

    /** `checkLevelCompletion` with `onLevelComplete`: when no enemy is left alive the world
        moves on to the next level, if there is one; r is the weather draw a region change uses. */
    method CheckLevelCompletion(r: real)
      requires IsDraw(r)
      modifies world`currentLevel, world`currentRegion, world`weather
      ensures world.currentLevel == if true in AliveFlags(enemies) then old(world.currentLevel)
                                    else LevelAfter(old(world.currentLevel))
    {
      var alive := LivingEnemies();
      KeepEmpty(enemies, AliveFlags(enemies));
      if |alive| == 0 {
        var _ := world.ChangeLevel(world.currentLevel + 1, r);
      }
    }

    /** `onEnemyDeath`: the player, when there is one, gains the enemy's experience and gold,
        staying consistent and keeping its skill objects; then the level is checked for
        completion. No enemy of es is touched. */
    method OnEnemyDeath(e: Enemy, r: real, ghost es: seq<Enemy>, ghost progress: Progress, ghost gold: int,
                        ghost skills: seq<CharSkill>, ghost anyAlive: bool)
      requires PlayerAt(player, progress, gold, skills) && IsDraw(r) && anyAlive == (true in AliveFlags(enemies))
      requires progress.level >= 1 && progress.experienceToNext >= 100
      modifies RewardFrame(player, skills), world`currentLevel, world`currentRegion, world`weather
      ensures PlayerAt(player, CharLevelLoop(progress.(experience := progress.experience + e.experienceReward)),
                       gold + e.goldReward, skills)
      ensures player != null ==>
                player.GetProgress() == CharLevelLoop(old(player.GetProgress()).(experience := old(player.experience) + e.experienceReward))
      ensures player != null ==> player.activeEffects == old(player.activeEffects)
      ensures world.currentLevel == if anyAlive then old(world.currentLevel) else LevelAfter(old(world.currentLevel))
      ensures unchanged(es)
    {
      var p := player;
      ghost var frame := RewardFrame(p, skills);
      OutsideRewardFrame(this, p, skills);
      assert forall k :: 0 <= k < |enemies| ==> enemies[k] !in frame;
      assert forall k :: 0 <= k < |es| ==> es[k] !in frame;
      if p != null {
        Reward(p, e.experienceReward, e.goldReward);
      }
      ghost var total := if p != null then p.inventory.gold else 0;
      CheckLevelCompletion(r);
      assert p != null ==> p.inventory.gold == total;
    }

    /** The splice of `enemies.splice(i, 1)` for a dead enemy at i: the pruned suffix grows by
        one entry, and an enemy is left alive exactly when some flag is set. */
    method SpliceOut(i: int, ghost es: seq<Enemy>, ghost flags: seq<bool>)
      requires 0 <= i < |es| && Marked(es, flags) && !flags[i]
      requires enemies == es[..i + 1] + Keep(es[i + 1..], flags[i + 1..])
      modifies this`enemies
      ensures enemies == es[..i] + Keep(es[i..], flags[i..]) && old(enemies)[i] == es[i]
      ensures true in AliveFlags(enemies) <==> true in flags
    {
      PruneStep(es, flags, i, enemies);
      enemies := enemies[..i] + enemies[i + 1..];
      AliveAfterPrune(es, flags, i);
    }

    /** The removal of a dead enemy at i in the enemy pass: it is spliced out and handed to
        `onEnemyDeath`. */
    method RemoveDead(i: int, r: real, ghost es: seq<Enemy>, ghost flags: seq<bool>, ghost level0: int,
                      ghost p0: Progress, ghost gold0: int, ghost skills: seq<CharSkill>)
      requires IsDraw(r) && 0 <= i < |es| && Marked(es, flags) && !flags[i]
      requires enemies == es[..i + 1] + Keep(es[i + 1..], flags[i + 1..])
      requires p0.level >= 1 && p0.experienceToNext >= 100
      requires PlayerAt(player, DeathProgress(p0, es[i + 1..], flags[i + 1..]), gold0 + DeathGold(es[i + 1..], flags[i + 1..]), skills)
      requires world.currentLevel == Climb(level0, if true in flags then 0 else |es| - i - 1)
      modifies this`enemies, RewardFrame(player, skills), world`currentLevel, world`currentRegion, world`weather
      ensures Marked(es, flags) && enemies == es[..i] + Keep(es[i..], flags[i..])
      ensures PlayerAt(player, DeathProgress(p0, es[i..], flags[i..]), gold0 + DeathGold(es[i..], flags[i..]), skills)
      ensures player != null ==> player.activeEffects == old(player.activeEffects)
      ensures world.currentLevel == Climb(level0, if true in flags then 0 else |es| - i)
    {
      var e := enemies[i];
      assert e == es[i];
      ghost var progress, gold := DeathProgress(p0, es[i + 1..], flags[i + 1..]), gold0 + DeathGold(es[i + 1..], flags[i + 1..]);
      RemovalBooks(es, flags, i, level0, p0);
      ghost var progress', gold' := DeathProgress(p0, es[i..], flags[i..]), gold0 + DeathGold(es[i..], flags[i..]);
      assert progress' == CharLevelLoop(progress.(experience := progress.experience + e.experienceReward));
      assert gold' == gold + e.goldReward;
      SpliceOut(i, es, flags);
      assert Marked(es, flags);
      OutsideRewardFrame(this, player, skills);
      ghost var kept := enemies;
      OnEnemyDeath(e, r, es, progress, gold, skills, true in flags);
      assert enemies == kept;
      assert PlayerAt(player, progress', gold', skills);
    }

    /** The enemy pass after the enemies from i on have been handled: the first i enemies
        wait, the rest have been pruned to the living, the player holds the gold of the dead ones
        handled so far, and every removal with no enemy left alive has completed the level. */
    ghost predicate PassAt(i: int, es: seq<Enemy>, flags: seq<bool>, level0: int, p0: Progress, gold0: int, skills: seq<CharSkill>)
      reads this, es, world, RewardFrame(player, skills)
    {
      0 <= i <= |es| && Marked(es, flags) && enemies == es[..i] + Keep(es[i..], flags[i..]) &&
      p0.level >= 1 && p0.experienceToNext >= 100 &&
      PlayerAt(player, DeathProgress(p0, es[i..], flags[i..]), gold0 + DeathGold(es[i..], flags[i..]), skills) &&
      world.currentLevel == Climb(level0, if true in flags then 0 else |es| - i)
    }

    /** One step of the enemy pass: the enemy at i updates, and is removed if dead. */
    method EnemyStep(i: int, dt: real, r: real, ghost es: seq<Enemy>, ghost flags: seq<bool>, ghost level0: int,
                     ghost p0: Progress, ghost gold0: int, ghost skills: seq<CharSkill>, ghost frame: set<object>)
      requires IsDraw(r) && 0 <= i < |es| && Distinct(es) && frame == RewardFrame(player, skills)
      requires PassAt(i + 1, es, flags, level0, p0, gold0, skills)
      modifies this`enemies, es[i], frame, world`currentLevel, world`currentRegion, world`weather
      ensures PassAt(i, es, flags, level0, p0, gold0, skills)
      ensures player != null ==> player.activeEffects == old(player.activeEffects)
    {
      var e := enemies[i];
      PruneStep(es, flags, i, enemies);
      assert e == es[i];
      TickAt(e, es, flags, i, dt);
      if !e.isAlive {
        RemoveDead(i, r, es, flags, level0, p0, gold0, skills);
      } else {
        DeathGoldStep(es, flags, i);
        DeathProgressStep(p0, es, flags, i);
      }
    }

    /** The enemy pass of `update`: from the last enemy to the first, each enemy updates (with
        no player: the nearest-player search finds none, so every enemy idles and patrols), and a
        dead one is spliced out and handed to `onEnemyDeath`. The living enemies stay, in order;
        the player collects the gold of the dead; and when no enemy is alive, each removal
        completes the level again. rs holds the weather draws of those level changes. */
    method UpdateEnemies(dt: real, rs: seq<real>)
      requires AreDraws(rs) && AllReady(enemies) && Distinct(enemies)
      requires player != null ==> player.Valid()
      modifies this`enemies, enemies, RewardFrame(player, SkillsOf(player)), world`currentLevel, world`currentRegion, world`weather
      ensures enemies == Keep(old(enemies), old(AliveFlags(enemies))) && AllReady(enemies)
      ensures player != null ==>
                (player.Valid() && player.level >= old(player.level) &&
                 player.GetProgress() == DeathProgress(old(player.GetProgress()), old(enemies), old(AliveFlags(enemies))) &&
                 player.inventory.gold == old(player.inventory.gold) + DeathGold(old(enemies), old(AliveFlags(enemies))))
      ensures world.currentLevel == Climb(old(world.currentLevel), if true in old(AliveFlags(enemies)) then 0 else |old(enemies)|)
      ensures player != null ==> player.activeEffects == old(player.activeEffects) && player.skills == old(player.skills)
    {
      ghost var es, flags := enemies, AliveFlags(enemies);
      ghost var level0, skills := world.currentLevel, SkillsOf(player);
      ghost var p0 := if player != null then player.GetProgress() else Progress(1, 0, 100);
      ghost var gold0 := if player != null then player.inventory.gold else 0;
      ghost var frame := RewardFrame(player, skills);
      assert this !in frame && world !in frame;
      PassStarts(es, flags, level0, p0, gold0, skills);
      var i := |enemies|;
      while i > 0
        invariant PassAt(i, es, flags, level0, p0, gold0, skills) && frame == RewardFrame(player, skills)
        invariant player != null ==> player.activeEffects == old(player.activeEffects)
      {
        i := i - 1;
        EnemyStep(i, dt, Draw(rs, i), es, flags, level0, p0, gold0, skills, frame);
      }
      PassEnds(es, flags, level0, p0, gold0, skills);
    }

    /** The enemy pass over enemies none of which is alive, as `createEnemy` and `createBoss`
        leave them: every enemy is spliced out, the character collects the gold of all of them,
        and the world climbs one level per enemy (never past the last). */
    method PassWithNoneAlive(dt: real, rs: seq<real>)
      requires AreDraws(rs) && AllReady(enemies) && Distinct(enemies)
      requires player != null ==> player.Valid()
      requires forall k :: 0 <= k < |enemies| ==> !enemies[k].isAlive
      modifies this`enemies, enemies, RewardFrame(player, SkillsOf(player)), world`currentLevel, world`currentRegion, world`weather
      ensures enemies == []
      ensures player != null ==> player.inventory.gold == old(player.inventory.gold) + Bounty(old(enemies))
      ensures player != null ==> player.GetProgress() == DeathProgress(old(player.GetProgress()), old(enemies), old(AliveFlags(enemies)))
      ensures world.currentLevel == Climb(old(world.currentLevel), |old(enemies)|)
      ensures 1 <= old(world.currentLevel) <= MaxLevel ==>
                world.currentLevel == if old(world.currentLevel) + |old(enemies)| <= MaxLevel then old(world.currentLevel) + |old(enemies)| else MaxLevel
    {
      ghost var es, flags := enemies, AliveFlags(enemies);
      AliveFlagsAt(es);
      assert !(true in flags);
      NoneAliveEmptiesThePass(es, flags);
      ghost var level0 := world.currentLevel;
      UpdateEnemies(dt, rs);
      if 1 <= level0 <= MaxLevel {
        ClimbIsCapped(level0, |es|);
      }
    }

    lemma PassStarts(es: seq<Enemy>, flags: seq<bool>, level0: int, p0: Progress, gold0: int, skills: seq<CharSkill>)
      requires es == enemies && AllReady(es) && flags == AliveFlags(es) && level0 == world.currentLevel
      requires p0.level >= 1 && p0.experienceToNext >= 100
      requires player != null ==> player.Valid() && p0 == player.GetProgress() && gold0 == player.inventory.gold
      requires skills == SkillsOf(player)
      ensures PassAt(|es|, es, flags, level0, p0, gold0, skills)
    {
      assert es[|es|..] == [] && flags[|flags|..] == [] && es[..|es|] == es;
      AliveFlagsAt(es);
    }

    lemma PassEnds(es: seq<Enemy>, flags: seq<bool>, level0: int, p0: Progress, gold0: int, skills: seq<CharSkill>)
      requires PassAt(0, es, flags, level0, p0, gold0, skills)
      ensures enemies == Keep(es, flags) && AllReady(enemies)
      ensures player != null ==> player.Valid() && player.GetProgress() == DeathProgress(p0, es, flags)
      ensures player != null ==> player.inventory.gold == gold0 + DeathGold(es, flags)
      ensures player != null ==> player.skills == skills
      ensures world.currentLevel == Climb(level0, if true in flags then 0 else |es|)
    {
      assert es[0..] == es && flags[0..] == flags && es[..0] == [];
      forall k | 0 <= k < |enemies|
        ensures Ready(enemies[k])
      {
        KeepIsSubsequence(es, flags, enemies[k]);
      }
    }

    // -------------------------------------------------------------------------
    // Running and pausing

    /** `start`: a game not yet running starts, in play, and runs its first frame at once with
        `gameLoop()`, whose time defaults to 0 (Escape held in that frame opens the menu and
        pauses it again); a running game is left alone. `scheduled` says whether that frame
        asked for the next. */
    method Start(keys: set<string>, d: FrameDraws) returns (scheduled: bool)
      requires Consistent() && DrawsOk(d)
      modifies this`isRunning, this`gameState, this`deltaTime, this`lastTime,
               world`timeOfDay, world`weatherTimer, world`eventTimer, world`weather, world`currentLevel, world`currentRegion,
               player, SkillsOf(player), EffectsOf(player), RewardFrame(player, SkillsOf(player)),
               enemies, particles, this`enemies, this`particles, this`menuOpen
      ensures Consistent() && items == old(items)
      ensures isRunning
      ensures old(isRunning) ==> gameState == old(gameState)
      ensures !old(isRunning) ==> Escaped(keys, player != null && scheduled, Playing, old(menuOpen), gameState, menuOpen)
      ensures old(isRunning) ==> !scheduled && unchanged(this, world)
      ensures !old(isRunning) ==>
                deltaTime == FrameDelta(0.0, old(lastTime)) && lastTime == 0.0 &&
                world.timeOfDay == ClockAsWritten(old(world.timeOfDay), deltaTime)
      ensures !old(isRunning) && !scheduled ==> player != null && (SkillKeyHeld(keys) || ("KeyE" in keys && HasExit(items)))
      ensures !old(isRunning) && player != null && !SkillKeyHeld(keys) ==>
                (scheduled <==> !("KeyE" in keys && HasExit(items)))
    {
      if isRunning {
        return false;
      }
      isRunning, gameState := true, Playing;
      scheduled := GameLoop(0.0, keys, d);
    }

    /** `stop`. */
    method Stop()
      modifies this`isRunning, this`gameState
      ensures !isRunning && gameState == Paused
    {
      isRunning, gameState := false, Paused;
    }

    /** `pause`. */
    method Pause()
      modifies this`gameState
      ensures gameState == PauseOf(old(gameState))
    {
      if gameState == Playing {
        gameState := Paused;
      }
    }

    /** `resume`. */
    method Resume()
      modifies this`gameState
      ensures gameState == ResumeOf(old(gameState))
    {
      if gameState == Paused {
        gameState := Playing;
      }
    }

    /** `gameOver` (the game-over screen is only logged). */
    method GameOver()
      modifies this`gameState
      ensures gameState == GameState.GameOver
    {
      gameState := GameState.GameOver;
    }

    /** `toggleMenu`, through the interface's: the menu opens or closes; opening it pauses the
        game, closing it resumes it. */
    method ToggleMenu()
      modifies this`menuOpen, this`gameState
      ensures menuOpen == !old(menuOpen)
      ensures menuOpen ==> gameState == PauseOf(old(gameState))
      ensures !menuOpen ==> gameState == ResumeOf(old(gameState))
    {
      menuOpen := !menuOpen;
      if menuOpen {
        Pause();
      } else {
        Resume();
      }
    }

    // -------------------------------------------------------------------------
    // Targets and attacks

    /** `findNearestEnemy`: the living enemy whose centre is nearest to the character's, the
        first of them on a tie; none when no enemy is alive. The index is where it stands. */
    method FindNearestEnemy() returns (nearest: Enemy?, index: int)
      requires player != null
      ensures -1 <= index < |enemies| && nearest == (if index == -1 then null else enemies[index])
      ensures index == -1 <==> forall k :: 0 <= k < |enemies| ==> !enemies[k].isAlive
      ensures index != -1 ==>
                enemies[index].isAlive &&
                (forall k :: 0 <= k < |enemies| && enemies[k].isAlive ==> Gap(player, enemies[index]) <= Gap(player, enemies[k])) &&
                (forall k :: 0 <= k < index && enemies[k].isAlive ==> Gap(player, enemies[index]) < Gap(player, enemies[k]))
    {
      nearest, index := null, -1;
      var best := 0.0;
      for k := 0 to |enemies|
        invariant -1 <= index < k && nearest == (if index == -1 then null else enemies[index])
        invariant index == -1 ==> forall j :: 0 <= j < k ==> !enemies[j].isAlive
        invariant index != -1 ==>
                    enemies[index].isAlive && best == Gap(player, enemies[index]) &&
                    (forall j :: 0 <= j < k && enemies[j].isAlive ==> best <= Gap(player, enemies[j])) &&
                    (forall j :: 0 <= j < index && enemies[j].isAlive ==> best < Gap(player, enemies[j]))
      {
        var e := enemies[k];
        if e.isAlive {
          var d := Gap(player, e);
          if index == -1 || d < best {
            nearest, index, best := e, k, d;
          }
        }
      }
    }

    /** A hit on one of the enemies through its `takeDamage`: the others are untouched, all stay
        consistent, and the target does not move. */
    method Strike(target: Enemy, damage: real, damageType: DamageType) returns (dealt: real)
      requires target in enemies && AllReady(enemies)
      modifies target
      ensures AllReady(enemies) && target.x == old(target.x) && target.y == old(target.y)
      ensures dealt == if old(target.isAlive) then EnemyMitigated(damage, damageType, target.defense) else 0.0
      ensures Wounded(old(target.VitalsOf()), target.VitalsOf(), dealt, target.maxHealth)
    {
      dealt := target.TakeDamage(damage, damageType);
    }

    /** `createDamageNumber` over a target whose box has its corner at (x, y): a new particle at
        the box's top centre joins the particles. */
    method CreateDamageNumber(x: real, y: real)
      requires Distinct(particles)
      modifies this`particles
      ensures |particles| == |old(particles)| + 1 && particles[..|old(particles)|] == old(particles)
      ensures var q := particles[|old(particles)|];
              fresh(q) && q.x == x + BoxSize / 2.0 && q.y == y && q.life == 1.0 && q.isAlive
      ensures Distinct(particles)
    {
      var q := new Particle(x + BoxSize / 2.0, y);
      particles := particles + [q];
    }

    /** `playerAttack` as written: the range test reads the character's `attackRange`, which
        characters do not have, so the comparison is with `undefined` and no attack ever lands. */
    method PlayerAttackAsWritten() returns (landed: bool)
      ensures !landed
    {
      if player == null {
        return false;
      }
      var target, _ := FindNearestEnemy();
      landed := target != null && InReach(Gap(player, target), CharacterAttackRange);
    }

    /** `playerAttack` with the character given an attack range: the nearest living enemy, when
        its centre is within the range, takes the character's attack as physical damage, and a
        damage number rises over it. Otherwise nothing changes. */
    method PlayerAttack(attackRange: real) returns (target: Enemy?, landed: bool, dealt: real)
      requires AllReady(enemies) && Distinct(particles)
      modifies enemies, this`particles
      ensures AllReady(enemies) && Distinct(particles)
      ensures player == null ==> target == null
      ensures player != null ==> (target == null <==> forall k :: 0 <= k < |enemies| ==> !old(enemies[k].isAlive))
      ensures target != null ==>
                player != null && target in enemies && old(target.isAlive) &&
                forall k :: 0 <= k < |enemies| && old(enemies[k].isAlive) ==> Gap(player, target) <= Gap(player, enemies[k])
      ensures landed <==> target != null && InReach(Gap(player, target), Some(attackRange))
      ensures landed ==>
                dealt == EnemyMitigated(player.stats.attack, Physical, target.defense) &&
                Wounded(old(target.VitalsOf()), target.VitalsOf(), dealt, target.maxHealth) &&
                |particles| == |old(particles)| + 1 && particles[..|old(particles)|] == old(particles) &&
                particles[|old(particles)|].x == target.x + BoxSize / 2.0 && particles[|old(particles)|].y == target.y
      ensures !landed ==> particles == old(particles) && unchanged(enemies)
    {
      target, landed, dealt := null, false, 0.0;
      if player == null {
        return;
      }
      var index;
      target, index := FindNearestEnemy();
      if target != null && InReach(Gap(player, target), Some(attackRange)) {
        var damage := player.stats.attack;
        dealt := Strike(target, damage, Physical);
        CreateDamageNumber(target.x, target.y);
        landed := true;
      }
    }

    // -------------------------------------------------------------------------
    // Skills, movement and interaction

    /** `useSkill`: with a character holding a skill at the index, the nearest living enemy is
        the target and the skill is used on it if `canUse` allows; damage in the outcome goes
        to the target through its `takeDamage`. Shield Bash's stun and Heal on an enemy call
        methods enemies lack; `faulted` reports the error that ends the frame there. */
    method UseSkill(index: int, critDraw: real)
      returns (used: bool, outcome: SkillOutcome, target: Enemy?, dealt: real, faulted: bool)
      requires player != null ==> player.Valid()
      requires AllReady(enemies)
      modifies player, SkillsOf(player), EffectsOf(player), enemies
      ensures AllReady(enemies)
      ensures player != null ==> Poised(player, old(player.skills), old(player.x), old(player.y))
      ensures player != null ==> forall e :: e in player.activeEffects ==> e in old(player.activeEffects) || fresh(e)
      ensures used <==> player != null && 0 <= index < |player.skills| &&
                        old(player.skills[index].CanUse(player.mana, player.stamina))
      ensures !used ==> outcome == Nothing
      ensures player == null || !(0 <= index < |player.skills|) ==> target == null
      ensures player != null && 0 <= index < |player.skills| ==>
                (target == null <==> forall k :: 0 <= k < |enemies| ==> !old(enemies[k].isAlive))
      ensures target != null ==>
                player != null && target in enemies &&
                old(target.isAlive && forall k :: 0 <= k < |enemies| && enemies[k].isAlive ==> Gap(player, target) <= Gap(player, enemies[k]))
      ensures used ==>
                outcome == old(Execute(player.skills[index].kind, player.attributes.Values(), player.stats.criticalChance,
                                       player.criticalMultiplier, if target == null then None else Some(Gap(player, target)), critDraw))
      ensures outcome.Damage? || outcome.DamageThenFault? ==>
                target != null && Wounded(old(target.VitalsOf()), target.VitalsOf(), dealt, target.maxHealth)
      ensures outcome.Damage? ==> target != null && dealt == EnemyMitigated(outcome.amount, outcome.damageType, target.defense)
      ensures outcome.DamageThenFault? ==> target != null && dealt == EnemyMitigated(outcome.amount, Physical, target.defense)
      ensures faulted <==> outcome.DamageThenFault? || outcome.HealFault?
    {
      used, outcome, target, dealt, faulted := false, Nothing, null, 0.0, false;
      var p := player;
      if p == null || !(0 <= index < |p.skills|) {
        return;
      }
      var at;
      target, at := FindNearestEnemy();
      used, outcome, dealt, faulted := CastOn(p, index, target, critDraw);
    }

    /** The rest of `useSkill` once the target is found: the character uses the skill on it
        and the outcome lands. */
    method CastOn(p: Character, index: int, target: Enemy?, critDraw: real)
      returns (used: bool, outcome: SkillOutcome, dealt: real, faulted: bool)
      requires p.Valid() && 0 <= index < |p.skills| && AllReady(enemies)
      requires target != null ==> target in enemies && target.isAlive
      modifies p, SkillsOf(p), EffectsOf(p), if target != null then {target} else {}
      ensures AllReady(enemies)
      ensures Poised(p, old(p.skills), old(p.x), old(p.y))
      ensures forall e :: e in p.activeEffects ==> e in old(p.activeEffects) || fresh(e)
      ensures target != null ==> target.x == old(target.x) && target.y == old(target.y)
      ensures used <==> old(p.skills[index].CanUse(p.mana, p.stamina))
      ensures !used ==> outcome == Nothing
      ensures used ==>
                outcome == old(Execute(p.skills[index].kind, p.attributes.Values(), p.stats.criticalChance,
                                       p.criticalMultiplier, if target == null then None else Some(Gap(p, target)), critDraw))
      ensures outcome.Damage? || outcome.DamageThenFault? ==>
                target != null && Wounded(old(target.VitalsOf()), target.VitalsOf(), dealt, target.maxHealth)
      ensures outcome.Damage? ==> target != null && dealt == EnemyMitigated(outcome.amount, outcome.damageType, target.defense)
      ensures outcome.DamageThenFault? ==> target != null && dealt == EnemyMitigated(outcome.amount, Physical, target.defense)
      ensures faulted <==> outcome.DamageThenFault? || outcome.HealFault?
    {
      var gap := if target == null then None else Some(Gap(p, target));
      used, outcome := Cast(p, index, gap, critDraw);
      dealt, faulted := Land(target, outcome);
    }

    /** What the game does with a skill's outcome on its target: damage goes through the
        target's `takeDamage` (Shield Bash's stun then raises), and Heal on an enemy raises. */
    method Land(target: Enemy?, outcome: SkillOutcome) returns (dealt: real, faulted: bool)
      requires AllReady(enemies)
      requires outcome.Damage? || outcome.DamageThenFault? ==> target != null && target in enemies && target.isAlive
      modifies if target != null then {target} else {}
      ensures AllReady(enemies)
      ensures target != null ==> target.x == old(target.x) && target.y == old(target.y)
      ensures outcome.Damage? || outcome.DamageThenFault? ==>
                Wounded(old(target.VitalsOf()), target.VitalsOf(), dealt, target.maxHealth)
      ensures outcome.Damage? ==> dealt == EnemyMitigated(outcome.amount, outcome.damageType, target.defense)
      ensures outcome.DamageThenFault? ==> dealt == EnemyMitigated(outcome.amount, Physical, target.defense)
      ensures !(outcome.Damage? || outcome.DamageThenFault?) ==> dealt == 0.0 && unchanged(if target != null then {target} else {})
      ensures faulted <==> outcome.DamageThenFault? || outcome.HealFault?
    {
      dealt, faulted := 0.0, false;
      match outcome {
        case Damage(amount, damageType) =>
          dealt := Strike(target, amount, damageType);
        case DamageThenFault(amount) =>
          dealt := Strike(target, amount, Physical);
          faulted := true;
        case HealFault =>
          faulted := true;
        case _ =>
      }
    }

    /** The movement part of `handleInput`: the velocity is the held direction times the speed,
        the character moves exactly when some direction is held, and the facing follows the
        movement. */
    method Steer(keys: set<string>)
      requires player != null
      modifies player`velocityX, player`velocityY, player`isMoving, player`facingDirection
      ensures var d := Direction(keys);
              player.velocityX == d.0 * player.stats.speed && player.velocityY == d.1 * player.stats.speed &&
              player.isMoving == (d != (0.0, 0.0)) && player.facingDirection == FacingFor(d, old(player.facingDirection))
    {
      var d := Direction(keys);
      if d.0 != 0.0 || d.1 != 0.0 {
        player.velocityX, player.velocityY := d.0 * player.stats.speed, d.1 * player.stats.speed;
        player.isMoving := true;
      } else {
        player.velocityX, player.velocityY := 0.0, 0.0;
        player.isMoving := false;
      }
      player.facingDirection := FacingFor(d, player.facingDirection);
    }

    /** The search of `playerInteract`, with a distance that works for items: the first item the
        character can reach, if any. */
    method FindExit() returns (index: int)
      requires player != null
      ensures -1 <= index < |items|
      ensures index != -1 ==> Reachable(player, items[index])
      ensures forall k :: 0 <= k < |items| && (index == -1 || k < index) ==> !Reachable(player, items[k])
    {
      index := -1;
      var k := 0;
      while k < |items|
        invariant 0 <= k <= |items|
        invariant forall j :: 0 <= j < k ==> !Reachable(player, items[j])
      {
        if Reachable(player, items[k]) {
          return k;
        }
        k := k + 1;
      }
    }

    /** `playerInteract` as written: items are plain records without `getCenter`, so measuring
        the distance to the first interactable item (an exit) raises. It raises exactly when
        there is a character and an exit on the level; otherwise nothing happens. */
    method PlayerInteractAsWritten() returns (faulted: bool)
      ensures faulted <==> player != null && exists k :: 0 <= k < |items| && items[k].Exit?
    {
      if player == null {
        return false;
      }
      var k := 0;
      while k < |items|
        invariant 0 <= k <= |items|
        invariant forall j :: 0 <= j < k ==> !items[j].Exit?
      {
        if items[k].Exit? {
          return true;
        }
        k := k + 1;
      }
      return false;
    }

    // -------------------------------------------------------------------------
    // Changing level

    /** `placeItemsOnMap`: an exit item joins the items for every exit point of the map, in
        order; then the character moves to each player spawn point in turn, ending on the
        last one. */
    method PlaceItemsOnMap(m: LevelMap)
      modifies this`items, Someone(player)`x, Someone(player)`y
      ensures items == old(items) + ExitItems(m.exitPoints)
      ensures player != null && LastPlayerSpawn(m.spawnPoints).Some? ==>
                player.x == LastPlayerSpawn(m.spawnPoints).value.x as real &&
                player.y == LastPlayerSpawn(m.spawnPoints).value.y as real
      ensures player != null && LastPlayerSpawn(m.spawnPoints).None? ==> player.x == old(player.x) && player.y == old(player.y)
    {
      for k := 0 to |m.exitPoints|
        modifies this`items
        invariant items == old(items) + ExitItems(m.exitPoints[..k])
      {
        var e := m.exitPoints[k];
        items := items + [Exit(e.x, e.y, e.level)];
      }
      assert m.exitPoints[..|m.exitPoints|] == m.exitPoints;
      assert m.spawnPoints[..0] == [];
      for k := 0 to |m.spawnPoints|
        modifies Someone(player)`x, Someone(player)`y
        invariant player != null && LastPlayerSpawn(m.spawnPoints[..k]).Some? ==>
                    player.x == LastPlayerSpawn(m.spawnPoints[..k]).value.x as real &&
                    player.y == LastPlayerSpawn(m.spawnPoints[..k]).value.y as real
        invariant player != null && LastPlayerSpawn(m.spawnPoints[..k]).None? ==>
                    player.x == old(player.x) && player.y == old(player.y)
      {
        var s := m.spawnPoints[k];
        assert m.spawnPoints[..k + 1][..k] == m.spawnPoints[..k];
        if s.role == PlayerSpawn && player != null {
          player.x, player.y := s.x as real, s.y as real;
        }
      }
      assert m.spawnPoints[..|m.spawnPoints|] == m.spawnPoints;
    }

    /** `generateLevel`: a new map, the level's enemies (and the boss on a boss level), the
        level's loot and the map's exits; the character stands on the map's player spawn. The
        map, the enemies and the items draw from rs in that order, from position i on. */
    method GenerateLevel(level: int, rs: seq<real>, i: nat) returns (j: nat)
      requires level >= 1 && AreDraws(rs)
      modifies this`enemies, this`items, Someone(player)`x, Someone(player)`y
      ensures EnemiesLaidOut(enemies, level) && ItemsLaidOut(items, level) && j >= i
      ensures forall k :: 0 <= k < |enemies| ==> fresh(enemies[k])
      ensures player != null ==> player.x == (25 + level) as real && player.y == (25 + level) as real
    {
      var m, es, loot;
      m, es, loot, j := LevelContents(level, rs, i);
      enemies, items := es, loot;
      PlaceItemsOnMap(m);
    }

    /** `changeLevel`: when the world accepts the level (1 to 100) the level is generated and
        the character is put at (400, 300), wherever the map's spawn point was; otherwise
        nothing changes. rs holds the world's weather draw, then the level's draws. */
    method ChangeLevel(level: int, rs: seq<real>) returns (ok: bool)
      requires AreDraws(rs)
      modifies world`currentLevel, world`currentRegion, world`weather, this`enemies, this`items, Someone(player)`x, Someone(player)`y
      ensures ok == (1 <= level <= MaxLevel)
      ensures ok ==> world.currentLevel == level && EnemiesLaidOut(enemies, level) && ItemsLaidOut(items, level)
      ensures ok ==> forall k :: 0 <= k < |enemies| ==> fresh(enemies[k])
      ensures ok && player != null ==> player.x == 400.0 && player.y == 300.0
      ensures !ok ==> world.currentLevel == old(world.currentLevel) && enemies == old(enemies) && items == old(items)
      ensures !ok && player != null ==> player.x == old(player.x) && player.y == old(player.y)
    {
      ok := world.ChangeLevel(level, Draw(rs, 0));
      if ok {
        var _ := GenerateLevel(level, rs, 1);
        if player != null {
          player.x, player.y := 400.0, 300.0;
        }
      }
    }

    /** `playerInteract` with `interactWithItem`, measuring to items by their centres: the first
        item the character can reach (only exits are interactable) is used, and an exit changes
        to its level. */
    method PlayerInteract(rs: seq<real>) returns (index: int, ok: bool)
      requires AreDraws(rs)
      modifies world`currentLevel, world`currentRegion, world`weather, this`enemies, this`items, Someone(player)`x, Someone(player)`y
      ensures player == null ==> index == -1
      ensures -1 <= index < |old(items)|
      ensures index != -1 ==> old(Reachable(player, items[index]))
      ensures player != null ==>
                forall k :: 0 <= k < |old(items)| && (index == -1 || k < index) ==> old(!Reachable(player, items[k]))
      ensures ok <==> index != -1 && 1 <= old(items)[index].level <= MaxLevel
      ensures ok ==> world.currentLevel == old(items)[index].level && EnemiesLaidOut(enemies, world.currentLevel) && ItemsLaidOut(items, world.currentLevel)
      ensures ok && player != null ==> player.x == 400.0 && player.y == 300.0
      ensures !ok ==> world.currentLevel == old(world.currentLevel) && enemies == old(enemies) && items == old(items)
      ensures !ok && player != null ==> player.x == old(player.x) && player.y == old(player.y)
    {
      index, ok := -1, false;
      if player == null {
        return;
      }
      index := FindExit();
      if index != -1 {
        ok := ChangeLevel(items[index].level, rs);
      }
    }

    // -------------------------------------------------------------------------
    // Collisions

    /** `checkCollisions` with `handlePlayerEnemyCollision`: every enemy that strikes the
        character (alive, overlapping it, off cooldown) deals the damage it rolls through the
        character's `takeDamage`, in the order of the list, and a damage number appears over the
        character for each blow. The enemies do not change (the cooldown is not reset), and the
        item loop has no effect (no item of a level is a potion). rs holds each enemy's
        damage-variation draw, by position. */
    method CheckCollisions(rs: seq<real>) returns (ghost blows: seq<real>)
      requires AreDraws(rs) && Distinct(particles)
      modifies Someone(player)`health, Someone(player)`isAlive, Someone(player)`velocityX, Someone(player)`velocityY,
               this`particles
      ensures Distinct(particles)
      ensures player == null ==> blows == [] && particles == old(particles)
      ensures player != null ==>
                blows == Keep(Rolls(enemies, rs), StrikeFlags(player.x, player.y, enemies)) &&
                (player.health, player.isAlive) ==
                  AbsorbAll((old(player.health), old(player.isAlive)), blows, player.stats.defense, player.stats.magicDefense)
      ensures |particles| == |old(particles)| + |blows| && particles[..|old(particles)|] == old(particles)
      ensures player != null ==>
                forall k :: |old(particles)| <= k < |particles| ==>
                  particles[k].x == player.x + BoxSize / 2.0 && particles[k].y == player.y
    {
      blows := [];
      var p := player;
      if p == null {
        return;
      }
      ghost var flags, rolls := StrikeFlags(p.x, p.y, enemies), Rolls(enemies, rs);
      ghost var s0, old0 := (p.health, p.isAlive), particles;
      for k := 0 to |enemies|
        invariant HitsSoFar(k, p, rolls, flags, blows, s0, old0)
      {
        blows := CollideAt(k, p, rs, rolls, flags, blows, s0, old0);
      }
      assert rolls[..|enemies|] == rolls && flags[..|enemies|] == flags;
    }

    /** The collision pass after the first k enemies: the blows of those that struck so far,
        taken in order, and one damage number over the character for each. */
    ghost predicate HitsSoFar(k: int, p: Character, rolls: seq<real>, flags: seq<bool>, blows: seq<real>,
                              s0: (real, bool), old0: seq<Particle>)
      reads this, p, set q | q in particles
    {
      0 <= k <= |rolls| && |rolls| == |flags| && blows == Keep(rolls[..k], flags[..k]) &&
      (p.health, p.isAlive) == AbsorbAll(s0, blows, p.stats.defense, p.stats.magicDefense) &&
      |particles| == |old0| + |blows| && particles[..|old0|] == old0 && Distinct(particles) &&
      forall j :: |old0| <= j < |particles| ==> particles[j].x == p.x + BoxSize / 2.0 && particles[j].y == p.y
    }

    /** One enemy of the collision pass: if it strikes, the character takes its blow and a damage
        number appears over the character. */
    method CollideAt(k: int, p: Character, rs: seq<real>, ghost rolls: seq<real>, ghost flags: seq<bool>,
                     ghost blows: seq<real>, ghost s0: (real, bool), ghost old0: seq<Particle>)
      returns (ghost after: seq<real>)
      requires AreDraws(rs) && 0 <= k < |enemies| && |enemies| == |rolls| == |flags|
      requires rolls[k] == enemies[k].CalculateDamage(Draw(rs, k)) && flags[k] == Strikes(p.x, p.y, enemies[k])
      requires HitsSoFar(k, p, rolls, flags, blows, s0, old0)
      modifies p`health, p`isAlive, p`velocityX, p`velocityY, this`particles
      ensures HitsSoFar(k + 1, p, rolls, flags, after, s0, old0)
    {
      after := blows;
      KeepSnoc(rolls, flags, k);
      var e := enemies[k];
      if e.isAlive && CollidesWith(BoxAt(p.x, p.y), BoxAt(e.x, e.y)) {
        if e.attackCooldown <= 0.0 {
          var damage := e.CalculateDamage(Draw(rs, k));
          var taken := p.TakeDamage(damage, Physical);
          CreateDamageNumber(p.x, p.y);
          after := blows + [damage];
        }
      }
    }

    /** `removeItem`: the first entry equal to the item leaves the list; the list is unchanged
        when the item is absent. */
    method RemoveItem(item: GameItem)
      modifies this`items
      ensures item !in old(items) ==> items == old(items)
      ensures item in old(items) ==>
                exists i :: 0 <= i < |old(items)| && old(items)[i] == item && item !in old(items)[..i] &&
                            items == old(items)[..i] + old(items)[i + 1..]
      ensures multiset(items) == multiset(old(items)) - multiset{item}
    {
      var index := IndexOf(items, item);
      if index > -1 {
        assert items == items[..index] + [items[index]] + items[index + 1..];
        items := items[..index] + items[index + 1..];
      }
    }

    // -------------------------------------------------------------------------
    // Input and the frame

    /** What every frame keeps: a player, when there is one, in a consistent state; distinct
        enemies, each consistent; distinct particles. */
    ghost predicate Consistent()
      reads this, player, SkillsOf(player), enemies
    {
      (player != null ==> player.Valid()) && Distinct(enemies) && AllReady(enemies) && Distinct(particles)
    }

    /** One skill key of `handleInput`: when the key of the n-th skill is held and the character
        has an n-th skill, that skill is used. */
    method SkillKey(n: int, keys: set<string>, critDraw: real) returns (faulted: bool)
      requires 0 <= n < |SkillKeys| && player != null && Consistent()
      modifies player, SkillsOf(player), EffectsOf(player), enemies
      ensures Consistent() && player.skills == old(player.skills)
      ensures forall e :: e in player.activeEffects ==> e in old(player.activeEffects) || fresh(e)
      ensures faulted ==> SkillKeys[n] in keys && n < |player.skills|
    {
      faulted := false;
      if SkillKeys[n] in keys && n < |player.skills| {
        var used, outcome, target, dealt;
        used, outcome, target, dealt, faulted := UseSkill(n, critDraw);
      }
    }

    /** The skill keys of `handleInput`, in order, up to the first skill that raises. */
    method SkillKeysInOrder(keys: set<string>, crits: seq<real>) returns (faulted: bool)
      requires player != null && Consistent()
      modifies player, SkillsOf(player), EffectsOf(player), enemies
      ensures Consistent() && player.skills == old(player.skills)
      ensures faulted ==> SkillKeyHeld(keys)
    {
      faulted := SkillKey(0, keys, Draw(crits, 0));
      if !faulted {
        faulted := SkillKey(1, keys, Draw(crits, 1));
      }
      if !faulted {
        faulted := SkillKey(2, keys, Draw(crits, 2));
      }
      if !faulted {
        faulted := SkillKey(3, keys, Draw(crits, 3));
      }
    }

    /** The Space key of `handleInput`: the attack as written, which never lands and so
        changes nothing. */
    method AttackKey(keys: set<string>) returns (landed: bool)
      ensures !landed
    {
      landed := false;
      if "Space" in keys {
        landed := PlayerAttackAsWritten();
      }
    }

    /** The E key of `handleInput`: the interaction as written, which changes nothing and raises
        exactly when E is held, there is a character and the level has an exit. */
    method InteractKey(keys: set<string>) returns (faulted: bool)
      ensures faulted <==> "KeyE" in keys && player != null && HasExit(items)
    {
      faulted := false;
      if "KeyE" in keys {
        faulted := PlayerInteractAsWritten();
      }
    }

    /** `handleInput`: only with a character and in play. The held direction keys steer the
        character; then the skill keys use their skills in order, stopping at the first that
        raises; then Space attacks (never landing) and E interacts (raising when the level has
        an exit); then Escape toggles the menu, pausing the game when it opens. The inventory and
        map keys only toggle screens. Every frame invariant is kept and the items stay; a fault
        comes from a held skill key or from E on a level with an exit, and without a skill key
        held it comes exactly from the latter. */
    method HandleInput(keys: set<string>, crits: seq<real>) returns (faulted: bool)
      requires Consistent() && AreDraws(crits)
      modifies player, SkillsOf(player), EffectsOf(player), enemies, this`menuOpen, this`gameState
      ensures Consistent() && items == old(items)
      ensures !(player != null && old(gameState) == Playing) ==> !faulted && unchanged(this)
      ensures !(player != null && old(gameState) == Playing) ==>
                unchanged(Someone(player)) && unchanged(SkillsOf(player)) && unchanged(EffectsOf(player)) && unchanged(enemies)
      ensures faulted ==> player != null && gameState == Playing && (SkillKeyHeld(keys) || ("KeyE" in keys && HasExit(items)))
      ensures player != null && old(gameState) == Playing && !SkillKeyHeld(keys) ==> (faulted <==> "KeyE" in keys && HasExit(items))
      ensures Escaped(keys, player != null && old(gameState) == Playing && !faulted, old(gameState), old(menuOpen), gameState, menuOpen)
    {
      faulted := false;
      if player == null || gameState != Playing {
        return;
      }
      Steer(keys);
      faulted := SkillKeysInOrder(keys, crits);
      if faulted {
        return;
      }
      var landed := AttackKey(keys);
      faulted := InteractKey(keys);
      if !faulted && "Escape" in keys {
        ToggleMenu();
      }
    }

    /** The character's part of `update`: it moves by its velocity, its effects tick and exactly
        the expired ones are dropped, its skill cooldowns run down, and while alive it regains
        stamina (and mana at half stamina or more). It keeps its skills. */
    method PlayerTick(dt: real)
      requires Consistent()
      modifies player, SkillsOf(player), EffectsOf(player)
      ensures Consistent()
      ensures player != null ==>
                PlayerTicked(player, dt) && forall e :: e in player.activeEffects ==> e in old(player.activeEffects)
    {
      var p := player;
      if p != null {
        ghost var es, ds := p.activeEffects, Remaining(p.activeEffects);
        p.Update(dt);
        KeptMembers(es, Ticked(ds, dt));
      }
    }

    /** The enemy pass of `update`, seen from the frame invariants: they hold after it, the
        character keeps its skills and effects, and only enemies that were there remain. */
    method EnemyPass(dt: real, levelUps: seq<real>)
      requires Consistent() && AreDraws(levelUps)
      modifies this`enemies, enemies, RewardFrame(player, SkillsOf(player)), world`currentLevel, world`currentRegion, world`weather
      ensures Consistent()
      ensures player != null ==> player.skills == old(player.skills) && player.activeEffects == old(player.activeEffects)
      ensures forall e :: e in enemies ==> e in old(enemies)
    {
      ghost var es, flags := enemies, AliveFlags(enemies);
      AliveFlagsAt(es);
      UpdateEnemies(dt, levelUps);
      KeepDistinct(es, flags);
      forall e | e in enemies
        ensures e in es
      {
        KeepIsSubsequence(es, flags, e);
      }
    }

    /** The collision pass of `update`, seen from the frame invariants. */
    method CollisionPass(blows: seq<real>)
      requires Consistent() && AreDraws(blows)
      modifies Someone(player)`health, Someone(player)`isAlive, Someone(player)`velocityX, Someone(player)`velocityY,
               this`particles
      ensures Consistent()
    {
      var struck := CheckCollisions(blows);
    }

    /** The world's and the character's part of `update`: the world's clock and timers run (the
        weather changing only as `World.GameWorld.Update` allows), then the character's frame. */
    method WorldAndPlayer(dt: real, d: FrameDraws)
      requires Consistent() && DrawsOk(d)
      modifies world`timeOfDay, world`weatherTimer, world`eventTimer, world`weather, player, SkillsOf(player), EffectsOf(player)
      ensures Consistent()
      ensures world.Ticked(dt, d.event)
      ensures player == old(player) && gameState == old(gameState) && menuOpen == old(menuOpen) &&
              items == old(items) && enemies == old(enemies)
      ensures player != null ==>
                PlayerTicked(player, dt) && forall e :: e in player.activeEffects ==> e in old(player.activeEffects)
    {
      world.Update(dt, d.weather, d.event, d.eventWeather);
      PlayerTick(dt);
    }

    /** The enemy and particle passes of `update`. */
    method Crowd(dt: real, d: FrameDraws)
      requires Consistent() && DrawsOk(d)
      modifies world`currentLevel, world`currentRegion, world`weather, RewardFrame(player, SkillsOf(player)),
               enemies, particles, this`enemies, this`particles
      ensures Consistent() && world.timeOfDay == old(world.timeOfDay)
      ensures player != null ==> player.skills == old(player.skills) && player.activeEffects == old(player.activeEffects)
      ensures forall k :: 0 <= k < |enemies| ==> enemies[k] in old(enemies)
      ensures player == old(player) && gameState == old(gameState) && menuOpen == old(menuOpen) && items == old(items)
    {
      EnemyPass(dt, d.levelUps);
      var survivors := UpdateParticles(dt);
    }

    /** The second half of `update`: the input and, unless it raised, the collisions. */
    method Respond(keys: set<string>, d: FrameDraws) returns (faulted: bool)
      requires Consistent() && DrawsOk(d)
      modifies player, SkillsOf(player), EffectsOf(player), enemies, this`particles, this`menuOpen, this`gameState
      ensures Consistent() && world.timeOfDay == old(world.timeOfDay) && items == old(items)
      ensures faulted ==> player != null && gameState == Playing && (SkillKeyHeld(keys) || ("KeyE" in keys && HasExit(items)))
      ensures player != null && old(gameState) == Playing && !SkillKeyHeld(keys) ==> (faulted <==> "KeyE" in keys && HasExit(items))
      ensures Escaped(keys, player != null && old(gameState) == Playing && !faulted, old(gameState), old(menuOpen), gameState, menuOpen)
    {
      faulted := HandleInput(keys, d.crits);
      if !faulted {
        CollisionPass(d.blows);
      }
    }

    /** `update`, one frame: the world, the character, the enemy pass, the particle pass, the
        input and, unless the input raised, the collisions. Items have no `update` and stay.
        Every frame invariant is kept, the clock advances as written by the frame, and a fault
        comes from a held skill key or from E on a level with an exit, and without a skill key
        held exactly from the latter. */
    method Update(dt: real, keys: set<string>, d: FrameDraws) returns (faulted: bool)
      requires Consistent() && DrawsOk(d)
      modifies world`timeOfDay, world`weatherTimer, world`eventTimer, world`weather, world`currentLevel, world`currentRegion,
               player, SkillsOf(player), EffectsOf(player), RewardFrame(player, SkillsOf(player)),
               enemies, particles, this`enemies, this`particles, this`menuOpen, this`gameState
      ensures Consistent() && items == old(items)
      ensures world.timeOfDay == ClockAsWritten(old(world.timeOfDay), dt)
      ensures faulted ==> player != null && gameState == Playing && (SkillKeyHeld(keys) || ("KeyE" in keys && HasExit(items)))
      ensures player != null && old(gameState) == Playing && !SkillKeyHeld(keys) ==> (faulted <==> "KeyE" in keys && HasExit(items))
      ensures Escaped(keys, player != null && old(gameState) == Playing && !faulted, old(gameState), old(menuOpen), gameState, menuOpen)
    {
      WorldAndPlayer(dt, d);
      Crowd(dt, d);
      faulted := Respond(keys, d);
    }

    /** `gameLoop`: nothing when the game is not running; otherwise the clamped delta time of the
        frame, the new last time, and one `update`. The next frame is scheduled exactly when the
        update did not raise, since an error leaves the loop before it asks for the next frame:
        with a character in play and no skill key held, E on a level with an exit stops the
        loop. */
    method GameLoop(currentTime: real, keys: set<string>, d: FrameDraws) returns (scheduled: bool)
      requires Consistent() && DrawsOk(d)
      modifies this`deltaTime, this`lastTime,
               world`timeOfDay, world`weatherTimer, world`eventTimer, world`weather, world`currentLevel, world`currentRegion,
               player, SkillsOf(player), EffectsOf(player), RewardFrame(player, SkillsOf(player)),
               enemies, particles, this`enemies, this`particles, this`menuOpen, this`gameState
      ensures Consistent() && items == old(items)
      ensures !old(isRunning) ==> !scheduled && unchanged(this, world)
      ensures old(isRunning) ==>
                deltaTime == FrameDelta(currentTime, old(lastTime)) && deltaTime <= MaxDelta && lastTime == currentTime &&
                world.timeOfDay == ClockAsWritten(old(world.timeOfDay), deltaTime)
      ensures scheduled ==> isRunning
      ensures !scheduled && old(isRunning) ==>
                player != null && gameState == Playing && (SkillKeyHeld(keys) || ("KeyE" in keys && HasExit(items)))
      ensures old(isRunning) && player != null && old(gameState) == Playing && !SkillKeyHeld(keys) ==>
                (scheduled <==> !("KeyE" in keys && HasExit(items)))
      ensures old(isRunning) ==>
                Escaped(keys, player != null && old(gameState) == Playing && scheduled, old(gameState), old(menuOpen), gameState, menuOpen)
    {
      if !isRunning {
        return false;
      }
      deltaTime := FrameDelta(currentTime, lastTime);
      lastTime := currentTime;
      var faulted := Update(deltaTime, keys, d);
      scheduled := !faulted;
    }
  }
}
