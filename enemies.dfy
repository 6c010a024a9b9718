/** The enemies (js/enemies.js): a generic enemy and its four kinds (orc, dragon, giant eagle,
    phoenix), their damage intake, the idle/chase/attack decision, patrols, the kinds' special
    abilities and the factory that builds them.

    The subclasses of the source become one class whose `kind` selects the overriding
    behaviour; the fields a kind adds are present on every enemy and only read for that kind.
    `Math.sqrt(dx * dx + dy * dy)` is a parameter `norm`, and each `Math.random()` or
    `Utils.random` call a draw passed in, except `generateId`'s, which is not modelled. */
module Enemies {
  import opened Utils
  import opened Classes
  import opened Characters

  datatype EnemyKind = Orc | Dragon | Eagle | Phoenix | Generic

  /** `initializeEnemyType`'s switch: the four known type names; any other has no set-up of its own. */
  function KindOf(enemyType: string): EnemyKind
  {
    if enemyType == "orc" then Orc
    else if enemyType == "dragon" then Dragon
    else if enemyType == "eagle" then Eagle
    else if enemyType == "phoenix" then Phoenix
    else Generic
  }

  /** The type name the factory gives an enemy of each kind ('unknown' for anything else). */
  function TypeName(kind: EnemyKind): string
  {
    match kind
    case Orc => "orc"
    case Dragon => "dragon"
    case Eagle => "eagle"
    case Phoenix => "phoenix"
    case Generic => "unknown"
  }

  /** The type names and the kinds correspond one to one: a kind's name selects that kind, and a
      name that selects a known kind is that kind's name. */
  lemma TypeNameRoundTrip(kind: EnemyKind, enemyType: string)
    ensures KindOf(TypeName(kind)) == kind
    ensures KindOf(enemyType) != Generic ==> TypeName(KindOf(enemyType)) == enemyType
  {
  }

  datatype AIState = Idle | Chase | Attack | Dead

  datatype Point = Point(x: real, y: real)

  /** The width and height of every enemy's and the character's box. */
  const BoxSize: real := 32.0

  // ===========================================================================
  // Base statistics

  /** The statistics an enemy starts with, before any ability multiplies them. */
  datatype Profile = Profile(maxHealth: real, attack: real, defense: real, speed: real,
                             aggressionRange: real, attackRange: real, maxAttackCooldown: real,
                             experienceReward: int, goldReward: int)

  /** The constructor's defaults, overwritten by `initializeOrc`, `initializeDragon`,
      `initializeEagle` and `initializePhoenix` with figures that grow with the level. */
  function ProfileOf(kind: EnemyKind, level: int): Profile
  {
    var l := level - 1;
    var r := l as real;
    match kind
    case Generic => Profile(100.0, 15.0, 5.0, 50.0, 100.0, 40.0, 2.0, 50, 25)
    case Orc => Profile(80.0 + 15.0 * r, 18.0 + 2.0 * r, 8.0 + r, 60.0, 120.0, 35.0, 1.5, 40 + 10 * l, 20 + 5 * l)
    case Dragon => Profile(500.0 + 100.0 * r, 40.0 + 5.0 * r, 20.0 + 2.0 * r, 80.0, 200.0, 80.0, 3.0, 500 + 100 * l, 200 + 50 * l)
    case Eagle => Profile(120.0 + 20.0 * r, 25.0 + 3.0 * r, 6.0 + r, 120.0, 150.0, 100.0, 2.5, 60 + 15 * l, 30 + 8 * l)
    case Phoenix => Profile(400.0 + 80.0 * r, 35.0 + 4.0 * r, 15.0 + 2.0 * r, 90.0, 180.0, 70.0, 2.5, 400 + 80 * l, 150 + 40 * l)
  }

  /** From level 1 on every kind starts with positive health, attack and defense and rewards, and
      a higher level never makes an enemy weaker or less rewarding. */
  lemma ProfileGrowsWithLevel(kind: EnemyKind, a: int, b: int)
    requires 1 <= a <= b
    ensures var p := ProfileOf(kind, a);
            p.maxHealth >= 80.0 && p.attack >= 15.0 && p.defense >= 5.0 &&
            p.experienceReward >= 40 && p.goldReward >= 20
    ensures var p, q := ProfileOf(kind, a), ProfileOf(kind, b);
            p.maxHealth <= q.maxHealth && p.attack <= q.attack && p.defense <= q.defense &&
            p.experienceReward <= q.experienceReward && p.goldReward <= q.goldReward &&
            p.speed == q.speed && p.maxAttackCooldown == q.maxAttackCooldown
  {
  }

  /** The name each kind's constructor gives, with the level ("Orco Lv.3"). */
  function NameOf(kind: EnemyKind, level: nat): string
  {
    match kind
    case Orc => "Orco Lv." + Decimal(level)
    case Dragon => "Drago Lv." + Decimal(level)
    case Eagle => "Aquila Gigante Lv." + Decimal(level)
    case Phoenix => "Fenice Lv." + Decimal(level)
    case Generic => "Nemico Sconosciuto"
  }

  /** The tags each kind's constructor adds, in order. */
  function TagsOf(kind: EnemyKind): seq<string>
  {
    match kind
    case Orc => ["orc", "melee"]
    case Dragon => ["dragon", "boss", "flying"]
    case Eagle => ["eagle", "flying", "ranged"]
    case Phoenix => ["phoenix", "boss", "fire", "immortal"]
    case Generic => []
  }

  /** The orc's four patrol corners, 50 units off its starting point on each axis. */
  function PatrolRoute(kind: EnemyKind, x: real, y: real): (route: seq<Point>)
    ensures kind != Orc ==> route == []
    ensures kind == Orc ==> |route| == 4
  {
    if kind == Orc then
      [Point(x - 50.0, y - 50.0), Point(x + 50.0, y - 50.0), Point(x + 50.0, y + 50.0), Point(x - 50.0, y + 50.0)]
    else []
  }

  // ===========================================================================
  // Ability multipliers

  const BerserkThreshold: real := 0.3
  const BerserkMultiplier: real := 1.5
  const MaxFireBreathCooldown: real := 8.0
  const MaxWingBuffetCooldown: real := 5.0
  const MaxDiveAttackCooldown: real := 6.0
  const DiveSpeed: real := 200.0
  const DiveHeight: real := 5.0
  const EagleCruiseHeight: real := 30.0
  const MaxImmolationCooldown: real := 10.0
  const MaxRebirthCooldown: real := 30.0
  const MaxRebirths: int := 2

  function Pow(b: real, n: nat): real
  {
    if n == 0 then 1.0 else b * Pow(b, n - 1)
  }

  /** What berserk (x1.5), the dragon's third phase (x1.3) and each rebirth (x1.2) have made of
      the attack. */
  function AttackScale(kind: EnemyKind, berserkActive: bool, combatPhase: int, rebirthCount: nat): real
  {
    match kind
    case Orc => if berserkActive then BerserkMultiplier else 1.0
    case Dragon => if combatPhase == 3 then 1.3 else 1.0
    case Phoenix => Pow(1.2, rebirthCount)
    case _ => 1.0
  }

  /** What berserk (x1.2), the dragon's phases (x1.2, then x1.5) and each rebirth (x1.1) have
      made of the speed. */
  function SpeedScale(kind: EnemyKind, berserkActive: bool, combatPhase: int, rebirthCount: nat): real
  {
    match kind
    case Orc => if berserkActive then 1.2 else 1.0
    case Dragon => (if combatPhase >= 2 then 1.2 else 1.0) * (if combatPhase == 3 then 1.5 else 1.0)
    case Phoenix => Pow(1.1, rebirthCount)
    case _ => 1.0
  }

  /** What berserk (x0.7) and the dragon's phases (x0.8, then x0.6) have made of the attack
      cooldown. */
  function CooldownScale(kind: EnemyKind, berserkActive: bool, combatPhase: int): real
  {
    match kind
    case Orc => if berserkActive then 0.7 else 1.0
    case Dragon => (if combatPhase >= 2 then 0.8 else 1.0) * (if combatPhase == 3 then 0.6 else 1.0)
    case _ => 1.0
  }

  // ===========================================================================
  // Dragon phases

  /** `checkPhaseChange` on the health fraction `ratio`: phase 1 becomes 2 at 70% or less, phase 2
      becomes 3 at 30% or less; one step at most. */
  function NextPhase(phase: int, ratio: real): (p: int)
    ensures phase <= p <= phase + 1
    ensures 1 <= phase <= 3 ==> 1 <= p <= 3
    ensures p == phase + 1 <==> (phase == 1 && ratio <= 0.7) || (phase == 2 && ratio <= 0.3)
  {
    if ratio <= 0.7 && phase == 1 then 2
    else if ratio <= 0.3 && phase == 2 then 3
    else phase
  }

  /** The phase after `n` checks at the same health fraction. */
  function PhaseAfter(phase: int, ratio: real, n: nat): int
  {
    if n == 0 then phase else NextPhase(PhaseAfter(phase, ratio, n - 1), ratio)
  }

  /** Checks at a fixed health fraction settle on the phase that fraction calls for (3 at 30% or
      less, 2 at 70% or less, otherwise 1) within two updates and never go past it. */
  lemma {:induction false} PhasesSettle(ratio: real, n: nat)
    ensures var target := if ratio <= 0.3 then 3 else if ratio <= 0.7 then 2 else 1;
            PhaseAfter(1, ratio, n) == (if n >= 2 then target else if n == 1 && ratio <= 0.7 then 2 else 1)
    decreases n
  {
    if n > 0 {
      PhasesSettle(ratio, n - 1);
    }
  }

  // ===========================================================================
  // Phoenix rebirth

  /** The rebirth counter after `takeDamage`, given whether the hit left the phoenix at 0 health:
      a lethal hit while rebirths remain is survived once more. */
  function RebirthsAfter(count: int, canRebirth: bool, lethal: bool): int
  {
    if lethal && canRebirth && count < MaxRebirths then count + 1 else count
  }

  /** Whatever sequence of hits lands, with `canRebirth` kept as `count < 2`, the phoenix is
      reborn at most twice. */
  lemma {:induction false} RebirthsBounded(count: int, hits: seq<bool>)
    requires 0 <= count <= MaxRebirths
    ensures var c := RebirthsFold(count, hits); count <= c <= MaxRebirths
    ensures |hits| >= MaxRebirths && (forall i :: 0 <= i < |hits| ==> hits[i]) ==> RebirthsFold(count, hits) == MaxRebirths
    decreases |hits|
  {
    if hits != [] {
      RebirthsBounded(RebirthsAfter(count, count < MaxRebirths, hits[0]), hits[1..]);
    }
  }

  function RebirthsFold(count: int, hits: seq<bool>): int
    decreases |hits|
  {
    if hits == [] then count
    else RebirthsFold(RebirthsAfter(count, count < MaxRebirths, hits[0]), hits[1..])
  }

  // ===========================================================================
  // Patrol

  /** The patrol index after one advance around a route of `n` points. */
  function NextIndex(j: int, n: nat): (r: int)
    requires n > 0
    ensures 0 <= r < n
  {
    (j + 1) % n
  }

  /** The patrol index after `k` advances around a route of `n` points. */
  function PatrolIndexAfter(i: int, n: nat, k: nat): int
    requires n > 0
  {
    if k == 0 then i else NextIndex(PatrolIndexAfter(i, n, k - 1), n)
  }

  lemma {:induction false} PatrolIndexMod(i: int, n: nat, k: nat)
    requires n > 0 && 0 <= i < n
    ensures PatrolIndexAfter(i, n, k) == (i + k) % n
    decreases k
  {
    if k > 0 {
      PatrolIndexMod(i, n, k - 1);
      ModSucc(i + (k - 1), n);
    } else {
      ModUnique(i, n, 0, i);
    }
  }

  /** Advancing the patrol index cycles through the route: after k advances from index i it is
      (i + k) mod n, so every point is visited and a full round returns to the start. */
  lemma PatrolCycles(i: int, n: nat, k: nat)
    requires n > 0 && 0 <= i < n
    ensures PatrolIndexAfter(i, n, k) == (i + k) % n
    ensures PatrolIndexAfter(i, n, n) == i
  {
    PatrolIndexMod(i, n, k);
    PatrolIndexMod(i, n, n);
    ModUnique(i + n, n, 1, i);
  }

  lemma ModUnique(a: int, n: int, q: int, r: int)
    requires n > 0 && a == q * n + r && 0 <= r < n
    ensures a % n == r
  {
    var q', r' := a / n, a % n;
    var d := q - q';
    assert d * n == q * n - q' * n;
    assert d * n == r' - r;
    assert d == 0;
  }

  lemma ModSucc(a: int, n: int)
    requires n > 0
    ensures NextIndex(a % n, n) == (a + 1) % n
  {
    var q, r := a / n, a % n;
    if r + 1 == n {
      ModUnique(a + 1, n, q + 1, 0);
      ModUnique(r + 1, n, 1, 0);
    } else {
      ModUnique(a + 1, n, q, r + 1);
      ModUnique(r + 1, n, 0, r + 1);
    }
  }

  // ===========================================================================
  // Damage

  /** `Enemy.takeDamage`'s resistance: only physical damage is reduced, by the defense, to at
      least 1; magical and untyped damage pass unchanged. */
  function EnemyMitigated(damage: real, damageType: DamageType, defense: real): (r: real)
    ensures damageType == Physical ==> r >= 1.0 && r >= damage - defense && (damage - defense >= 1.0 ==> r == damage - defense)
    ensures damageType != Physical ==> r == damage
  {
    if damageType == Physical then Max(1.0, damage - defense) else damage
  }

  /** `calculateDamage`: the attack plus a variation of -5..5, at least 1; an orc in berserk
      multiplies that by 1.5 and rounds down. */
  function DamageRoll(attack: real, berserk: bool, variationDraw: real): (d: real)
    requires IsDraw(variationDraw)
    ensures d >= 1.0
    ensures !berserk ==> Max(1.0, attack - 5.0) <= d <= Max(1.0, attack + 5.0)
    ensures berserk ==> d == (DamageRoll(attack, false, variationDraw) * BerserkMultiplier).Floor as real
  {
    var base := Max(1.0, attack + RandomInt(-5, 5, variationDraw) as real);
    if berserk then (base * BerserkMultiplier).Floor as real else base
  }

  /** Every variation of -5..5 is rolled by some draw. */
  lemma DamageRollReaches(attack: real, v: int)
    requires -5 <= v <= 5
    ensures exists r :: IsDraw(r) && DamageRoll(attack, false, r) == Max(1.0, attack + v as real)
  {
    RandomIntReaches(-5, 5, v);
    var r := (v - -5) as real / (5 - -5 + 1) as real;
    assert IsDraw(r) && DamageRoll(attack, false, r) == Max(1.0, attack + v as real);
  }

  /** The moves an attack can be. */
  datatype Move = Strike | FireBreath | WingBuffet | Dive | Immolation

  /** Which attack `attackPlayer` makes, given the draw it rolls: the dragon breathes fire below
      0.4 and buffets below 0.7, the eagle dives below 0.3, the phoenix immolates below 0.25, each
      only with that move's cooldown elapsed; otherwise, and for the other kinds, a plain strike. */
  function ChooseMove(kind: EnemyKind, r: real, fireBreathCooldown: real, wingBuffetCooldown: real,
                      diveAttackCooldown: real, immolationCooldown: real): (m: Move)
    ensures m == FireBreath ==> kind == Dragon && fireBreathCooldown <= 0.0 && r < 0.4
    ensures m == WingBuffet ==> kind == Dragon && wingBuffetCooldown <= 0.0 && r < 0.7
    ensures m == Dive ==> kind == Eagle && diveAttackCooldown <= 0.0 && r < 0.3
    ensures m == Immolation ==> kind == Phoenix && immolationCooldown <= 0.0 && r < 0.25
    ensures kind == Orc || kind == Generic ==> m == Strike
    ensures kind == Dragon && r >= 0.7 ==> m == Strike
  {
    match kind
    case Dragon =>
      if r < 0.4 && fireBreathCooldown <= 0.0 then FireBreath
      else if r < 0.7 && wingBuffetCooldown <= 0.0 then WingBuffet
      else Strike
    case Eagle => if diveAttackCooldown <= 0.0 && r < 0.3 then Dive else Strike
    case Phoenix => if immolationCooldown <= 0.0 && r < 0.25 then Immolation else Strike
    case _ => Strike
  }

  /** Each special move is chosen whenever its draw falls in its band with its cooldown elapsed:
      no special is unreachable. */
  lemma SpecialsReachable(kind: EnemyKind)
    ensures ChooseMove(Dragon, 0.0, 0.0, 0.0, 0.0, 0.0) == FireBreath
    ensures ChooseMove(Dragon, 0.5, 0.0, 0.0, 0.0, 0.0) == WingBuffet
    ensures ChooseMove(Dragon, 0.0, 1.0, 0.0, 0.0, 0.0) == WingBuffet
    ensures ChooseMove(Eagle, 0.0, 0.0, 0.0, 0.0, 0.0) == Dive
    ensures ChooseMove(Phoenix, 0.0, 0.0, 0.0, 0.0, 0.0) == Immolation
  {
  }

  /** The damage and damage type of each move, from the rolled damage `d`. */
  function MoveHit(m: Move, d: real): (real, DamageType)
  {
    match m
    case Strike => (d, Physical)
    case FireBreath => (d * 1.5, Magical)
    case WingBuffet => (d, Physical)
    case Dive => (d * 1.8, Physical)
    case Immolation => (d * 2.0, Magical)
  }

  /** The part of an enemy a hit can change besides its kind's abilities: health, life,
      rebirths, AI state, velocity and flash. */
  datatype Vitals = Vitals(health: real, alive: bool, rebirths: nat, state: AIState, vx: real, vy: real,
                           flashing: bool, flashTimer: real)

  /** What `takeDamage` does to an enemy that takes `dealt`. A living enemy flashes for 0.2
      seconds; left above 0 health it keeps its state and velocity, brought to 0 it is in state
      `dead` and stopped. A dead one keeps state, velocity and flash. Without a rebirth the health
      falls by `dealt` down to 0 (a dead enemy keeps its health) and the enemy lives exactly when
      health remains; a reborn phoenix is alive at 80% of `maxHealth`. */
  predicate Wounded(before: Vitals, after: Vitals, dealt: real, maxHealth: real)
  {
    (before.alive ==> after.flashing && after.flashTimer == 0.2) &&
    (!before.alive || before.health - dealt > 0.0 ==>
       after.state == before.state && after.vx == before.vx && after.vy == before.vy) &&
    (before.alive && before.health - dealt <= 0.0 ==> after.state == Dead && after.vx == 0.0 && after.vy == 0.0) &&
    (!before.alive ==> after.flashing == before.flashing && after.flashTimer == before.flashTimer) &&
    (after.rebirths == before.rebirths ==>
       after.health == (if before.alive then Max(0.0, before.health - dealt) else before.health) &&
       after.alive == (before.alive && before.health - dealt > 0.0)) &&
    (after.rebirths != before.rebirths ==> after.alive && after.health == maxHealth * 0.8)
  }

  /** `chasePlayer`'s heading from `from` to `to`: full speed along the direction, and the
      velocity (vx0, vy0) kept when the two points coincide. */
  predicate Chases(from: Point, to: Point, speed: real, vx0: real, vy0: real, vx: real, vy: real,
                   norm: (real, real) -> real)
  {
    var dx, dy := to.x - from.x, to.y - from.y;
    var d := norm(dx, dy);
    if d > 0.0 then vx == dx / d * speed && vy == dy / d * speed else vx == vx0 && vy == vy0
  }

  /** The part of a character an attack can change: position, health, life and velocity. */
  datatype Figure = Figure(x: real, y: real, health: real, alive: bool, vx: real, vy: real)

  function FigureOf(p: Character): Figure
    reads p`x, p`y, p`health, p`isAlive, p`velocityX, p`velocityY
  {
    Figure(p.x, p.y, p.health, p.isAlive, p.velocityX, p.velocityY)
  }

  /** The damage a move with rolled damage `roll` deals to a character with statistics `stats`:
      the move's share of the roll after the character's resistances, and nothing to a dead
      character. */
  function Dealt(move: Move, roll: real, alive: bool, stats: CombatStats): real
  {
    if alive then
      var (d, t) := MoveHit(move, roll);
      Mitigated(d, t, stats.defense, stats.magicDefense)
    else 0.0
  }

  /** What a blow dealing `dealt` does to a character, from `before` to `after`: a living one
      loses `dealt` health and keeps moving, or dies and stops when its health reaches 0; a dead
      one is untouched. A `buffet` also pushes it 50 units along the direction from `from` (not
      at all when it stands on `from`); nothing else moves it. */
  predicate Struck(before: Figure, after: Figure, dealt: real, buffet: bool, from: Point, norm: (real, real) -> real)
  {
    (before.alive && before.health - dealt > 0.0 ==>
       after.health == before.health - dealt && after.alive && after.vx == before.vx && after.vy == before.vy) &&
    (before.alive && before.health - dealt <= 0.0 ==>
       after.health == 0.0 && !after.alive && after.vx == 0.0 && after.vy == 0.0) &&
    (!before.alive ==>
       after.health == before.health && !after.alive && after.vx == before.vx && after.vy == before.vy) &&
    var dx, dy := before.x - from.x, before.y - from.y;
    var n := norm(dx, dy);
    if buffet && n > 0.0 then after.x == before.x + dx / n * 50.0 && after.y == before.y + dy / n * 50.0
    else after.x == before.x && after.y == before.y
  }

  /** An enemy's attack timers: the attack cooldown, the specials' cooldowns and the dive flag. */
  datatype Timers = Timers(attack: real, fireBreath: real, wingBuffet: real, dive: real, diving: bool,
                           immolation: real)

  /** The timers after `move`: a plain strike restarts the attack cooldown at `maxAttackCooldown`,
      a special restarts its own cooldown only, and a dive also starts the descent. */
  function Recharged(t: Timers, move: Move, maxAttackCooldown: real): Timers
  {
    match move
    case Strike => t.(attack := maxAttackCooldown)
    case FireBreath => t.(fireBreath := MaxFireBreathCooldown)
    case WingBuffet => t.(wingBuffet := MaxWingBuffetCooldown)
    case Dive => t.(dive := MaxDiveAttackCooldown, diving := true)
    case Immolation => t.(immolation := MaxImmolationCooldown)
  }

  /** `updateAnimation`'s frame counter stays among the four frames. */
  function NextFrame(frame: int): (f: int)
    requires 0 <= frame < 4
    ensures 0 <= f < 4 && (frame < 3 ==> f == frame + 1) && (frame == 3 ==> f == 0)
  {
    (frame + 1) % 4
  }

  // ===========================================================================
  // The enemy

  /** The velocity of a patrol leg from (x, y) towards p: half the speed along the direction,
      and zero within 10 units of the point. */
  function PatrolHeading(p: Point, x: real, y: real, speed: real, norm: (real, real) -> real): (real, real)
  {
    var dx, dy := p.x - x, p.y - y;
    var d := norm(dx, dy);
    if d > 10.0 then (dx / d * (speed * 0.5), dy / d * (speed * 0.5)) else (0.0, 0.0)
  }

  /** A velocity (vx, vy) at (x, y) that heads for the current point of a route at half the
      given speed, or is zero within 10 units of it; any velocity will do without a route. */
  predicate HeadsFor(points: seq<Point>, index: int, x: real, y: real, vx: real, vy: real, speed: real,
                     norm: (real, real) -> real)
  {
    |points| > 0 ==> 0 <= index < |points| && (vx, vy) == PatrolHeading(points[index], x, y, speed, norm)
  }

  /** `patrol` one frame on, from index0, timer0 and velocity (vx0, vy0) to index, timer and
      (vx, vy) at position (x, y): with a route the timer accumulates, every 3 seconds the index
      moves on to the next point, and the enemy heads for the current point at half the given
      speed; without a route nothing changes. */
  predicate Patrolled(points: seq<Point>, index: int, timer: real, vx: real, vy: real, x: real, y: real,
                      index0: int, timer0: real, vx0: real, vy0: real, speed: real, dt: real,
                      norm: (real, real) -> real)
  {
    (|points| == 0 ==> index == index0 && timer == timer0 && vx == vx0 && vy == vy0) &&
    (|points| > 0 && timer0 + dt >= 3.0 ==> 0 <= index0 && index == NextIndex(index0, |points|) && timer == 0.0) &&
    (|points| > 0 && timer0 + dt < 3.0 ==> index == index0 && timer == timer0 + dt) &&
    HeadsFor(points, index, x, y, vx, vy, speed, norm)
  }

  /** The hit flash one frame on, from flashing0 and timer0 to flashing and timer: the timer
      runs down and the flash ends when it does. */
  predicate FlashRanDown(flashing: bool, timer: real, flashing0: bool, timer0: real, dt: real)
  {
    timer == CooldownTick(timer0, dt) && flashing == (flashing0 && !(timer0 > 0.0 && timer <= 0.0))
  }

  /** `updateAnimation` one frame on, from frame0 and timer0 to frame and timer: every 0.2
      seconds the next of the four frames. */
  predicate Animated(frame: int, timer: real, frame0: int, timer0: real, dt: real)
  {
    (timer0 + dt >= 0.2 ==> 0 <= frame0 < 4 && frame == NextFrame(frame0) && timer == 0.0) &&
    (timer0 + dt < 0.2 ==> frame == frame0 && timer == timer0 + dt)
  }

  /** The kinds' own cooldowns one frame on: the dragon's fire breath and wing buffet, the
      eagle's dive and the phoenix's immolation run down, each only for its own kind. */
  predicate KindCooled(kind: EnemyKind, breath: real, buffet: real, dive: real, immolation: real,
                       breath0: real, buffet0: real, dive0: real, immolation0: real, dt: real)
  {
    breath == (if kind == Dragon then CooldownTick(breath0, dt) else breath0) &&
    buffet == (if kind == Dragon then CooldownTick(buffet0, dt) else buffet0) &&
    dive == (if kind == Eagle then CooldownTick(dive0, dt) else dive0) &&
    immolation == (if kind == Phoenix then CooldownTick(immolation0, dt) else immolation0)
  }

  /** The eagle's dive one frame on, from diving0 and height0: a dive descends at 200 units a
      second and ends back at cruising height once it reaches 5; other kinds do not dive. */
  predicate Dived(kind: EnemyKind, diving: bool, height: real, diving0: bool, height0: real, dt: real)
  {
    (kind != Eagle || !diving0 ==> diving == diving0 && height == height0) &&
    (kind == Eagle && diving0 && height0 - DiveSpeed * dt > DiveHeight ==> diving && height == height0 - DiveSpeed * dt) &&
    (kind == Eagle && diving0 && height0 - DiveSpeed * dt <= DiveHeight ==> !diving && height == EagleCruiseHeight)
  }

  class Enemy {
    const kind: EnemyKind
    const name: string
    const enemyType: string
    const level: int
    /** The statistics of the enemy's kind and level before any ability multiplied them. */
    const base: Profile
    var x: real
    var y: real
    var velocityX: real
    var velocityY: real
    var tags: seq<string>

    const maxHealth: real
    var health: real
    var attack: real
    const defense: real
    var speed: real
    const aggressionRange: real
    const attackRange: real
    var attackCooldown: real
    var maxAttackCooldown: real

    var state: AIState
    var target: Character?
    var lastKnownPlayerPosition: Option<Point>
    const patrolPoints: seq<Point>
    var currentPatrolIndex: int
    var patrolTimer: real

    const experienceReward: int
    const goldReward: int

    var animationFrame: int
    var animationTimer: real
    var flashTimer: real
    var isFlashing: bool
    var isAlive: bool

    // orc
    var berserkActive: bool
    // dragon
    var fireBreathCooldown: real
    var wingBuffetCooldown: real
    var combatPhase: int
    // dragon and eagle
    var flyingHeight: real
    // eagle
    var diveAttackCooldown: real
    var isDiving: bool
    // phoenix
    var immolationCooldown: real
    var rebirthCooldown: real
    var canRebirth: bool
    var rebirthCount: nat
    var fireAuraActive: bool

    /** Positive maximum health, health never below 0, a patrol index on the route, the counters
        of the abilities in range, and attack, speed and attack cooldown equal to the base figures
        times the multipliers the abilities fired so far call for. */
    ghost predicate Valid()
      reads this`health, this`animationFrame, this`currentPatrolIndex, this`combatPhase, this`rebirthCount,
            this`canRebirth, this`berserkActive, this`isDiving, this`flyingHeight
    {
      HealthValid() && AnimationValid() && PatrolValid() && CountersValid() && DiveValid()
    }

    predicate HealthValid()
      reads this`health
    {
      maxHealth > 0.0 && health >= 0.0
    }

    predicate AnimationValid()
      reads this`animationFrame
    {
      0 <= animationFrame < 4
    }

    predicate PatrolValid()
      reads this`currentPatrolIndex
    {
      (|patrolPoints| == 0 ==> currentPatrolIndex == 0) &&
      (|patrolPoints| > 0 ==> 0 <= currentPatrolIndex < |patrolPoints|)
    }

    predicate CountersValid()
      reads this`combatPhase, this`rebirthCount, this`canRebirth, this`berserkActive
    {
      1 <= combatPhase <= 3 && (kind != Dragon ==> combatPhase == 1) &&
      rebirthCount <= MaxRebirths && (kind != Phoenix ==> rebirthCount == 0) &&
      (kind == Phoenix ==> (canRebirth <==> rebirthCount < MaxRebirths)) &&
      (kind != Orc ==> !berserkActive)
    }

    predicate DiveValid()
      reads this`isDiving, this`flyingHeight
    {
      kind == Eagle ==> (isDiving ==> flyingHeight > DiveHeight) && (!isDiving ==> flyingHeight == EagleCruiseHeight)
    }

    /** Attack, speed and attack cooldown are the base figures times the multipliers of the
        abilities fired so far. */
    predicate Scaled()
      reads this`attack, this`speed, this`maxAttackCooldown, this`berserkActive, this`combatPhase, this`rebirthCount
    {
      attack == base.attack * AttackScale(kind, berserkActive, combatPhase, rebirthCount) &&
      speed == base.speed * SpeedScale(kind, berserkActive, combatPhase, rebirthCount) &&
      maxAttackCooldown == base.maxAttackCooldown * CooldownScale(kind, berserkActive, combatPhase)
    }

    /** Alive exactly while health is positive. */
    predicate AliveIffHealthy()
      reads this`isAlive, this`health
    {
      isAlive <==> health > 0.0
    }

    /** The constructor with `initializeEnemyType`, for a level of 1 or more, and with `isAlive`
        set (see `CreateEnemyAsWritten` for the source's constructor, which never sets it). */
    constructor (x: real, y: real, name: string, enemyType: string, level: int)
      requires level >= 1
      ensures Valid() && Scaled() && isAlive && AliveIffHealthy()
      ensures kind == KindOf(enemyType) && this.name == name && this.enemyType == enemyType && this.level == level
      ensures base == ProfileOf(kind, level) && health == maxHealth == base.maxHealth
      ensures attack == base.attack && speed == base.speed && defense == base.defense
      ensures this.x == x && this.y == y && velocityX == 0.0 && velocityY == 0.0 && tags == []
      ensures state == Idle && target == null && patrolPoints == PatrolRoute(kind, x, y)
      ensures currentPatrolIndex == 0 && patrolTimer == 0.0 && attackCooldown == 0.0
      ensures !berserkActive && combatPhase == 1 && rebirthCount == 0 && !fireAuraActive && !isDiving
    {
      var k := KindOf(enemyType);
      var p := ProfileOf(k, level);
      ProfileGrowsWithLevel(k, level, level);
      kind, base := k, p;
      this.name, this.enemyType, this.level := name, enemyType, level;
      this.x, this.y := x, y;
      velocityX, velocityY := 0.0, 0.0;
      tags := [];
      maxHealth, health, attack, defense, speed := p.maxHealth, p.maxHealth, p.attack, p.defense, p.speed;
      aggressionRange, attackRange := p.aggressionRange, p.attackRange;
      attackCooldown, maxAttackCooldown := 0.0, p.maxAttackCooldown;
      state, target, lastKnownPlayerPosition := Idle, null, None;
      patrolPoints := PatrolRoute(k, x, y);
      currentPatrolIndex, patrolTimer := 0, 0.0;
      experienceReward, goldReward := p.experienceReward, p.goldReward;
      animationFrame, animationTimer, flashTimer, isFlashing := 0, 0.0, 0.0, false;
      isAlive := true;
      berserkActive := false;
      fireBreathCooldown, wingBuffetCooldown, combatPhase := 0.0, 0.0, 1;
      flyingHeight := if k == Dragon then 20.0 else if k == Eagle then EagleCruiseHeight else 0.0;
      diveAttackCooldown, isDiving := 0.0, false;
      immolationCooldown, rebirthCooldown := 0.0, 0.0;
      canRebirth, rebirthCount, fireAuraActive := k == Phoenix, 0, false;
    }

    /** `addTag`. */
    method AddTag(tag: string)
      modifies this`tags
      ensures tags == Classes.AddTag(old(tags), tag)
    {
      if tag !in tags {
        tags := tags + [tag];
      }
    }

    /** The `addTag` calls each kind's constructor makes after `initializeEnemyType`. */
    method AddKindTags()
      requires tags == []
      modifies this`tags
      ensures tags == TagsOf(kind)
    {
      match kind
      case Orc =>
        AddTag("orc");
        AddTag("melee");
      case Dragon =>
        AddTag("dragon");
        AddTag("boss");
        assert tags == ["dragon", "boss"];
        AddTag("flying");
      case Eagle =>
        AddTag("eagle");
        AddTag("flying");
        assert tags == ["eagle", "flying"];
        AddTag("ranged");
      case Phoenix =>
        AddTag("phoenix");
        AddTag("boss");
        assert tags == ["phoenix", "boss"];
        AddTag("fire");
        assert tags == ["phoenix", "boss", "fire"];
        AddTag("immortal");
      case Generic =>
    }

    /** The enemy's `Vitals` in the current state. */
    function VitalsOf(): Vitals
      reads this`health, this`isAlive, this`rebirthCount, this`state, this`velocityX, this`velocityY,
            this`isFlashing, this`flashTimer
    {
      Vitals(health, isAlive, rebirthCount, state, velocityX, velocityY, isFlashing, flashTimer)
    }

    /** `calculateDamage` for the draw that `Utils.random(-5, 5)` reads. */
    function CalculateDamage(variationDraw: real): (d: real)
      requires IsDraw(variationDraw)
      reads this`attack, this`berserkActive
      ensures d >= 1.0
    {
      DamageRoll(attack, berserkActive, variationDraw)
    }

    // -------------------------------------------------------------------------
    // Damage intake

    /** `Enemy.takeDamage`: a dead enemy takes nothing; otherwise the mitigated damage is taken,
        the enemy flashes, and at 0 health it dies. Returns the damage taken. */
    method Hit(damage: real, damageType: DamageType) returns (actual: real)
      requires HealthValid()
      modifies this`health, this`isFlashing, this`flashTimer, this`isAlive, this`velocityX, this`velocityY, this`state
      ensures HealthValid()
      ensures !old(isAlive) ==> actual == 0.0 && unchanged(this)
      ensures old(isAlive) ==> actual == EnemyMitigated(damage, damageType, defense) && isFlashing && flashTimer == 0.2
      ensures old(isAlive) && old(health) - actual > 0.0 ==>
                health == old(health) - actual && isAlive && state == old(state) &&
                velocityX == old(velocityX) && velocityY == old(velocityY)
      ensures old(isAlive) && old(health) - actual <= 0.0 ==> health == 0.0 && !isAlive && state == Dead && velocityX == 0.0 && velocityY == 0.0
    {
      if !isAlive {
        return 0.0;
      }
      actual := EnemyMitigated(damage, damageType, defense);
      health := health - actual;
      isFlashing, flashTimer := true, 0.2;
      if health <= 0.0 {
        health := 0.0;
        Die();
      }
    }

    /** `die` (the loot it generates is only logged). */
    method Die()
      modifies this`isAlive, this`velocityX, this`velocityY, this`state
      ensures !isAlive && velocityX == 0.0 && velocityY == 0.0 && state == Dead
    {
      isAlive := false;
      velocityX, velocityY := 0.0, 0.0;
      state := Dead;
    }

    /** `takeDamage` with the kinds' overrides: after the hit an orc at 30% health or less goes
        berserk, and a phoenix left at 0 health is reborn while it has rebirths left. */
    method TakeDamage(damage: real, damageType: DamageType) returns (actual: real)
      requires Valid() && Scaled()
      modifies this`health, this`isFlashing, this`flashTimer, this`isAlive, this`velocityX, this`velocityY, this`state,
               this`berserkActive, this`attack, this`speed, this`maxAttackCooldown,
               this`rebirthCount, this`rebirthCooldown, this`canRebirth
      ensures Valid() && Scaled()
      ensures old(AliveIffHealthy()) ==> AliveIffHealthy()
      ensures old(isAlive) ==> actual == EnemyMitigated(damage, damageType, defense)
      ensures !old(isAlive) ==> actual == 0.0
      ensures kind == Orc ==> berserkActive == (old(berserkActive) || health / maxHealth <= BerserkThreshold)
      ensures kind == Phoenix ==> rebirthCount == RebirthsAfter(old(rebirthCount), old(canRebirth), old(health) - actual <= 0.0)
      ensures kind == Phoenix && rebirthCount > old(rebirthCount) ==> isAlive && health == maxHealth * 0.8
      ensures kind != Phoenix || rebirthCount == old(rebirthCount) ==>
                health == (if old(isAlive) then Max(0.0, old(health) - actual) else old(health)) &&
                isAlive == (old(isAlive) && old(health) - actual > 0.0)
      ensures Wounded(old(VitalsOf()), VitalsOf(), actual, maxHealth)
    {
      actual := Hit(damage, damageType);
      if kind == Orc {
        if health / maxHealth <= BerserkThreshold && !berserkActive {
          ActivateBerserk();
        }
      } else if kind == Phoenix {
        if health <= 0.0 && canRebirth && rebirthCount < MaxRebirths {
          Rebirth();
        }
      }
    }

    /** `activateBerserk`: attack x1.5, speed x1.2, attack cooldown x0.7. */
    method ActivateBerserk()
      requires CountersValid() && Scaled() && kind == Orc && !berserkActive
      modifies this`berserkActive, this`attack, this`speed, this`maxAttackCooldown
      ensures CountersValid() && Scaled() && berserkActive
      ensures attack == old(attack) * BerserkMultiplier && speed == old(speed) * 1.2 && maxAttackCooldown == old(maxAttackCooldown) * 0.7
    {
      berserkActive := true;
      attack := attack * BerserkMultiplier;
      speed := speed * 1.2;
      maxAttackCooldown := maxAttackCooldown * 0.7;
    }

    /** `rebirth`: back to 80% health and alive, attack x1.2, speed x1.1; the last allowed
        rebirth turns `canRebirth` off. */
    method Rebirth()
      requires HealthValid() && CountersValid() && Scaled() && kind == Phoenix && rebirthCount < MaxRebirths
      modifies this`rebirthCount, this`health, this`isAlive, this`rebirthCooldown, this`attack, this`speed, this`canRebirth
      ensures HealthValid() && CountersValid() && Scaled() && rebirthCount == old(rebirthCount) + 1
      ensures health == maxHealth * 0.8 && isAlive && rebirthCooldown == MaxRebirthCooldown
      ensures attack == old(attack) * 1.2 && speed == old(speed) * 1.1
    {
      rebirthCount := rebirthCount + 1;
      health := maxHealth * 0.8;
      isAlive := true;
      rebirthCooldown := MaxRebirthCooldown;
      attack := attack * 1.2;
      speed := speed * 1.1;
      if rebirthCount >= MaxRebirths {
        canRebirth := false;
      }
    }

    // -------------------------------------------------------------------------
    // Artificial intelligence

    /** The distance between the centres of the enemy's and the character's boxes. */
    function DistanceTo(player: Character, norm: (real, real) -> real): real
      reads this`x, this`y, player`x, player`y
    {
      norm((player.x + BoxSize / 2.0) - (x + BoxSize / 2.0), (player.y + BoxSize / 2.0) - (y + BoxSize / 2.0))
    }


    /** The enemy's health and life, its kind's ability state and its scaled statistics are as
        they were before. */
    twostate predicate Standing()
      reads this`health, this`isAlive, this`berserkActive, this`rebirthCount, this`combatPhase, this`fireAuraActive,
            this`flyingHeight, this`speed, this`attack, this`maxAttackCooldown
    {
      health == old(health) && isAlive == old(isAlive) && berserkActive == old(berserkActive) &&
      rebirthCount == old(rebirthCount) && combatPhase == old(combatPhase) && fireAuraActive == old(fireAuraActive) &&
      flyingHeight == old(flyingHeight) && speed == old(speed) && attack == old(attack) &&
      maxAttackCooldown == old(maxAttackCooldown)
    }

    /** Whether `updateAI` engages the character: there is one, the enemy is alive and the
        character is within the aggression range. */
    predicate Engages(player: Character?, norm: (real, real) -> real)
      reads this`x, this`y, this`isAlive, if player != null then {player} else {}
    {
      player != null && isAlive && DistanceTo(player, norm) <= aggressionRange
    }

    /** The attack and special-move cooldowns with the dive flag, as one value. */
    function TimersOf(): Timers
      reads this`attackCooldown, this`fireBreathCooldown, this`wingBuffetCooldown, this`diveAttackCooldown,
            this`isDiving, this`immolationCooldown
    {
      Timers(attackCooldown, fireBreathCooldown, wingBuffetCooldown, diveAttackCooldown, isDiving, immolationCooldown)
    }

    /** What the engaged branch of `updateAI` does, from the old state to the new: the character
        becomes the target and its position is remembered; within the attack range with the attack
        cooldown elapsed the enemy attacks, making `move` (the move `ChooseMove` picks from the
        draw), restarting that move's cooldown and dealing `dealt` to the character as `Struck`
        describes; otherwise it chases, heading for the character with the character and the
        cooldowns untouched. */
    twostate predicate Engaged(player: Character, norm: (real, real) -> real, variationDraw: real, choiceDraw: real,
                               move: Move, dealt: real)
      requires IsDraw(variationDraw)
      reads this`target, this`lastKnownPlayerPosition, this`state, this`x, this`y, this`speed, this`velocityX,
            this`velocityY, this`attackCooldown, this`maxAttackCooldown, this`fireBreathCooldown,
            this`wingBuffetCooldown, this`diveAttackCooldown, this`isDiving, this`immolationCooldown,
            this`attack, this`berserkActive, player
    {
      target == player && lastKnownPlayerPosition == Some(Point(old(player.x), old(player.y))) &&
      state == (if old(DistanceTo(player, norm)) <= attackRange && old(attackCooldown) <= 0.0 then Attack else Chase) &&
      (state == Chase ==>
         unchanged(player) && TimersOf() == old(TimersOf()) &&
         Chases(Point(x, y), Point(player.x, player.y), speed, old(velocityX), old(velocityY), velocityX, velocityY, norm)) &&
      (state == Attack ==>
         move == ChooseMove(kind, choiceDraw, old(fireBreathCooldown), old(wingBuffetCooldown),
                            old(diveAttackCooldown), old(immolationCooldown)) &&
         TimersOf() == Recharged(old(TimersOf()), move, maxAttackCooldown) &&
         dealt == Dealt(move, old(CalculateDamage(variationDraw)), old(player.isAlive), player.stats) &&
         Struck(old(FigureOf(player)), FigureOf(player), dealt, move == WingBuffet, Point(x, y), norm))
    }

    /** `updateAI`: an engaged character becomes the target and is attacked when within the
        attack range with the attack cooldown elapsed, chased otherwise; without one the enemy
        goes idle and patrols. */
    method UpdateAI(dt: real, player: Character?, norm: (real, real) -> real, variationDraw: real, choiceDraw: real)
      returns (move: Move, dealt: real)
      requires Valid() && IsDraw(variationDraw)
      modifies this`state, this`target, this`lastKnownPlayerPosition, this`velocityX, this`velocityY,
               this`attackCooldown, this`currentPatrolIndex, this`patrolTimer,
               this`fireBreathCooldown, this`wingBuffetCooldown, this`diveAttackCooldown, this`isDiving,
               this`immolationCooldown, if player != null then {player} else {}
      ensures Valid()
      ensures state != Dead
      ensures old(Engages(player, norm)) ==> Engaged(player, norm, variationDraw, choiceDraw, move, dealt)
      ensures !old(Engages(player, norm)) ==>
                state == Idle && target == old(target) && attackCooldown == old(attackCooldown) &&
                Patrolled(patrolPoints, currentPatrolIndex, patrolTimer, velocityX, velocityY, x, y,
                          old(currentPatrolIndex), old(patrolTimer), old(velocityX), old(velocityY), speed, dt, norm)
      ensures !old(Engages(player, norm)) ==>
                fireBreathCooldown == old(fireBreathCooldown) && wingBuffetCooldown == old(wingBuffetCooldown) &&
                diveAttackCooldown == old(diveAttackCooldown) && immolationCooldown == old(immolationCooldown) &&
                isDiving == old(isDiving)
      ensures Standing()
    {
      if Engages(player, norm) {
        move, dealt := Engage(player, norm, variationDraw, choiceDraw);
      } else {
        move, dealt := Strike, 0.0;
        Rest(dt, norm);
      }
    }

    /** The idle branch of `updateAI`: state `idle` and a patrol step. */
    method Rest(dt: real, norm: (real, real) -> real)
      requires Valid()
      modifies this`state, this`currentPatrolIndex, this`patrolTimer, this`velocityX, this`velocityY
      ensures Valid()
      ensures state == Idle &&
              Patrolled(patrolPoints, currentPatrolIndex, patrolTimer, velocityX, velocityY, x, y,
                        old(currentPatrolIndex), old(patrolTimer), old(velocityX), old(velocityY), speed, dt, norm)
      ensures Standing()
    {
      state := Idle;
      Patrol(dt, norm);
    }

    /** The engaged branch of `updateAI`: the character becomes the target, its position is
        remembered, and the enemy attacks it when within the attack range with the attack cooldown
        elapsed, and chases it otherwise. */
    method Engage(player: Character, norm: (real, real) -> real, variationDraw: real, choiceDraw: real)
      returns (move: Move, dealt: real)
      requires Valid() && IsDraw(variationDraw)
      modifies this`state, this`target, this`lastKnownPlayerPosition, this`velocityX, this`velocityY,
               this`attackCooldown, this`fireBreathCooldown, this`wingBuffetCooldown, this`diveAttackCooldown,
               this`isDiving, this`immolationCooldown,
               player`x, player`y, player`health, player`isAlive, player`velocityX, player`velocityY
      ensures Valid()
      ensures Engaged(player, norm, variationDraw, choiceDraw, move, dealt)
      ensures Standing()
    {
      var distance := DistanceTo(player, norm);
      if distance <= attackRange && attackCooldown <= 0.0 {
        move, dealt := Assault(player, norm, variationDraw, choiceDraw);
      } else {
        move, dealt := Strike, 0.0;
        Pursue(player, norm);
      }
    }

    /** The attack case of the engaged branch: target and last known position set, state
        `attack`, and `attackPlayer` with its cooldown elapsed. */
    method Assault(player: Character, norm: (real, real) -> real, variationDraw: real, choiceDraw: real)
      returns (move: Move, dealt: real)
      requires Valid() && IsDraw(variationDraw) && attackCooldown <= 0.0
      modifies this`state, this`target, this`lastKnownPlayerPosition,
               this`attackCooldown, this`fireBreathCooldown, this`wingBuffetCooldown, this`diveAttackCooldown,
               this`isDiving, this`immolationCooldown,
               player`x, player`y, player`health, player`isAlive, player`velocityX, player`velocityY
      ensures Valid()
      ensures target == player && lastKnownPlayerPosition == Some(Point(old(player.x), old(player.y))) && state == Attack
      ensures move == ChooseMove(kind, choiceDraw, old(fireBreathCooldown), old(wingBuffetCooldown),
                                 old(diveAttackCooldown), old(immolationCooldown))
      ensures TimersOf() == Recharged(old(TimersOf()), move, maxAttackCooldown)
      ensures dealt == Dealt(move, old(CalculateDamage(variationDraw)), old(player.isAlive), player.stats)
      ensures Struck(old(FigureOf(player)), FigureOf(player), dealt, move == WingBuffet, Point(x, y), norm)
      ensures Standing()
    {
      target, lastKnownPlayerPosition, state := player, Some(Point(player.x, player.y)), Attack;
      move, dealt := AttackPlayer(player, norm, variationDraw, choiceDraw);
    }

    /** The chase case of the engaged branch: target and last known position set, state
        `chase`, and `chasePlayer`. */
    method Pursue(player: Character, norm: (real, real) -> real)
      modifies this`state, this`target, this`lastKnownPlayerPosition, this`velocityX, this`velocityY
      ensures target == player && lastKnownPlayerPosition == Some(Point(player.x, player.y)) && state == Chase
      ensures Chases(Point(x, y), Point(player.x, player.y), speed, old(velocityX), old(velocityY), velocityX, velocityY, norm)
      ensures Standing()
    {
      target, lastKnownPlayerPosition, state := player, Some(Point(player.x, player.y)), Chase;
      ChasePlayer(player, norm);
    }

    /** `chasePlayer`: full speed along the direction to the character (unchanged when on it). */
    method ChasePlayer(player: Character, norm: (real, real) -> real)
      modifies this`velocityX, this`velocityY
      ensures Chases(Point(x, y), Point(player.x, player.y), speed, old(velocityX), old(velocityY), velocityX, velocityY, norm)
    {
      var dx, dy := player.x - x, player.y - y;
      var d := norm(dx, dy);
      if d > 0.0 {
        velocityX := dx / d * speed;
        velocityY := dy / d * speed;
      }
    }

    /** `patrol`: with a route, the timer accumulates and every 3 seconds the index moves to the
        next point (wrapping) and the timer restarts; the enemy heads for the current point at
        half speed and stops within 10 units of it. */
    method Patrol(dt: real, norm: (real, real) -> real)
      requires Valid()
      modifies this`currentPatrolIndex, this`patrolTimer, this`velocityX, this`velocityY
      ensures Valid()
      ensures |patrolPoints| == 0 ==> unchanged(this)
      ensures |patrolPoints| > 0 && old(patrolTimer) + dt >= 3.0 ==>
                currentPatrolIndex == NextIndex(old(currentPatrolIndex), |patrolPoints|) && patrolTimer == 0.0
      ensures |patrolPoints| > 0 && old(patrolTimer) + dt < 3.0 ==>
                currentPatrolIndex == old(currentPatrolIndex) && patrolTimer == old(patrolTimer) + dt
      ensures HeadsFor(patrolPoints, currentPatrolIndex, x, y, velocityX, velocityY, speed, norm)
    {
      if |patrolPoints| == 0 {
        return;
      }
      patrolTimer := patrolTimer + dt;
      if patrolTimer >= 3.0 {
        currentPatrolIndex := NextIndex(currentPatrolIndex, |patrolPoints|);
        patrolTimer := 0.0;
      }
      var heading := PatrolHeading(patrolPoints[currentPatrolIndex], x, y, speed, norm);
      velocityX, velocityY := heading.0, heading.1;
    }

    /** `attackPlayer` with the kinds' overrides: nothing while the attack cooldown runs;
        otherwise the move `ChooseMove` picks for the draw. A plain strike deals the rolled damage
        as physical and restarts the attack cooldown; the specials deal their multiple of it,
        restart their own cooldown only, and the wing buffet pushes the character 50 units away. */
    method AttackPlayer(player: Character, norm: (real, real) -> real, variationDraw: real, choiceDraw: real)
      returns (move: Move, dealt: real)
      requires Valid() && IsDraw(variationDraw)
      modifies this`attackCooldown, this`fireBreathCooldown, this`wingBuffetCooldown, this`diveAttackCooldown,
               this`isDiving, this`immolationCooldown,
               player`x, player`y, player`health, player`isAlive, player`velocityX, player`velocityY
      ensures Valid()
      ensures old(attackCooldown) > 0.0 ==> unchanged(this) && unchanged(player) && dealt == 0.0
      ensures Standing()
      ensures old(attackCooldown) <= 0.0 ==>
                move == ChooseMove(kind, choiceDraw, old(fireBreathCooldown), old(wingBuffetCooldown),
                                   old(diveAttackCooldown), old(immolationCooldown)) &&
                TimersOf() == Recharged(old(TimersOf()), move, maxAttackCooldown) &&
                dealt == Dealt(move, old(CalculateDamage(variationDraw)), old(player.isAlive), player.stats) &&
                Struck(old(FigureOf(player)), FigureOf(player), dealt, move == WingBuffet, Point(x, y), norm)
    {
      move := Strike;
      dealt := 0.0;
      if attackCooldown > 0.0 {
        return;
      }
      move := ChooseMove(kind, choiceDraw, fireBreathCooldown, wingBuffetCooldown, diveAttackCooldown, immolationCooldown);
      dealt := Deliver(player, move, variationDraw, norm);
      Recharge(move);
    }

    /** The blow of a move: the character takes the move's share of the rolled damage, and the
        wing buffet then pushes it away. Returns the damage dealt. */
    method Deliver(player: Character, move: Move, variationDraw: real, norm: (real, real) -> real) returns (dealt: real)
      requires IsDraw(variationDraw)
      modifies player`x, player`y, player`health, player`isAlive, player`velocityX, player`velocityY
      ensures dealt == Dealt(move, CalculateDamage(variationDraw), old(player.isAlive), player.stats)
      ensures Struck(old(FigureOf(player)), FigureOf(player), dealt, move == WingBuffet, Point(x, y), norm)
      ensures Standing()
    {
      var (d, t) := MoveHit(move, CalculateDamage(variationDraw));
      dealt := player.TakeDamage(d, t);
      if move == WingBuffet {
        Push(player, norm);
      }
    }

    /** The cooldown the move restarts: the attack cooldown after a plain strike, the special's
        own after a special (a dive also starts the descent). */
    method Recharge(move: Move)
      requires Valid()
      requires move == Dive ==> kind == Eagle
      modifies this`attackCooldown, this`fireBreathCooldown, this`wingBuffetCooldown, this`diveAttackCooldown,
               this`isDiving, this`immolationCooldown
      ensures Valid()
      ensures TimersOf() == Recharged(old(TimersOf()), move, maxAttackCooldown)
      ensures Standing()
    {
      match move
      case Strike => attackCooldown := maxAttackCooldown;
      case FireBreath => fireBreathCooldown := MaxFireBreathCooldown;
      case WingBuffet => wingBuffetCooldown := MaxWingBuffetCooldown;
      case Dive =>
        isDiving := true;
        diveAttackCooldown := MaxDiveAttackCooldown;
      case Immolation => immolationCooldown := MaxImmolationCooldown;
    }

    /** The wing buffet's push: 50 units along the direction from the dragon to the character. */
    method Push(player: Character, norm: (real, real) -> real)
      modifies player`x, player`y
      ensures var dx, dy := old(player.x) - x, old(player.y) - y;
              var d := norm(dx, dy);
              if d > 0.0 then player.x == old(player.x) + dx / d * 50.0 && player.y == old(player.y) + dy / d * 50.0
              else player.x == old(player.x) && player.y == old(player.y)
    {
      var dx, dy := player.x - x, player.y - y;
      var d := norm(dx, dy);
      if d > 0.0 {
        player.x := player.x + dx / d * 50.0;
        player.y := player.y + dy / d * 50.0;
      }
    }

    // -------------------------------------------------------------------------
    // The frame update

    /** `update`: the enemy moves by its velocity, its attack cooldown and hit flash run down,
        the AI decides, the animation advances; then each kind runs its own timers, the dragon
        checks its phase, the eagle continues a dive and the phoenix lights its fire aura at half
        health. Health never changes here. */
    method Update(dt: real, player: Character?, norm: (real, real) -> real, variationDraw: real, choiceDraw: real)
      requires Valid() && Scaled() && IsDraw(variationDraw)
      modifies this`x, this`y, this`attackCooldown, this`flashTimer, this`isFlashing,
               this`state, this`target, this`lastKnownPlayerPosition, this`velocityX, this`velocityY,
               this`currentPatrolIndex, this`patrolTimer, this`animationTimer, this`animationFrame,
               this`fireBreathCooldown, this`wingBuffetCooldown, this`combatPhase, this`maxAttackCooldown,
               this`speed, this`attack, this`diveAttackCooldown, this`flyingHeight, this`isDiving,
               this`immolationCooldown, this`fireAuraActive, if player != null then {player} else {}
      ensures Valid() && Scaled()
      ensures x == Advance(old(x), old(velocityX), dt) && y == Advance(old(y), old(velocityY), dt)
      ensures health == old(health) && isAlive == old(isAlive) && state != Dead
      ensures berserkActive == old(berserkActive) && rebirthCount == old(rebirthCount)
      ensures combatPhase == (if kind == Dragon then NextPhase(old(combatPhase), health / maxHealth) else old(combatPhase))
      ensures kind == Phoenix ==> fireAuraActive == (old(fireAuraActive) || health / maxHealth <= 0.5)
      ensures kind == Eagle && dt >= 0.0 && old(flyingHeight) <= EagleCruiseHeight ==> flyingHeight <= EagleCruiseHeight
      ensures FlashRanDown(isFlashing, flashTimer, old(isFlashing), old(flashTimer), dt) &&
              Animated(animationFrame, animationTimer, old(animationFrame), old(animationTimer), dt)
      ensures player == null ==>
                state == Idle && target == old(target) && attackCooldown == CooldownTick(old(attackCooldown), dt)
      ensures player == null ==>
                Patrolled(patrolPoints, currentPatrolIndex, patrolTimer, velocityX, velocityY, x, y,
                          old(currentPatrolIndex), old(patrolTimer), old(velocityX), old(velocityY), old(speed), dt, norm)
      ensures player == null ==>
                KindCooled(kind, fireBreathCooldown, wingBuffetCooldown, diveAttackCooldown, immolationCooldown,
                           old(fireBreathCooldown), old(wingBuffetCooldown), old(diveAttackCooldown), old(immolationCooldown), dt)
      ensures player == null ==> Dived(kind, isDiving, flyingHeight, old(isDiving), old(flyingHeight), dt)
    {
      UpdateCommon(dt, player, norm, variationDraw, choiceDraw);
      KindTick(dt);
    }

    /** The part of `update` every kind shares: movement, timers, the AI and the animation. */
    method UpdateCommon(dt: real, player: Character?, norm: (real, real) -> real, variationDraw: real, choiceDraw: real)
      requires Valid() && IsDraw(variationDraw)
      modifies this`x, this`y, this`attackCooldown, this`flashTimer, this`isFlashing,
               this`state, this`target, this`lastKnownPlayerPosition, this`velocityX, this`velocityY,
               this`currentPatrolIndex, this`patrolTimer, this`animationTimer, this`animationFrame,
               this`fireBreathCooldown, this`wingBuffetCooldown, this`diveAttackCooldown, this`isDiving,
               this`immolationCooldown, if player != null then {player} else {}
      ensures Valid()
      ensures x == Advance(old(x), old(velocityX), dt) && y == Advance(old(y), old(velocityY), dt)
      ensures state != Dead
      ensures FlashRanDown(isFlashing, flashTimer, old(isFlashing), old(flashTimer), dt) &&
              Animated(animationFrame, animationTimer, old(animationFrame), old(animationTimer), dt)
      ensures player == null ==>
                state == Idle && target == old(target) && attackCooldown == CooldownTick(old(attackCooldown), dt)
      ensures player == null ==>
                Patrolled(patrolPoints, currentPatrolIndex, patrolTimer, velocityX, velocityY, x, y,
                          old(currentPatrolIndex), old(patrolTimer), old(velocityX), old(velocityY), old(speed), dt, norm)
      ensures player == null ==>
                fireBreathCooldown == old(fireBreathCooldown) && wingBuffetCooldown == old(wingBuffetCooldown) &&
                diveAttackCooldown == old(diveAttackCooldown) && immolationCooldown == old(immolationCooldown) &&
                isDiving == old(isDiving)
      ensures Standing()
    {
      Move(dt);
      RunTimers(dt);
      var move, dealt := UpdateAI(dt, player, norm, variationDraw, choiceDraw);
      UpdateAnimation(dt);
    }

    /** The part of `update` each kind overrides: the dragon's phase check, the eagle's dive and
        the phoenix's fire aura. */
    method KindTick(dt: real)
      requires Valid() && Scaled()
      modifies this`fireBreathCooldown, this`wingBuffetCooldown, this`combatPhase, this`maxAttackCooldown,
               this`speed, this`attack, this`diveAttackCooldown, this`flyingHeight, this`isDiving,
               this`immolationCooldown, this`fireAuraActive
      ensures Valid() && Scaled()
      ensures combatPhase == (if kind == Dragon then NextPhase(old(combatPhase), health / maxHealth) else old(combatPhase))
      ensures kind == Phoenix ==> fireAuraActive == (old(fireAuraActive) || health / maxHealth <= 0.5)
      ensures kind == Eagle && dt >= 0.0 && old(flyingHeight) <= EagleCruiseHeight ==> flyingHeight <= EagleCruiseHeight
      ensures KindCooled(kind, fireBreathCooldown, wingBuffetCooldown, diveAttackCooldown, immolationCooldown,
                           old(fireBreathCooldown), old(wingBuffetCooldown), old(diveAttackCooldown), old(immolationCooldown), dt)
      ensures Dived(kind, isDiving, flyingHeight, old(isDiving), old(flyingHeight), dt)
      ensures x == old(x) && y == old(y) && health == old(health) && isAlive == old(isAlive) && state == old(state) &&
              target == old(target) && attackCooldown == old(attackCooldown)
      ensures isFlashing == old(isFlashing) && flashTimer == old(flashTimer) &&
              animationFrame == old(animationFrame) && animationTimer == old(animationTimer)
      ensures currentPatrolIndex == old(currentPatrolIndex) && patrolTimer == old(patrolTimer) &&
              velocityX == old(velocityX) && velocityY == old(velocityY)
    {
      match kind
      case Dragon => DragonTick(dt);
      case Eagle => EagleTick(dt);
      case Phoenix => PhoenixTick(dt);
      case _ =>
    }

    /** `GameObject.update`. */
    method Move(dt: real)
      requires Valid()
      modifies this`x, this`y
      ensures Valid()
      ensures x == Advance(old(x), velocityX, dt) && y == Advance(old(y), velocityY, dt)
      ensures Standing()
    {
      x := Advance(x, velocityX, dt);
      y := Advance(y, velocityY, dt);
    }

    /** The attack cooldown and the hit flash run down; the flash ends when its timer does. */
    method RunTimers(dt: real)
      requires Valid()
      modifies this`attackCooldown, this`flashTimer, this`isFlashing
      ensures Valid()
      ensures attackCooldown == CooldownTick(old(attackCooldown), dt) && flashTimer == CooldownTick(old(flashTimer), dt)
      ensures isFlashing == (old(isFlashing) && !(old(flashTimer) > 0.0 && flashTimer <= 0.0))
      ensures FlashRanDown(isFlashing, flashTimer, old(isFlashing), old(flashTimer), dt)
      ensures Standing()
    {
      attackCooldown := CooldownTick(attackCooldown, dt);
      if flashTimer > 0.0 {
        flashTimer := flashTimer - dt;
        if flashTimer <= 0.0 {
          isFlashing := false;
        }
      }
    }

    /** `updateAnimation`: a new frame every 0.2 seconds, among four. */
    method UpdateAnimation(dt: real)
      requires Valid()
      modifies this`animationTimer, this`animationFrame
      ensures Valid()
      ensures old(animationTimer) + dt >= 0.2 ==> animationFrame == NextFrame(old(animationFrame)) && animationTimer == 0.0
      ensures old(animationTimer) + dt < 0.2 ==> animationFrame == old(animationFrame) && animationTimer == old(animationTimer) + dt
      ensures Animated(animationFrame, animationTimer, old(animationFrame), old(animationTimer), dt)
      ensures Standing()
    {
      animationTimer := animationTimer + dt;
      if animationTimer >= 0.2 {
        animationFrame := NextFrame(animationFrame);
        animationTimer := 0.0;
      }
    }

    /** `Dragon.update` after the common part: the fire-breath and wing-buffet cooldowns run
        down, then `checkPhaseChange`, entering phase 2 (attack cooldown x0.8, speed x1.2) or
        phase 3 (attack cooldown x0.6, speed x1.5, attack x1.3). */
    method DragonTick(dt: real)
      requires HealthValid() && CountersValid() && Scaled() && kind == Dragon
      modifies this`fireBreathCooldown, this`wingBuffetCooldown, this`combatPhase, this`maxAttackCooldown, this`speed, this`attack
      ensures CountersValid() && Scaled()
      ensures fireBreathCooldown == CooldownTick(old(fireBreathCooldown), dt)
      ensures wingBuffetCooldown == CooldownTick(old(wingBuffetCooldown), dt)
      ensures combatPhase == NextPhase(old(combatPhase), health / maxHealth)
    {
      fireBreathCooldown := CooldownTick(fireBreathCooldown, dt);
      wingBuffetCooldown := CooldownTick(wingBuffetCooldown, dt);
      var ratio := health / maxHealth;
      if ratio <= 0.7 && combatPhase == 1 {
        combatPhase := 2;
        maxAttackCooldown := maxAttackCooldown * 0.8;
        speed := speed * 1.2;
      } else if ratio <= 0.3 && combatPhase == 2 {
        combatPhase := 3;
        maxAttackCooldown := maxAttackCooldown * 0.6;
        speed := speed * 1.5;
        attack := attack * 1.3;
      }
    }

    /** `Eagle.update` after the common part: the dive cooldown runs down and a dive descends at
        200 units a second to a height of 5, where it ends back at 30. */
    method EagleTick(dt: real)
      requires DiveValid() && kind == Eagle
      modifies this`diveAttackCooldown, this`flyingHeight, this`isDiving
      ensures DiveValid()
      ensures diveAttackCooldown == CooldownTick(old(diveAttackCooldown), dt)
      ensures !old(isDiving) ==> !isDiving && flyingHeight == old(flyingHeight)
      ensures old(isDiving) && old(flyingHeight) - DiveSpeed * dt > DiveHeight ==> isDiving && flyingHeight == old(flyingHeight) - DiveSpeed * dt
      ensures old(isDiving) && old(flyingHeight) - DiveSpeed * dt <= DiveHeight ==> !isDiving && flyingHeight == EagleCruiseHeight
      ensures dt >= 0.0 && old(flyingHeight) <= EagleCruiseHeight ==> flyingHeight <= EagleCruiseHeight
    {
      diveAttackCooldown := CooldownTick(diveAttackCooldown, dt);
      if isDiving {
        flyingHeight := Max(DiveHeight, flyingHeight - DiveSpeed * dt);
        if flyingHeight <= DiveHeight {
          isDiving := false;
          flyingHeight := EagleCruiseHeight;
        }
      }
    }

    /** `Phoenix.update` after the common part: the immolation cooldown runs down and the fire
        aura lights at half health or less (its damage is an empty placeholder). */
    method PhoenixTick(dt: real)
      requires HealthValid() && kind == Phoenix
      modifies this`immolationCooldown, this`fireAuraActive
      ensures immolationCooldown == CooldownTick(old(immolationCooldown), dt)
      ensures fireAuraActive == (old(fireAuraActive) || health / maxHealth <= 0.5)
    {
      immolationCooldown := CooldownTick(immolationCooldown, dt);
      if health / maxHealth <= 0.5 && !fireAuraActive {
        fireAuraActive := true;
      }
    }
  }

  // ===========================================================================
  // The factory

  /** `EnemyFactory.createEnemy`: the four known types build their kind (its name carrying the
      level, its tags added); anything else builds a generic enemy named 'Nemico Sconosciuto' of
      type 'unknown'. Every enemy starts alive at full health. */
  method CreateEnemy(enemyType: string, x: real, y: real, level: int) returns (e: Enemy)
    requires level >= 1
    ensures fresh(e) && e.Valid() && e.Scaled() && e.isAlive && e.AliveIffHealthy()
    ensures e.kind == KindOf(enemyType) && e.enemyType == TypeName(e.kind) && e.level == level
    ensures e.name == NameOf(e.kind, level) && e.tags == TagsOf(e.kind)
    ensures e.base == ProfileOf(e.kind, level) && e.health == e.maxHealth == e.base.maxHealth
    ensures e.x == x && e.y == y && e.state == Idle && e.patrolPoints == PatrolRoute(e.kind, x, y)
  {
    var k := KindOf(enemyType);
    e := new Enemy(x, y, NameOf(k, level), TypeName(k), level);
    e.AddKindTags();
  }

  /** `createRandomEnemy`: an orc or an eagle, by the draw. */
  method CreateRandomEnemy(x: real, y: real, level: int, r: real) returns (e: Enemy)
    requires level >= 1 && IsDraw(r)
    ensures fresh(e) && e.Valid() && e.Scaled() && e.isAlive && (e.kind == Orc || e.kind == Eagle)
  {
    var types := ["orc", "eagle"];
    e := CreateEnemy(types[RandomInt(0, |types| - 1, r)], x, y, level);
  }

  /** `createBoss`: a dragon or a phoenix, by the draw. */
  method CreateBoss(x: real, y: real, level: int, r: real) returns (e: Enemy)
    requires level >= 1 && IsDraw(r)
    ensures fresh(e) && e.Valid() && e.Scaled() && e.isAlive && (e.kind == Dragon || e.kind == Phoenix)
  {
    var types := ["dragon", "phoenix"];
    e := CreateEnemy(types[RandomInt(0, |types| - 1, r)], x, y, level);
  }

  /** The factory as the source writes it: the constructor never assigns `isAlive`, which then
      reads as undefined, and every test of it as false. */
  method CreateEnemyAsWritten(enemyType: string, x: real, y: real, level: int) returns (e: Enemy)
    requires level >= 1
    ensures fresh(e) && e.Valid() && e.Scaled() && !e.isAlive && e.health == e.maxHealth > 0.0
    ensures e.kind == KindOf(enemyType)
  {
    e := CreateEnemy(enemyType, x, y, level);
    e.isAlive := false;
  }

  /** With the source's constructor, a freshly built enemy shrugs off any hit: it takes no damage
      and keeps full health. */
  method FreshEnemyIgnoresHitsAsWritten(enemyType: string, damage: real) returns (dealt: real, health: real, maxHealth: real)
    ensures dealt == 0.0 && health == maxHealth
  {
    var e := CreateEnemyAsWritten(enemyType, 0.0, 0.0, 1);
    dealt := e.TakeDamage(damage, Physical);
    health, maxHealth := e.health, e.maxHealth;
  }

  /** With `isAlive` set, a freshly built enemy takes every hit: at least 1 point of physical
      damage, all of any other type. */
  method FreshEnemyTakesHits(enemyType: string, damage: real, damageType: DamageType) returns (dealt: real)
    ensures damageType == Physical ==> dealt >= 1.0
    ensures damageType != Physical ==> dealt == damage
  {
    var e := CreateEnemy(enemyType, 0.0, 0.0, 1);
    dealt := e.TakeDamage(damage, damageType);
  }
}
