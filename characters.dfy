/** The playable character (js/characters.js): class attributes, derived combat statistics,
    experience and levels, damage and healing, resource pools, active effects, per-frame
    regeneration, the sixteen class skills and the save format. */
module Characters {
  import opened Utils
  import opened Classes

  // ===========================================================================
  // Classes and their starting attributes

  datatype CharClass = Mage | Archer | Knight | Valkyrie | NoClass

  function ClassOf(characterClass: string): CharClass
  {
    match characterClass
    case "mage" => Mage
    case "archer" => Archer
    case "knight" => Knight
    case "valkyrie" => Valkyrie
    case _ => NoClass
  }

  /** `setupClassAttributes`, written over the default sheet of tens (an unknown class keeps it). */
  function StartingAttributes(c: CharClass): AttrValues
  {
    match c
    case Mage => AttrValues(8, 18, 12, 14, 8, 16)
    case Archer => AttrValues(10, 12, 18, 12, 10, 14)
    case Knight => AttrValues(18, 10, 8, 16, 16, 10)
    case Valkyrie => AttrValues(14, 14, 16, 18, 12, 16)
    case NoClass => AttrValues(10, 10, 10, 10, 10, 10)
  }

  // ===========================================================================
  // Derived statistics

  datatype CombatStats = CombatStats(maxHealth: real, maxMana: real, maxStamina: real,
                                     attack: real, defense: real, magicAttack: real, magicDefense: real,
                                     speed: real, criticalChance: real)

  /** `updateStats` before clamping: the attribute formulas plus the equipment total of every key
      that names one of these statistics. */
  function DerivedStats(a: AttrValues, level: int, equip: map<string, int>): CombatStats
  {
    var strMod := GetModifier(a.strength);
    var intMod := GetModifier(a.intelligence);
    var agiMod := GetModifier(a.agility);
    var conMod := GetModifier(a.constitution);
    var wisMod := GetModifier(a.wisdom);
    CombatStats(
      maxHealth := (100 + conMod * 10 + (level - 1) * 5 + Get0(equip, "maxHealth")) as real,
      maxMana := (100 + intMod * 8 + (level - 1) * 3 + Get0(equip, "maxMana")) as real,
      maxStamina := (100 + agiMod * 5 + (level - 1) * 2 + Get0(equip, "maxStamina")) as real,
      attack := (10 + strMod * 2 + Get0(equip, "attack")) as real,
      defense := (5 + conMod * 2 + Get0(equip, "defense")) as real,
      magicAttack := (10 + intMod * 2 + Get0(equip, "magicAttack")) as real,
      magicDefense := (5 + wisMod * 2 + Get0(equip, "magicDefense")) as real,
      speed := (100 + agiMod * 5 + Get0(equip, "speed")) as real,
      criticalChance := (5 + agiMod + Get0(equip, "criticalChance")) as real)
  }

  /** A level-up never lowers a pool maximum: the level term grows and every attribute either
      grows or stays. */
  lemma LevelUpRaisesMaxima(a: AttrValues, level: int, equip: map<string, int>)
    requires forall n :: a.Get(n) <= 20
    ensures var before := DerivedStats(a, level, equip);
            var after := DerivedStats(RaiseOnce(a), level + 1, equip);
            before.maxHealth + 5.0 <= after.maxHealth &&
            before.maxMana + 3.0 <= after.maxMana &&
            before.maxStamina + 2.0 <= after.maxStamina
  {
    assert a.Get(Constitution) <= 20 && a.Get(Intelligence) <= 20 && a.Get(Agility) <= 20;
    ModifierFloorsAndIsMonotone(a.constitution, MinInt(a.constitution + 1, 20));
    ModifierFloorsAndIsMonotone(a.intelligence, MinInt(a.intelligence + 1, 20));
    ModifierFloorsAndIsMonotone(a.agility, MinInt(a.agility + 1, 20));
  }

  /** Without equipment, a sheet with every attribute in [1, 20] has positive pool maxima. */
  lemma MaximaPositive(a: AttrValues, level: int)
    requires level >= 1
    requires forall n :: 1 <= a.Get(n) <= 20
    ensures var s := DerivedStats(a, level, map[]);
            s.maxHealth >= 50.0 && s.maxMana >= 60.0 && s.maxStamina >= 75.0
  {
    assert 1 <= a.Get(Constitution) && 1 <= a.Get(Intelligence) && 1 <= a.Get(Agility);
  }

  /** One level-up of the attribute sheet: the six `increase(name, 1)` calls of `levelUp`. */
  function RaiseOnce(a: AttrValues): AttrValues
  {
    AttrValues(MinInt(a.strength + 1, 20), MinInt(a.intelligence + 1, 20), MinInt(a.agility + 1, 20),
               MinInt(a.charisma + 1, 20), MinInt(a.constitution + 1, 20), MinInt(a.wisdom + 1, 20))
  }

  /** n level-ups of the attribute sheet. */
  function RaiseTimes(a: AttrValues, n: nat): AttrValues
    decreases n
  {
    if n == 0 then a else RaiseOnce(RaiseTimes(a, n - 1))
  }

  /** n level-ups raise each attribute by n, capped at 20: an attribute never passes 20 and
      never falls. */
  lemma {:induction false} RaiseTimesCaps(a: AttrValues, n: nat, name: AttrName)
    requires a.Get(name) <= 20
    ensures RaiseTimes(a, n).Get(name) == MinInt(a.Get(name) + n, 20)
    decreases n
  {
    if n > 0 {
      RaiseTimesCaps(a, n - 1, name);
    }
  }

  // ===========================================================================
  // Experience

  /** The loop of `Character.gainExperience` (after adding the amount): level up while the
      threshold is met. There is no level cap here, unlike a skill's. */
  function CharLevelLoop(p: Progress): (r: Progress)
    requires p.level >= 1 && p.experienceToNext >= 100
    ensures r.level >= p.level && r.experienceToNext >= 100
    ensures r.experience < r.experienceToNext
    ensures p.experience >= 0 ==> r.experience >= 0
    ensures r.level == p.level ==> r == p
    decreases p.experience
  {
    if p.experience >= p.experienceToNext then CharLevelLoop(LevelUpOnce(p)) else p
  }

  /** Gaining exactly the current threshold, with the threshold the level calls for, is exactly
      one level-up that keeps the experience already held. */
  lemma ExactThresholdIsOneLevel(p: Progress)
    requires p.level >= 1 && p.experienceToNext == ExperienceForLevel(p.level + 1)
    requires 0 <= p.experience < p.experienceToNext
    ensures CharLevelLoop(p.(experience := p.experience + p.experienceToNext)) ==
            Progress(p.level + 1, p.experience, ExperienceForLevel(p.level + 2))
  {
    ExperienceForLevelMonotone(p.level + 1, p.level + 2);
    var q := LevelUpOnce(p.(experience := p.experience + p.experienceToNext));
    assert q.experience < q.experienceToNext;
  }

  // ===========================================================================
  // Damage

  datatype DamageType = Physical | Magical | Untyped

  /** The damage left after resistances: physical against defense, magical against magic
      defense, both at least 1; any other type passes unchanged. */
  function Mitigated(damage: real, damageType: DamageType, defense: real, magicDefense: real): (r: real)
    ensures damageType.Physical? ==> r >= 1.0 && r >= damage - defense && (damage - defense >= 1.0 ==> r == damage - defense)
    ensures damageType.Magical? ==> r >= 1.0 && r >= damage - magicDefense && (damage - magicDefense >= 1.0 ==> r == damage - magicDefense)
    ensures damageType.Untyped? ==> r == damage
  {
    match damageType
    case Physical => Max(1.0, damage - defense)
    case Magical => Max(1.0, damage - magicDefense)
    case Untyped => damage
  }

  // ===========================================================================
  // Skills

  datatype SkillKind =
    | Fireball | IceShield | LightningBolt | Teleport
    | PreciseShot | Stealth | Trap | MultiShot
    | Slash | ShieldBash | Charge | Guardian
    | DivineStrike | HealSpell | Aura | Ascension

  type CharSkill = Skill<SkillKind>

  /** `initializeClassSkills`: four skills per class, in this order; none for an unknown class. */
  function ClassSkills(c: CharClass): (ks: seq<SkillKind>)
    ensures c != NoClass ==> |ks| == 4
    ensures c == NoClass ==> ks == []
  {
    match c
    case Mage => [Fireball, IceShield, LightningBolt, Teleport]
    case Archer => [PreciseShot, Stealth, Trap, MultiShot]
    case Knight => [Slash, ShieldBash, Charge, Guardian]
    case Valkyrie => [DivineStrike, HealSpell, Aura, Ascension]
    case NoClass => []
  }

  /** What a skill's constructor sets: name, governing attribute, cooldown, mana and stamina cost. */
  datatype SkillKit = SkillKit(name: string, baseAttribute: AttrName, maxCooldown: real, manaCost: real, staminaCost: real)

  function KitOf(k: SkillKind): SkillKit
  {
    match k
    case Fireball => SkillKit("Palla di Fuoco", Intelligence, 3.0, 25.0, 0.0)
    case IceShield => SkillKit("Scudo di Ghiaccio", Intelligence, 8.0, 40.0, 0.0)
    case LightningBolt => SkillKit("Fulmine", Intelligence, 5.0, 35.0, 0.0)
    case Teleport => SkillKit("Teletrasporto", Intelligence, 12.0, 50.0, 0.0)
    case PreciseShot => SkillKit("Tiro Preciso", Agility, 2.0, 0.0, 15.0)
    case Stealth => SkillKit("Furtivit\U{e0}", Agility, 15.0, 0.0, 30.0)
    case Trap => SkillKit("Trappola", Agility, 10.0, 0.0, 25.0)
    case MultiShot => SkillKit("Tiro Multiplo", Agility, 6.0, 0.0, 35.0)
    case Slash => SkillKit("Fendente", Strength, 1.5, 0.0, 20.0)
    case ShieldBash => SkillKit("Scudo Spinta", Strength, 4.0, 0.0, 25.0)
    case Charge => SkillKit("Carica", Strength, 8.0, 0.0, 40.0)
    case Guardian => SkillKit("Guardiano", Strength, 12.0, 0.0, 30.0)
    case DivineStrike => SkillKit("Colpo Divino", Charisma, 4.0, 30.0, 0.0)
    case HealSpell => SkillKit("Cura", Charisma, 6.0, 40.0, 0.0)
    case Aura => SkillKit("Aura Divina", Charisma, 15.0, 50.0, 0.0)
    case Ascension => SkillKit("Ascensione", Charisma, 20.0, 60.0, 0.0)
  }

  /** The range within which a skill acts on its target, for the skills that check one. */
  function RangeOf(k: SkillKind): Option<real>
  {
    match k
    case Fireball => Some(150.0)
    case PreciseShot => Some(200.0)
    case Slash => Some(40.0)
    case ShieldBash => Some(35.0)
    case Charge => Some(80.0)
    case DivineStrike => Some(50.0)
    case HealSpell => Some(100.0)
    case _ => None
  }

  /** Whether a target at squared centre distance `distSq` is within `range` (no target: never). */
  predicate Within(target: Option<real>, range: real)
  {
    target.Some? && target.value <= range * range
  }

  /** What `execute` does. Damage and healing of another object are returned for the caller to
      apply; the self-effects are applied by the character. Two skills call a method that
      enemies lack: Shield Bash's stun (`target.addEffect`) after its damage, and Heal on an
      enemy target (`target.heal`); the call raises, which is reported as a fault. */
  datatype SkillOutcome =
    | Nothing
    | Damage(amount: real, damageType: DamageType)
    | DamageThenFault(amount: real)
    | HealFault
    | SelfEffect(name: string, duration: real, effectType: EffectType, magnitude: real)
    | SelfHeal(amount: real)

  /** `execute(character, target)` for each skill; `target` is the squared distance to the
      nearest enemy, if there is one, and `critDraw` the draw Precise Shot rolls. */
  function Execute(k: SkillKind, a: AttrValues, criticalChance: real, criticalMultiplier: real,
                   target: Option<real>, critDraw: real): (r: SkillOutcome)
    ensures (r.Damage? || r.DamageThenFault? || r.HealFault?) ==> RangeOf(k).Some? && Within(target, RangeOf(k).value)
    ensures RangeOf(k).Some? && !Within(target, RangeOf(k).value) && !(k == HealSpell && target.None?) ==> r == Nothing
    ensures r.SelfHeal? ==> k == HealSpell && target.None?
    ensures r.SelfEffect? ==> r.name == KitOf(k).name && r.duration > 0.0 && r.effectType == Buff
    ensures k == ShieldBash ==> !r.Damage?
  {
    match k
    case Fireball =>
      if Within(target, 150.0) then Damage((40 + GetModifier(a.intelligence) * 5) as real, Magical) else Nothing
    case IceShield => SelfEffect("Scudo di Ghiaccio", 10.0, Buff, 50.0)
    case LightningBolt => Nothing
    case Teleport => Nothing
    case PreciseShot =>
      if Within(target, 200.0) then
        var damage := (35 + GetModifier(a.agility) * 3) as real;
        var isCritical := critDraw * 100.0 < criticalChance + 25.0;
        Damage(if isCritical then damage * criticalMultiplier else damage, Physical)
      else Nothing
    case Stealth => SelfEffect("Furtivit\U{e0}", 8.0, Buff, 1.0)
    case Trap => Nothing
    case MultiShot => Nothing
    case Slash =>
      if Within(target, 40.0) then Damage((45 + GetModifier(a.strength) * 4) as real, Physical) else Nothing
    case ShieldBash =>
      if Within(target, 35.0) then DamageThenFault((20 + GetModifier(a.strength) * 2) as real) else Nothing
    case Charge =>
      if Within(target, 80.0) then Damage((60 + GetModifier(a.strength) * 5) as real, Physical) else Nothing
    case Guardian => SelfEffect("Guardiano", 15.0, Buff, 20.0)
    case DivineStrike =>
      if Within(target, 50.0) then Damage((40 + GetModifier(a.charisma) * 3) as real, Magical) else Nothing
    case HealSpell =>
      if target.None? then SelfHeal((60 + GetModifier(a.charisma) * 4) as real)
      else if Within(target, 100.0) then HealFault
      else Nothing
    case Aura => SelfEffect("Aura Divina", 20.0, Buff, 1.0)
    case Ascension => SelfEffect("Ascensione", 8.0, Buff, 1.0)
  }

  predicate Distinct<T(==)>(s: seq<T>)
  {
    forall i, j :: 0 <= i < j < |s| ==> s[i] != s[j]
  }

  /** Index of the first effect with this name, or -1 (`find`/`findIndex` by name). */
  function FirstNamed(es: seq<Effect>, name: string): (i: int)
    ensures -1 <= i < |es|
    ensures i >= 0 ==> es[i].name == name && forall j :: 0 <= j < i ==> es[j].name != name
    ensures i == -1 ==> forall j :: 0 <= j < |es| ==> es[j].name != name
  {
    if es == [] then -1
    else if es[0].name == name then 0
    else
      var i := FirstNamed(es[1..], name);
      if i == -1 then -1 else i + 1
  }

  /** The effects whose duration in `ds` (one per effect) is still positive, in their order. */
  function Kept(es: seq<Effect>, ds: seq<real>): (r: seq<Effect>)
    requires |ds| == |es|
    ensures |r| <= |es|
  {
    if es == [] then [] else (if ds[0] > 0.0 then [es[0]] else []) + Kept(es[1..], ds[1..])
  }

  /** An effect is kept exactly when it stands at a position whose duration is positive. */
  lemma {:induction false} KeptMembers(es: seq<Effect>, ds: seq<real>)
    requires |ds| == |es|
    ensures forall e :: e in Kept(es, ds) ==> exists j :: 0 <= j < |es| && es[j] == e && ds[j] > 0.0
    ensures forall j :: 0 <= j < |es| && ds[j] > 0.0 ==> es[j] in Kept(es, ds)
    decreases |es|
  {
    if es != [] {
      KeptMembers(es[1..], ds[1..]);
      assert forall j :: 1 <= j < |es| ==> es[1..][j - 1] == es[j] && ds[1..][j - 1] == ds[j];
    }
  }

  lemma KeptStep(es: seq<Effect>, ds: seq<real>, i: int)
    requires |ds| == |es| && 0 <= i < |es|
    ensures Kept(es[i..], ds[i..]) == (if ds[i] > 0.0 then [es[i]] else []) + Kept(es[i + 1..], ds[i + 1..])
  {
    assert es[i..][1..] == es[i + 1..] && ds[i..][1..] == ds[i + 1..];
  }

  /** Where the backward splice loop stands before handling index i: `es` is the list it started
      from and `od` the durations before the frame. Everything after i has ticked and been
      pruned; everything up to i is untouched. */
  ghost predicate Pruning(es: seq<Effect>, od: seq<real>, ae: seq<Effect>, i: int, dt: real)
  {
    -1 <= i < |es| && |od| == |es| && i < |ae| &&
    ae[..i + 1] == es[..i + 1] && ae[i + 1..] == Kept(es[i + 1..], Ticked(od[i + 1..], dt))
  }

  /** The durations while the loop stands at i: ticked after i, untouched up to i. */
  function Midway(od: seq<real>, i: int, dt: real): seq<real>
    requires -1 <= i < |od|
  {
    od[..i + 1] + Ticked(od[i + 1..], dt)
  }

  /** The list after handling index i, whose duration is now d. */
  function Next(ae: seq<Effect>, i: int, d: real): seq<Effect>
    requires 0 <= i < |ae|
  {
    if d > 0.0 then ae else ae[..i] + ae[i + 1..]
  }

  /** One step of the loop on the list: element i is kept when its ticked duration is positive
      and dropped otherwise. */
  lemma PruningStep(es: seq<Effect>, od: seq<real>, ae: seq<Effect>, i: int, dt: real)
    requires Pruning(es, od, ae, i, dt) && i >= 0
    ensures Pruning(es, od, Next(ae, i, od[i] - dt), i - 1, dt)
    ensures ae[i] == es[i]
  {
    var t := Ticked(od[i..], dt);
    assert t[1..] == Ticked(od[i + 1..], dt);
    assert es[i..][1..] == es[i + 1..];
    assert Kept(es[i..], t) == (if od[i] - dt > 0.0 then [es[i]] else []) + ae[i + 1..];
    assert ae[i] == es[i] by {
      assert ae[i] == ae[..i + 1][i] && es[i] == es[..i + 1][i];
    }
    assert ae[..i] == es[..i] by {
      assert ae[..i] == ae[..i + 1][..i] && es[..i] == es[..i + 1][..i];
    }
    var n := Next(ae, i, od[i] - dt);
    if od[i] - dt > 0.0 {
      assert n[i..] == [ae[i]] + ae[i + 1..];
    } else {
      assert n[..i] == ae[..i] && n[i..] == ae[i + 1..];
    }
  }

  /** One step of the loop on the durations: entry i ticks. */
  lemma MidwayStep(od: seq<real>, i: int, dt: real)
    requires 0 <= i < |od|
    ensures Midway(od, i, dt)[i] == od[i]
    ensures Midway(od, i, dt)[i := od[i] - dt] == Midway(od, i - 1, dt)
  {
    var a := Midway(od, i, dt)[i := od[i] - dt];
    var b := Midway(od, i - 1, dt);
    assert |a| == |b|;
    forall j | 0 <= j < |a| ensures a[j] == b[j] {
    }
  }

  /** When the loop ends, every effect has ticked and the list is pruned. */
  lemma PruningDone(es: seq<Effect>, od: seq<real>, ae: seq<Effect>, dt: real)
    requires Pruning(es, od, ae, -1, dt)
    ensures ae == Kept(es, Ticked(od, dt)) && Midway(od, -1, dt) == Ticked(od, dt)
  {
    assert es[0..] == es && od[0..] == od && ae[0..] == ae;
  }

  /** Pruning keeps the effects distinct. */
  lemma {:induction false} KeptDistinct(es: seq<Effect>, ds: seq<real>)
    requires |ds| == |es| && Distinct(es)
    ensures Distinct(Kept(es, ds))
    decreases |es|
  {
    if es != [] {
      assert Distinct(es[1..]) by {
        forall i, j | 0 <= i < j < |es[1..]| ensures es[1..][i] != es[1..][j] {
          assert es[1..][i] == es[i + 1] && es[1..][j] == es[j + 1];
        }
      }
      KeptDistinct(es[1..], ds[1..]);
      KeptMembers(es[1..], ds[1..]);
      assert es[0] !in Kept(es[1..], ds[1..]);
    }
  }

  /** The remaining duration of each effect. */
  function Remaining(es: seq<Effect>): (ds: seq<real>)
    reads es
    ensures |ds| == |es| && forall j :: 0 <= j < |es| ==> ds[j] == es[j].remainingDuration
  {
    if es == [] then [] else [es[0].remainingDuration] + Remaining(es[1..])
  }

  /** Every duration shortened by `dt`. */
  function Ticked(ds: seq<real>, dt: real): (r: seq<real>)
    ensures |r| == |ds| && forall j :: 0 <= j < |ds| ==> r[j] == ds[j] - dt
  {
    seq(|ds|, j requires 0 <= j < |ds| => ds[j] - dt)
  }

  /** The effects whose remaining duration is still positive, in their order. */
  function Survivors(es: seq<Effect>): seq<Effect>
    reads es
  {
    Kept(es, Remaining(es))
  }

  /** The survivors are exactly the listed effects that still have time left. */
  lemma SurvivorsAreTheLiveEffects(es: seq<Effect>)
    ensures |Survivors(es)| <= |es|
    ensures forall e :: e in Survivors(es) ==> e in es && e.remainingDuration > 0.0
    ensures forall e :: e in es && e.remainingDuration > 0.0 ==> e in Survivors(es)
  {
    KeptMembers(es, Remaining(es));
  }

  /** What `Character.toJSON` keeps. */
  datatype CharacterSave = CharacterSave(
    name: string, characterClass: string, level: int, experience: int, attributes: AttrValues,
    health: real, mana: real, stamina: real, skills: seq<SkillSave>,
    inventory: InventorySave, equipment: EquipmentSave, x: real, y: real)

  function SkillSaves(ss: seq<CharSkill>): (r: seq<SkillSave>)
    reads ss
    ensures |r| == |ss| && forall i :: 0 <= i < |ss| ==> r[i] == ss[i].ToJSON()
  {
    if ss == [] then [] else SkillSaves(ss[..|ss| - 1]) + [ss[|ss| - 1].ToJSON()]
  }

  datatype Facing = Up | Down | Left | Right

  /** A new skill of the given kind, as its constructor leaves it. */
  method NewSkill(k: SkillKind) returns (s: CharSkill)
    ensures fresh(s) && s.Valid() && s.kind == k && s.GetProgress() == Progress(1, 0, ExperienceForLevel(2))
    ensures s.cooldown == 0.0 && s.name == KitOf(k).name && s.maxCooldown == KitOf(k).maxCooldown
    ensures s.manaCost == KitOf(k).manaCost && s.staminaCost == KitOf(k).staminaCost
  {
    var kit := KitOf(k);
    s := new Skill(k, kit.name, kit.baseAttribute, kit.maxCooldown, kit.manaCost, kit.staminaCost);
  }

  // ===========================================================================
  // Character

  /** Current health, mana and stamina lie between 0 and their maxima. */
  predicate PoolsWithin(health: real, mana: real, stamina: real, stats: CombatStats)
  {
    0.0 <= health <= stats.maxHealth && 0.0 <= mana <= stats.maxMana && 0.0 <= stamina <= stats.maxStamina
  }

  class Character {
    var name: string
    var characterClass: string
    var level: int
    var experience: int
    var experienceToNext: int
    const attributes: Attributes
    var health: real
    var mana: real
    var stamina: real
    var stats: CombatStats
    const criticalMultiplier: real
    var skills: seq<CharSkill>
    var activeEffects: seq<Effect>
    const inventory: Inventory
    const equipment: Equipment
    var isAlive: bool
    var isMoving: bool
    var facingDirection: Facing
    var x: real
    var y: real
    var velocityX: real
    var velocityY: real

    /** Levels start at 1 and the threshold at the first one; skills and effects are distinct
        objects, and every skill is at level 1 or above. */
    ghost predicate Valid()
      reads this`level, this`experienceToNext, this`skills, this`activeEffects, skills
    {
      level >= 1 && experienceToNext >= 100 &&
      Distinct(skills) && Distinct(activeEffects) &&
      forall j :: 0 <= j < |skills| ==> skills[j].Valid()
    }

    /** The statistics are the ones the attributes, the level and the equipment call for. */
    ghost predicate StatsCurrent()
      reads this`stats, this`level, attributes, equipment
    {
      stats == DerivedStats(attributes.Values(), level, StatTotals(equipment.slots, SlotNames))
    }

    /** Current health, mana and stamina lie between 0 and their maxima. */

    /** The skills are the four of the character's class, in order. */
    predicate SkillsMatchClass()
      reads this, skills
    {
      |skills| == |ClassSkills(ClassOf(characterClass))| &&
      forall i :: 0 <= i < |skills| ==> skills[i].kind == ClassSkills(ClassOf(characterClass))[i]
    }

    /** The threshold is the one the current level calls for. */
    predicate ThresholdCurrent()
      reads this`level, this`experienceToNext
    {
      level >= 1 && experienceToNext == ExperienceForLevel(level + 1)
    }

    /** No active effect can take another stack (every effect is created with a stack limit of 1). */
    predicate EffectsUnstackable()
      reads this, activeEffects
    {
      forall e :: e in activeEffects ==> !e.CanStack()
    }

    function GetProgress(): Progress
      reads this`level, this`experience, this`experienceToNext
    {
      Progress(level, experience, experienceToNext)
    }

    constructor (x: real, y: real, name: string, characterClass: string)
      ensures Valid() && StatsCurrent() && inventory.Valid() && equipment.Valid()
      ensures fresh(attributes) && fresh(inventory) && fresh(equipment)
      ensures this.name == name && this.characterClass == characterClass && this.x == x && this.y == y
      ensures level == 1 && experience == 0 && ThresholdCurrent()
      ensures attributes.Values() == StartingAttributes(ClassOf(characterClass))
      ensures health == Min(100.0, stats.maxHealth) && mana == Min(100.0, stats.maxMana)
      ensures stamina == Min(100.0, stats.maxStamina)
      ensures SkillsMatchClass() && activeEffects == [] && isAlive
      ensures forall j :: 0 <= j < |skills| ==> skills[j].GetProgress() == Progress(1, 0, ExperienceForLevel(2)) && skills[j].cooldown == 0.0
    {
      this.name := name;
      this.characterClass := characterClass;
      level := 1;
      experience := 0;
      experienceToNext := ExperienceForLevel(2);
      var c := ClassOf(characterClass);
      var attrs := NewSheet(c);
      attributes := attrs;
      criticalMultiplier := 1.5;
      var ks := NewClassSkills(c);
      skills := ks;
      activeEffects := [];
      var inv, eq, equipBonus := NewOutfit();
      inventory, equipment := inv, eq;
      isAlive := true;
      isMoving := false;
      facingDirection := Down;
      this.x, this.y := x, y;
      velocityX, velocityY := 0.0, 0.0;
      // the closing `updateStats()`, over pools of 100
      var st := DerivedStats(attrs.Values(), 1, equipBonus);
      stats := st;
      health, mana, stamina := Min(100.0, st.maxHealth), Min(100.0, st.maxMana), Min(100.0, st.maxStamina);
    }

    /** `updateStats`: recomputes the statistics and clamps the pools to the new maxima. */
    method UpdateStats()
      modifies this`stats, this`health, this`mana, this`stamina
      ensures StatsCurrent()
      ensures health == Min(old(health), stats.maxHealth)
      ensures mana == Min(old(mana), stats.maxMana)
      ensures stamina == Min(old(stamina), stats.maxStamina)
    {
      var equipBonus := equipment.GetTotalStats();
      stats := DerivedStats(attributes.Values(), level, equipBonus);
      health := Min(health, stats.maxHealth);
      mana := Min(mana, stats.maxMana);
      stamina := Min(stamina, stats.maxStamina);
    }

    /** `levelUp`: one level, the threshold paid, attributes raised, statistics recomputed,
        pools refilled, and 50 experience for every skill. */
    method LevelUp()
      requires Valid()
      modifies this`level, this`experience, this`experienceToNext, this`stats, this`health, this`mana, this`stamina, attributes, skills
      ensures Valid() && StatsCurrent()
      ensures GetProgress() == LevelUpOnce(old(GetProgress())) && ThresholdCurrent()
      ensures attributes.Values() == RaiseOnce(old(attributes.Values()))
      ensures health == stats.maxHealth && mana == stats.maxMana && stamina == stats.maxStamina
      ensures forall j :: 0 <= j < |skills| ==>
                skills[j].GetProgress() == Gained(old(skills[j].GetProgress()), 50, skills[j].maxLevel)
      ensures forall j :: 0 <= j < |skills| ==> skills[j].cooldown == old(skills[j].cooldown)
    {
      RaiseSheet();
      GrantSkillExperience(50);
    }

    /** Everything `levelUp` does to the character's own sheet: one more level with the
        threshold paid, attributes raised, statistics recomputed and pools refilled. */
    method RaiseSheet()
      requires Valid()
      modifies this`level, this`experience, this`experienceToNext, this`stats, this`health, this`mana, this`stamina, attributes
      ensures Valid() && StatsCurrent()
      ensures GetProgress() == LevelUpOnce(old(GetProgress())) && ThresholdCurrent()
      ensures attributes.Values() == RaiseOnce(old(attributes.Values()))
      ensures health == stats.maxHealth && mana == stats.maxMana && stamina == stats.maxStamina
    {
      AdvanceLevel();
      RaiseAttributes(attributes);
      RefillPools();
    }

    /** The first lines of `levelUp`: one more level, the threshold paid out of the experience,
        and the next threshold set. */
    method AdvanceLevel()
      requires Valid()
      modifies this`level, this`experience, this`experienceToNext
      ensures Valid() && GetProgress() == LevelUpOnce(old(GetProgress())) && ThresholdCurrent()
    {
      level := level + 1;
      experience := experience - experienceToNext;
      experienceToNext := ExperienceForLevel(level + 1);
    }

    /** The middle of `levelUp`: statistics recomputed, then every pool filled to its maximum. */
    method RefillPools()
      modifies this`stats, this`health, this`mana, this`stamina
      ensures StatsCurrent()
      ensures health == stats.maxHealth && mana == stats.maxMana && stamina == stats.maxStamina
    {
      UpdateStats();
      health := stats.maxHealth;
      mana := stats.maxMana;
      stamina := stats.maxStamina;
    }

    /** The loop at the end of `levelUp`: every skill gains the same experience. */
    method GrantSkillExperience(amount: int)
      requires Valid()
      modifies skills
      ensures Valid()
      ensures forall j :: 0 <= j < |skills| ==>
                skills[j].GetProgress() == Gained(old(skills[j].GetProgress()), amount, skills[j].maxLevel)
      ensures forall j :: 0 <= j < |skills| ==> skills[j].cooldown == old(skills[j].cooldown) && skills[j].name == old(skills[j].name)
    {
      var i := 0;
      while i < |skills|
        invariant 0 <= i <= |skills| && Valid()
        invariant forall j :: 0 <= j < |skills| ==> old(skills[j].level) >= 1
        invariant forall j :: 0 <= j < |skills| ==> skills[j].cooldown == old(skills[j].cooldown) && skills[j].name == old(skills[j].name)
        invariant forall j :: 0 <= j < i ==>
                    skills[j].GetProgress() == Gained(old(skills[j].GetProgress()), amount, skills[j].maxLevel)
        invariant forall j :: i <= j < |skills| ==> skills[j].GetProgress() == old(skills[j].GetProgress())
      {
        skills[i].GainExperience(amount);
        i := i + 1;
      }
    }

    /** Every skill's progress is n grants of 50 experience on from its entry in ps, and its
        cooldown is its entry in cds. */
    ghost predicate SkillsGranted(ps: seq<Progress>, cds: seq<real>, n: nat)
      reads this`skills, skills
    {
      |ps| == |skills| && |cds| == |skills| &&
      forall j :: 0 <= j < |skills| ==>
        ps[j].level >= 1 && skills[j].GetProgress() == GainedTimes(ps[j], 50, skills[j].maxLevel, n) && skills[j].cooldown == cds[j]
    }

    /** One more grant of 50 to every skill moves each one grant further on from ps. */
    lemma GrantedOnceMore(ps: seq<Progress>, cds: seq<real>, before: seq<Progress>, k: nat)
      requires |ps| == |before| == |skills| == |cds|
      requires forall j :: 0 <= j < |skills| ==>
                 ps[j].level >= 1 && before[j] == GainedTimes(ps[j], 50, skills[j].maxLevel, k) &&
                 skills[j].GetProgress() == Gained(before[j], 50, skills[j].maxLevel) && skills[j].cooldown == cds[j]
      ensures SkillsGranted(ps, cds, k + 1)
    {
      forall j | 0 <= j < |skills|
        ensures skills[j].GetProgress() == GainedTimes(ps[j], 50, skills[j].maxLevel, k + 1)
      {
        GainedTimesStep(ps[j], 50, skills[j].maxLevel, k);
      }
    }

    /** `levelUp` as one pass of the loop of `gainExperience`: every skill is one more grant
        of 50 on from ps. */
    method LevelUpCounted(ghost ps: seq<Progress>, ghost cds: seq<real>, ghost k: nat)
      requires Valid() && SkillsGranted(ps, cds, k)
      modifies this`level, this`experience, this`experienceToNext, this`stats, this`health, this`mana, this`stamina, attributes, skills
      ensures Valid() && StatsCurrent() && SkillsGranted(ps, cds, k + 1)
      ensures GetProgress() == LevelUpOnce(old(GetProgress())) && ThresholdCurrent()
      ensures attributes.Values() == RaiseOnce(old(attributes.Values()))
      ensures health == stats.maxHealth && mana == stats.maxMana && stamina == stats.maxStamina
    {
      ghost var before := ProgressOf(skills);
      LevelUp();
      GrantedOnceMore(ps, cds, before, k);
    }

    /** `gainExperience`: adds the amount and levels up while the threshold is met; every skill
        gains 50 experience for each level gained. */
    method GainExperience(amount: int)
      requires Valid()
      modifies this`level, this`experience, this`experienceToNext, this`stats, this`health, this`mana, this`stamina, attributes, skills
      ensures Valid() && level >= old(level)
      ensures old(StatsCurrent()) || level > old(level) ==> StatsCurrent()
      ensures GetProgress() == CharLevelLoop(old(GetProgress()).(experience := old(experience) + amount))
      ensures attributes.Values() == RaiseTimes(old(attributes.Values()), level - old(level))
      ensures level > old(level) ==> health == stats.maxHealth && mana == stats.maxMana && stamina == stats.maxStamina
      ensures level == old(level) ==> health == old(health) && mana == old(mana) && stamina == old(stamina)
      ensures old(ThresholdCurrent()) ==> ThresholdCurrent()
      ensures SkillsGranted(old(ProgressOf(skills)), old(CooldownsOf(skills)), level - old(level))
    {
      ghost var level0, attrs0, pools0 := level, attributes.Values(), (health, mana, stamina);
      ghost var current0, threshold0 := StatsCurrent(), ThresholdCurrent();
      ghost var ps, cds := ProgressOf(skills), CooldownsOf(skills);
      experience := experience + amount;
      ghost var start := GetProgress();
      assert start == old(GetProgress()).(experience := old(experience) + amount);
      while experience >= experienceToNext
        invariant Valid() && level >= level0
        invariant current0 || level > level0 ==> StatsCurrent()
        invariant CharLevelLoop(GetProgress()) == CharLevelLoop(start)
        invariant attributes.Values() == RaiseTimes(attrs0, level - level0)
        invariant level > level0 ==> health == stats.maxHealth && mana == stats.maxMana && stamina == stats.maxStamina
        invariant level == level0 ==> (health, mana, stamina) == pools0
        invariant threshold0 || level > level0 ==> ThresholdCurrent()
        invariant SkillsGranted(ps, cds, level - level0)
        decreases experience
      {
        ghost var p, k := GetProgress(), level - level0;
        LevelUpCounted(ps, cds, k);
        assert CharLevelLoop(GetProgress()) == CharLevelLoop(p);
        assert level - level0 == k + 1;
      }
      assert CharLevelLoop(GetProgress()) == GetProgress();
    }

    /** `takeDamage`: nothing happens to a dead character; otherwise the mitigated damage is
        taken, health stops at 0 and a character at 0 dies. Returns the damage dealt. */
    method TakeDamage(damage: real, damageType: DamageType) returns (actual: real)
      modifies this`health, this`isAlive, this`velocityX, this`velocityY
      ensures !old(isAlive) ==> actual == 0.0 && unchanged(this)
      ensures old(isAlive) ==> actual == Mitigated(damage, damageType, stats.defense, stats.magicDefense)
      ensures old(isAlive) && old(health) - actual > 0.0 ==> health == old(health) - actual && isAlive
      ensures old(isAlive) && old(health) - actual <= 0.0 ==> health == 0.0 && !isAlive && velocityX == 0.0 && velocityY == 0.0
      ensures old(isAlive) && old(health) - actual > 0.0 ==> velocityX == old(velocityX) && velocityY == old(velocityY)
    {
      if !isAlive {
        return 0.0;
      }
      actual := Mitigated(damage, damageType, stats.defense, stats.magicDefense);
      health := health - actual;
      if health <= 0.0 {
        health := 0.0;
        Die();
      }
    }

    /** `die`. */
    method Die()
      modifies this`isAlive, this`velocityX, this`velocityY
      ensures !isAlive && velocityX == 0.0 && velocityY == 0.0
    {
      isAlive := false;
      velocityX, velocityY := 0.0, 0.0;
    }

    /** `respawn`: alive again with half of each pool. */
    method Respawn()
      modifies this`isAlive, this`health, this`mana, this`stamina
      ensures isAlive
      ensures health == stats.maxHealth * 0.5 && mana == stats.maxMana * 0.5 && stamina == stats.maxStamina * 0.5
      ensures stats.maxHealth >= 0.0 && stats.maxMana >= 0.0 && stats.maxStamina >= 0.0 ==> PoolsWithin(health, mana, stamina, stats)
    {
      isAlive := true;
      health := stats.maxHealth * 0.5;
      mana := stats.maxMana * 0.5;
      stamina := stats.maxStamina * 0.5;
    }

    /** `heal`: raises health by at most `amount` and never past the maximum; returns the gain. */
    method Heal(amount: real) returns (healed: real)
      modifies this`health
      ensures !old(isAlive) ==> healed == 0.0 && health == old(health)
      ensures old(isAlive) ==> health == Min(stats.maxHealth, old(health) + amount) && healed == health - old(health)
      ensures old(isAlive) && old(health) <= stats.maxHealth && amount >= 0.0 ==>
                0.0 <= healed <= amount && health <= stats.maxHealth && (healed < amount ==> health == stats.maxHealth)
      ensures old(health) == stats.maxHealth && amount >= 0.0 ==> healed == 0.0
    {
      if !isAlive {
        return 0.0;
      }
      var oldHealth := health;
      health := Min(stats.maxHealth, health + amount);
      healed := health - oldHealth;
    }

    /** `useMana`: pays only when the pool covers the amount. */
    method UseMana(amount: real) returns (ok: bool)
      modifies this`mana
      ensures ok <==> old(mana) >= amount
      ensures ok ==> mana == old(mana) - amount
      ensures !ok ==> mana == old(mana)
    {
      if mana < amount {
        return false;
      }
      mana := mana - amount;
      ok := true;
    }

    /** `restoreMana`: raises mana by at most `amount`, never past the maximum; returns the gain. */
    method RestoreMana(amount: real) returns (restored: real)
      modifies this`mana
      ensures mana == Min(stats.maxMana, old(mana) + amount) && restored == mana - old(mana)
      ensures old(mana) <= stats.maxMana && amount >= 0.0 ==>
                0.0 <= restored <= amount && mana <= stats.maxMana && (restored < amount ==> mana == stats.maxMana)
    {
      var oldMana := mana;
      mana := Min(stats.maxMana, mana + amount);
      restored := mana - oldMana;
    }

    /** `useStamina`: pays only when the pool covers the amount. */
    method UseStamina(amount: real) returns (ok: bool)
      modifies this`stamina
      ensures ok <==> old(stamina) >= amount
      ensures ok ==> stamina == old(stamina) - amount
      ensures !ok ==> stamina == old(stamina)
    {
      if stamina < amount {
        return false;
      }
      stamina := stamina - amount;
      ok := true;
    }

    /** `restoreStamina`: raises stamina by at most `amount`, never past the maximum; returns the gain. */
    method RestoreStamina(amount: real) returns (restored: real)
      modifies this`stamina
      ensures stamina == Min(stats.maxStamina, old(stamina) + amount) && restored == stamina - old(stamina)
      ensures old(stamina) <= stats.maxStamina && amount >= 0.0 ==>
                0.0 <= restored <= amount && stamina <= stats.maxStamina && (restored < amount ==> stamina == stats.maxStamina)
    {
      var oldStamina := stamina;
      stamina := Min(stats.maxStamina, stamina + amount);
      restored := stamina - oldStamina;
    }

    /** `addEffect`: stacks onto the first effect of the same name when that one can stack;
        otherwise appends the new effect, even next to a same-name effect that cannot stack. */
    method AddEffect(effect: Effect)
      requires Distinct(activeEffects) && effect !in activeEffects
      modifies this`activeEffects, activeEffects
      ensures Distinct(activeEffects)
      ensures var i := FirstNamed(old(activeEffects), effect.name);
              if i >= 0 && old(activeEffects[i].CanStack())
              then activeEffects == old(activeEffects) && activeEffects[i].stacks == old(activeEffects[i].stacks) + 1 &&
                   activeEffects[i].remainingDuration == activeEffects[i].duration
              else activeEffects == old(activeEffects) + [effect]
      ensures forall e :: e in old(activeEffects) && e.name != effect.name ==> unchanged(e)
      ensures old(EffectsUnstackable()) && !effect.CanStack() ==> EffectsUnstackable()
    {
      var i := FirstNamed(activeEffects, effect.name);
      if i >= 0 && activeEffects[i].CanStack() {
        activeEffects[i].AddStack();
      } else {
        activeEffects := activeEffects + [effect];
      }
    }

    /** `removeEffect`: removes the first effect of that name, if any. */
    method RemoveEffect(effectName: string)
      requires Distinct(activeEffects)
      modifies this`activeEffects
      ensures Distinct(activeEffects)
      ensures var i := FirstNamed(old(activeEffects), effectName);
              (i == -1 ==> activeEffects == old(activeEffects)) &&
              (i >= 0 ==> activeEffects == old(activeEffects)[..i] + old(activeEffects)[i + 1..])
    {
      var i := FirstNamed(activeEffects, effectName);
      if i > -1 {
        activeEffects := activeEffects[..i] + activeEffects[i + 1..];
      }
    }

    /** The backward loop of `update` over the effects: every effect ticks, and those with no
        time left are spliced out; the survivors keep their order. */
    method UpdateEffects(dt: real)
      requires Distinct(activeEffects)
      modifies this`activeEffects, activeEffects
      ensures Distinct(activeEffects)
      ensures Remaining(old(activeEffects)) == Ticked(old(Remaining(activeEffects)), dt)
      ensures activeEffects == Kept(old(activeEffects), Ticked(old(Remaining(activeEffects)), dt))
    {
      ghost var es := activeEffects;
      ghost var od := Remaining(es);
      var i := |activeEffects| - 1;
      assert es[..i + 1] == es && od[..i + 1] == od;
      while i >= 0
        invariant Pruning(es, od, activeEffects, i, dt)
        invariant Remaining(es) == Midway(od, i, dt)
      {
        TickEffect(es, od, i, dt);
        i := i - 1;
      }
      PruningDone(es, od, activeEffects, dt);
      KeptDistinct(es, Ticked(od, dt));
    }

    /** One turn of that loop: the effect at `i` ticks, and is spliced out once it has no time left. */
    method TickEffect(ghost es: seq<Effect>, ghost od: seq<real>, i: int, dt: real)
      requires Distinct(es) && Pruning(es, od, activeEffects, i, dt) && i >= 0
      requires Remaining(es) == Midway(od, i, dt)
      modifies this`activeEffects, es[i]
      ensures Pruning(es, od, activeEffects, i - 1, dt)
      ensures Remaining(es) == Midway(od, i - 1, dt)
    {
      PruningStep(es, od, activeEffects, i, dt);
      MidwayStep(od, i, dt);
      var e := activeEffects[i];
      assert e.remainingDuration == od[i] by {
        assert e == es[i] && Remaining(es)[i] == es[i].remainingDuration;
      }
      ghost var next := Next(activeEffects, i, od[i] - dt);
      ghost var rem := Remaining(es);
      var alive := e.Update(dt);
      assert e == es[i] && e.remainingDuration == od[i] - dt;
      assert Remaining(es) == rem[i := od[i] - dt] by {
        forall j | 0 <= j < |es| ensures Remaining(es)[j] == rem[i := od[i] - dt][j] {
          if j != i {
            assert es[j] != es[i];
          }
        }
      }
      if !alive {
        activeEffects := activeEffects[..i] + activeEffects[i + 1..];
      }
      assert activeEffects == next;
    }

    /** The loop of `update` over the skills: every cooldown ticks. */
    method UpdateSkills(dt: real)
      requires Valid()
      modifies skills
      ensures Valid()
      ensures forall j :: 0 <= j < |skills| ==> skills[j].cooldown == CooldownTick(old(skills[j].cooldown), dt)
      ensures forall j :: 0 <= j < |skills| ==> skills[j].GetProgress() == old(skills[j].GetProgress())
    {
      var i := 0;
      while i < |skills|
        invariant 0 <= i <= |skills| && Valid()
        invariant forall j :: 0 <= j < i ==> skills[j].cooldown == CooldownTick(old(skills[j].cooldown), dt)
        invariant forall j :: i <= j < |skills| ==> skills[j].cooldown == old(skills[j].cooldown)
        invariant forall j :: 0 <= j < |skills| ==> skills[j].GetProgress() == old(skills[j].GetProgress())
      {
        skills[i].Update(dt);
        i := i + 1;
      }
    }

    /** The regeneration of `update`: while alive, stamina +10/s up to its maximum, then
        mana +5/s up to its maximum only if stamina is at least half its maximum. */
    method Regenerate(dt: real)
      modifies this`stamina, this`mana
      ensures !isAlive ==> stamina == old(stamina) && mana == old(mana)
      ensures isAlive ==> stamina == Min(stats.maxStamina, old(stamina) + 10.0 * dt)
      ensures isAlive && stamina >= stats.maxStamina * 0.5 ==> mana == Min(stats.maxMana, old(mana) + 5.0 * dt)
      ensures stamina < stats.maxStamina * 0.5 ==> mana == old(mana)
      ensures PoolsWithin(old(health), old(mana), old(stamina), old(stats)) && dt >= 0.0 ==> PoolsWithin(health, mana, stamina, stats)
    {
      if isAlive {
        stamina := Min(stats.maxStamina, stamina + 10.0 * dt);
        if stamina >= stats.maxStamina * 0.5 {
          mana := Min(stats.maxMana, mana + 5.0 * dt);
        }
      }
    }

    /** `update`: move by the velocity, tick and prune effects, tick skills, regenerate. */
    method Update(dt: real)
      requires Valid()
      modifies this`x, this`y, this`activeEffects, this`stamina, this`mana, activeEffects, skills
      ensures Valid()
      ensures x == Advance(old(x), velocityX, dt) && y == Advance(old(y), velocityY, dt)
      ensures activeEffects == Kept(old(activeEffects), Ticked(old(Remaining(activeEffects)), dt))
      ensures forall j :: 0 <= j < |skills| ==> skills[j].cooldown == CooldownTick(old(skills[j].cooldown), dt)
      ensures !isAlive ==> stamina == old(stamina) && mana == old(mana)
      ensures isAlive ==> stamina == Min(stats.maxStamina, old(stamina) + 10.0 * dt)
      ensures isAlive && stamina >= stats.maxStamina * 0.5 ==> mana == Min(stats.maxMana, old(mana) + 5.0 * dt)
      ensures stamina < stats.maxStamina * 0.5 ==> mana == old(mana)
      ensures PoolsWithin(old(health), old(mana), old(stamina), old(stats)) && dt >= 0.0 ==> PoolsWithin(health, mana, stamina, stats)
    {
      x := Advance(x, velocityX, dt);
      y := Advance(y, velocityY, dt);
      TickTimers(dt);
      Regenerate(dt);
    }

    /** The two loops of `update`: effects tick and expire, skill cooldowns tick. */
    method TickTimers(dt: real)
      requires Valid()
      modifies this`activeEffects, activeEffects, skills
      ensures Valid()
      ensures activeEffects == Kept(old(activeEffects), Ticked(old(Remaining(activeEffects)), dt))
      ensures forall j :: 0 <= j < |skills| ==> skills[j].cooldown == CooldownTick(old(skills[j].cooldown), dt)
    {
      UpdateEffects(dt);
      UpdateSkills(dt);
    }

    /** `Skill.use` for the skill at `index` against the nearest enemy (`target`: its squared
        centre distance, if any). When `canUse` fails nothing changes; otherwise both costs are
        paid, the cooldown restarts, and the skill executes: self-effects and self-healing are
        applied here, and the outcome on the target is returned. */
    method UseSkill(index: int, target: Option<real>, critDraw: real) returns (used: bool, outcome: SkillOutcome)
      requires Valid() && 0 <= index < |skills|
      modifies this`mana, this`stamina, this`health, this`activeEffects, skills, activeEffects
      ensures Valid()
      ensures used <==> old(skills[index].CanUse(mana, stamina))
      ensures !used ==> outcome == Nothing && unchanged(this) && unchanged(skills) && unchanged(activeEffects)
      ensures used ==> var s := skills[index];
                outcome == Execute(s.kind, attributes.Values(), stats.criticalChance, criticalMultiplier, target, critDraw) &&
                mana == old(mana) - s.manaCost && stamina == old(stamina) - s.staminaCost && s.cooldown == s.maxCooldown
      ensures forall j :: 0 <= j < |skills| && j != index ==> skills[j].cooldown == old(skills[j].cooldown)
      ensures used && outcome.SelfHeal? ==> health == (if isAlive then Min(stats.maxHealth, old(health) + outcome.amount) else old(health))
      ensures !outcome.SelfHeal? ==> health == old(health)
      ensures used && outcome.SelfEffect? && old(EffectsUnstackable()) ==>
                |activeEffects| == |old(activeEffects)| + 1 && activeEffects[..|old(activeEffects)|] == old(activeEffects) &&
                var e := activeEffects[|old(activeEffects)|];
                fresh(e) && e.name == outcome.name && e.remainingDuration == outcome.duration &&
                e.effectType == outcome.effectType && e.magnitude == outcome.magnitude
      ensures !outcome.SelfEffect? ==> activeEffects == old(activeEffects)
      ensures old(EffectsUnstackable()) ==> EffectsUnstackable()
      ensures forall e :: e in activeEffects ==> e in old(activeEffects) || fresh(e)
    {
      var skill := skills[index];
      if !skill.CanUse(mana, stamina) {
        return false, Nothing;
      }
      PayFor(skill);
      outcome := Execute(skill.kind, attributes.Values(), stats.criticalChance, criticalMultiplier, target, critDraw);
      ApplyToSelf(outcome);
      used := true;
    }

    /** The first lines of `Skill.use` once `canUse` holds: both costs paid, cooldown restarted. */
    method PayFor(skill: CharSkill)
      modifies this`mana, this`stamina, skill`cooldown
      ensures mana == old(mana) - skill.manaCost && stamina == old(stamina) - skill.staminaCost
      ensures skill.cooldown == skill.maxCooldown
    {
      mana := mana - skill.manaCost;
      stamina := stamina - skill.staminaCost;
      skill.cooldown := skill.maxCooldown;
    }

    /** What the executing skill does to its caster: a self-effect is added (`addEffect`), a
        self-heal goes through `heal`; every other outcome leaves the caster alone. */
    method ApplyToSelf(outcome: SkillOutcome)
      requires Valid()
      modifies this`health, this`activeEffects, activeEffects
      ensures Valid()
      ensures outcome.SelfHeal? ==> health == (if isAlive then Min(stats.maxHealth, old(health) + outcome.amount) else old(health))
      ensures !outcome.SelfHeal? ==> health == old(health)
      ensures outcome.SelfEffect? && old(EffectsUnstackable()) ==>
                |activeEffects| == |old(activeEffects)| + 1 && activeEffects[..|old(activeEffects)|] == old(activeEffects) &&
                var e := activeEffects[|old(activeEffects)|];
                fresh(e) && e.name == outcome.name && e.remainingDuration == outcome.duration &&
                e.effectType == outcome.effectType && e.magnitude == outcome.magnitude
      ensures !outcome.SelfEffect? ==> activeEffects == old(activeEffects)
      ensures old(EffectsUnstackable()) ==> EffectsUnstackable()
      ensures forall e :: e in activeEffects ==> e in old(activeEffects) || fresh(e)
    {
      if outcome.SelfEffect? {
        var e := new Effect(outcome.name, outcome.duration, outcome.effectType, outcome.magnitude);
        AddEffect(e);
      } else if outcome.SelfHeal? {
        var healed := Heal(outcome.amount);
      }
    }

    function ToJSON(): CharacterSave
      reads this, attributes, inventory, inventory.slots, equipment, skills
    {
      CharacterSave(name, characterClass, level, experience, attributes.Values(), health, mana, stamina,
                    SkillSaves(skills), inventory.ToJSON(), equipment.ToJSON(), x, y)
    }

    /** `initializeClassSkills`: a known class gets four fresh level-1 skills of its kinds; an
        unknown class keeps the skills it has. */
    method InitializeClassSkills()
      requires Valid()
      modifies this`skills
      ensures Valid()
      ensures ClassOf(characterClass) == NoClass ==> skills == old(skills)
      ensures ClassOf(characterClass) != NoClass ==> SkillsMatchClass()
      ensures ClassOf(characterClass) != NoClass ==> forall j :: 0 <= j < |skills| ==>
                fresh(skills[j]) && skills[j].GetProgress() == Progress(1, 0, ExperienceForLevel(2)) && skills[j].cooldown == 0.0
    {
      var c := ClassOf(characterClass);
      if c != NoClass {
        var ks := NewClassSkills(c);
        skills := ks;
      }
    }

    /** The shared part of both loaders: everything `fromJSON` restores except the threshold. */
    method RestoreFrom(data: CharacterSave)
      requires Valid()
      requires data.level >= 1 && forall i :: 0 <= i < |data.skills| ==> data.skills[i].level >= 1
      requires data.equipment.slots.Keys == (set s | s in SlotNames)
      modifies this`name, this`characterClass, this`level, this`experience, this`health, this`mana, this`stamina, this`skills, this`x, this`y, this`stats, attributes, skills, inventory, equipment
      ensures Valid() && StatsCurrent() && equipment.slots == data.equipment.slots
      ensures name == data.name && characterClass == data.characterClass && level == data.level
      ensures experience == data.experience && experienceToNext == old(experienceToNext)
      ensures attributes.Values() == data.attributes && x == data.x && y == data.y
      ensures health == Min(data.health, stats.maxHealth) && mana == Min(data.mana, stats.maxMana)
      ensures stamina == Min(data.stamina, stats.maxStamina)
      ensures ClassOf(data.characterClass) != NoClass ==> SkillsMatchClass()
      ensures forall i :: 0 <= i < |skills| && i < |data.skills| ==> skills[i].ToJSON() == data.skills[i]
    {
      RestoreSheet(data);
      RestoreClassSkills(data.skills);
      RestoreItems(data);
    }

    /** The first lines of `fromJSON`: identity, progress, attributes and pools copied from the save. */
    method RestoreSheet(data: CharacterSave)
      modifies this`name, this`characterClass, this`level, this`experience, this`health, this`mana, this`stamina, attributes
      ensures name == data.name && characterClass == data.characterClass && level == data.level
      ensures experience == data.experience && attributes.Values() == data.attributes
      ensures health == data.health && mana == data.mana && stamina == data.stamina
    {
      name := data.name;
      characterClass := data.characterClass;
      level := data.level;
      experience := data.experience;
      attributes.SetAll(data.attributes);
      health, mana, stamina := data.health, data.mana, data.stamina;
    }

    /** The skills part of `fromJSON`: the class's skills rebuilt, then the i-th takes the i-th save. */
    method RestoreClassSkills(saves: seq<SkillSave>)
      requires Valid() && forall i :: 0 <= i < |saves| ==> saves[i].level >= 1
      modifies this`skills, skills
      ensures Valid()
      ensures ClassOf(characterClass) != NoClass ==> SkillsMatchClass()
      ensures forall i :: 0 <= i < |skills| && i < |saves| ==> skills[i].ToJSON() == saves[i]
    {
      InitializeClassSkills();
      RestoreSkills(saves);
    }

    /** The last lines of `fromJSON`: inventory, equipment and position restored, then the
        statistics recomputed for the restored sheet, which clamps the pools. */
    method RestoreItems(data: CharacterSave)
      requires data.equipment.slots.Keys == (set s | s in SlotNames)
      modifies this`x, this`y, this`stats, this`health, this`mana, this`stamina, inventory, equipment
      ensures StatsCurrent() && equipment.slots == data.equipment.slots && x == data.x && y == data.y
      ensures health == Min(old(health), stats.maxHealth) && mana == Min(old(mana), stats.maxMana)
      ensures stamina == Min(old(stamina), stats.maxStamina)
    {
      inventory.FromJSON(data.inventory);
      equipment.FromJSON(data.equipment);
      x, y := data.x, data.y;
      UpdateStats();
    }

    /** The loop of `fromJSON` over the saved skills: the i-th skill takes the i-th save, as far
        as both lists go. */
    method RestoreSkills(saves: seq<SkillSave>)
      requires Valid() && forall i :: 0 <= i < |saves| ==> saves[i].level >= 1
      modifies skills
      ensures Valid()
      ensures forall i :: 0 <= i < |skills| && i < |saves| ==> skills[i].ToJSON() == saves[i]
    {
      var i := 0;
      while i < |skills| && i < |saves|
        invariant 0 <= i <= |skills| && i <= |saves| && Valid()
        invariant forall j :: 0 <= j < i ==> skills[j].ToJSON() == saves[j]
      {
        skills[i].FromJSON(saves[i]);
        i := i + 1;
      }
    }

    /** `fromJSON` as the source writes it: the threshold keeps whatever value it had
        (150 on a freshly built character), whatever level the save holds. */
    method FromJSONAsWritten(data: CharacterSave)
      requires Valid()
      requires data.level >= 1 && forall i :: 0 <= i < |data.skills| ==> data.skills[i].level >= 1
      requires data.equipment.slots.Keys == (set s | s in SlotNames)
      modifies this`name, this`characterClass, this`level, this`experience, this`health, this`mana, this`stamina, this`skills, this`x, this`y, this`stats, attributes, skills, inventory, equipment
      ensures Valid()
      ensures level == data.level && experience == data.experience && experienceToNext == old(experienceToNext)
      ensures StatsCurrent() && stats == DerivedStats(data.attributes, data.level, StatTotals(data.equipment.slots, SlotNames))
    {
      RestoreFrom(data);
    }

    /** `fromJSON` with the threshold recomputed for the restored level, as a level-up would leave it. */
    method FromJSON(data: CharacterSave)
      requires Valid()
      requires data.level >= 1 && forall i :: 0 <= i < |data.skills| ==> data.skills[i].level >= 1
      requires data.equipment.slots.Keys == (set s | s in SlotNames)
      modifies this`name, this`characterClass, this`level, this`experience, this`health, this`mana, this`stamina, this`skills, this`x, this`y, this`stats, this`experienceToNext, attributes, skills, inventory, equipment
      ensures Valid() && ThresholdCurrent()
      ensures name == data.name && characterClass == data.characterClass
      ensures GetProgress() == Progress(data.level, data.experience, ExperienceForLevel(data.level + 1))
      ensures attributes.Values() == data.attributes && x == data.x && y == data.y
      ensures StatsCurrent() && stats == DerivedStats(data.attributes, data.level, StatTotals(data.equipment.slots, SlotNames))
      ensures health == Min(data.health, stats.maxHealth) && mana == Min(data.mana, stats.maxMana)
      ensures stamina == Min(data.stamina, stats.maxStamina)
      ensures ClassOf(data.characterClass) != NoClass ==> SkillsMatchClass()
      ensures forall i :: 0 <= i < |skills| && i < |data.skills| ==> skills[i].ToJSON() == data.skills[i]
    {
      RestoreFrom(data);
      experienceToNext := ExperienceForLevel(level + 1);
    }
  }

  /** A freshly built character (threshold 150) that reloads a level-5 save with 200 experience
      keeps the threshold 150, where level 5 calls for 759: its next experience gain levels it
      up, which the threshold of its level would not. */
  lemma StaleThresholdAfterReload()
    ensures ExperienceForLevel(2) == 150 && ExperienceForLevel(6) == 759
    ensures CharLevelLoop(Progress(5, 200, 150)).level > 5
    ensures CharLevelLoop(Progress(5, 200, ExperienceForLevel(6))) == Progress(5, 200, 759)
  {
    assert Pow15(1) == 1.5;
    assert Pow15(5) == 7.59375 by {
      assert Pow15(2) == 2.25;
      assert Pow15(3) == 3.375;
      assert Pow15(4) == 5.0625;
    }
    assert (100.0 * 7.59375).Floor == 759;
    assert CharLevelLoop(Progress(5, 200, 150)) == CharLevelLoop(LevelUpOnce(Progress(5, 200, 150)));
  }

  /** The attribute sheet a new character of class `c` starts with. */
  method NewSheet(c: CharClass) returns (a: Attributes)
    ensures fresh(a) && a.Values() == StartingAttributes(c)
  {
    a := new Attributes();
    if c != NoClass {
      a.SetAll(StartingAttributes(c));
    }
  }

  /** A new character's empty bag of 50 slots and empty equipment, with the equipment's totals. */
  method NewOutfit() returns (inv: Inventory, eq: Equipment, totals: map<string, int>)
    ensures fresh(inv) && fresh(eq) && inv.Valid() && eq.Valid() && totals == StatTotals(eq.slots, SlotNames)
  {
    inv := new Inventory(50);
    eq := new Equipment();
    totals := eq.GetTotalStats();
  }

  /** Four fresh skills of the class's kinds (none for an unknown class). */
  method NewClassSkills(c: CharClass) returns (ss: seq<CharSkill>)
    ensures |ss| == |ClassSkills(c)| && Distinct(ss)
    ensures forall i :: 0 <= i < |ss| ==> ss[i].kind == ClassSkills(c)[i]
    ensures forall j :: 0 <= j < |ss| ==> fresh(ss[j]) && ss[j].Valid() && ss[j].GetProgress() == Progress(1, 0, ExperienceForLevel(2)) && ss[j].cooldown == 0.0
  {
    var ks := ClassSkills(c);
    if c == NoClass {
      return [];
    }
    var s0 := NewSkill(ks[0]);
    var s1 := NewSkill(ks[1]);
    var s2 := NewSkill(ks[2]);
    var s3 := NewSkill(ks[3]);
    ss := [s0, s1, s2, s3];
  }

  /** The six `increase(name, 1)` calls of `levelUp`. */
  method RaiseAttributes(a: Attributes)
    modifies a`strength, a`intelligence, a`agility, a`charisma, a`constitution, a`wisdom
    ensures a.Values() == RaiseOnce(old(a.Values()))
  {
    ghost var v := a.Values();
    a.Increase("strength", 1);
    a.Increase("intelligence", 1);
    a.Increase("agility", 1);
    a.Increase("charisma", 1);
    a.Increase("constitution", 1);
    a.Increase("wisdom", 1);
    assert a.Values() == AttrValues(MinInt(v.strength + 1, 20), MinInt(v.intelligence + 1, 20), MinInt(v.agility + 1, 20),
                                    MinInt(v.charisma + 1, 20), MinInt(v.constitution + 1, 20), MinInt(v.wisdom + 1, 20));
  }
}
