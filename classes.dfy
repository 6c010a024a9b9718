/** The base data structures of the game (js/classes.js): the attribute sheet, the generic
    skill with its cooldown and experience, timed effects, the slot inventory and the
    named-slot equipment table. GameObject's position and tags are inlined into the
    classes that use them; its two pure operations live here as functions. */
module Classes {
  import opened Utils

  // ===========================================================================
  // GameObject: axis-aligned collision and tags

  /** The rectangle a game object occupies. */
  datatype Body = Body(x: real, y: real, width: real, height: real)

  /** `GameObject.collidesWith`: strict overlap of the two rectangles. */
  predicate CollidesWith(a: Body, b: Body)
  {
    a.x < b.x + b.width && a.x + a.width > b.x &&
    a.y < b.y + b.height && a.y + a.height > b.y
  }

  predicate Inside(b: Body, px: real, py: real)
  {
    b.x < px < b.x + b.width && b.y < py < b.y + b.height
  }

  /** Two rectangles of positive size collide exactly when some point lies strictly inside both;
      in particular the test is symmetric. */
  lemma CollidesIffCommonPoint(a: Body, b: Body)
    requires a.width > 0.0 && a.height > 0.0 && b.width > 0.0 && b.height > 0.0
    ensures CollidesWith(a, b) <==> exists px, py :: Inside(a, px, py) && Inside(b, px, py)
    ensures CollidesWith(a, b) == CollidesWith(b, a)
  {
    if CollidesWith(a, b) {
      var lx := Max(a.x, b.x);
      var hx := Min(a.x + a.width, b.x + b.width);
      var ly := Max(a.y, b.y);
      var hy := Min(a.y + a.height, b.y + b.height);
      var px, py := (lx + hx) / 2.0, (ly + hy) / 2.0;
      assert Inside(a, px, py) && Inside(b, px, py);
    }
  }

  /** `Entity.update` along one axis: the coordinate moved by the velocity over the elapsed time. */
  function Advance(p: real, v: real, dt: real): real
  {
    p + v * dt
  }

  /** `GameObject.addTag`: appends the tag unless it is already present. */
  function AddTag(tags: seq<string>, tag: string): (r: seq<string>)
    ensures tag in r
    ensures tag in tags ==> r == tags
    ensures tag !in tags ==> r == tags + [tag]
  {
    if tag in tags then tags else tags + [tag]
  }

  predicate NoDuplicates(s: seq<string>)
  {
    forall i, j :: 0 <= i < j < |s| ==> s[i] != s[j]
  }

  /** Tags added one by one never repeat. */
  lemma AddTagKeepsTagsDistinct(tags: seq<string>, tag: string)
    requires NoDuplicates(tags)
    ensures NoDuplicates(AddTag(tags, tag))
  {
    var r := AddTag(tags, tag);
    if tag !in tags {
      forall i, j | 0 <= i < j < |r| ensures r[i] != r[j] {
        if j == |tags| {
          assert r[i] == tags[i];
        }
      }
    }
  }

  // ===========================================================================
  // Attributes

  datatype AttrName = Strength | Intelligence | Agility | Charisma | Constitution | Wisdom

  /** The attribute a property name denotes, if any. */
  function AttrNameOf(key: string): Option<AttrName>
  {
    match key
    case "strength" => Some(Strength)
    case "intelligence" => Some(Intelligence)
    case "agility" => Some(Agility)
    case "charisma" => Some(Charisma)
    case "constitution" => Some(Constitution)
    case "wisdom" => Some(Wisdom)
    case _ => None
  }

  /** A snapshot of the six attribute values. */
  datatype AttrValues = AttrValues(strength: int, intelligence: int, agility: int,
                                   charisma: int, constitution: int, wisdom: int)
  {
    function Get(n: AttrName): int
    {
      match n
      case Strength => strength
      case Intelligence => intelligence
      case Agility => agility
      case Charisma => charisma
      case Constitution => constitution
      case Wisdom => wisdom
    }

    function Set(n: AttrName, v: int): (r: AttrValues)
      ensures r.Get(n) == v
      ensures forall m :: m != n ==> r.Get(m) == Get(m)
    {
      match n
      case Strength => this.(strength := v)
      case Intelligence => this.(intelligence := v)
      case Agility => this.(agility := v)
      case Charisma => this.(charisma := v)
      case Constitution => this.(constitution := v)
      case Wisdom => this.(wisdom := v)
    }
  }

  /** `getModifier`: floor((v - 10) / 2). Dafny's `/` on int with a positive divisor rounds down. */
  function GetModifier(v: int): (m: int)
    ensures 2 * m <= v - 10 < 2 * m + 2
  {
    (v - 10) / 2
  }

  /** The modifier rounds toward minus infinity, not toward zero, and grows with the value. */
  lemma ModifierFloorsAndIsMonotone(a: int, b: int)
    requires a <= b
    ensures GetModifier(9) == -1 && GetModifier(11) == 0
    ensures GetModifier(a) <= GetModifier(b)
  {
  }

  function MinInt(a: int, b: int): int { if a <= b then a else b }
  function MaxInt(a: int, b: int): int { if a >= b then a else b }

  /** The six attributes of a character, changed in place. */
  class Attributes {
    var strength: int
    var intelligence: int
    var agility: int
    var charisma: int
    var constitution: int
    var wisdom: int

    function Values(): AttrValues
      reads this
    {
      AttrValues(strength, intelligence, agility, charisma, constitution, wisdom)
    }

    function Modifier(n: AttrName): int
      reads this
    {
      GetModifier(Values().Get(n))
    }

    constructor ()
      ensures Values() == AttrValues(10, 10, 10, 10, 10, 10)
    {
      strength, intelligence, agility := 10, 10, 10;
      charisma, constitution, wisdom := 10, 10, 10;
    }

    method SetAll(v: AttrValues)
      modifies this`strength, this`intelligence, this`agility, this`charisma, this`constitution, this`wisdom
      ensures Values() == v
    {
      strength, intelligence, agility := v.strength, v.intelligence, v.agility;
      charisma, constitution, wisdom := v.charisma, v.constitution, v.wisdom;
    }

    /** `increase`: raises the named attribute by `amount`, capped at 20; an unknown name changes nothing. */
    method Increase(attribute: string, amount: int)
      modifies this`strength, this`intelligence, this`agility, this`charisma, this`constitution, this`wisdom
      ensures AttrNameOf(attribute).None? ==> Values() == old(Values())
      ensures AttrNameOf(attribute).Some? ==>
                var n := AttrNameOf(attribute).value;
                Values() == old(Values()).Set(n, MinInt(old(Values()).Get(n) + amount, 20))
    {
      var n := AttrNameOf(attribute);
      if n.Some? {
        var v := Values();
        SetAll(v.Set(n.value, MinInt(v.Get(n.value) + amount, 20)));
      }
    }

    /** `decrease`: lowers the named attribute by `amount`, floored at 1; an unknown name changes nothing. */
    method Decrease(attribute: string, amount: int)
      modifies this`strength, this`intelligence, this`agility, this`charisma, this`constitution, this`wisdom
      ensures AttrNameOf(attribute).None? ==> Values() == old(Values())
      ensures AttrNameOf(attribute).Some? ==>
                var n := AttrNameOf(attribute).value;
                Values() == old(Values()).Set(n, MaxInt(old(Values()).Get(n) - amount, 1))
    {
      var n := AttrNameOf(attribute);
      if n.Some? {
        var v := Values();
        SetAll(v.Set(n.value, MaxInt(v.Get(n.value) - amount, 1)));
      }
    }
  }

  /** An attribute kept in [1, 20] stays there after any increase or decrease by a positive amount. */
  lemma IncreaseDecreaseStayInRange(v: int, amount: int)
    requires 1 <= v <= 20 && amount >= 0
    ensures 1 <= MinInt(v + amount, 20) <= 20
    ensures 1 <= MaxInt(v - amount, 1) <= 20
  {
  }

  // ===========================================================================
  // Skill

  function Pow15(n: nat): real
  {
    if n == 0 then 1.0 else 1.5 * Pow15(n - 1)
  }

  lemma {:induction false} Pow15Grows(m: nat, n: nat)
    requires m <= n
    ensures 1.0 <= Pow15(m) <= Pow15(n)
    decreases n
  {
    if n > 0 {
      if m == n {
        Pow15Grows(0, n - 1);
      } else {
        Pow15Grows(m, n - 1);
      }
    }
  }

  /** `getExperienceForLevel(level)`: floor(100 * 1.5^(level - 1)). */
  function ExperienceForLevel(level: int): (xp: int)
    requires level >= 1
    ensures xp >= 100
  {
    Pow15Grows(0, level - 1);
    (100.0 * Pow15(level - 1)).Floor
  }

  /** The experience threshold never shrinks as the level grows. */
  lemma ExperienceForLevelMonotone(a: int, b: int)
    requires 1 <= a <= b
    ensures ExperienceForLevel(a) <= ExperienceForLevel(b)
  {
    Pow15Grows(a - 1, b - 1);
  }

  /** The level counters a skill or a character advances. */
  datatype Progress = Progress(level: int, experience: int, experienceToNext: int)

  /** One `levelUp`: one more level, the threshold paid, the next threshold floor(100 * 1.5^level). */
  function LevelUpOnce(p: Progress): (r: Progress)
    requires p.level >= 1
    ensures r.level == p.level + 1 && r.experience == p.experience - p.experienceToNext
    ensures r.experienceToNext == ExperienceForLevel(p.level + 2) >= 100
  {
    Progress(p.level + 1, p.experience - p.experienceToNext, ExperienceForLevel(p.level + 2))
  }

  /** The loop of `Skill.gainExperience` (after the experience is added): level up while the
      threshold is reached and the level is below the cap. */
  function SkillLevelLoop(p: Progress, maxLevel: int): (r: Progress)
    requires p.level >= 1
    ensures p.level <= r.level
    ensures p.level <= maxLevel ==> r.level <= maxLevel
    ensures r.experience < r.experienceToNext || r.level >= maxLevel
    decreases maxLevel - p.level
  {
    if p.experience >= p.experienceToNext && p.level < maxLevel
    then SkillLevelLoop(LevelUpOnce(p), maxLevel)
    else p
  }

  /** What `Skill.gainExperience(amount)` makes of a skill's progress: the amount added, then the
      level-up loop. */
  function Gained(p: Progress, amount: int, maxLevel: int): Progress
    requires p.level >= 1
  {
    SkillLevelLoop(p.(experience := p.experience + amount), maxLevel)
  }

  /** A skill's progress after n grants of the same amount, one after the other. */
  function GainedTimes(p: Progress, amount: int, maxLevel: int, n: nat): (r: Progress)
    requires p.level >= 1
    ensures p.level <= r.level
    decreases n
  {
    if n == 0 then p else GainedTimes(Gained(p, amount, maxLevel), amount, maxLevel, n - 1)
  }

  /** The progress of each skill, in order. */
  ghost function ProgressOf<K>(ss: seq<Skill<K>>): (ps: seq<Progress>)
    reads set s | s in ss
    ensures |ps| == |ss| && forall j :: 0 <= j < |ss| ==> ps[j] == ss[j].GetProgress()
    decreases |ss|
  {
    if ss == [] then [] else [ss[0].GetProgress()] + ProgressOf(ss[1..])
  }

  /** The cooldown of each skill, in order. */
  ghost function CooldownsOf<K>(ss: seq<Skill<K>>): (cs: seq<real>)
    reads set s | s in ss
    ensures |cs| == |ss| && forall j :: 0 <= j < |ss| ==> cs[j] == ss[j].cooldown
    decreases |ss|
  {
    if ss == [] then [] else [ss[0].cooldown] + CooldownsOf(ss[1..])
  }

  /** One more grant after n grants is n + 1 grants. */
  lemma {:induction false} GainedTimesStep(p: Progress, amount: int, maxLevel: int, n: nat)
    requires p.level >= 1
    ensures GainedTimes(p, amount, maxLevel, n + 1) == Gained(GainedTimes(p, amount, maxLevel, n), amount, maxLevel)
    decreases n
  {
    if n > 0 {
      GainedTimesStep(Gained(p, amount, maxLevel), amount, maxLevel, n - 1);
    }
  }

  /** One cooldown tick of `Skill.update`. */
  function CooldownTick(cooldown: real, dt: real): real
  {
    if cooldown > 0.0 then cooldown - dt else cooldown
  }

  function CooldownAfter(cooldown: real, dts: seq<real>): real
    decreases |dts|
  {
    if dts == [] then cooldown else CooldownAfter(CooldownTick(cooldown, dts[0]), dts[1..])
  }

  function Sum(dts: seq<real>): real
  {
    if dts == [] then 0.0 else dts[0] + Sum(dts[1..])
  }

  /** A running cooldown reaches zero exactly when the elapsed frame times add up to it:
      `canUse` becomes true again after updates summing to at least the cooldown, not before. */
  lemma {:induction false} CooldownElapses(cooldown: real, dts: seq<real>)
    requires cooldown > 0.0
    requires forall i :: 0 <= i < |dts| ==> dts[i] >= 0.0
    ensures CooldownAfter(cooldown, dts) <= 0.0 <==> Sum(dts) >= cooldown
    decreases |dts|
  {
    if dts != [] {
      var c := cooldown - dts[0];
      if c > 0.0 {
        CooldownElapses(c, dts[1..]);
      } else {
        StaysElapsed(c, dts[1..]);
        SumNonNegative(dts[1..]);
      }
    }
  }

  lemma {:induction false} StaysElapsed(cooldown: real, dts: seq<real>)
    requires cooldown <= 0.0
    ensures CooldownAfter(cooldown, dts) == cooldown
    decreases |dts|
  {
    if dts != [] {
      StaysElapsed(cooldown, dts[1..]);
    }
  }

  lemma {:induction false} SumNonNegative(dts: seq<real>)
    requires forall i :: 0 <= i < |dts| ==> dts[i] >= 0.0
    ensures Sum(dts) >= 0.0
    decreases |dts|
  {
    if dts != [] {
      SumNonNegative(dts[1..]);
    }
  }

  /** What `Skill.toJSON` keeps. */
  datatype SkillSave = SkillSave(name: string, level: int, experience: int, cooldown: real)

  /** A skill of kind K: cooldown and resource gate, and its own experience and level.
      The concrete skill kinds (and `execute`) belong to the characters. */
  class Skill<K> {
    const kind: K
    var name: string
    const baseAttribute: AttrName
    var level: int
    const maxLevel: int
    var experience: int
    var experienceToNext: int
    var cooldown: real
    const maxCooldown: real
    const manaCost: real
    const staminaCost: real

    ghost predicate Valid()
      reads this
    {
      level >= 1
    }

    function GetProgress(): Progress
      reads this
    {
      Progress(level, experience, experienceToNext)
    }

    constructor (kind: K, name: string, baseAttribute: AttrName, maxCooldown: real, manaCost: real, staminaCost: real)
      ensures Valid()
      ensures this.kind == kind && this.name == name && this.baseAttribute == baseAttribute
      ensures GetProgress() == Progress(1, 0, ExperienceForLevel(2)) && maxLevel == 100
      ensures cooldown == 0.0 && this.maxCooldown == maxCooldown
      ensures this.manaCost == manaCost && this.staminaCost == staminaCost
    {
      this.kind := kind;
      this.name := name;
      this.baseAttribute := baseAttribute;
      level := 1;
      maxLevel := 100;
      experience := 0;
      experienceToNext := ExperienceForLevel(2);
      cooldown := 0.0;
      this.maxCooldown := maxCooldown;
      this.manaCost := manaCost;
      this.staminaCost := staminaCost;
    }

    /** `canUse(character)`, given the caster's mana and stamina. */
    predicate CanUse(mana: real, stamina: real)
      reads this
    {
      cooldown <= 0.0 && mana >= manaCost && stamina >= staminaCost
    }

    /** `update(deltaTime)`: the cooldown runs down only while it is positive. */
    method Update(dt: real)
      modifies this`cooldown
      ensures cooldown == CooldownTick(old(cooldown), dt)
    {
      if cooldown > 0.0 {
        cooldown := cooldown - dt;
      }
    }

    /** `levelUp` (`improveWithLevel` is empty for every skill). */
    method LevelUp()
      requires Valid()
      modifies this`level, this`experience, this`experienceToNext
      ensures Valid()
      ensures GetProgress() == LevelUpOnce(old(GetProgress()))
    {
      level := level + 1;
      experience := experience - experienceToNext;
      experienceToNext := ExperienceForLevel(level + 1);
    }

    /** `gainExperience(amount)`: add, then level up while the threshold is met below the cap. */
    method GainExperience(amount: int)
      requires Valid()
      modifies this`level, this`experience, this`experienceToNext
      ensures Valid()
      ensures GetProgress() == Gained(old(GetProgress()), amount, maxLevel)
    {
      experience := experience + amount;
      ghost var start := GetProgress();
      while experience >= experienceToNext && level < maxLevel
        invariant Valid()
        invariant SkillLevelLoop(GetProgress(), maxLevel) == SkillLevelLoop(start, maxLevel)
        decreases maxLevel - level
      {
        LevelUp();
      }
    }

    function ToJSON(): SkillSave
      reads this
    {
      SkillSave(name, level, experience, cooldown)
    }

    /** `fromJSON`: copies the saved name, level, experience and cooldown. */
    method FromJSON(data: SkillSave)
      requires data.level >= 1
      modifies this`name, this`level, this`experience, this`cooldown
      ensures Valid() && ToJSON() == data
      ensures experienceToNext == old(experienceToNext)
    {
      name, level, experience, cooldown := data.name, data.level, data.experience, data.cooldown;
    }
  }

  // ===========================================================================
  // Effect

  datatype EffectType = Buff | Debuff | Dot | Hot

  /** What `Effect.toJSON` keeps. */
  datatype EffectSave = EffectSave(name: string, remainingDuration: real, stacks: int)

  /** A timed buff, debuff or damage/heal over time. */
  class Effect {
    const name: string
    const duration: real
    var remainingDuration: real
    const effectType: EffectType
    const magnitude: real
    var stacks: int
    const maxStacks: int

    constructor (name: string, duration: real, effectType: EffectType, magnitude: real)
      ensures this.name == name && this.duration == duration && remainingDuration == duration
      ensures this.effectType == effectType && this.magnitude == magnitude
      ensures stacks == 1 && maxStacks == 1
    {
      this.name := name;
      this.duration := duration;
      remainingDuration := duration;
      this.effectType := effectType;
      this.magnitude := magnitude;
      stacks := 1;
      maxStacks := 1;
    }

    /** `update(deltaTime)`: counts down and reports whether time remains. */
    method Update(dt: real) returns (alive: bool)
      modifies this`remainingDuration
      ensures remainingDuration == old(remainingDuration) - dt
      ensures alive <==> remainingDuration > 0.0
    {
      remainingDuration := remainingDuration - dt;
      alive := remainingDuration > 0.0;
    }

    predicate CanStack()
      reads this
    {
      stacks < maxStacks
    }

    /** `getMagnitude`. */
    function GetMagnitude(): real
      reads this
    {
      magnitude * stacks as real
    }

    /** `addStack`: one more stack and a full duration, only while below the stack limit. */
    method AddStack()
      modifies this`stacks, this`remainingDuration
      ensures old(CanStack()) ==> stacks == old(stacks) + 1 && remainingDuration == duration
      ensures old(CanStack()) ==> GetMagnitude() == old(GetMagnitude()) + magnitude
      ensures !old(CanStack()) ==> stacks == old(stacks) && remainingDuration == old(remainingDuration)
      ensures old(stacks) <= maxStacks ==> stacks <= maxStacks
    {
      if CanStack() {
        stacks := stacks + 1;
        remainingDuration := duration;
      }
    }

    function ToJSON(): EffectSave
      reads this
    {
      EffectSave(name, remainingDuration, stacks)
    }
  }

  /** The remaining duration after a sequence of frames; an effect stays alive exactly while
      the elapsed time is below what remained. */
  function RemainingAfter(remaining: real, dts: seq<real>): real
    decreases |dts|
  {
    if dts == [] then remaining else RemainingAfter(remaining - dts[0], dts[1..])
  }

  lemma {:induction false} RemainingAfterIsDifference(remaining: real, dts: seq<real>)
    ensures RemainingAfter(remaining, dts) == remaining - Sum(dts)
    ensures RemainingAfter(remaining, dts) > 0.0 <==> Sum(dts) < remaining
    decreases |dts|
  {
    if dts != [] {
      RemainingAfterIsDifference(remaining - dts[0], dts[1..]);
    }
  }

  // ===========================================================================
  // Items, Inventory

  datatype Category = Weapons | Armor | Potions | Materials | Quest

  /** An item record: the fields the simulation reads. A missing category reads as materials. */
  datatype Item = Item(name: string, itemType: string, level: int, rarity: string,
                       category: Option<Category>, stats: map<string, int>, bonuses: map<string, int>)

  function CategoryOf(item: Item): Category
  {
    if item.category.Some? then item.category.value else Materials
  }

  datatype SlotEntry = SlotEntry(item: Item, quantity: int)
  datatype CategoryEntry = CategoryEntry(slotIndex: nat, item: Item, quantity: int)

  /** The slots a category lists, in slot order, as `updateCategories` builds them. */
  function CategoryEntries(s: seq<Option<SlotEntry>>, c: Category): seq<CategoryEntry>
  {
    if s == [] then []
    else
      var last := s[|s| - 1];
      CategoryEntries(s[..|s| - 1], c) +
        (if last.Some? && CategoryOf(last.value.item) == c
         then [CategoryEntry(|s| - 1, last.value.item, last.value.quantity)] else [])
  }

  /** Every category's list, as `updateCategories` leaves them after reading the slots `s`. */
  function CategoryMap(s: seq<Option<SlotEntry>>): (m: map<Category, seq<CategoryEntry>>)
    ensures m.Keys == AllCategories
  {
    map c | c in AllCategories :: CategoryEntries(s, c)
  }

  /** Reading one more slot appends that slot's entry to its own category's list and to no other. */
  lemma CategoryMapSnoc(s: seq<Option<SlotEntry>>, slot: Option<SlotEntry>)
    ensures slot.None? ==> CategoryMap(s + [slot]) == CategoryMap(s)
    ensures slot.Some? ==>
      var c := CategoryOf(slot.value.item);
      c in AllCategories &&
      CategoryMap(s + [slot]) == CategoryMap(s)[c := CategoryMap(s)[c] + [CategoryEntry(|s|, slot.value.item, slot.value.quantity)]]
  {
    var before, after := CategoryMap(s), CategoryMap(s + [slot]);
    forall c | c in AllCategories
      ensures after[c] == before[c] + Listed(slot, |s|, c)
    {
      CategoryEntriesSnoc(s, slot, c);
    }
    if slot.Some? {
      var c := CategoryOf(slot.value.item);
      AllCategoriesListed(c);
      var expected := before[c := before[c] + [CategoryEntry(|s|, slot.value.item, slot.value.quantity)]];
      forall d | d in AllCategories
        ensures after[d] == expected[d]
      {
        assert Listed(slot, |s|, d) == if d == c then [CategoryEntry(|s|, slot.value.item, slot.value.quantity)] else [];
      }
      assert after == expected;
    } else {
      forall d | d in AllCategories
        ensures after[d] == before[d]
      {
        assert Listed(slot, |s|, d) == [];
      }
      assert after == before;
    }
  }

  /** What slot `i` holding `slot` adds to the list of category `c`. */
  function Listed(slot: Option<SlotEntry>, i: nat, c: Category): seq<CategoryEntry>
  {
    if slot.Some? && CategoryOf(slot.value.item) == c then [CategoryEntry(i, slot.value.item, slot.value.quantity)] else []
  }

  /** One more slot appends at most that slot's entry, and only to its own category. */
  lemma CategoryEntriesSnoc(s: seq<Option<SlotEntry>>, slot: Option<SlotEntry>, c: Category)
    ensures CategoryEntries(s + [slot], c) == CategoryEntries(s, c) + Listed(slot, |s|, c)
  {
    assert (s + [slot])[..|s|] == s;
  }

  /** Each category lists exactly the occupied slots of that category, with their index. */
  lemma {:induction false} CategoryEntriesListSlots(s: seq<Option<SlotEntry>>, c: Category, e: CategoryEntry)
    ensures e in CategoryEntries(s, c) <==>
              e.slotIndex < |s| && s[e.slotIndex] == Some(SlotEntry(e.item, e.quantity)) && CategoryOf(e.item) == c
    decreases |s|
  {
    if s != [] {
      CategoryEntriesListSlots(s[..|s| - 1], c, e);
    }
  }

  /** Number of occupied slots (`getUsedSlots`). */
  function CountUsed(s: seq<Option<SlotEntry>>): (n: nat)
    ensures n <= |s|
  {
    if s == [] then 0 else CountUsed(s[..|s| - 1]) + (if s[|s| - 1].Some? then 1 else 0)
  }

  /** Filling an empty slot adds one used slot; emptying a full one removes one. */
  lemma {:induction false} CountUsedUpdate(s: seq<Option<SlotEntry>>, k: nat, v: Option<SlotEntry>)
    requires k < |s|
    ensures s[k].None? && v.Some? ==> CountUsed(s[k := v]) == CountUsed(s) + 1
    ensures s[k].Some? && v.None? ==> CountUsed(s[k := v]) + 1 == CountUsed(s)
    ensures s[k].Some? == v.Some? ==> CountUsed(s[k := v]) == CountUsed(s)
    decreases |s|
  {
    var t := s[k := v];
    if k < |s| - 1 {
      assert t[..|t| - 1] == s[..|s| - 1][k := v];
      CountUsedUpdate(s[..|s| - 1], k, v);
    } else {
      assert t[..|t| - 1] == s[..|s| - 1];
    }
  }

  /** Index of the first empty slot (`findIndex(slot => slot === null)`). */
  function FirstEmpty(s: seq<Option<SlotEntry>>): (r: Option<nat>)
    ensures r.Some? ==> r.value < |s| && s[r.value].None? && forall j :: 0 <= j < r.value ==> s[j].Some?
    ensures r.None? ==> forall j :: 0 <= j < |s| ==> s[j].Some?
  {
    if s == [] then None
    else if s[0].None? then Some(0)
    else
      var r := FirstEmpty(s[1..]);
      if r.Some? then Some(r.value + 1) else None
  }

  /** Sum of the quantities held under one item name. */
  function QuantityOf(s: seq<Option<SlotEntry>>, itemName: string): int
  {
    if s == [] then 0
    else QuantityOf(s[..|s| - 1], itemName) +
           (if s[|s| - 1].Some? && s[|s| - 1].value.item.name == itemName then s[|s| - 1].value.quantity else 0)
  }

  /** What a slot holds after `quantity` is taken from `held`: nothing once the quantity covers it. */
  function Taken(held: SlotEntry, quantity: int): (r: Option<SlotEntry>)
    ensures r.None? <==> quantity >= held.quantity
    ensures r.Some? ==> r.value.item == held.item && r.value.quantity == held.quantity - quantity
  {
    if quantity >= held.quantity then None else Some(held.(quantity := held.quantity - quantity))
  }

  const AllCategories: set<Category> := {Weapons, Armor, Potions, Materials, Quest}

  lemma AllCategoriesListed(c: Category)
    ensures c in AllCategories
  {
    match c
    case Weapons =>
    case Armor =>
    case Potions =>
    case Materials =>
    case Quest =>
  }

  /** What `Inventory.toJSON` keeps. */
  datatype InventorySave = InventorySave(slots: seq<Option<SlotEntry>>, gold: int)

  /** A fixed number of slots, each empty or holding an item with a quantity, plus gold. */
  class Inventory {
    const maxSlots: nat
    var slots: array<Option<SlotEntry>>
    var gold: int
    var categories: map<Category, seq<CategoryEntry>>

    /** The category lists always mirror the slots. */
    ghost predicate Valid()
      reads this, slots
    {
      categories.Keys == AllCategories &&
      forall c :: c in categories ==> categories[c] == CategoryEntries(slots[..], c)
    }

    constructor (maxSlots: nat)
      ensures Valid() && fresh(slots)
      ensures this.maxSlots == maxSlots && slots.Length == maxSlots && gold == 0
      ensures forall i :: 0 <= i < slots.Length ==> slots[i].None?
    {
      this.maxSlots := maxSlots;
      slots := new Option<SlotEntry>[maxSlots](_ => None);
      gold := 0;
      categories := map c | c in AllCategories :: [];
      new;
      assert forall c :: CategoryEntries(slots[..], c) == [] by {
        forall c ensures CategoryEntries(slots[..], c) == [] {
          EmptySlotsListNothing(slots[..], c);
        }
      }
    }

    /** `updateCategories`: rebuilds every category list from the slots, in slot order. */
    method UpdateCategories()
      modifies this`categories
      ensures Valid()
    {
      categories := map c | c in AllCategories :: [];
      var i := 0;
      assert slots[..0] == [];
      while i < slots.Length
        invariant 0 <= i <= slots.Length
        invariant categories == CategoryMap(slots[..i])
      {
        var slot := slots[i];
        assert slots[..i + 1] == slots[..i] + [slot];
        CategoryMapSnoc(slots[..i], slot);
        if slot.Some? {
          var c := CategoryOf(slot.value.item);
          categories := categories[c := categories[c] + [CategoryEntry(i, slot.value.item, slot.value.quantity)]];
        }
        i := i + 1;
      }
      assert slots[..i] == slots[..];
    }

    /** `addItem`: fills the lowest-index empty slot; with every slot full, fails and changes nothing. */
    method AddItem(item: Item, quantity: int) returns (ok: bool)
      requires Valid()
      modifies this`categories, slots
      ensures Valid()
      ensures ok <==> FirstEmpty(old(slots[..])).Some?
      ensures ok ==> slots[..] == old(slots[..])[FirstEmpty(old(slots[..])).value := Some(SlotEntry(item, quantity))]
      ensures ok ==> CountUsed(slots[..]) == CountUsed(old(slots[..])) + 1
      ensures !ok ==> slots[..] == old(slots[..]) && categories == old(categories)
    {
      var i := 0;
      while i < slots.Length && slots[i].Some?
        invariant 0 <= i <= slots.Length
        invariant forall j :: 0 <= j < i ==> slots[j].Some?
      {
        i := i + 1;
      }
      if i == slots.Length {
        return false;
      }
      ghost var before := slots[..];
      assert FirstEmpty(before) == Some(i) by { FirstEmptyUnique(before, i); }
      slots[i] := Some(SlotEntry(item, quantity));
      assert slots[..] == before[i := Some(SlotEntry(item, quantity))];
      CountUsedUpdate(before, i, Some(SlotEntry(item, quantity)));
      ghost var after := slots[..];
      UpdateCategories();
      assert slots[..] == after;
      ok := true;
    }

    /** `removeItem`: out-of-range or empty slots fail; otherwise the slot empties when the
        quantity covers what it holds and loses that quantity otherwise. Other slots keep their contents. */
    method RemoveItem(slotIndex: int, quantity: int) returns (ok: bool)
      requires Valid()
      modifies this`categories, slots
      ensures Valid()
      ensures ok <==> 0 <= slotIndex < slots.Length && old(slots[slotIndex]).Some?
      ensures !ok ==> slots[..] == old(slots[..]) && categories == old(categories)
      ensures ok ==> slots[..] == old(slots[..])[slotIndex := Taken(old(slots[slotIndex]).value, quantity)]
      ensures ok && quantity >= old(slots[slotIndex]).value.quantity ==>
                CountUsed(slots[..]) + 1 == CountUsed(old(slots[..]))
    {
      if slotIndex < 0 || slotIndex >= slots.Length {
        return false;
      }
      var slot := slots[slotIndex];
      if slot.None? {
        return false;
      }
      ghost var before := slots[..];
      var next := Taken(slot.value, quantity);
      slots[slotIndex] := next;
      assert slots[..] == before[slotIndex := next];
      CountUsedUpdate(before, slotIndex, next);
      ghost var after := slots[..];
      UpdateCategories();
      assert slots[..] == after;
      ok := true;
    }

    /** `getItem`: the slot's content, or nothing for an index out of range. */
    function GetItem(slotIndex: int): (r: Option<SlotEntry>)
      reads this, slots
      ensures (slotIndex < 0 || slotIndex >= slots.Length) ==> r.None?
      ensures 0 <= slotIndex < slots.Length ==> r == slots[slotIndex]
    {
      if slotIndex < 0 || slotIndex >= slots.Length then None else slots[slotIndex]
    }

    /** `hasItem`: whether the slots together hold at least `quantity` of the named item. */
    method HasItem(itemName: string, quantity: int) returns (has: bool)
      ensures has <==> QuantityOf(slots[..], itemName) >= quantity
    {
      var total := 0;
      var i := 0;
      while i < slots.Length
        invariant 0 <= i <= slots.Length
        invariant total == QuantityOf(slots[..i], itemName)
      {
        assert slots[..i + 1][..i] == slots[..i];
        var slot := slots[i];
        if slot.Some? && slot.value.item.name == itemName {
          total := total + slot.value.quantity;
        }
        i := i + 1;
      }
      assert slots[..i] == slots[..];
      has := total >= quantity;
    }

    /** `addGold`: returns the new total. */
    method AddGold(amount: int) returns (total: int)
      modifies this`gold
      ensures gold == old(gold) + amount && total == gold
    {
      gold := gold + amount;
      total := gold;
    }

    /** `removeGold`: pays only when the gold suffices; otherwise nothing changes. */
    method RemoveGold(amount: int) returns (ok: bool)
      modifies this`gold
      ensures ok <==> old(gold) >= amount
      ensures ok ==> gold == old(gold) - amount
      ensures !ok ==> gold == old(gold)
    {
      if gold >= amount {
        gold := gold - amount;
        return true;
      }
      return false;
    }

    function UsedSlots(): nat
      reads this, slots
    {
      CountUsed(slots[..])
    }

    function FreeSlots(): int
      reads this, slots
    {
      maxSlots - UsedSlots()
    }

    function ToJSON(): InventorySave
      reads this, slots
    {
      InventorySave(slots[..], gold)
    }

    /** `fromJSON`: takes the saved slots and gold, then rebuilds the categories. */
    method FromJSON(data: InventorySave)
      modifies this
      ensures Valid() && fresh(slots)
      ensures slots[..] == data.slots && gold == data.gold
    {
      slots := new Option<SlotEntry>[|data.slots|](i requires 0 <= i < |data.slots| => data.slots[i]);
      gold := data.gold;
      assert slots[..] == data.slots;
      UpdateCategories();
    }
  }

  /** Free and used slots always add up to the capacity while the slot array has that size. */
  lemma UsedPlusFreeIsCapacity(inv: Inventory)
    requires inv.slots.Length == inv.maxSlots
    ensures 0 <= inv.FreeSlots() <= inv.maxSlots
    ensures inv.UsedSlots() + inv.FreeSlots() == inv.maxSlots
  {
  }

  lemma {:induction false} EmptySlotsListNothing(s: seq<Option<SlotEntry>>, c: Category)
    requires forall i :: 0 <= i < |s| ==> s[i].None?
    ensures CategoryEntries(s, c) == []
    decreases |s|
  {
    if s != [] {
      EmptySlotsListNothing(s[..|s| - 1], c);
    }
  }

  lemma FirstEmptyUnique(s: seq<Option<SlotEntry>>, i: nat)
    requires i < |s| && s[i].None? && forall j :: 0 <= j < i ==> s[j].Some?
    ensures FirstEmpty(s) == Some(i)
  {
    var r := FirstEmpty(s);
    assert r.Some?;
  }

  // ===========================================================================
  // Equipment

  /** The equipment slots, in the order the source declares them (the order `for..in` visits). */
  const SlotNames: seq<string> := ["weapon", "shield", "helmet", "chest", "gloves",
                                   "boots", "ring1", "ring2", "necklace", "cloak"]
  /** The bonuses the equipment tracks. */
  const BonusNames: seq<string> := ["attack", "defense", "magic", "resistance", "speed", "critical"]

  /** Which per-item table a sum is taken over: `bonuses` (updateBonuses) or `stats` (getTotalStats). */
  datatype Table = Bonuses | Stats

  function TableOf(item: Item, t: Table): map<string, int>
  {
    match t
    case Bonuses => item.bonuses
    case Stats => item.stats
  }

  /** The value the item in `slot` contributes to `key` (0 when the slot is empty or lacks the key). */
  function Contribution(slots: map<string, Option<Item>>, slot: string, t: Table, key: string): int
  {
    if slot in slots && slots[slot].Some? && key in TableOf(slots[slot].value, t)
    then TableOf(slots[slot].value, t)[key] else 0
  }

  /** The sum of one key over the items in the listed slots. */
  function KeySum(slots: map<string, Option<Item>>, names: seq<string>, t: Table, key: string): int
  {
    if names == [] then 0
    else KeySum(slots, names[..|names| - 1], t, key) + Contribution(slots, names[|names| - 1], t, key)
  }

  function Get0(m: map<string, int>, k: string): int
  {
    if k in m then m[k] else 0
  }

  /** `stats[stat] = (stats[stat] || 0) + item.stats[stat]` for every stat of one item. */
  function AddStats(acc: map<string, int>, s: map<string, int>): (r: map<string, int>)
    ensures r.Keys == acc.Keys + s.Keys
    ensures forall k :: Get0(r, k) == Get0(acc, k) + Get0(s, k)
  {
    map k | k in acc.Keys + s.Keys :: Get0(acc, k) + Get0(s, k)
  }

  /** The object `getTotalStats` builds, slot by slot. */
  function StatTotals(slots: map<string, Option<Item>>, names: seq<string>): map<string, int>
  {
    if names == [] then map[]
    else
      var last := names[|names| - 1];
      var acc := StatTotals(slots, names[..|names| - 1]);
      if last in slots && slots[last].Some? then AddStats(acc, slots[last].value.stats) else acc
  }

  /** getTotalStats is a per-key sum: each key totals what every equipped item gives it. */
  lemma {:induction false} StatTotalsPerKey(slots: map<string, Option<Item>>, names: seq<string>, k: string)
    ensures Get0(StatTotals(slots, names), k) == KeySum(slots, names, Stats, k)
    decreases |names|
  {
    if names != [] {
      StatTotalsPerKey(slots, names[..|names| - 1], k);
    }
  }

  /** A table in which every slot of SlotNames is empty. */
  function EmptySlots(): (m: map<string, Option<Item>>)
    ensures m.Keys == set s | s in SlotNames
    ensures forall s :: s in m ==> m[s].None?
  {
    map s | s in SlotNames :: None
  }

  lemma {:induction false} EmptySlotsSumToZero(names: seq<string>, t: Table, key: string)
    ensures KeySum(EmptySlots(), names, t, key) == 0
    decreases |names|
  {
    if names != [] {
      EmptySlotsSumToZero(names[..|names| - 1], t, key);
    }
  }

  /** What `Equipment.toJSON` keeps. */
  datatype EquipmentSave = EquipmentSave(slots: map<string, Option<Item>>)

  /** Ten named slots and the bonus totals of what they hold. */
  class Equipment {
    var slots: map<string, Option<Item>>
    var bonuses: map<string, int>

    /** The slot keys are the declared ones and the bonuses are the sums over the equipped items. */
    ghost predicate Valid()
      reads this
    {
      slots.Keys == (set s | s in SlotNames) &&
      bonuses.Keys == (set b | b in BonusNames) &&
      forall b :: b in bonuses ==> bonuses[b] == KeySum(slots, SlotNames, Bonuses, b)
    }

    constructor ()
      ensures Valid() && forall s :: s in slots ==> slots[s].None?
      ensures forall b :: b in bonuses ==> bonuses[b] == 0
    {
      slots := EmptySlots();
      bonuses := map b | b in BonusNames :: 0;
      new;
      forall b | b in bonuses ensures bonuses[b] == KeySum(slots, SlotNames, Bonuses, b) {
        EmptySlotsSumToZero(SlotNames, Bonuses, b);
      }
    }

    /** The inner loop of `updateBonuses`: adds every bonus of one item that the table tracks. */
    method AddBonusesOf(item: Item)
      modifies this`bonuses
      ensures bonuses.Keys == old(bonuses).Keys
      ensures forall b :: b in bonuses ==>
                bonuses[b] == old(bonuses)[b] + (if b in item.bonuses then item.bonuses[b] else 0)
    {
      var keys := item.bonuses.Keys;
      while keys != {}
        invariant keys <= item.bonuses.Keys
        invariant bonuses.Keys == old(bonuses).Keys
        invariant forall b :: b in bonuses ==>
                    bonuses[b] == old(bonuses)[b] + (if b in item.bonuses && b !in keys then item.bonuses[b] else 0)
        decreases keys
      {
        var b :| b in keys;
        if b in bonuses {
          bonuses := bonuses[b := bonuses[b] + item.bonuses[b]];
        }
        keys := keys - {b};
      }
    }

    /** `updateBonuses`: resets the bonuses and adds up each equipped item's bonuses, slot by slot. */
    method UpdateBonuses()
      requires slots.Keys == (set s | s in SlotNames)
      modifies this`bonuses
      ensures Valid()
    {
      bonuses := map b | b in BonusNames :: 0;
      var i := 0;
      while i < |SlotNames|
        invariant 0 <= i <= |SlotNames|
        invariant bonuses.Keys == (set b | b in BonusNames)
        invariant forall b :: b in bonuses ==> bonuses[b] == KeySum(slots, SlotNames[..i], Bonuses, b)
      {
        assert SlotNames[..i + 1][..i] == SlotNames[..i];
        var item := slots[SlotNames[i]];
        if item.Some? {
          AddBonusesOf(item.value);
        }
        i := i + 1;
      }
      assert SlotNames[..i] == SlotNames;
    }

    /** `unequip`: empties the slot and returns what it held; an empty or unknown slot gives nothing. */
    method Unequip(slot: string) returns (removed: Option<Item>)
      requires Valid()
      modifies this
      ensures Valid()
      ensures removed == (if slot in old(slots) then old(slots[slot]) else None)
      ensures removed.Some? ==> slots == old(slots)[slot := None]
      ensures removed.None? ==> slots == old(slots)
    {
      if slot !in slots || slots[slot].None? {
        return None;
      }
      removed := slots[slot];
      slots := slots[slot := None];
      UpdateBonuses();
    }

    /** `equip` as the source writes it: the guard `!this.slots[slot]` refuses every EMPTY slot
        (and unknown ones), so only an occupied slot can be re-filled. */
    method EquipAsWritten(item: Item, slot: string) returns (ok: bool)
      requires Valid()
      modifies this
      ensures Valid()
      ensures ok <==> slot in old(slots) && old(slots[slot]).Some?
      ensures ok ==> slots == old(slots)[slot := Some(item)]
      ensures !ok ==> slots == old(slots) && bonuses == old(bonuses)
    {
      if slot !in slots || slots[slot].None? {
        return false;
      }
      var _ := Unequip(slot);
      slots := slots[slot := Some(item)];
      UpdateBonuses();
      ok := true;
    }

    /** `equip` with the guard the method evidently intends: an unknown slot fails and changes
        nothing; a known slot receives the item, replacing any occupant. */
    method Equip(item: Item, slot: string) returns (ok: bool)
      requires Valid()
      modifies this
      ensures Valid()
      ensures ok <==> slot in old(slots)
      ensures ok ==> slots == old(slots)[slot := Some(item)]
      ensures !ok ==> slots == old(slots) && bonuses == old(bonuses)
    {
      if slot !in slots {
        return false;
      }
      if slots[slot].Some? {
        var _ := Unequip(slot);
      }
      slots := slots[slot := Some(item)];
      UpdateBonuses();
      ok := true;
    }

    /** `getBonus`. */
    function GetBonus(bonusName: string): int
      reads this
    {
      Get0(bonuses, bonusName)
    }

    /** `getTotalStats`: the per-key totals of the equipped items' stats. */
    method GetTotalStats() returns (stats: map<string, int>)
      ensures stats == StatTotals(slots, SlotNames)
    {
      stats := map[];
      var i := 0;
      while i < |SlotNames|
        invariant 0 <= i <= |SlotNames|
        invariant stats == StatTotals(slots, SlotNames[..i])
      {
        assert SlotNames[..i + 1][..i] == SlotNames[..i];
        var name := SlotNames[i];
        if name in slots && slots[name].Some? {
          stats := AddStats(stats, slots[name].value.stats);
        }
        i := i + 1;
      }
      assert SlotNames[..i] == SlotNames;
    }

    function ToJSON(): EquipmentSave
      reads this
    {
      EquipmentSave(slots)
    }

    /** `fromJSON`: takes the saved slots and recomputes the bonuses. */
    method FromJSON(data: EquipmentSave)
      requires data.slots.Keys == (set s | s in SlotNames)
      modifies this
      ensures Valid() && slots == data.slots
    {
      slots := data.slots;
      UpdateBonuses();
    }
  }

  /** As written, `equip` can never fill a fresh equipment table: every slot starts empty. */
  method EquipOnFreshTableAsWritten(item: Item) returns (ok: bool, totals: map<string, int>)
    ensures !ok && totals == map[]
  {
    var e := new Equipment();
    assert e.slots == EmptySlots();
    ok := e.EquipAsWritten(item, "weapon");
    totals := e.GetTotalStats();
    EmptyTotals(SlotNames);
  }

  /** With the intended guard, equipping a weapon on a fresh table succeeds and its stats count. */
  method EquipOnFreshTable(item: Item) returns (ok: bool, totals: map<string, int>)
    ensures ok && forall k :: Get0(totals, k) == Get0(item.stats, k)
  {
    var e := new Equipment();
    assert e.slots == EmptySlots();
    ok := e.Equip(item, "weapon");
    totals := e.GetTotalStats();
    forall k ensures Get0(totals, k) == Get0(item.stats, k) {
      StatTotalsPerKey(e.slots, SlotNames, k);
      OnlyWeaponCounts(item, SlotNames, k);
    }
  }

  lemma {:induction false} EmptyTotals(names: seq<string>)
    ensures StatTotals(EmptySlots(), names) == map[]
    decreases |names|
  {
    if names != [] {
      EmptyTotals(names[..|names| - 1]);
    }
  }

  lemma {:induction false} OnlyWeaponCounts(item: Item, names: seq<string>, k: string)
    requires forall i, j :: 0 <= i < j < |names| ==> names[i] != names[j]
    ensures KeySum(EmptySlots()["weapon" := Some(item)], names, Stats, k) ==
            (if "weapon" in names then Get0(item.stats, k) else 0)
    decreases |names|
  {
    if names != [] {
      OnlyWeaponCounts(item, names[..|names| - 1], k);
      if names[|names| - 1] == "weapon" {
        assert "weapon" !in names[..|names| - 1];
      }
      assert "weapon" in names <==> "weapon" in names[..|names| - 1] || names[|names| - 1] == "weapon";
    }
  }
}
