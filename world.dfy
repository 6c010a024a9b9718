/** The game world (js/world.js): the five regions and their level ranges, the level
    generator (map, obstacles, spawn points, exits, enemies, boss, items), the world clock and
    weather timers, and the save/restore of the world's state. Every `Math.random()` call except
    `generateId`'s reads the next draw of a stream `rs` through a cursor. */
module World {
  import opened Utils
  import opened Enemies

  // ===========================================================================
  // Regions

  datatype Region = Valdoria | Tharok | Myr | Khar | Aeloria

  datatype Theme = Medieval | Mountain | Forest | Volcanic | Celestial

  /** The regions in the order `initializeRegions` inserts them into the region map. */
  const Regions: seq<Region> := [Valdoria, Tharok, Myr, Khar, Aeloria]

  const MaxLevel: int := 100

  /** The key of the region in the region map. */
  function Key(r: Region): string
  {
    match r
    case Valdoria => "valdoria"
    case Tharok => "tharok"
    case Myr => "myr"
    case Khar => "khar"
    case Aeloria => "aeloria"
  }

  /** `regions.get(key)`: the region stored under a key, if any. */
  function RegionOf(key: string): (r: Option<Region>)
    ensures r.Some? ==> Key(r.value) == key
    ensures r.None? ==> forall g: Region :: Key(g) != key
  {
    if key == "valdoria" then Some(Valdoria)
    else if key == "tharok" then Some(Tharok)
    else if key == "myr" then Some(Myr)
    else if key == "khar" then Some(Khar)
    else if key == "aeloria" then Some(Aeloria)
    else None
  }

  /** Every region is found again under its own key. */
  lemma KeyRoundTrip(r: Region)
    ensures RegionOf(Key(r)) == Some(r)
  {
  }

  /** The inclusive level range of a region. */
  function LevelRange(r: Region): (int, int)
  {
    match r
    case Valdoria => (1, 20)
    case Tharok => (21, 40)
    case Myr => (41, 60)
    case Khar => (61, 80)
    case Aeloria => (81, 100)
  }

  predicate Covers(r: Region, level: int)
  {
    LevelRange(r).0 <= level <= LevelRange(r).1
  }

  function ThemeOf(r: Region): Theme
  {
    match r
    case Valdoria => Medieval
    case Tharok => Mountain
    case Myr => Forest
    case Khar => Volcanic
    case Aeloria => Celestial
  }

  /** The region's enemy types, as `EnemyFactory.createEnemy` receives them. */
  function EnemyTypes(r: Region): (types: seq<string>)
    ensures |types| == 3
  {
    match r
    case Valdoria => ["orc", "bandit", "wolf"]
    case Tharok => ["eagle", "golem", "troll"]
    case Myr => ["phoenix", "spirit", "giant_spider"]
    case Khar => ["dragon", "demon", "cultist"]
    case Aeloria => ["elemental", "siren", "magic_guardian"]
  }

  function WeatherKinds(r: Region): (kinds: seq<string>)
    ensures |kinds| == 3
  {
    match r
    case Valdoria => ["clear", "rain", "fog"]
    case Tharok => ["clear", "snow", "storm"]
    case Myr => ["clear", "rain", "mystical"]
    case Khar => ["ash", "fire_rain", "volcanic_storm"]
    case Aeloria => ["clear", "aurora", "time_storm"]
  }

  /** The first region of the list whose range holds the level, as the `for ... of` over the
      region map finds it. */
  function FirstCovering(rs: seq<Region>, level: int): (r: Option<Region>)
    ensures r.Some? ==> r.value in rs && Covers(r.value, level)
    ensures r.None? ==> forall g :: g in rs ==> !Covers(g, level)
  {
    if rs == [] then None
    else if Covers(rs[0], level) then Some(rs[0])
    else FirstCovering(rs[1..], level)
  }

  /** `getRegionForLevel`: the region whose range holds the level, Valdoria for any other level. */
  function RegionForLevel(level: int): (r: Region)
    ensures Covers(r, level) || (r == Valdoria && forall g: Region :: !Covers(g, level))
  {
    var found := FirstCovering(Regions, level);
    assert Valdoria in Regions && Tharok in Regions && Myr in Regions && Khar in Regions && Aeloria in Regions;
    if found.Some? then found.value else Valdoria
  }

  /** The five ranges partition 1..100: each of those levels lies in exactly one region, the one
      `RegionForLevel` returns; every other level lies in none and falls back to Valdoria. */
  lemma RegionsPartitionLevels(level: int)
    ensures 1 <= level <= MaxLevel ==>
              Covers(RegionForLevel(level), level) && forall g: Region :: Covers(g, level) ==> g == RegionForLevel(level)
    ensures !(1 <= level <= MaxLevel) ==> RegionForLevel(level) == Valdoria && forall g: Region :: !Covers(g, level)
  {
    if 1 <= level <= MaxLevel {
      var r := RegionForLevel(level);
      assert Covers(Valdoria, level) || Covers(Tharok, level) || Covers(Myr, level) || Covers(Khar, level) || Covers(Aeloria, level);
      forall g: Region | Covers(g, level)
        ensures g == r
      {
        assert Covers(r, level);
      }
    }
  }

  /** `getBossType`: the boss's enemy type by region key, 'orc' for an unknown key. */
  function BossType(key: string): (t: string)
    ensures RegionOf(key).None? ==> t == "orc"
  {
    if key == "valdoria" then "orc"
    else if key == "tharok" then "golem"
    else if key == "myr" then "phoenix"
    else if key == "khar" then "dragon"
    else if key == "aeloria" then "elemental"
    else "orc"
  }

  /** The enemy kinds a region's types build, in order: every name the factory does not know
      becomes a generic enemy. */
  function RegionKinds(r: Region): (kinds: seq<EnemyKind>)
    ensures |kinds| == 3 && forall k :: 0 <= k < 3 ==> kinds[k] == KindOf(EnemyTypes(r)[k])
  {
    var types := EnemyTypes(r);
    [KindOf(types[0]), KindOf(types[1]), KindOf(types[2])]
  }

  /** What the region tables build: each region has one known kind beside two generic ones,
      except Aeloria, whose enemies are all generic. */
  lemma RegionRoster()
    ensures RegionKinds(Valdoria) == [Orc, Generic, Generic] && RegionKinds(Tharok) == [Eagle, Generic, Generic]
    ensures RegionKinds(Myr) == [Phoenix, Generic, Generic] && RegionKinds(Khar) == [Dragon, Generic, Generic]
    ensures RegionKinds(Aeloria) == [Generic, Generic, Generic]
  {
    assert KindOf("bandit") == Generic && KindOf("wolf") == Generic;
    assert KindOf("golem") == Generic && KindOf("troll") == Generic;
    assert KindOf("spirit") == Generic && KindOf("giant_spider") == Generic;
    assert KindOf("demon") == Generic && KindOf("cultist") == Generic;
    assert KindOf("elemental") == Generic && KindOf("siren") == Generic && KindOf("magic_guardian") == Generic;
  }

  /** The bosses the table names: an orc, a phoenix and a dragon for Valdoria, Myr and Khar; the
      bosses of Tharok and Aeloria are generic enemies. */
  lemma BossRoster()
    ensures KindOf(BossType(Key(Valdoria))) == Orc && KindOf(BossType(Key(Myr))) == Phoenix
    ensures KindOf(BossType(Key(Khar))) == Dragon
    ensures KindOf(BossType(Key(Tharok))) == Generic && KindOf(BossType(Key(Aeloria))) == Generic
  {
    assert BossType("tharok") == "golem" && BossType("aeloria") == "elemental";
  }

  /** `isBossLevel`: every tenth level. */
  predicate IsBossLevel(level: int)
  {
    level % 10 == 0
  }

  /** Boss levels are exactly the multiples of ten: the truncating `%` of the source and the
      Euclidean one agree on divisibility, for negative levels too. */
  lemma BossLevelsAreMultiplesOfTen(level: int)
    ensures IsBossLevel(level) <==> exists k :: level == 10 * k
  {
    if IsBossLevel(level) {
      assert level == 10 * (level / 10);
    }
  }

  // ===========================================================================
  // Count formulas

  /** `Math.floor(level * 0.5) + 5`. */
  function ObstacleCount(level: int): int { (level as real * 0.5).Floor + 5 }

  /** `Math.floor(level * 0.8) + 3`. */
  function EnemySpawnCount(level: int): int { (level as real * 0.8).Floor + 3 }

  /** `Math.floor(level * 0.6) + 5`. */
  function EnemyCount(level: int): int { (level as real * 0.6).Floor + 5 }

  /** `Math.floor(level * 0.3) + 3`. */
  function ItemCount(level: int): int { (level as real * 0.3).Floor + 3 }

  /** The floor of `level * p / q` is the integer quotient. */
  lemma FloorOfFraction(level: int, p: int, q: int)
    requires q > 0
    ensures ((level * p) as real / q as real).Floor == (level * p) / q
  {
    var n := level * p;
    var d, m := n / q, n % q;
    assert n == d * q + m;
    assert n as real / q as real == d as real + m as real / q as real;
    assert 0.0 <= m as real / q as real < 1.0;
  }

  /** The counts as integer arithmetic: level/2 + 5 obstacles, 4·level/5 + 3 enemy spawns,
      3·level/5 + 5 enemies, 3·level/10 + 3 items; all of them grow with the level. */
  lemma CountFormulas(level: int)
    ensures ObstacleCount(level) == level / 2 + 5
    ensures EnemySpawnCount(level) == (4 * level) / 5 + 3
    ensures EnemyCount(level) == (3 * level) / 5 + 5
    ensures ItemCount(level) == (3 * level) / 10 + 3
  {
    FloorOfFraction(level, 1, 2);
    assert level as real * 0.5 == (level * 1) as real / 2 as real;
    FloorOfFraction(level, 4, 5);
    assert level as real * 0.8 == (level * 4) as real / 5 as real;
    FloorOfFraction(level, 3, 5);
    assert level as real * 0.6 == (level * 3) as real / 5 as real;
    FloorOfFraction(level, 3, 10);
    assert level as real * 0.3 == (level * 3) as real / 10 as real;
  }

  /** Higher levels never get fewer obstacles, spawns, enemies or items. */
  lemma CountsGrowWithLevel(a: int, b: int)
    requires a <= b
    ensures ObstacleCount(a) <= ObstacleCount(b) && EnemySpawnCount(a) <= EnemySpawnCount(b)
    ensures EnemyCount(a) <= EnemyCount(b) && ItemCount(a) <= ItemCount(b)
  {
    assert a as real * 0.5 <= b as real * 0.5;
    assert a as real * 0.8 <= b as real * 0.8;
    assert a as real * 0.6 <= b as real * 0.6;
    assert a as real * 0.3 <= b as real * 0.3;
  }

  // ===========================================================================
  // Weighted picks

  /** The cumulative weight of the first n entries. */
  function Prefix(ws: seq<real>, n: nat): real
    requires n <= |ws|
  {
    if n == 0 then 0.0 else Prefix(ws, n - 1) + ws[n - 1]
  }

  /** Entry i is the first whose cumulative weight reaches r. */
  predicate PicksAt(ws: seq<real>, r: real, i: nat)
  {
    i < |ws| && r <= Prefix(ws, i + 1) && forall n :: 1 <= n <= i ==> Prefix(ws, n) < r
  }

  /** The loop shared by the tile, item and rarity pickers: it adds the weights up in order and
      stops at the first entry whose cumulative weight reaches the draw; none when the weights
      never reach it. */
  method PickWeighted(ws: seq<real>, r: real) returns (pick: Option<nat>)
    ensures pick.Some? ==> PicksAt(ws, r, pick.value)
    ensures pick.None? ==> forall n :: 1 <= n <= |ws| ==> Prefix(ws, n) < r
  {
    var cumulative := 0.0;
    var i := 0;
    while i < |ws|
      invariant 0 <= i <= |ws|
      invariant cumulative == Prefix(ws, i)
      invariant forall n :: 1 <= n <= i ==> Prefix(ws, n) < r
    {
      cumulative := cumulative + ws[i];
      if r <= cumulative {
        return Some(i);
      }
      i := i + 1;
    }
    return None;
  }

  /** At most one entry is the first to reach a draw, and a larger draw never picks an earlier
      entry. */
  lemma PickIsMonotone(ws: seq<real>, r1: real, r2: real, i: nat, k: nat)
    requires PicksAt(ws, r1, i) && PicksAt(ws, r2, k) && r1 <= r2
    ensures i <= k
  {
  }

  /** Once some cumulative weight reaches the draw, there is a first entry to reach it, so the
      picker returns an entry and never its fallback. */
  lemma {:induction false} PickExists(ws: seq<real>, r: real, m: nat)
    requires 1 <= m <= |ws| && r <= Prefix(ws, m)
    ensures exists i :: PicksAt(ws, r, i)
    decreases m
  {
    if n :| 1 <= n < m && r <= Prefix(ws, n) {
      PickExists(ws, r, n);
    } else {
      assert PicksAt(ws, r, m - 1);
    }
  }

  /** The weights of the tiles of a theme, in `TileTypes` order. */
  function TileWeights(t: Theme): (ws: seq<real>)
    ensures |ws| == 4
  {
    match t
    case Medieval => [0.6, 0.2, 0.1, 0.1]
    case Mountain => [0.4, 0.3, 0.2, 0.1]
    case Forest => [0.5, 0.3, 0.15, 0.05]
    case Volcanic => [0.2, 0.4, 0.3, 0.1]
    case Celestial => [0.4, 0.3, 0.2, 0.1]
  }

  const ItemCategoryWeights: seq<real> := [0.2, 0.2, 0.4, 0.2]

  const RarityWeights: seq<real> := [0.5, 0.3, 0.15, 0.04, 0.01]

  /** Every weight table of the generator adds up to exactly 1, so with exact arithmetic every
      draw in [0, 1) picks an entry. */
  lemma WeightTablesAreComplete(t: Theme)
    ensures |TileWeights(t)| == 4 && Prefix(TileWeights(t), 4) == 1.0
    ensures Prefix(ItemCategoryWeights, 4) == 1.0
    ensures Prefix(RarityWeights, 5) == 1.0
  {
    var ws := TileWeights(t);
    assert Prefix(ws, 4) == ws[0] + ws[1] + ws[2] + ws[3] by {
      assert Prefix(ws, 1) == ws[0];
      assert Prefix(ws, 2) == ws[0] + ws[1];
      assert Prefix(ws, 3) == ws[0] + ws[1] + ws[2];
    }
    var iw := ItemCategoryWeights;
    assert Prefix(iw, 4) == iw[0] + iw[1] + iw[2] + iw[3] by {
      assert Prefix(iw, 1) == iw[0];
      assert Prefix(iw, 2) == iw[0] + iw[1];
      assert Prefix(iw, 3) == iw[0] + iw[1] + iw[2];
    }
    var rw := RarityWeights;
    assert Prefix(rw, 5) == rw[0] + rw[1] + rw[2] + rw[3] + rw[4] by {
      assert Prefix(rw, 1) == rw[0];
      assert Prefix(rw, 2) == rw[0] + rw[1];
      assert Prefix(rw, 3) == rw[0] + rw[1] + rw[2];
      assert Prefix(rw, 4) == rw[0] + rw[1] + rw[2] + rw[3];
    }
  }

  // ===========================================================================
  // Tiles

  datatype Obstacle = Obstacle(x: int, y: int, obstacleType: string)

  /** A map cell: its type, whether it can be walked on, the index of its decoration among the
      three its type has (none when no decoration was drawn), and the obstacle placed on it. */
  datatype Tile = Tile(tileType: string, walkable: bool, decoration: Option<nat>, obstacle: Option<Obstacle>)

  /** The four tile types of a theme, in the order their weights are listed. */
  function TileTypes(t: Theme): (types: seq<string>)
    ensures |types| == 4
  {
    match t
    case Medieval => ["grass", "stone", "water", "dirt"]
    case Mountain => ["rock", "snow", "mountain", "cave"]
    case Forest => ["forest", "grass", "mystical", "clearing"]
    case Volcanic => ["lava", "ash", "volcanic_rock", "obsidian"]
    case Celestial => ["crystal", "floating_rock", "energy_field", "void"]
  }

  /** The one tile type of a theme that cannot be walked on. */
  function Impassable(t: Theme): string
  {
    match t
    case Medieval => "water"
    case Mountain => "mountain"
    case Forest => "mystical"
    case Volcanic => "lava"
    case Celestial => "void"
  }

  /** The walkable tile a generator returns when no weight reaches its draw. */
  function FallbackTile(t: Theme): string
  {
    match t
    case Medieval => "grass"
    case Mountain => "rock"
    case Forest => "forest"
    case Volcanic => "ash"
    case Celestial => "crystal"
  }

  function ObstacleTypes(t: Theme): (types: seq<string>)
    ensures |types| == 4
  {
    match t
    case Medieval => ["wall", "fence", "barrel", "cart"]
    case Mountain => ["boulder", "cliff", "fallen_tree", "rock_formation"]
    case Forest => ["tree", "fallen_log", "bush", "mystical_barrier"]
    case Volcanic => ["lava_pool", "ash_pile", "volcanic_rock", "fire_pit"]
    case Celestial => ["crystal_formation", "energy_barrier", "floating_debris", "void_portal"]
  }

  /** A tile as a theme's generator builds it: one of the theme's types, walkable exactly when
      it is not the impassable one, with no obstacle, and with a decoration index below 3. */
  predicate Fits(t: Theme, tile: Tile)
  {
    tile.tileType in TileTypes(t) && tile.walkable == (tile.tileType != Impassable(t)) &&
    tile.obstacle.None? && (tile.decoration.Some? ==> tile.decoration.value < 3)
  }

  /** `getTileDecoration` for the draws at the cursor: every tile type the generators produce has
      three decorations, so a first draw below 0.3 picks one of them with a second draw. Returns
      the decoration and the cursor after the draws read. */
  function Decoration(rs: seq<real>, i: nat): (d: (Option<nat>, nat))
    requires AreDraws(rs)
    ensures d.0.Some? ==> d.0.value < 3
    ensures d.1 == i + 1 || d.1 == i + 2
  {
    if Draw(rs, i) < 0.3 then (Some(RandomInt(0, 2, Draw(rs, i + 1)) as nat), i + 2) else (None, i + 1)
  }

  /** `generateTile` with the theme's generator: a weighted pick of the tile type, then its
      decoration; the fallback tile when no weight reaches the draw. */
  method GenerateTile(t: Theme, rs: seq<real>, i: nat) returns (tile: Tile, j: nat)
    requires AreDraws(rs)
    ensures Fits(t, tile) && i < j <= i + 3
  {
    var pick := PickWeighted(TileWeights(t), Draw(rs, i));
    j := i + 1;
    if pick.Some? {
      var tileType := TileTypes(t)[pick.value];
      var decoration;
      decoration, j := Decoration(rs, j).0, Decoration(rs, j).1;
      tile := Tile(tileType, tileType != Impassable(t), decoration, None);
    } else {
      tile := Tile(FallbackTile(t), true, None, None);
    }
  }

  // ===========================================================================
  // The level map

  datatype SpawnRole = PlayerSpawn | EnemySpawn(enemyType: string)

  datatype SpawnPoint = SpawnPoint(x: int, y: int, role: SpawnRole, level: int)

  datatype ExitKind = NextLevel | PreviousLevel

  datatype ExitPoint = ExitPoint(x: int, y: int, kind: ExitKind, level: int)

  const MinSpawnDistance: int := 20

  const MaxSpawnAttempts: int := 50

  /** The squared distance between two points: `Utils.distance(x1, y1, x2, y2) < 20` holds
      exactly when this is below 20 * 20, which keeps the square root out of the model. */
  function DistSq(x1: int, y1: int, x2: int, y2: int): int
  {
    (x2 - x1) * (x2 - x1) + (y2 - y1) * (y2 - y1)
  }

  /** `isNearSpawnPoint` as a property: some spawn point lies closer than 20. */
  predicate Near(x: int, y: int, spawns: seq<SpawnPoint>)
  {
    exists k :: 0 <= k < |spawns| && DistSq(x, y, spawns[k].x, spawns[k].y) < MinSpawnDistance * MinSpawnDistance
  }

  /** `isNearSpawnPoint`: the loop over the spawn points, stopping at the first one closer than 20. */
  method IsNearSpawnPoint(x: int, y: int, spawns: seq<SpawnPoint>) returns (near: bool)
    ensures near == Near(x, y, spawns)
  {
    for k := 0 to |spawns|
      invariant forall m :: 0 <= m < k ==> DistSq(x, y, spawns[m].x, spawns[m].y) >= MinSpawnDistance * MinSpawnDistance
    {
      if DistSq(x, y, spawns[k].x, spawns[k].y) < MinSpawnDistance * MinSpawnDistance {
        return true;
      }
    }
    return false;
  }

  /** The a-th candidate of a rejection loop started at cursor i: two draws, x then y. */
  function Sample(rs: seq<real>, i: nat, a: nat, lo: int, hiX: int, hiY: int): (int, int)
    requires lo <= hiX && lo <= hiY && AreDraws(rs)
  {
    (RandomInt(lo, hiX, Draw(rs, i + 2 * a)), RandomInt(lo, hiY, Draw(rs, i + 2 * a + 1)))
  }

  predicate Rejected(spawns: seq<SpawnPoint>, rs: seq<real>, i: nat, a: nat, lo: int, hiX: int, hiY: int)
    requires lo <= hiX && lo <= hiY && AreDraws(rs)
  {
    Near(Sample(rs, i, a, lo, hiX, hiY).0, Sample(rs, i, a, lo, hiX, hiY).1, spawns)
  }

  /** The `do ... while` of `addSpawnPoints`: candidates are drawn until one is not near any
      spawn point or 50 have been drawn. Every candidate before the last was near a spawn point;
      the last is free whenever fewer than 50 were drawn. */
  method FindSpawn(spawns: seq<SpawnPoint>, lo: int, hiX: int, hiY: int, rs: seq<real>, i: nat)
    returns (x: int, y: int, attempts: int, j: nat)
    requires lo <= hiX && lo <= hiY && AreDraws(rs)
    ensures 1 <= attempts <= MaxSpawnAttempts && j == i + 2 * attempts
    ensures (x, y) == Sample(rs, i, attempts - 1, lo, hiX, hiY)
    ensures lo <= x <= hiX && lo <= y <= hiY
    ensures forall a :: 0 <= a < attempts - 1 ==> Rejected(spawns, rs, i, a, lo, hiX, hiY)
    ensures attempts < MaxSpawnAttempts ==> !Near(x, y, spawns)
  {
    x, y, attempts, j := lo, lo, 0, i;
    var near := true;
    while near && attempts < MaxSpawnAttempts
      invariant 0 <= attempts <= MaxSpawnAttempts && j == i + 2 * attempts
      invariant attempts == 0 ==> near
      invariant attempts > 0 ==> (x, y) == Sample(rs, i, attempts - 1, lo, hiX, hiY) && near == Near(x, y, spawns)
      invariant forall a :: 0 <= a < attempts - 1 ==> Rejected(spawns, rs, i, a, lo, hiX, hiY)
      decreases MaxSpawnAttempts - attempts
    {
      if attempts > 0 {
        assert Rejected(spawns, rs, i, attempts - 1, lo, hiX, hiY);
      }
      x := RandomInt(lo, hiX, Draw(rs, j));
      y := RandomInt(lo, hiY, Draw(rs, j + 1));
      attempts := attempts + 1;
      j := j + 2;
      near := IsNearSpawnPoint(x, y, spawns);
    }
  }

  /** A later spawn point lies at least 20 away from an earlier one. */
  predicate Apart(later: SpawnPoint, earlier: SpawnPoint)
  {
    DistSq(later.x, later.y, earlier.x, earlier.y) >= MinSpawnDistance * MinSpawnDistance
  }

  /** An enemy spawn point as `addSpawnPoints` makes it on a map of the given side. */
  predicate EnemySpawnFits(p: SpawnPoint, side: int, level: int)
  {
    p.role.EnemySpawn? && p.role.enemyType in EnemyTypes(RegionForLevel(level)) && p.level == level &&
    10 <= p.x <= side - 11 && 10 <= p.y <= side - 11
  }

  /** An obstacle as `addObstacles` makes it on a map of the given side and theme. */
  predicate ObstacleFits(o: Obstacle, side: int, t: Theme)
  {
    5 <= o.x <= side - 6 && 5 <= o.y <= side - 6 && o.obstacleType in ObstacleTypes(t)
  }

  /** An exit point lies within [5, side - 6] on both axes. */
  predicate ExitFits(e: ExitPoint, side: int)
  {
    5 <= e.x <= side - 6 && 5 <= e.y <= side - 6
  }

  /** Some obstacle of the list stands on cell (x, y). */
  predicate Hit(obstacles: seq<Obstacle>, x: int, y: int)
  {
    exists k :: 0 <= k < |obstacles| && obstacles[k].x == x && obstacles[k].y == y
  }

  /** A cell is hit by a list with one more obstacle exactly when it is hit by the list or
      the new obstacle stands on it. */
  lemma HitAppend(obstacles: seq<Obstacle>, o: Obstacle)
    ensures forall x, y :: Hit(obstacles + [o], x, y) <==> Hit(obstacles, x, y) || (o.x == x && o.y == y)
  {
    forall x, y | Hit(obstacles + [o], x, y)
      ensures Hit(obstacles, x, y) || (o.x == x && o.y == y)
    {
      var k :| 0 <= k < |obstacles + [o]| && (obstacles + [o])[k].x == x && (obstacles + [o])[k].y == y;
      if k < |obstacles| {
        assert obstacles[k] == (obstacles + [o])[k];
      }
    }
    forall x, y | Hit(obstacles, x, y)
      ensures Hit(obstacles + [o], x, y)
    {
      var k :| 0 <= k < |obstacles| && obstacles[k].x == x && obstacles[k].y == y;
      assert (obstacles + [o])[k] == obstacles[k];
    }
    forall x, y | o.x == x && o.y == y
      ensures Hit(obstacles + [o], x, y)
    {
      assert (obstacles + [o])[|obstacles|] == o;
    }
  }

  /** The map object `createLevelMap` builds: a square grid of tiles (`tiles[y, x]`), the
      obstacles, the spawn points and the exit points. */
  class LevelMap {
    const width: int
    const height: int
    const theme: Theme
    const tiles: array2<Tile>
    var obstacles: seq<Obstacle>
    var spawnPoints: seq<SpawnPoint>
    var exitPoints: seq<ExitPoint>

    /** The grid is square, matches the size and leaves room for the spawn band [10, side - 11]. */
    predicate Shaped()
    {
      tiles.Length0 == height && tiles.Length1 == width && width == height >= 21
    }

    constructor (side: int, theme: Theme)
      requires side >= 21
      ensures Shaped() && width == side && this.theme == theme && fresh(tiles)
      ensures obstacles == [] && spawnPoints == [] && exitPoints == []
    {
      width, height := side, side;
      this.theme := theme;
      tiles := new Tile[side, side]((r, c) => Tile(FallbackTile(theme), true, None, None));
      obstacles, spawnPoints, exitPoints := [], [], [];
    }

    /** The nested loops of `createLevelMap` that fill every cell with a generated tile. */
    method FillTiles(rs: seq<real>, i: nat) returns (j: nat)
      requires Shaped() && AreDraws(rs)
      modifies tiles
      ensures j >= i
      ensures forall r, c :: 0 <= r < height && 0 <= c < width ==> Fits(theme, tiles[r, c])
    {
      j := i;
      var y := 0;
      while y < height
        invariant 0 <= y <= height && j >= i
        invariant forall r, c :: 0 <= r < y && 0 <= c < width ==> Fits(theme, tiles[r, c])
      {
        var x := 0;
        while x < width
          invariant 0 <= x <= width && j >= i
          invariant forall r, c :: 0 <= r < y && 0 <= c < width ==> Fits(theme, tiles[r, c])
          invariant forall c :: 0 <= c < x ==> Fits(theme, tiles[y, c])
        {
          var tile;
          tile, j := GenerateTile(theme, rs, j);
          tiles[y, x] := tile;
          x := x + 1;
        }
        y := y + 1;
      }
    }

    /** `addObstacles`: floor(level * 0.5) + 5 obstacles at random cells of [5, side - 6], each
        making its cell unwalkable and recording itself on it. Tile types and decorations stay;
        a cell is walkable afterwards exactly when it was before and no new obstacle stands on
        it, and cells without a new obstacle are untouched. */
    method AddObstacles(level: int, rs: seq<real>, i: nat) returns (j: nat)
      requires level >= 1 && Shaped() && AreDraws(rs)
      modifies this`obstacles, tiles
      ensures j >= i
      ensures |obstacles| == |old(obstacles)| + ObstacleCount(level)
      ensures obstacles[..|old(obstacles)|] == old(obstacles)
      ensures forall k :: |old(obstacles)| <= k < |obstacles| ==> ObstacleFits(obstacles[k], width, theme)
      ensures forall r, c :: 0 <= r < height && 0 <= c < width ==>
        tiles[r, c].tileType == old(tiles[r, c].tileType) && tiles[r, c].decoration == old(tiles[r, c].decoration) &&
        tiles[r, c].walkable == (old(tiles[r, c].walkable) && !Hit(obstacles[|old(obstacles)|..], c, r)) &&
        (!Hit(obstacles[|old(obstacles)|..], c, r) ==> tiles[r, c] == old(tiles[r, c]))
    {
      ghost var start := |obstacles|;
      j := i;
      var n := 0;
      while n < ObstacleCount(level)
        invariant 0 <= n && |obstacles| == start + n && j >= i
        invariant n <= ObstacleCount(level)
        invariant obstacles[..start] == old(obstacles)
        invariant forall k :: start <= k < |obstacles| ==> ObstacleFits(obstacles[k], width, theme)
        invariant forall r, c :: 0 <= r < height && 0 <= c < width ==>
          tiles[r, c].tileType == old(tiles[r, c].tileType) && tiles[r, c].decoration == old(tiles[r, c].decoration) &&
          tiles[r, c].walkable == (old(tiles[r, c].walkable) && !Hit(obstacles[start..], c, r)) &&
          (!Hit(obstacles[start..], c, r) ==> tiles[r, c] == old(tiles[r, c]))
      {
        var x := RandomInt(5, width - 6, Draw(rs, j));
        var y := RandomInt(5, height - 6, Draw(rs, j + 1));
        var o := Obstacle(x, y, ObstacleTypes(theme)[RandomInt(0, 3, Draw(rs, j + 2))]);
        j := j + 3;
        HitAppend(obstacles[start..], o);
        assert (obstacles + [o])[start..] == obstacles[start..] + [o];
        obstacles := obstacles + [o];
        tiles[y, x] := tiles[y, x].(walkable := false, obstacle := Some(o));
        n := n + 1;
      }
    }

    /** `addSpawnPoints`: the player spawn at the centre, then floor(level * 0.8) + 3 searches
        for an enemy spawn, each kept only when found in fewer than 50 attempts, with an enemy
        type drawn from the region's roster. Every spawn point lies at least 20 from every
        earlier one. */
    method AddSpawnPoints(level: int, rs: seq<real>, i: nat) returns (j: nat)
      requires level >= 1 && Shaped() && AreDraws(rs) && spawnPoints == []
      modifies this`spawnPoints
      ensures j >= i
      ensures 1 <= |spawnPoints| <= 1 + EnemySpawnCount(level)
      ensures spawnPoints[0] == SpawnPoint(width / 2, height / 2, PlayerSpawn, level)
      ensures forall k :: 1 <= k < |spawnPoints| ==> EnemySpawnFits(spawnPoints[k], width, level)
      ensures forall a, b :: 0 <= a < b < |spawnPoints| ==> Apart(spawnPoints[b], spawnPoints[a])
    {
      var types := EnemyTypes(RegionForLevel(level));
      spawnPoints := [SpawnPoint(width / 2, height / 2, PlayerSpawn, level)];
      j := i;
      var n := 0;
      while n < EnemySpawnCount(level)
        invariant 0 <= n <= EnemySpawnCount(level) && j >= i
        invariant 1 <= |spawnPoints| <= 1 + n
        invariant spawnPoints[0] == SpawnPoint(width / 2, height / 2, PlayerSpawn, level)
        invariant forall k :: 1 <= k < |spawnPoints| ==> EnemySpawnFits(spawnPoints[k], width, level)
        invariant forall a, b :: 0 <= a < b < |spawnPoints| ==> Apart(spawnPoints[b], spawnPoints[a])
      {
        var x, y, attempts;
        x, y, attempts, j := FindSpawn(spawnPoints, 10, width - 11, height - 11, rs, j);
        if attempts < MaxSpawnAttempts {
          var p := SpawnPoint(x, y, EnemySpawn(types[RandomInt(0, 2, Draw(rs, j))]), level);
          j := j + 1;
          assert forall a :: 0 <= a < |spawnPoints| ==> Apart(p, spawnPoints[a]);
          spawnPoints := spawnPoints + [p];
        }
        n := n + 1;
      }
    }

    /** `addExitPoints`: an exit to the next level, and from level 2 on one back to the previous
        level, each at a random cell of [5, side - 6]. */
    method AddExitPoints(level: int, rs: seq<real>, i: nat) returns (j: nat)
      requires Shaped() && AreDraws(rs) && exitPoints == []
      modifies this`exitPoints
      ensures j == i + (if level > 1 then 4 else 2)
      ensures |exitPoints| == (if level > 1 then 2 else 1)
      ensures forall k :: 0 <= k < |exitPoints| ==> ExitFits(exitPoints[k], width)
      ensures exitPoints[0].kind == NextLevel && exitPoints[0].level == level + 1
      ensures level > 1 ==> exitPoints[1].kind == PreviousLevel && exitPoints[1].level == level - 1
    {
      exitPoints := [ExitPoint(RandomInt(5, width - 6, Draw(rs, i)), RandomInt(5, height - 6, Draw(rs, i + 1)), NextLevel, level + 1)];
      j := i + 2;
      if level > 1 {
        exitPoints := exitPoints + [ExitPoint(RandomInt(5, width - 6, Draw(rs, j)), RandomInt(5, height - 6, Draw(rs, j + 1)), PreviousLevel, level - 1)];
        j := j + 2;
      }
    }
  }

  /** `createLevelMap`: a square map of side 50 + 2 * level in the theme of the level's region,
      every cell a generated tile, then the obstacles, the spawn points and the exits. A cell is
      walkable exactly when its type is not the theme's impassable one and no obstacle stands
      on it. */
  method CreateLevelMap(level: int, rs: seq<real>, i: nat) returns (m: LevelMap, j: nat)
    requires level >= 1 && AreDraws(rs)
    ensures fresh(m) && fresh(m.tiles) && m.Shaped() && j >= i
    ensures m.width == 50 + 2 * level && m.theme == ThemeOf(RegionForLevel(level))
    ensures forall r, c :: 0 <= r < m.height && 0 <= c < m.width ==>
      m.tiles[r, c].tileType in TileTypes(m.theme) &&
      (m.tiles[r, c].walkable <==> m.tiles[r, c].tileType != Impassable(m.theme) && !Hit(m.obstacles, c, r))
    ensures |m.obstacles| == ObstacleCount(level)
    ensures forall k :: 0 <= k < |m.obstacles| ==> ObstacleFits(m.obstacles[k], m.width, m.theme)
    ensures 1 <= |m.spawnPoints| <= 1 + EnemySpawnCount(level)
    ensures m.spawnPoints[0] == SpawnPoint(25 + level, 25 + level, PlayerSpawn, level)
    ensures forall k :: 1 <= k < |m.spawnPoints| ==> EnemySpawnFits(m.spawnPoints[k], m.width, level)
    ensures forall a, b :: 0 <= a < b < |m.spawnPoints| ==> Apart(m.spawnPoints[b], m.spawnPoints[a])
    ensures |m.exitPoints| == (if level > 1 then 2 else 1)
    ensures forall k :: 0 <= k < |m.exitPoints| ==> ExitFits(m.exitPoints[k], m.width)
    ensures m.exitPoints[0].kind == NextLevel && m.exitPoints[0].level == level + 1
    ensures level > 1 ==> m.exitPoints[1].kind == PreviousLevel && m.exitPoints[1].level == level - 1
  {
    m := new LevelMap(50 + 2 * level, ThemeOf(RegionForLevel(level)));
    j := m.FillTiles(rs, i);
    j := m.AddObstacles(level, rs, j);
    assert m.obstacles[0..] == m.obstacles;
    j := m.AddSpawnPoints(level, rs, j);
    j := m.AddExitPoints(level, rs, j);
  }

  // ===========================================================================
  // Enemies, bosses and loot of a level

  /** A freshly generated enemy of a level: alive, in a consistent state, of a kind on the
      level region's roster, standing in the spawn rectangle [50, 800] x [50, 600]. */
  ghost predicate Spawned(e: Enemy, level: int)
    reads e
  {
    e.Valid() && e.Scaled() && e.isAlive && e.level == level && e.kind in RegionKinds(RegionForLevel(level)) &&
    50.0 <= e.x <= 800.0 && 50.0 <= e.y <= 600.0
  }

  /** One round of `generateEnemies`: a type from the region's roster, then an x and a y. */
  method SpawnEnemy(level: int, rs: seq<real>, j: nat) returns (e: Enemy)
    requires level >= 1 && AreDraws(rs)
    ensures fresh(e) && Spawned(e, level)
  {
    var region := RegionForLevel(level);
    var t := RandomInt(0, 2, Draw(rs, j));
    var x := RandomInt(50, 800, Draw(rs, j + 1));
    var y := RandomInt(50, 600, Draw(rs, j + 2));
    e := CreateEnemy(EnemyTypes(region)[t], x as real, y as real, level);
    assert e.kind == RegionKinds(region)[t];
  }

  /** `generateEnemies`: floor(level * 0.6) + 5 distinct new enemies, each drawn as a type from
      the region's roster, then an x and a y. */
  method GenerateEnemies(level: int, rs: seq<real>, i: nat) returns (enemies: seq<Enemy>, j: nat)
    requires level >= 1 && AreDraws(rs)
    ensures |enemies| == EnemyCount(level) && j == i + 3 * |enemies|
    ensures forall k :: 0 <= k < |enemies| ==> fresh(enemies[k]) && Spawned(enemies[k], level)
    ensures forall a, b :: 0 <= a < b < |enemies| ==> enemies[a] != enemies[b]
  {
    enemies, j := [], i;
    while |enemies| < EnemyCount(level)
      invariant |enemies| <= EnemyCount(level) && j == i + 3 * |enemies|
      invariant forall k :: 0 <= k < |enemies| ==> fresh(enemies[k]) && Spawned(enemies[k], level)
      invariant forall a, b :: 0 <= a < b < |enemies| ==> enemies[a] != enemies[b]
    {
      var e := SpawnEnemy(level, rs, j);
      j := j + 3;
      enemies := enemies + [e];
    }
  }

  /** `generateBoss`: the region's boss type at the centre (400, 300); every region has one,
      so a boss is always made. */
  method GenerateBoss(level: int) returns (boss: Enemy)
    requires level >= 1
    ensures fresh(boss) && boss.Valid() && boss.Scaled() && boss.isAlive && boss.level == level
    ensures boss.kind == KindOf(BossType(Key(RegionForLevel(level))))
    ensures boss.x == 400.0 && boss.y == 300.0
  {
    boss := CreateEnemy(BossType(Key(RegionForLevel(level))), 400.0, 300.0, level);
  }

  datatype ItemCategory = Weapon | Armor | Potion | Material

  datatype Rarity = Common | Uncommon | Rare | Epic | Legendary

  const ItemCategories: seq<ItemCategory> := [Weapon, Armor, Potion, Material]

  const Rarities: seq<Rarity> := [Common, Uncommon, Rare, Epic, Legendary]

  function CategoryName(c: ItemCategory): string
  {
    match c
    case Weapon => "weapon"
    case Armor => "armor"
    case Potion => "potion"
    case Material => "material"
  }

  /** The stats object of `generateItemStats`, one shape per category. */
  datatype ItemStats =
    | WeaponStats(attack: int, speed: int)
    | ArmorStats(defense: int, resistance: int)
    | PotionStats(healAmount: int)
    | MaterialStats(value: int)

  /** The item object `createItem` builds. */
  datatype LevelItem = LevelItem(category: ItemCategory, level: int, name: string, rarity: Rarity, stats: ItemStats)

  /** How many draws `generateItemStats` reads for a category: none for a potion. */
  function StatDraws(c: ItemCategory): nat { if c == Potion then 0 else 1 }

  /** `generateItemStats`: the level-scaled stat of the category and, except for potions, one
      random stat in its range. */
  function ItemStatsFor(c: ItemCategory, level: int, r: real): (s: ItemStats)
    requires IsDraw(r)
    ensures c == Weapon <==> s.WeaponStats?
    ensures c == Armor <==> s.ArmorStats?
    ensures c == Potion <==> s.PotionStats?
    ensures s.WeaponStats? ==> 80 <= s.speed <= 120
    ensures s.ArmorStats? ==> 5 <= s.resistance <= 15
    ensures s.MaterialStats? ==> 10 <= s.value <= 50
  {
    match c
    case Weapon => WeaponStats(10 + 2 * level, RandomInt(80, 120, r))
    case Armor => ArmorStats(5 + level, RandomInt(5, 15, r))
    case Potion => PotionStats(50 + 10 * level)
    case Material => MaterialStats(RandomInt(10, 50, r))
  }

  /** For the same draw, a higher level never lowers a stat: attack grows by 2, defense by 1
      and healing by 10 per level, and the random stats do not depend on the level. */
  lemma ItemStatsGrowWithLevel(c: ItemCategory, a: int, b: int, r: real)
    requires a <= b && IsDraw(r)
    ensures c == Weapon ==> ItemStatsFor(c, b, r).attack - ItemStatsFor(c, a, r).attack == 2 * (b - a)
    ensures c == Weapon ==> ItemStatsFor(c, b, r).speed == ItemStatsFor(c, a, r).speed
    ensures c == Armor ==> ItemStatsFor(c, b, r).defense - ItemStatsFor(c, a, r).defense == b - a
    ensures c == Armor ==> ItemStatsFor(c, b, r).resistance == ItemStatsFor(c, a, r).resistance
    ensures c == Potion ==> ItemStatsFor(c, b, r).healAmount - ItemStatsFor(c, a, r).healAmount == 10 * (b - a)
    ensures c == Material ==> ItemStatsFor(c, b, r) == ItemStatsFor(c, a, r)
  {
  }

  /** `getRandomRarity`: the weighted pick over the five rarities. Its fallback to common is
      never taken: the weights add up to 1 and a draw is below 1. */
  method RandomRarity(r: real) returns (rarity: Rarity)
    requires IsDraw(r)
    ensures exists k: nat :: PicksAt(RarityWeights, r, k) && rarity == Rarities[k]
  {
    WeightTablesAreComplete(Medieval);
    var pick := PickWeighted(RarityWeights, r);
    if pick.Some? {
      rarity := Rarities[pick.value];
    } else {
      rarity := Common;
    }
  }

  /** `createItem`: the name "<category> Lv.<level>", a rarity draw, then the stats' draws. */
  method CreateItem(c: ItemCategory, level: int, rs: seq<real>, i: nat) returns (item: LevelItem, j: nat)
    requires level >= 1 && AreDraws(rs)
    ensures item.category == c && item.level == level
    ensures item.name == CategoryName(c) + " Lv." + Decimal(level)
    ensures exists k: nat :: PicksAt(RarityWeights, Draw(rs, i), k) && item.rarity == Rarities[k]
    ensures item.stats == ItemStatsFor(c, level, Draw(rs, i + 1))
    ensures j == i + 1 + StatDraws(c)
  {
    var rarity := RandomRarity(Draw(rs, i));
    item := LevelItem(c, level, CategoryName(c) + " Lv." + Decimal(level), rarity, ItemStatsFor(c, level, Draw(rs, i + 1)));
    j := i + 1 + StatDraws(c);
  }

  /** A loot item of a level as `generateItems` makes it. */
  predicate Loot(item: LevelItem, level: int)
    requires level >= 1
  {
    item.level == level && item.name == CategoryName(item.category) + " Lv." + Decimal(level) &&
    (item.category == Weapon <==> item.stats.WeaponStats?) && (item.category == Potion <==> item.stats.PotionStats?)
  }

  /** `generateItems` with `generateRandomItem`: floor(level * 0.3) + 3 weighted category picks.
      The category weights add up to 1 and every draw is below 1, so a pick never falls through
      and every round yields an item. */
  method GenerateItems(level: int, rs: seq<real>, i: nat) returns (items: seq<LevelItem>, j: nat)
    requires level >= 1 && AreDraws(rs)
    ensures |items| == ItemCount(level) && j >= i
    ensures forall k :: 0 <= k < |items| ==> Loot(items[k], level)
  {
    WeightTablesAreComplete(Medieval);
    items, j := [], i;
    var n := 0;
    while n < ItemCount(level)
      invariant 0 <= n <= ItemCount(level) && |items| == n && j >= i
      invariant forall k :: 0 <= k < |items| ==> Loot(items[k], level)
    {
      var pick := PickWeighted(ItemCategoryWeights, Draw(rs, j));
      j := j + 1;
      if pick.Some? {
        var item;
        item, j := CreateItem(ItemCategories[pick.value], level, rs, j);
        items := items + [item];
      }
      n := n + 1;
    }
  }

  // ===========================================================================
  // Time of day

  const DayLength: real := 1200.0

  const TimeSpeed: real := 1.0

  const WeatherDuration: real := 300.0

  const EventInterval: real := 600.0

  /** The clock step as `update` writes it: dt * timeSpeed / dayLength hours for dt seconds,
      back to 0 once it reaches 24. */
  function ClockAsWritten(t: real, dt: real): (n: real)
    ensures 0.0 <= t < 24.0 && dt >= 0.0 ==> 0.0 <= n < 24.0
  {
    var n := t + dt * TimeSpeed / DayLength;
    if n >= 24.0 then 0.0 else n
  }

  /** The clock as written needs 24 day lengths for one day: after one day length (20 minutes)
      only one hour has passed, after half a day length only half an hour, and the day ends only
      after 28800 seconds. */
  lemma ClockAsWrittenIsSlow()
    ensures ClockAsWritten(0.0, DayLength) == 1.0
    ensures ClockAsWritten(0.0, DayLength / 2.0) == 0.5
    ensures ClockAsWritten(0.0, 28799.0) < 24.0 && ClockAsWritten(0.0, 28800.0) == 0.0
  {
  }

  /** The clock step the day length describes: 24 hours in dayLength seconds, back to 0 once it
      reaches 24. A clock in [0, 24) stays there for any non-negative step. */
  function Clock(t: real, dt: real): (n: real)
    ensures 0.0 <= t < 24.0 && dt >= 0.0 ==> 0.0 <= n < 24.0
  {
    var n := t + dt * TimeSpeed * 24.0 / DayLength;
    if n >= 24.0 then 0.0 else n
  }

  /** With the corrected step a full day lasts one day length: noon after half of it, midnight
      again after all of it, and every earlier moment of the day still on the same day. */
  lemma ClockRunsOneDayPerDayLength(dt: real)
    requires 0.0 <= dt < DayLength
    ensures Clock(0.0, dt) == 24.0 * dt / DayLength < 24.0
    ensures Clock(0.0, DayLength / 2.0) == 12.0
    ensures Clock(0.0, DayLength) == 0.0
  {
  }

  /** `getTimeOfDay`: "HH:MM" with the whole hours and the whole minutes of the clock. */
  function ClockText(t: real): (text: string)
    requires 0.0 <= t < 24.0
    ensures |text| == 5 && text[2] == ':'
  {
    var hour := t.Floor;
    var minute := ((t - hour as real) * 60.0).Floor;
    DecimalShort(hour);
    DecimalShort(minute);
    PadTwo(Decimal(hour)) + ":" + PadTwo(Decimal(minute))
  }

  /** The hour and minute of the clock text read back as the clock's whole hours (below 24) and
      whole minutes (below 60). */
  lemma ClockTextReadsBack(t: real)
    requires 0.0 <= t < 24.0
    ensures ParseTime(ClockText(t)) == Some((t.Floor as nat, ((t - t.Floor as real) * 60.0).Floor as nat))
    ensures t.Floor < 24 && ((t - t.Floor as real) * 60.0).Floor < 60
  {
    var hour := t.Floor;
    var minute := ((t - hour as real) * 60.0).Floor;
    assert 0 <= minute < 60;
    var seconds := hour * 60 + minute;
    assert seconds / 60 == hour && seconds % 60 == minute;
    assert ClockText(t) == FormatTime(seconds);
    FormatTimeRoundTrip(seconds);
  }

  /** `getDifficultyMultiplier`: easy 0.7, extreme 1.5, normal and anything else 1.0. */
  function DifficultyMultiplier(difficulty: string): (m: real)
    ensures 0.7 <= m <= 1.5
    ensures difficulty != "easy" && difficulty != "extreme" ==> m == 1.0
  {
    if difficulty == "easy" then 0.7
    else if difficulty == "normal" then 1.0
    else if difficulty == "extreme" then 1.5
    else 1.0
  }

  // ===========================================================================
  // Saving and loading

  /** The fields `toJSON` writes, as a JSON object read back may hold them: a field can be
      missing or null (None). */
  datatype WorldSave = WorldSave(
    currentRegion: Option<string>, currentLevel: Option<int>, difficulty: Option<string>,
    weather: Option<string>, timeOfDay: Option<real>)

  /** The part of a world that is saved. */
  datatype WorldState = WorldState(
    currentRegion: Option<string>, currentLevel: int, difficulty: string, weather: string, timeOfDay: real)

  /** `toJSON`. */
  function Save(s: WorldState): (d: WorldSave)
    ensures d.currentLevel.Some? && d.difficulty.Some? && d.weather.Some? && d.timeOfDay.Some?
  {
    WorldSave(s.currentRegion, Some(s.currentLevel), Some(s.difficulty), Some(s.weather), Some(s.timeOfDay))
  }

  /** `value || fallback` for a string field: missing, null and "" are falsy. */
  function OrText(o: Option<string>, fallback: string): string
  {
    if o.Some? && o.value != "" then o.value else fallback
  }

  /** `fromJSON`: every falsy field (missing, null, "", 0) takes its default. */
  function Restore(d: WorldSave): (s: WorldState)
    ensures Restorable(s)
    ensures d.currentRegion.Some? && d.currentRegion.value != "" ==> s.currentRegion == d.currentRegion
    ensures d.currentLevel.Some? && d.currentLevel.value != 0 ==> s.currentLevel == d.currentLevel.value
  {
    WorldState(
      Some(OrText(d.currentRegion, "valdoria")),
      if d.currentLevel.Some? && d.currentLevel.value != 0 then d.currentLevel.value else 1,
      OrText(d.difficulty, "normal"),
      OrText(d.weather, "clear"),
      if d.timeOfDay.Some? then d.timeOfDay.value else 0.0)
  }

  /** A state none of whose fields `fromJSON` would replace by a default. */
  predicate Restorable(s: WorldState)
  {
    s.currentRegion.Some? && s.currentRegion.value != "" && s.currentLevel != 0 && s.difficulty != "" && s.weather != ""
  }

  /** Saving and loading gives the same state back exactly when no field is falsy. */
  lemma SaveRestoreRoundTrip(s: WorldState)
    ensures Restore(Save(s)) == s <==> Restorable(s)
  {
  }

  /** Loading a saved world and saving it again changes nothing more. */
  lemma RestoreIsStable(d: WorldSave)
    ensures Restore(Save(Restore(d))) == Restore(d)
  {
    SaveRestoreRoundTrip(Restore(d));
  }

  /** A world saved before it entered any region reloads in Valdoria. */
  lemma FreshWorldReloadsInValdoria(s: WorldState)
    requires s.currentRegion.None?
    ensures Restore(Save(s)).currentRegion == Some(Key(Valdoria))
    ensures Restore(Save(s)) != s
  {
  }

  // ===========================================================================
  // The world

  /** The events `triggerRandomEvent` draws from; only the weather change acts. */
  const Events: seq<string> := ["enemy_invasion", "treasure_discovery", "weather_change", "npc_encounter", "special_boss"]

  /** `GameWorld`: the current region and level, the weather and the day and event timers. */
  class GameWorld {
    var currentRegion: Option<string>
    var currentLevel: int
    var difficulty: string
    var weather: string
    var weatherTimer: real
    var timeOfDay: real
    var eventTimer: real

    /** The timers stay within their period. */
    predicate TimersValid()
      reads this`weatherTimer, this`timeOfDay, this`eventTimer
    {
      0.0 <= weatherTimer < WeatherDuration && 0.0 <= eventTimer < EventInterval && 0.0 <= timeOfDay < 24.0
    }

    constructor ()
      ensures currentRegion == None && currentLevel == 1 && difficulty == "normal" && weather == "clear"
      ensures weatherTimer == 0.0 && timeOfDay == 0.0 && eventTimer == 0.0 && TimersValid()
    {
      currentRegion, currentLevel, difficulty, weather := None, 1, "normal", "clear";
      weatherTimer, timeOfDay, eventTimer := 0.0, 0.0, 0.0;
    }

    predicate IsDay()
      reads this`timeOfDay
    {
      6.0 <= timeOfDay <= 18.0
    }

    /** It is night exactly when it is not day. */
    predicate IsNight(): (b: bool)
      reads this`timeOfDay
      ensures b <==> !IsDay()
    {
      timeOfDay < 6.0 || timeOfDay > 18.0
    }

    /** The saved part of the world. */
    function State(): WorldState
      reads this`currentRegion, this`currentLevel, this`difficulty, this`weather, this`timeOfDay
    {
      WorldState(currentRegion, currentLevel, difficulty, weather, timeOfDay)
    }

    /** `changeRegion`: a known key becomes the current region, with one of its weathers. */
    method ChangeRegion(key: string, r: real) returns (ok: bool)
      requires IsDraw(r)
      modifies this`currentRegion, this`weather
      ensures ok == RegionOf(key).Some?
      ensures ok ==> currentRegion == Some(key) && weather == WeatherKinds(RegionOf(key).value)[RandomInt(0, 2, r)]
      ensures !ok ==> currentRegion == old(currentRegion) && weather == old(weather)
    {
      var region := RegionOf(key);
      if region.Some? {
        currentRegion := Some(key);
        weather := WeatherKinds(region.value)[RandomInt(0, 2, r)];
        return true;
      }
      return false;
    }

    /** `changeLevel`: a level in [1, 100] becomes current and its region becomes the current
        region, drawing a new weather only when the region changes. The call to `generateLevel`
        is not modelled: what it builds is discarded, so it changes no state of the world. */
    method ChangeLevel(level: int, r: real) returns (ok: bool)
      requires IsDraw(r)
      modifies this`currentLevel, this`currentRegion, this`weather
      ensures ok == (1 <= level <= MaxLevel)
      ensures ok ==> currentLevel == level && currentRegion == Some(Key(RegionForLevel(level)))
      ensures ok && old(currentRegion) == Some(Key(RegionForLevel(level))) ==> weather == old(weather)
      ensures ok ==> weather == old(weather) || weather in WeatherKinds(RegionForLevel(level))
      ensures !ok ==> currentLevel == old(currentLevel) && currentRegion == old(currentRegion) && weather == old(weather)
    {
      if 1 <= level <= MaxLevel {
        currentLevel := level;
        var key := Key(RegionForLevel(level));
        if Some(key) != currentRegion {
          KeyRoundTrip(RegionForLevel(level));
          var _ := ChangeRegion(key, r);
        }
        return true;
      }
      return false;
    }

    /** `changeRandomWeather`: one of the weathers of the current level's region. */
    method ChangeRandomWeather(r: real)
      requires IsDraw(r)
      modifies this`weather
      ensures weather in WeatherKinds(RegionForLevel(currentLevel))
    {
      weather := WeatherKinds(RegionForLevel(currentLevel))[RandomInt(0, 2, r)];
    }

    /** The world one frame of dt on, from the state before it, with eventDraw the draw of the
        random event: the clock advances as written, the weather timer and the event timer
        accumulate dt and restart from 0 when they reach 300 and 600 seconds, and the weather
        changes only to one of the current region's, and only when a timer fired (the event
        timer only through a weather-change event). */
    twostate predicate Ticked(dt: real, eventDraw: real)
      requires IsDraw(eventDraw)
      reads this
    {
      timeOfDay == ClockAsWritten(old(timeOfDay), dt) &&
      weatherTimer == (if old(weatherTimer) + dt >= WeatherDuration then 0.0 else old(weatherTimer) + dt) &&
      eventTimer == (if old(eventTimer) + dt >= EventInterval then 0.0 else old(eventTimer) + dt) &&
      (weather != old(weather) ==> weather in WeatherKinds(RegionForLevel(currentLevel))) &&
      (old(weatherTimer) + dt < WeatherDuration &&
       (old(eventTimer) + dt < EventInterval || Events[RandomInt(0, 4, eventDraw)] != "weather_change")
       ==> weather == old(weather))
    }

    /** `update`: the clock advances by dt * timeSpeed / dayLength hours, the weather timer
        changes the weather every 300 seconds and the event timer fires a random event every
        600 seconds; each timer restarts from 0 when it fires. */
    method Update(dt: real, weatherDraw: real, eventDraw: real, eventWeatherDraw: real)
      requires IsDraw(weatherDraw) && IsDraw(eventDraw) && IsDraw(eventWeatherDraw)
      modifies this`timeOfDay, this`weatherTimer, this`eventTimer, this`weather
      ensures Ticked(dt, eventDraw)
      ensures old(TimersValid()) && dt >= 0.0 ==> TimersValid()
    {
      timeOfDay := ClockAsWritten(timeOfDay, dt);
      weatherTimer := weatherTimer + dt;
      if weatherTimer >= WeatherDuration {
        ChangeRandomWeather(weatherDraw);
        weatherTimer := 0.0;
      }
      eventTimer := eventTimer + dt;
      if eventTimer >= EventInterval {
        if Events[RandomInt(0, 4, eventDraw)] == "weather_change" {
          ChangeRandomWeather(eventWeatherDraw);
        }
        eventTimer := 0.0;
      }
    }

    /** `toJSON`. */
    method ToJSON() returns (d: WorldSave)
      ensures Restore(d) == State() <==> Restorable(State())
      ensures d == Save(State())
    {
      d := WorldSave(currentRegion, Some(currentLevel), Some(difficulty), Some(weather), Some(timeOfDay));
      SaveRestoreRoundTrip(State());
    }

    /** `fromJSON`. */
    method FromJSON(d: WorldSave)
      modifies this`currentRegion, this`currentLevel, this`difficulty, this`weather, this`timeOfDay
      ensures State() == Restore(d)
    {
      currentRegion := Some(OrText(d.currentRegion, "valdoria"));
      currentLevel := if d.currentLevel.Some? && d.currentLevel.value != 0 then d.currentLevel.value else 1;
      difficulty := OrText(d.difficulty, "normal");
      weather := OrText(d.weather, "clear");
      timeOfDay := if d.timeOfDay.Some? then d.timeOfDay.value else 0.0;
    }
  }
}
