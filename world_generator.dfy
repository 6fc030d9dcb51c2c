/**
 * Deterministic chunk contents. Every decision about a chunk (its terrain
 * prefab, how many props it gets, where they go, which are rejected, which
 * prefab and rotation each uses) comes from one 32-bit polynomial hash of
 * the world seed, the chunk index and a salt; the `System.Random` the
 * generator creates is never consulted. The pure part computes the list of
 * objects a chunk is made of; `WorldGenerator.GenerateChunk` asks the engine
 * to create exactly that list.
 */
module Generation {
  import opened Numerics
  import opened Vectors
  import opened WorldCoordinates
  import opened Engine
  import opened ChunkStore
  import opened Terrain

  /** The serialized settings that decide a chunk's contents; a null prefab array counts as empty. */
  datatype Settings = Settings(
    worldSeed: Int32,
    useProceduralTerrain: bool,
    terrainPrefabCount: nat,
    objectPrefabCount: nat,
    objectsPerChunk: Int32,
    objectSpawnThreshold: real)

  /** The state of the procedural terrain component that decides what it records. */
  datatype TerrainSetup = TerrainSetup(seed: int, resolution: int)

  // ---------------------------------------------------------------- hashing

  /** Feeds `words` to the hash one at a time, `hash = hash * 31 + word`, wrapping after every operation. */
  function HashWords(h: Int32, words: seq<int>): Int32
    decreases |words|
  {
    if words == [] then h else HashWords(Add32(Mul32(h, 31), words[0]), words[1..])
  }

  /** The hash of `GetSeededInt` before `Math.Abs`: the seed, then the chunk's x and y, then the salt. */
  function SeededHash(seed: Int32, index: ChunkIndex, salt: int): Int32 {
    HashWords(seed, [index.x, index.y, salt])
  }

  /** Wrapping after every step is the same as evaluating the polynomial exactly and wrapping once. */
  lemma SeededHashPolynomial(seed: Int32, index: ChunkIndex, salt: int)
    ensures SeededHash(seed, index, salt)
         == Wrap32(((seed * 31 + index.x) * 31 + index.y) * 31 + salt)
  {
    var p1 := seed * 31 + index.x;
    var p2 := p1 * 31 + index.y;
    var h1 := Add32(Mul32(seed, 31), index.x);
    var h2 := Add32(Mul32(h1, 31), index.y);
    var h3 := Add32(Mul32(h2, 31), salt);
    assert [index.x, index.y, salt][1..] == [index.y, salt] && [index.y, salt][1..] == [salt];
    assert HashWords(h3, []) == h3;
    assert HashWords(h2, [salt]) == h3;
    assert HashWords(h1, [index.y, salt]) == h3;
    MulAddStep(seed, index.x);
    assert h1 == Wrap32(p1);
    MulAddStep(h1, index.y);
    MulAddWrapped(p1, 31, index.y);
    assert h2 == Wrap32(p2);
    MulAddStep(h2, salt);
    MulAddWrapped(p2, 31, salt);
  }

  /** `GetSeededInt`: the absolute value of the hash; `int.MinValue` makes `Math.Abs` throw. */
  function GetSeededInt(seed: Int32, index: ChunkIndex, salt: int): (r: Fallible<Int32>)
    ensures r.Thrown? <==> SeededHash(seed, index, salt) == Int32Min
    ensures r.Thrown? ==> r.error == OverflowException
    ensures r.Ok? ==> 0 <= r.value
    ensures r.Ok? ==> r.value == SeededHash(seed, index, salt) || r.value == -SeededHash(seed, index, salt)
  {
    Abs32(SeededHash(seed, index, salt))
  }

  /** `GetSeededFloat`: the last four decimal digits of the seeded int, as a fraction in [0, 0.9999]. */
  function GetSeededFloat(seed: Int32, index: ChunkIndex, salt: int): (r: Fallible<real>)
    ensures r.Thrown? <==> SeededHash(seed, index, salt) == Int32Min
    ensures r.Thrown? ==> r.error == OverflowException
    ensures r.Ok? ==> 0.0 <= r.value <= 0.9999
  {
    var v := GetSeededInt(seed, index, salt);
    if v.Thrown? then Thrown(v.error)
    else
      var digits := v.value % 10000;
      assert digits as real <= 9999.0;
      Ok(digits as real / 10000.0)
  }

  // ------------------------------------------------------------- decisions

  /** `GetSeededInt(chunkIndex, 1) % (objectsPerChunk + 1)`: the number of candidate props. */
  function ObjectCount(s: Settings, index: ChunkIndex): (r: Fallible<nat>)
    ensures r.Thrown? <==> SeededHash(s.worldSeed, index, 1) == Int32Min || s.objectsPerChunk == -1
    ensures s.objectsPerChunk == -1 && SeededHash(s.worldSeed, index, 1) != Int32Min
        ==> r == Thrown(DivideByZeroException)
    ensures r.Ok? && s.objectsPerChunk >= 0 ==> r.value <= s.objectsPerChunk
    ensures r.Ok? && s.objectsPerChunk < -1 ==> r.value < -(s.objectsPerChunk + 1)
  {
    var v := GetSeededInt(s.worldSeed, index, 1);
    if v.Thrown? then Thrown(v.error)
    else
      var n := Rem32(v.value, Add32(s.objectsPerChunk, 1));
      if n.Thrown? then Thrown(n.error) else Ok(n.value)
  }

  /** Where a kept candidate goes and how it looks. */
  datatype Placement = Placement(prefabIndex: nat, localX: real, localZ: real, rotation: real)

  /** The spawn sample of candidate `i` (salt `i * 2 + 100`). */
  function SpawnSample(s: Settings, index: ChunkIndex, i: int): Fallible<real> {
    GetSeededFloat(s.worldSeed, index, Wrap32(i * 2 + 100))
  }

  /**
   * One iteration of the placement loop: candidate `i` is rejected (None)
   * exactly when its spawn sample is below the threshold; otherwise it gets
   * a prefab, a local position inside the chunk and a yaw in degrees. The
   * salts are evaluated in the source's order, so the first overflowing one
   * decides the exception.
   */
  function Candidate(s: Settings, index: ChunkIndex, chunkSize: real, i: int): (r: Fallible<Option<Placement>>)
    requires s.objectPrefabCount > 0
    ensures r.Ok? ==> SpawnSample(s, index, i).Ok?
    ensures r.Ok? ==> (r.value.None? <==> SpawnSample(s, index, i).value < s.objectSpawnThreshold)
    ensures r.Ok? && r.value.Some? ==> PlacementWithin(r.value.value, s.objectPrefabCount, chunkSize)
  {
    var fx := GetSeededFloat(s.worldSeed, index, Wrap32(i * 2));
    if fx.Thrown? then Thrown(fx.error) else
    var fz := GetSeededFloat(s.worldSeed, index, Wrap32(i * 2 + 1));
    if fz.Thrown? then Thrown(fz.error) else
    var spawn := SpawnSample(s, index, i);
    if spawn.Thrown? then Thrown(spawn.error)
    else if spawn.value < s.objectSpawnThreshold then Ok(None)
    else
      var prefab := GetSeededInt(s.worldSeed, index, Wrap32(i + 10));
      if prefab.Thrown? then Thrown(prefab.error) else
      var yaw := GetSeededFloat(s.worldSeed, index, Wrap32(i + 200));
      if yaw.Thrown? then Thrown(yaw.error)
      else Ok(Some(Place(prefab.value, fx.value, fz.value, yaw.value, s.objectPrefabCount, chunkSize)))
  }

  /** A kept candidate: prefab `seeded % count`, position `fraction * chunkSize`, yaw `fraction * 360`. */
  function Place(seeded: nat, fx: real, fz: real, yaw: real, prefabCount: nat, chunkSize: real): (p: Placement)
    requires prefabCount > 0
    requires 0.0 <= fx < 1.0 && 0.0 <= fz < 1.0 && 0.0 <= yaw < 1.0
    ensures PlacementWithin(p, prefabCount, chunkSize)
  {
    FractionScale(fx, chunkSize);
    FractionScale(fz, chunkSize);
    FractionScale(yaw, 360.0);
    Placement(seeded % prefabCount, fx * chunkSize, fz * chunkSize, yaw * 360.0)
  }

  /** A valid prefab, a yaw in [0, 360), and, for a positive chunk size, a position inside the chunk. */
  predicate PlacementWithin(p: Placement, prefabCount: nat, chunkSize: real) {
    && p.prefabIndex < prefabCount
    && 0.0 <= p.rotation < 360.0
    && (chunkSize > 0.0 ==> 0.0 <= p.localX < chunkSize && 0.0 <= p.localZ < chunkSize)
  }

  /** A fraction in [0, 1) scales a positive size into [0, size). */
  lemma FractionScale(f: real, size: real)
    ensures 0.0 <= f < 1.0 && size > 0.0 ==> 0.0 <= f * size < size
  {
    if 0.0 <= f < 1.0 && size > 0.0 {
      MulSign(f, size);
      MulSign(1.0 - f, size);
      assert (1.0 - f) * size == size - f * size;
    }
  }

  /**
   * The placement loop over candidates `0 .. n-1`, whatever decides them:
   * kept candidates in loop order, and the first exception ends the loop.
   */
  function Kept(decide: nat -> Fallible<Option<Placement>>, n: nat): (r: Fallible<seq<Placement>>)
    ensures r.Ok? ==> |r.value| <= n
  {
    if n == 0 then Ok([])
    else
      var front := Kept(decide, n - 1);
      if front.Thrown? then front
      else
        match decide(n - 1)
        case Thrown(e) => Thrown(e)
        case Ok(None) => front
        case Ok(Some(p)) => Ok(front.value + [p])
  }

  /** Once a candidate throws, no longer loop gets past it: the same exception escapes. */
  lemma {:induction false} KeptThrownStays(decide: nat -> Fallible<Option<Placement>>, n: nat, m: nat)
    requires n <= m
    ensures Kept(decide, n).Thrown? ==> Kept(decide, m) == Kept(decide, n)
  {
    if n < m {
      KeptThrownStays(decide, n, m - 1);
    }
  }

  /** A longer loop extends the kept list of a shorter one: props are placed in loop order. */
  lemma {:induction false} KeptExtend(decide: nat -> Fallible<Option<Placement>>, n: nat, m: nat)
    requires n <= m
    ensures Kept(decide, m).Ok? ==> Kept(decide, n).Ok? && Kept(decide, n).value <= Kept(decide, m).value
  {
    if n < m {
      KeptExtend(decide, n, m - 1);
    }
  }

  /** The decisions of `GenerateObjects` for one chunk. */
  function CandidateOf(s: Settings, index: ChunkIndex, chunkSize: real): nat -> Fallible<Option<Placement>>
    requires s.objectPrefabCount > 0
  {
    i => Candidate(s, index, chunkSize, i)
  }

  /** The kept candidates among the first `n` of a chunk. */
  function Placements(s: Settings, index: ChunkIndex, chunkSize: real, n: nat): (r: Fallible<seq<Placement>>)
    requires s.objectPrefabCount > 0
    ensures r.Ok? ==> |r.value| <= n
    ensures r.Ok? ==> forall p :: p in r.value ==> PlacementWithin(p, s.objectPrefabCount, chunkSize)
  {
    PlacementsWithin(s, index, chunkSize, n);
    Kept(CandidateOf(s, index, chunkSize), n)
  }

  /** Every kept candidate is placed validly. */
  lemma {:induction false} PlacementsWithin(s: Settings, index: ChunkIndex, chunkSize: real, n: nat)
    requires s.objectPrefabCount > 0
    ensures var r := Kept(CandidateOf(s, index, chunkSize), n);
      r.Ok? ==> forall p :: p in r.value ==> PlacementWithin(p, s.objectPrefabCount, chunkSize)
  {
    if n > 0 {
      PlacementsWithin(s, index, chunkSize, n - 1);
    }
  }

  /** With a threshold at or below 0 no candidate is rejected. */
  lemma {:induction false} NothingRejectedBelowZero(s: Settings, index: ChunkIndex, chunkSize: real, n: nat)
    requires s.objectPrefabCount > 0 && s.objectSpawnThreshold <= 0.0
    ensures Placements(s, index, chunkSize, n).Ok? ==> |Placements(s, index, chunkSize, n).value| == n
  {
    if n > 0 {
      NothingRejectedBelowZero(s, index, chunkSize, n - 1);
    }
  }

  /** With a threshold of 1 or more every candidate is rejected. */
  lemma {:induction false} EverythingRejectedAboveOne(s: Settings, index: ChunkIndex, chunkSize: real, n: nat)
    requires s.objectPrefabCount > 0 && s.objectSpawnThreshold >= 1.0
    ensures Placements(s, index, chunkSize, n).Ok? ==> Placements(s, index, chunkSize, n).value == []
  {
    if n > 0 {
      EverythingRejectedAboveOne(s, index, chunkSize, n - 1);
    }
  }

  /** `GenerateObjects`: no prefabs means no props; otherwise the kept candidates of the count. */
  function PlannedObjects(s: Settings, index: ChunkIndex, chunkSize: real): (r: Fallible<seq<Placement>>)
    ensures s.objectPrefabCount == 0 ==> r == Ok([])
    ensures r.Ok? && s.objectsPerChunk >= 0 ==> |r.value| <= s.objectsPerChunk
    ensures r.Ok? ==> forall p :: p in r.value ==> PlacementWithin(p, s.objectPrefabCount, chunkSize)
  {
    if s.objectPrefabCount == 0 then Ok([])
    else
      var count := ObjectCount(s, index);
      if count.Thrown? then Thrown(count.error)
      else Placements(s, index, chunkSize, count.value)
  }

  /** What `GenerateTerrain` puts into a chunk. */
  datatype TerrainPlan = ProceduralPlan(setup: TerrainSetup) | PrefabPlan(prefabIndex: nat) | NoTerrain

  /**
   * Procedural terrain when it is enabled and the component exists;
   * otherwise a terrain prefab chosen by salt 0 when there are any;
   * otherwise none.
   */
  function TerrainChoice(s: Settings, generator: Option<TerrainSetup>, index: ChunkIndex): (r: Fallible<TerrainPlan>)
    ensures s.useProceduralTerrain && generator.Some? ==> r == Ok(ProceduralPlan(generator.value))
    ensures !(s.useProceduralTerrain && generator.Some?) && s.terrainPrefabCount == 0 ==> r == Ok(NoTerrain)
    ensures r.Thrown? <==>
      !(s.useProceduralTerrain && generator.Some?) && s.terrainPrefabCount > 0
      && SeededHash(s.worldSeed, index, 0) == Int32Min
    ensures r.Ok? && r.value.PrefabPlan? ==> r.value.prefabIndex < s.terrainPrefabCount
  {
    if s.useProceduralTerrain && generator.Some? then Ok(ProceduralPlan(generator.value))
    else if s.terrainPrefabCount > 0 then
      var v := GetSeededInt(s.worldSeed, index, 0);
      if v.Thrown? then Thrown(v.error) else Ok(PrefabPlan(v.value % s.terrainPrefabCount))
    else Ok(NoTerrain)
  }

  function TerrainCreations(plan: TerrainPlan, index: ChunkIndex): seq<Creation> {
    match plan
    case ProceduralPlan(setup) => [ProceduralTerrain(index, setup.seed, setup.resolution)]
    case PrefabPlan(prefabIndex) => [TerrainPrefab(index, prefabIndex)]
    case NoTerrain => []
  }

  /** The engine record of a kept candidate. */
  function PropOf(index: ChunkIndex, p: Placement): Creation {
    Prop(index, p.prefabIndex, p.localX, p.localZ, p.rotation)
  }

  function PropCreations(index: ChunkIndex, ps: seq<Placement>): (r: seq<Creation>)
    ensures |r| == |ps|
    ensures forall k :: 0 <= k < |ps| ==> r[k] == PropOf(index, ps[k])
  {
    seq(|ps|, k requires 0 <= k < |ps| => PropOf(index, ps[k]))
  }

  lemma PropCreationsAppend(index: ChunkIndex, ps: seq<Placement>, p: Placement)
    ensures PropCreations(index, ps + [p]) == PropCreations(index, ps) + [PropOf(index, p)]
  {
  }

  /** The origin of a chunk's root object: its index times the chunk size, at height 0. */
  function ChunkOrigin(index: ChunkIndex, chunkSize: real): Vector3 {
    Vector3(index.x as real * chunkSize, 0.0, index.y as real * chunkSize)
  }

  /**
   * Everything `GenerateChunk` asks the engine to create, in order: the
   * root, the terrain (if any), then the props. Each piece belongs to the
   * chunk, and the list depends on nothing but its arguments.
   */
  function ChunkContents(s: Settings, generator: Option<TerrainSetup>, index: ChunkIndex, chunkSize: real)
    : (r: Fallible<seq<Creation>>)
    ensures r.Thrown? <==>
      TerrainChoice(s, generator, index).Thrown? || PlannedObjects(s, index, chunkSize).Thrown?
    ensures r.Ok? ==> 1 <= |r.value| && r.value[0] == ChunkRoot(index, ChunkOrigin(index, chunkSize))
    ensures r.Ok? ==> forall c :: c in r.value ==> c.chunk == index
    ensures r.Ok? && s.objectsPerChunk >= 0 ==> |r.value| <= 2 + s.objectsPerChunk
  {
    var terrain := TerrainChoice(s, generator, index);
    if terrain.Thrown? then Thrown(terrain.error)
    else
      var props := PlannedObjects(s, index, chunkSize);
      if props.Thrown? then Thrown(props.error)
      else
        Ok([ChunkRoot(index, ChunkOrigin(index, chunkSize))]
          + (TerrainCreations(terrain.value, index) + PropCreations(index, props.value)))
  }

  /**
   * The overflow is reachable: with seed `int.MinValue` the hash of chunk
   * (0, 0) under salt 0 is `int.MinValue`, so that chunk throws as soon as
   * it picks a terrain prefab.
   */
  lemma OverflowReachable()
    ensures SeededHash(Int32Min, ChunkIndex(0, 0), 0) == Int32Min
    ensures ChunkContents(Settings(Int32Min, false, 1, 0, 0, 0.5), None, ChunkIndex(0, 0), 50.0)
         == Thrown(OverflowException)
  {
    SeededHashPolynomial(Int32Min, ChunkIndex(0, 0), 0);
    WrapCongruent(((Int32Min * 31 + 0) * 31 + 0) * 31 + 0, Int32Min);
  }

  lemma PrefixOfConcat<T>(a: seq<T>, b: seq<T>)
    ensures a <= a + b
  {
  }

  lemma ConcatRegroup<T>(a: seq<T>, b: T, c: seq<T>, d: seq<T>)
    ensures a + [b] + c + d == a + ([b] + (c + d))
  {
  }

  /** `count` consecutive fresh handles starting at `first`, as stored in a chunk's object list. */
  function HandleRun(first: Handle, count: nat): (r: seq<Option<Handle>>)
    ensures |r| == count
    ensures forall k :: 0 <= k < count ==> r[k] == Some(first + k)
  {
    seq(count, k => Some(first + k))
  }

  lemma HandleRunConcat(first: Handle, a: nat, b: nat)
    ensures HandleRun(first, a) + HandleRun(first + a, b) == HandleRun(first, a + b)
  {
  }

  /** The handles `first` to `first + count - 1`, in order. */
  function Handles(first: Handle, count: nat): (r: seq<Handle>)
    ensures |r| == count
    ensures forall k :: 0 <= k < count ==> r[k] == first + k
  {
    if count == 0 then [] else Handles(first, count - 1) + [first + count - 1]
  }

  /** A run of handles holds no null reference. */
  lemma {:induction false} NonNullHandleRun(first: Handle, count: nat)
    ensures NonNull(HandleRun(first, count)) == Handles(first, count)
  {
    if count > 0 {
      assert HandleRun(first, count)[..count - 1] == HandleRun(first, count - 1);
      NonNullHandleRun(first, count - 1);
      assert Handles(first, count) == Handles(first, count - 1) + [first + count - 1];
    }
  }

  /** A generated entry owns its root and the run after it: one run of handles from the root on. */
  lemma GeneratedOwns(first: Handle, count: nat)
    ensures OwnedHandles(Some(first), HandleRun(first + 1, count)) == Handles(first, count + 1)
  {
    NonNullHandleRun(first + 1, count);
    assert [first] + Handles(first + 1, count) == Handles(first, count + 1);
  }

  /**
   * The three stages of `GenerateChunk` one after another: the root, then
   * the terrain records, then the prop records, make up exactly
   * `ChunkContents`.
   */
  lemma ChunkAssembled(s: Settings, g: Option<TerrainSetup>, index: ChunkIndex, chunkSize: real,
                       created0: seq<Creation>, created1: seq<Creation>, created2: seq<Creation>, created: seq<Creation>)
    requires TerrainChoice(s, g, index).Ok? && PlannedObjects(s, index, chunkSize).Ok?
    requires created1 == created0 + [ChunkRoot(index, ChunkOrigin(index, chunkSize))]
    requires created2 == created1 + TerrainCreations(TerrainChoice(s, g, index).value, index)
    requires created == created2 + PropCreations(index, PlannedObjects(s, index, chunkSize).value)
    ensures var plan := ChunkContents(s, g, index, chunkSize);
      && plan.Ok?
      && created == created0 + plan.value
      && created0 <= created
      && |plan.value| == 1 + |TerrainCreations(TerrainChoice(s, g, index).value, index)|
                          + |PlannedObjects(s, index, chunkSize).value|
  {
    var terrain := TerrainCreations(TerrainChoice(s, g, index).value, index);
    var props := PropCreations(index, PlannedObjects(s, index, chunkSize).value);
    var root := ChunkRoot(index, ChunkOrigin(index, chunkSize));
    var body := [root] + (terrain + props);
    assert ChunkContents(s, g, index, chunkSize) == Ok(body);
    ConcatRegroup(created0, root, terrain, props);
    assert created == created0 + body;
    PrefixOfConcat(created0, body);
  }

  /** `GenerateChunk`'s three stages make `ChunkContents`, with one run of handles from the root on. */
  lemma ChunkGenerated(s: Settings, g: Option<TerrainSetup>, index: ChunkIndex, chunkSize: real,
                       created0: seq<Creation>, created1: seq<Creation>, created2: seq<Creation>, created: seq<Creation>,
                       objects2: seq<Option<Handle>>, objects: seq<Option<Handle>>)
    requires TerrainChoice(s, g, index).Ok? && PlannedObjects(s, index, chunkSize).Ok?
    requires created1 == created0 + [ChunkRoot(index, ChunkOrigin(index, chunkSize))]
    requires created2 == created1 + TerrainCreations(TerrainChoice(s, g, index).value, index)
    requires objects2 == [] + HandleRun(|created1|, |TerrainCreations(TerrainChoice(s, g, index).value, index)|)
    requires created == created2 + PropCreations(index, PlannedObjects(s, index, chunkSize).value)
    requires objects == objects2 + HandleRun(|created2|, |PlannedObjects(s, index, chunkSize).value|)
    ensures var plan := ChunkContents(s, g, index, chunkSize);
      && plan.Ok?
      && created == created0 + plan.value
      && created0 <= created
      && objects == HandleRun(|created0| + 1, |plan.value| - 1)
      && OwnedHandles(Some(|created0|), objects) == Handles(|created0|, |plan.value|)
  {
    var a := |TerrainCreations(TerrainChoice(s, g, index).value, index)|;
    var b := |PlannedObjects(s, index, chunkSize).value|;
    ChunkAssembled(s, g, index, chunkSize, created0, created1, created2, created);
    HandlesAssembled(|created0|, |created1|, |created2|, a, b, |ChunkContents(s, g, index, chunkSize).value|,
                     objects2, objects);
  }

  /** The terrain handles and then the prop handles make one run after the root. */
  lemma HandlesAssembled(root: Handle, first: Handle, after: Handle, a: nat, b: nat, count: nat,
                         objects2: seq<Option<Handle>>, objects: seq<Option<Handle>>)
    requires first == root + 1 && after == first + a && count == 1 + a + b
    requires objects2 == [] + HandleRun(first, a)
    requires objects == objects2 + HandleRun(after, b)
    ensures objects == HandleRun(root + 1, count - 1)
    ensures OwnedHandles(Some(root), objects) == Handles(root, count)
  {
    assert objects2 == HandleRun(root + 1, a);
    HandleRunConcat(root + 1, a, b);
    assert count - 1 == a + b;
    GeneratedOwns(root, count - 1);
  }

  /** Keeping one more candidate appends one record to the log and its handle to the chunk's list. */
  lemma KeptOneMore(created0: seq<Creation>, objects0: seq<Option<Handle>>, index: ChunkIndex,
                    kept: seq<Placement>, p: Placement)
    ensures created0 + PropCreations(index, kept) + [PropOf(index, p)]
      == created0 + PropCreations(index, kept + [p])
    ensures objects0 + HandleRun(|created0|, |kept|) + [Some(|created0 + PropCreations(index, kept)|)]
      == objects0 + HandleRun(|created0|, |kept + [p]|)
  {
    PropCreationsAppend(index, kept, p);
    HandleRunConcat(|created0|, |kept|, 1);
  }

  // ---------------------------------------------------------------- component

  class WorldGenerator {
    var worldSeed: Int32
    /** The `System.Random` created from the seed, recorded by that seed; nothing reads it. */
    var randomGenerator: Option<Int32>
    const useProceduralTerrain: bool
    const terrainPrefabCount: nat
    const objectPrefabCount: nat
    const objectsPerChunk: Int32
    const objectSpawnThreshold: real
    var terrainGenerator: ProceduralTerrainGenerator?

    function CurrentSettings(): Settings
      reads this
    {
      Settings(worldSeed, useProceduralTerrain, terrainPrefabCount, objectPrefabCount,
        objectsPerChunk, objectSpawnThreshold)
    }

    function CurrentTerrainSetup(): Option<TerrainSetup>
      reads this, terrainGenerator
    {
      if terrainGenerator == null then None
      else Some(TerrainSetup(terrainGenerator.worldSeed, terrainGenerator.terrainResolution))
    }

    /**
     * `Awake`: seeds the generator, then finds the terrain component
     * (`existing`), adds one with the default resolution of 20 when there
     * is none and procedural terrain is on, and seeds it.
     */
    constructor (worldSeed: Int32, useProceduralTerrain: bool, terrainPrefabCount: nat,
                 objectPrefabCount: nat, objectsPerChunk: Int32, objectSpawnThreshold: real,
                 existing: ProceduralTerrainGenerator?)
      modifies existing
      ensures this.worldSeed == worldSeed && randomGenerator == Some(worldSeed)
      ensures CurrentSettings() == Settings(worldSeed, useProceduralTerrain, terrainPrefabCount,
        objectPrefabCount, objectsPerChunk, objectSpawnThreshold)
      ensures existing != null ==> terrainGenerator == existing
      ensures existing == null && useProceduralTerrain ==>
        terrainGenerator != null && fresh(terrainGenerator) && terrainGenerator.terrainResolution == 20
      ensures existing == null && !useProceduralTerrain ==> terrainGenerator == null
      ensures terrainGenerator != null ==> terrainGenerator.worldSeed == worldSeed
    {
      this.worldSeed := worldSeed;
      this.randomGenerator := Some(worldSeed);
      this.useProceduralTerrain := useProceduralTerrain;
      this.terrainPrefabCount := terrainPrefabCount;
      this.objectPrefabCount := objectPrefabCount;
      this.objectsPerChunk := objectsPerChunk;
      this.objectSpawnThreshold := objectSpawnThreshold;
      this.terrainGenerator := existing;
      new;
      if terrainGenerator == null && useProceduralTerrain {
        terrainGenerator := new ProceduralTerrainGenerator(20);
      }
      if terrainGenerator != null {
        terrainGenerator.Initialize(worldSeed);
      }
    }

    /** Sets the seed, recreates the random generator and reseeds the terrain component. */
    method InitializeSeed(seed: Int32)
      modifies this, terrainGenerator
      ensures worldSeed == seed && randomGenerator == Some(seed)
      ensures terrainGenerator == old(terrainGenerator)
      ensures terrainGenerator != null ==> terrainGenerator.worldSeed == seed
      ensures CurrentSettings() == old(CurrentSettings()).(worldSeed := seed)
    {
      worldSeed := seed;
      randomGenerator := Some(seed);
      if terrainGenerator != null {
        terrainGenerator.Initialize(seed);
      }
    }

    /**
     * Builds one chunk: a root object at the chunk's origin, its terrain,
     * its props, marked loaded. The engine is asked for exactly
     * `ChunkContents`; the root is the first new handle and the chunk's
     * object list holds the rest, in creation order. When a hash
     * overflows `Math.Abs` or the count divides by zero, the exception
     * escapes and no chunk is returned.
     */
    method GenerateChunk(chunkIndex: ChunkIndex, chunkSize: real, host: Host) returns (result: Fallible<ChunkData>)
      modifies host
      ensures var plan := ChunkContents(CurrentSettings(), CurrentTerrainSetup(), chunkIndex, chunkSize);
        && (result.Ok? <==> plan.Ok?)
        && (result.Thrown? ==> result.error == plan.error)
        && (result.Ok? ==>
          && fresh(result.value)
          && host.created == old(host.created) + plan.value
          && result.value.chunkIndex == chunkIndex
          && result.value.isLoaded
          && result.value.chunkObject == Some(|old(host.created)|)
          && result.value.objects == HandleRun(|old(host.created)| + 1, |plan.value| - 1)
          && OwnedHandles(result.value.chunkObject, result.value.objects) == Handles(|old(host.created)|, |plan.value|))
      ensures result.Thrown? ==> old(host.created) <= host.created
      ensures host.destroyed == old(host.destroyed)
    {
      ghost var settings, setup := CurrentSettings(), CurrentTerrainSetup();
      ghost var created0 := host.created;
      var chunkData := new ChunkData(chunkIndex);
      var root := host.Create(ChunkRoot(chunkIndex, ChunkOrigin(chunkIndex, chunkSize)));
      chunkData.chunkObject := Some(root);
      ghost var created1 := host.created;
      var failure := GenerateTerrain(chunkData, chunkSize, host, settings, setup);
      assert settings == CurrentSettings() && setup == CurrentTerrainSetup();
      if failure.Some? {
        assert ChunkContents(settings, setup, chunkIndex, chunkSize) == Thrown(failure.value);
        return Thrown(failure.value);
      }
      ghost var created2, objects2 := host.created, chunkData.objects;
      ghost var placed;
      failure, placed := GenerateObjects(chunkData, chunkSize, host, settings);
      assert settings == CurrentSettings() && setup == CurrentTerrainSetup();
      if failure.Some? {
        assert ChunkContents(settings, setup, chunkIndex, chunkSize) == Thrown(failure.value);
        return Thrown(failure.value);
      }
      chunkData.isLoaded := true;
      assert settings == CurrentSettings() && setup == CurrentTerrainSetup();
      ChunkGenerated(settings, setup, chunkIndex, chunkSize, created0, created1, created2, host.created,
                     objects2, chunkData.objects);
      result := Ok(chunkData);
    }

    /**
     * Adds the chosen terrain object, if any, to the chunk's object list.
     * `s` and `setup` name the component's current state for the contract.
     */
    method GenerateTerrain(chunkData: ChunkData, chunkSize: real, host: Host,
                           ghost s: Settings, ghost setup: Option<TerrainSetup>)
      returns (failure: Option<Exception>)
      requires s == CurrentSettings() && setup == CurrentTerrainSetup()
      modifies chunkData, host
      ensures var plan := TerrainChoice(s, setup, chunkData.chunkIndex);
        && (failure.Some? <==> plan.Thrown?)
        && (failure.Some? ==> failure.value == plan.error)
        && (failure.None? ==>
          && host.created == old(host.created) + TerrainCreations(plan.value, chunkData.chunkIndex)
          && chunkData.objects == old(chunkData.objects)
             + HandleRun(|old(host.created)|, |TerrainCreations(plan.value, chunkData.chunkIndex)|))
      ensures failure.Some? ==> host.created == old(host.created) && chunkData.objects == old(chunkData.objects)
      ensures chunkData.chunkIndex == old(chunkData.chunkIndex)
      ensures chunkData.chunkObject == old(chunkData.chunkObject) && chunkData.isLoaded == old(chunkData.isLoaded)
      ensures host.destroyed == old(host.destroyed)
    {
      var index := chunkData.chunkIndex;
      var plan := TerrainChoice(CurrentSettings(), CurrentTerrainSetup(), index);
      assert plan == TerrainChoice(s, setup, index);
      if plan.Thrown? {
        return Some(plan.error);
      }
      failure := None;
      var terrainObj: Option<Handle> := None;
      if useProceduralTerrain && terrainGenerator != null {
        var h := terrainGenerator.GenerateTerrainChunk(index, chunkSize, host);
        terrainObj := Some(h);
      } else if terrainPrefabCount > 0 {
        var h := host.Create(TerrainPrefab(index, plan.value.prefabIndex));
        terrainObj := Some(h);
      }
      if terrainObj.Some? {
        chunkData.objects := chunkData.objects + [terrainObj];
      }
    }

    /**
     * The placement loop: one engine object per kept candidate, appended to
     * the chunk's list. `settings` names the component's current state.
     */
    method GenerateObjects(chunkData: ChunkData, chunkSize: real, host: Host, ghost settings: Settings)
      returns (failure: Option<Exception>, ghost placed: seq<Placement>)
      requires settings == CurrentSettings()
      modifies chunkData, host
      ensures var plan := PlannedObjects(settings, chunkData.chunkIndex, chunkSize);
        && (failure.Some? <==> plan.Thrown?)
        && (failure.Some? ==> failure.value == plan.error)
        && (failure.None? ==>
          && placed == plan.value
          && chunkData.objects == old(chunkData.objects) + HandleRun(|old(host.created)|, |plan.value|))
      ensures host.created == old(host.created) + PropCreations(chunkData.chunkIndex, placed)
      ensures chunkData.chunkIndex == old(chunkData.chunkIndex)
      ensures chunkData.chunkObject == old(chunkData.chunkObject) && chunkData.isLoaded == old(chunkData.isLoaded)
      ensures host.destroyed == old(host.destroyed)
    {
      failure, placed := None, [];
      if objectPrefabCount == 0 {
        return;
      }
      var s := CurrentSettings();
      var index := chunkData.chunkIndex;
      var count := ObjectCount(s, index);
      if count.Thrown? {
        return Some(count.error), [];
      }
      failure, placed := PlaceCandidates(chunkData, host, s, index, chunkSize, CandidateOf(s, index, chunkSize), count.value);
    }
  }

  /** The loop over the first `objectCount` candidates of `GenerateObjects`. */
  method PlaceCandidates(chunkData: ChunkData, host: Host, s: Settings, index: ChunkIndex, chunkSize: real,
                         ghost decide: nat -> Fallible<Option<Placement>>, objectCount: nat)
    returns (failure: Option<Exception>, ghost placed: seq<Placement>)
    requires s.objectPrefabCount > 0
    requires forall k: nat {:trigger Candidate(s, index, chunkSize, k)} :: decide(k) == Candidate(s, index, chunkSize, k)
    modifies chunkData, host
    ensures var plan := Kept(decide, objectCount);
      && (failure.Some? <==> plan.Thrown?)
      && (failure.Some? ==> failure.value == plan.error)
      && (failure.None? ==>
        && placed == plan.value
        && chunkData.objects == old(chunkData.objects) + HandleRun(|old(host.created)|, |plan.value|))
    ensures host.created == old(host.created) + PropCreations(index, placed)
    ensures chunkData.chunkIndex == old(chunkData.chunkIndex)
    ensures chunkData.chunkObject == old(chunkData.chunkObject) && chunkData.isLoaded == old(chunkData.isLoaded)
    ensures host.destroyed == old(host.destroyed)
  {
    failure := None;
    ghost var created0, objects0 := host.created, chunkData.objects;
    ghost var kept: seq<Placement> := [];
    placed := [];
    var i := 0;
    while i < objectCount
      invariant 0 <= i <= objectCount
      invariant failure == None
      invariant Kept(decide, i) == Ok(kept)
      invariant host.created == created0 + PropCreations(index, kept)
      invariant chunkData.objects == objects0 + HandleRun(|created0|, |kept|)
      invariant chunkData.chunkIndex == old(chunkData.chunkIndex)
      invariant chunkData.chunkObject == old(chunkData.chunkObject) && chunkData.isLoaded == old(chunkData.isLoaded)
      invariant host.destroyed == old(host.destroyed)
    {
      var candidate;
      failure, candidate := PlaceCandidate(chunkData, host, s, index, chunkSize, decide, i);
      if failure.Some? {
        KeptThrownStays(decide, i + 1, objectCount);
        placed := kept;
        return;
      }
      if candidate.Some? {
        KeptOneMore(created0, objects0, index, kept, candidate.value);
        kept := kept + [candidate.value];
      }
      i := i + 1;
    }
    placed := kept;
  }

  /**
   * The body of the placement loop: decides candidate `i` and, when it is
   * kept, instantiates it and appends it to the chunk's list.
   */
  method PlaceCandidate(chunkData: ChunkData, host: Host, s: Settings, index: ChunkIndex, chunkSize: real,
                        ghost decide: nat -> Fallible<Option<Placement>>, i: nat)
    returns (failure: Option<Exception>, placed: Option<Placement>)
    requires s.objectPrefabCount > 0
    requires forall k: nat {:trigger Candidate(s, index, chunkSize, k)} :: decide(k) == Candidate(s, index, chunkSize, k)
    modifies chunkData, host
    ensures var c := decide(i);
      && (failure.Some? <==> c.Thrown?)
      && (failure.Some? ==> failure.value == c.error)
      && (c.Ok? ==> placed == c.value)
    ensures failure.Some? ==> placed.None?
    ensures placed.Some? ==> host.created == old(host.created) + [PropOf(index, placed.value)]
    ensures placed.Some? ==> chunkData.objects == old(chunkData.objects) + [Some(|old(host.created)|)]
    ensures placed.None? ==> host.created == old(host.created) && chunkData.objects == old(chunkData.objects)
    ensures chunkData.chunkIndex == old(chunkData.chunkIndex)
    ensures chunkData.chunkObject == old(chunkData.chunkObject) && chunkData.isLoaded == old(chunkData.isLoaded)
    ensures host.destroyed == old(host.destroyed)
  {
    var c := Candidate(s, index, chunkSize, i);
    placed := None;
    if c.Thrown? {
      return Some(c.error), None;
    }
    failure := None;
    placed := c.value;
    if placed.Some? {
      var obj := Spawn(chunkData, host, PropOf(index, placed.value));
    }
  }

  /** `Instantiate` followed by `chunkData.objects.Add`. */
  method Spawn(chunkData: ChunkData, host: Host, what: Creation) returns (obj: Handle)
    modifies chunkData, host
    ensures obj == |old(host.created)|
    ensures host.created == old(host.created) + [what] && host.destroyed == old(host.destroyed)
    ensures chunkData.objects == old(chunkData.objects) + [Some(obj)]
    ensures chunkData.chunkIndex == old(chunkData.chunkIndex)
    ensures chunkData.chunkObject == old(chunkData.chunkObject) && chunkData.isLoaded == old(chunkData.isLoaded)
  {
    obj := host.Create(what);
    chunkData.objects := chunkData.objects + [Some(obj)];
  }

  /** Wrapping a factor before a multiply-add changes nothing. */
  lemma MulAddWrapped(p: int, c: int, b: int)
    ensures Wrap32(Wrap32(p) * c + b) == Wrap32(p * c + b)
  {
    var w := Wrap32(p);
    var k := (p - w) / TwoTo32;
    assert p == w + k * TwoTo32;
    assert p * c + b == (w * c + b) + (k * c) * TwoTo32;
    WrapShift(w * c + b, k * c);
  }
}
