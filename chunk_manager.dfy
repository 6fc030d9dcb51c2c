/**
 * The streaming scheduler: a dictionary from chunk index to chunk entry,
 * kept around the chunk the player stands in. The load pass fills the
 * square window of half-width `viewDistance` around the player's chunk;
 * the unload pass drops every entry farther than `viewDistance` in L1
 * distance, so after a pass that moved the window exactly the L1 diamond
 * is loaded.
 */
module Streaming {
  import opened Numerics
  import opened Vectors
  import opened WorldCoordinates
  import opened Engine
  import opened ChunkStore
  import opened Generation

  /** `i` lies in the square window `[c.x-d, c.x+d] × [c.y-d, c.y+d]` that the load pass fills. */
  predicate InSquare(i: ChunkIndex, c: ChunkIndex, d: int) {
    c.x - d <= i.x <= c.x + d && c.y - d <= i.y <= c.y + d
  }

  /** `i` is within L1 distance `d` of `c`: the keys the unload pass keeps. */
  predicate InDiamond(i: ChunkIndex, c: ChunkIndex, d: int) {
    ChunkDistance(i, c) <= d
  }

  /** The diamond lies inside the square, so a load pass leaves nothing of it to the unload pass. */
  lemma DiamondInSquare(i: ChunkIndex, c: ChunkIndex, d: int)
    ensures InDiamond(i, c, d) ==> InSquare(i, c, d)
  {
    var dx, dy := i.x - c.x, i.y - c.y;
    assert ChunkDistance(i, c) == Abs(dx) + Abs(dy);
  }

  /**
   * For a positive view distance the four corners of the square are loaded
   * by the load pass and dropped again by the unload pass.
   */
  lemma CornersOutsideDiamond(c: ChunkIndex, d: int)
    requires d > 0
    ensures forall sx, sy :: sx in {-1, 1} && sy in {-1, 1} ==>
      var corner := ChunkIndex(c.x + sx * d, c.y + sy * d);
      InSquare(corner, c, d) && !InDiamond(corner, c, d)
  {
    forall sx, sy | sx in {-1, 1} && sy in {-1, 1}
      ensures var corner := ChunkIndex(c.x + sx * d, c.y + sy * d);
        InSquare(corner, c, d) && !InDiamond(corner, c, d)
    {
      var corner := ChunkIndex(c.x + sx * d, c.y + sy * d);
      assert corner.x - c.x == sx * d && corner.y - c.y == sy * d;
      assert ChunkDistance(corner, c) == 2 * d;
    }
  }

  /**
   * `k` comes before `(c.x + x, c.y + z)` in the order the load pass visits
   * the square around `c`: column by column, each column upwards.
   */
  predicate Visited(k: ChunkIndex, c: ChunkIndex, d: int, x: int, z: int) {
    InSquare(k, c, d) && (k.x < c.x + x || (k.x == c.x + x && k.y < c.y + z))
  }

  /**
   * A load pass that started with the keys `before` has reached
   * `(c.x + x, c.y + z)` and now has the keys `keys`: the keys it added
   * were visited, and every chunk visited is a key.
   */
  ghost predicate Covered(c: ChunkIndex, d: int, x: int, z: int, before: set<ChunkIndex>, keys: set<ChunkIndex>) {
    && (forall k {:trigger Visited(k, c, d, x, z)} :: k in keys ==> k in before || Visited(k, c, d, x, z))
    && (forall k {:trigger Visited(k, c, d, x, z)} :: Visited(k, c, d, x, z) ==> k in keys)
  }

  /** Visiting `(c.x + x, c.y + z)` makes it a key, if it was not one already. */
  lemma CoveredStep(c: ChunkIndex, d: int, x: int, z: int, before: set<ChunkIndex>, keys: set<ChunkIndex>,
                    keys': set<ChunkIndex>)
    requires -d <= x <= d && -d <= z <= d && Covered(c, d, x, z, before, keys)
    requires forall k :: k in keys' <==> k in keys || k == ChunkIndex(c.x + x, c.y + z)
    ensures Covered(c, d, x, z + 1, before, keys')
  {
    var next := z + 1;
    forall k | k in keys'
      ensures k in before || Visited(k, c, d, x, next)
    {
      if k in keys {
        assert Visited(k, c, d, x, z) ==> Visited(k, c, d, x, next);
      }
    }
    forall k | Visited(k, c, d, x, next)
      ensures k in keys'
    {
      assert k == ChunkIndex(c.x + x, c.y + z) || Visited(k, c, d, x, z);
    }
  }

  /** Finishing column `x` is starting column `x + 1`. */
  lemma CoveredColumn(c: ChunkIndex, d: int, x: int, before: set<ChunkIndex>, keys: set<ChunkIndex>)
    requires Covered(c, d, x, d + 1, before, keys)
    ensures Covered(c, d, x + 1, -d, before, keys)
  {
    var top, next, bottom := d + 1, x + 1, -d;
    forall k | k in keys
      ensures k in before || Visited(k, c, d, next, bottom)
    {
      assert Visited(k, c, d, x, top) == Visited(k, c, d, next, bottom);
    }
    forall k | Visited(k, c, d, next, bottom)
      ensures k in keys
    {
      assert Visited(k, c, d, x, top);
    }
  }

  /**
   * A finished load pass over the square around `c` that kept its old keys:
   * it ends with the keys it started with and the square.
   */
  lemma SquareCovered(c: ChunkIndex, d: int, x: int, before: set<ChunkIndex>, keys: set<ChunkIndex>)
    requires Covered(c, d, x, -d, before, keys) && before <= keys
    requires d >= 0 ==> x == d + 1
    ensures forall k :: k in keys <==> k in before || InSquare(k, c, d)
  {
    var bottom := -d;
    forall k
      ensures k in keys <==> k in before || InSquare(k, c, d)
    {
      assert Visited(k, c, d, x, bottom) == InSquare(k, c, d);
    }
  }

  /** The keys listed in `ks`. */
  function KeySet(ks: seq<ChunkIndex>): set<ChunkIndex> {
    if ks == [] then {} else KeySet(ks[..|ks| - 1]) + {ks[|ks| - 1]}
  }

  lemma {:induction false} KeySetMembers(ks: seq<ChunkIndex>, k: ChunkIndex)
    ensures k in KeySet(ks) <==> k in ks
  {
    if ks != [] {
      assert ks == ks[..|ks| - 1] + [ks[|ks| - 1]];
      KeySetMembers(ks[..|ks| - 1], k);
    }
  }

  /**
   * The handles destroyed by unloading the keys `ks` in order, given what
   * each entry owns: a key without an entry, or one already unloaded
   * earlier in the list, destroys nothing.
   */
  function Teardown(owned: map<ChunkIndex, seq<Handle>>, ks: seq<ChunkIndex>): seq<Handle> {
    if ks == [] then []
    else
      var front, k := ks[..|ks| - 1], ks[|ks| - 1];
      Teardown(owned, front) + (if k in owned && k !in KeySet(front) then owned[k] else [])
  }

  /** A handle is torn down iff one of the listed entries owns it: nothing else is destroyed. */
  lemma {:induction false} TeardownMembers(owned: map<ChunkIndex, seq<Handle>>, ks: seq<ChunkIndex>, h: Handle)
    ensures h in Teardown(owned, ks) <==> exists k :: k in ks && k in owned && h in owned[k]
  {
    if ks != [] {
      var front, last := ks[..|ks| - 1], ks[|ks| - 1];
      assert ks == front + [last];
      TeardownMembers(owned, front, h);
      KeySetMembers(front, last);
      if last in owned && h in owned[last] {
        assert last in ks;
        if last in front {
          assert exists k :: k in front && k in owned && h in owned[k];
        }
      }
      if h in Teardown(owned, front) {
        var k :| k in front && k in owned && h in owned[k];
        assert k in ks;
      }
    }
  }

  /** One more key torn down at the end. */
  lemma TeardownAppend(owned: map<ChunkIndex, seq<Handle>>, ks: seq<ChunkIndex>, k: ChunkIndex)
    ensures Teardown(owned, ks + [k]) == Teardown(owned, ks)
      + (if k in owned && k !in KeySet(ks) then owned[k] else [])
    ensures KeySet(ks + [k]) == KeySet(ks) + {k}
  {
    assert (ks + [k])[..|ks|] == ks;
  }

  /** One more key listed. */
  lemma KeySetSnoc(ks: seq<ChunkIndex>, k: ChunkIndex)
    ensures KeySet(ks + [k]) == KeySet(ks) + {k}
  {
    assert (ks + [k])[..|ks|] == ks;
  }

  /** Appending a key not listed yet keeps a list free of repeats. */
  lemma DistinctSnoc(ks: seq<ChunkIndex>, k: ChunkIndex)
    requires Distinct(ks) && k !in KeySet(ks)
    ensures Distinct(ks + [k])
  {
    KeySetMembers(ks, k);
  }

  /** What a generator yields for each chunk: the records it asks the engine to create, or the exception it throws. */
  type Plan = imap<ChunkIndex, Fallible<seq<Creation>>>

  /** The records chunk `k` asks the engine to create under `plan`; none when it throws. */
  function Records(plan: Plan, k: ChunkIndex): seq<Creation> {
    if k in plan && plan[k].Ok? then plan[k].value else []
  }

  /** None of the chunks `ks` makes the generator throw. */
  predicate AllOk(plan: Plan, ks: seq<ChunkIndex>) {
    ks == [] || (AllOk(plan, ks[..|ks| - 1]) && ks[|ks| - 1] in plan && plan[ks[|ks| - 1]].Ok?)
  }

  /** The records the chunks `ks`, generated one after another, ask the engine to create. */
  function Created(plan: Plan, ks: seq<ChunkIndex>): seq<Creation> {
    if ks == [] then [] else Created(plan, ks[..|ks| - 1]) + Records(plan, ks[|ks| - 1])
  }

  /**
   * What the entries own after the chunks `ks` were generated one after
   * another and added to entries owning `owned`, the first new record
   * getting the handle `first`: each new chunk owns the run of handles of
   * its own records.
   */
  function Extend(owned: map<ChunkIndex, seq<Handle>>, first: Handle, plan: Plan, ks: seq<ChunkIndex>)
    : map<ChunkIndex, seq<Handle>>
  {
    if ks == [] then owned
    else
      var front, k := ks[..|ks| - 1], ks[|ks| - 1];
      Extend(owned, first, plan, front)[k := Handles(first + |Created(plan, front)|, |Records(plan, k)|)]
  }

  /** The chunks `ks` are new: none of them has an entry in `owned`, and none is listed twice. */
  predicate Fresh(owned: map<ChunkIndex, seq<Handle>>, ks: seq<ChunkIndex>) {
    ks == [] || (Fresh(owned, ks[..|ks| - 1]) && ks[|ks| - 1] !in owned && ks[|ks| - 1] !in KeySet(ks[..|ks| - 1]))
  }

  /**
   * One more chunk generated at the end of a pass, yielding `records`: its
   * run of handles starts at `start`, where the records of the pass so far end.
   */
  lemma PassSnoc(owned: map<ChunkIndex, seq<Handle>>, first: Handle, plan: Plan, ks: seq<ChunkIndex>, k: ChunkIndex,
                 records: seq<Creation>, start: Handle)
    requires k in plan && plan[k] == Ok(records) && start == first + |Created(plan, ks)|
    ensures Created(plan, ks + [k]) == Created(plan, ks) + records
    ensures Extend(owned, first, plan, ks + [k]) == Extend(owned, first, plan, ks)[k := Handles(start, |records|)]
    ensures AllOk(plan, ks + [k]) == AllOk(plan, ks)
    ensures Fresh(owned, ks + [k]) <==> Fresh(owned, ks) && k !in owned && k !in KeySet(ks)
  {
    assert (ks + [k])[..|ks|] == ks;
  }

  /** The entries after a pass are the old ones and the new chunks. */
  lemma {:induction false} ExtendKeys(owned: map<ChunkIndex, seq<Handle>>, first: Handle, plan: Plan,
                                      ks: seq<ChunkIndex>)
    ensures Extend(owned, first, plan, ks).Keys == owned.Keys + KeySet(ks)
  {
    if ks != [] {
      ExtendKeys(owned, first, plan, ks[..|ks| - 1]);
    }
  }

  /** An entry present before a pass of new chunks still owns what it owned. */
  lemma {:induction false} ExtendKeeps(owned: map<ChunkIndex, seq<Handle>>, first: Handle, plan: Plan,
                                       ks: seq<ChunkIndex>, k: ChunkIndex)
    requires Fresh(owned, ks) && k in owned
    ensures k in Extend(owned, first, plan, ks) && Extend(owned, first, plan, ks)[k] == owned[k]
  {
    if ks != [] {
      ExtendKeeps(owned, first, plan, ks[..|ks| - 1], k);
    }
  }

  /**
   * A new chunk `k` of a pass owns the run of handles of its own records,
   * which starts where the records of the chunks before it end.
   */
  lemma {:induction false} ExtendRun(owned: map<ChunkIndex, seq<Handle>>, first: Handle, plan: Plan,
                                     before: seq<ChunkIndex>, k: ChunkIndex, after: seq<ChunkIndex>)
    requires Fresh(owned, before + [k] + after)
    ensures k in Extend(owned, first, plan, before + [k] + after)
    ensures Extend(owned, first, plan, before + [k] + after)[k] == Handles(first + |Created(plan, before)|, |Records(plan, k)|)
  {
    var ks := before + [k] + after;
    if after == [] {
      assert ks[..|ks| - 1] == before;
    } else {
      var front, last := before + [k] + after[..|after| - 1], after[|after| - 1];
      assert ks[..|ks| - 1] == front && ks[|ks| - 1] == last;
      KeySetMembers(front, last);
      assert front[|before|] == k;
      ExtendRun(owned, first, plan, before, k, after[..|after| - 1]);
    }
  }

  /** The create log of a pass holds each new chunk's records, in order, one after another. */
  lemma {:induction false} CreatedRecords(plan: Plan, ks: seq<ChunkIndex>, i: nat)
    requires i < |ks|
    ensures Created(plan, ks[..i + 1]) == Created(plan, ks[..i]) + Records(plan, ks[i])
    ensures Created(plan, ks[..i + 1]) <= Created(plan, ks)
    decreases |ks|
  {
    assert ks[..i + 1][..i] == ks[..i];
    if i + 1 < |ks| {
      var front := ks[..|ks| - 1];
      assert ks[..i + 1] == front[..i + 1] && ks[..i] == front[..i] && ks[i] == front[i];
      CreatedRecords(plan, front, i);
    } else {
      assert ks[..i + 1] == ks;
    }
  }

  /** A chunk of a pass that did not throw produced its records. */
  lemma {:induction false} AllOkMembers(plan: Plan, ks: seq<ChunkIndex>, i: nat)
    requires AllOk(plan, ks) && i < |ks|
    ensures ks[i] in plan && plan[ks[i]] == Ok(Records(plan, ks[i]))
  {
    if i < |ks| - 1 {
      assert ks[i] == ks[..|ks| - 1][i];
      AllOkMembers(plan, ks[..|ks| - 1], i);
    }
  }

  /** The prefix one element longer. */
  lemma SliceSnoc<T>(s: seq<T>, i: nat)
    requires i < |s|
    ensures s[..i + 1] == s[..i] + [s[i]]
  {
  }

  lemma AppendAssoc<T>(a: seq<T>, b: seq<T>, c: seq<T>)
    ensures (a + b) + c == a + (b + c)
  {
  }

  /** One more key moved from `remaining` to the done keys. */
  lemma DoneOneMore<K>(all: set<K>, remaining: set<K>, k: K)
    requires k in remaining && remaining <= all
    ensures (all - remaining) + {k} == all - (remaining - {k})
  {
  }

  /** Removing a key that is already gone changes nothing. */
  lemma RemoveAbsent<K, V>(m: map<K, V>, gone: set<K>, k: K)
    requires k !in m - gone
    ensures m - (gone + {k}) == m - gone
  {
  }

  /** An entry added under a new key and then removed with others leaves the rest. */
  lemma UpdateRemove<K, V>(m: map<K, V>, gone: set<K>, k: K, v: V)
    requires k !in m
    ensures m[k := v] - (gone + {k}) == m - gone
  {
  }

  /** Removing keys one more at a time. */
  lemma RemoveOneMore<K, V>(m: map<K, V>, gone: set<K>, k: K)
    ensures (m - gone) - {k} == m - (gone + {k})
  {
  }

  /** An entry after `Unload`: nothing referenced, not loaded. */
  predicate Unloaded(e: ChunkData)
    reads e
  {
    e.chunkObject == None && e.objects == [] && !e.isLoaded
  }

  /** A loaded entry stored under `k` that would destroy `handles` if unloaded. */
  predicate Intact(e: ChunkData, k: ChunkIndex, handles: seq<Handle>)
    reads e
  {
    e.chunkIndex == k && e.isLoaded && OwnedHandles(e.chunkObject, e.objects) == handles
  }

  /** No key occurs twice. */
  predicate Distinct(ks: seq<ChunkIndex>) {
    forall i, j :: 0 <= i < j < |ks| ==> ks[i] != ks[j]
  }

  /** A chunk size the division in `GetChunkIndexFromPosition` can use. */
  type ChunkSize = r: real | r != 0.0 witness 50.0

  class ChunkManager {
    const chunkSize: ChunkSize
    const viewDistance: int
    const updateInterval: real
    /** The transform the chunk roots are parented to: the engine. */
    const host: Host
    var worldGenerator: WorldGenerator?
    var enabled: bool
    var loadedChunks: map<ChunkIndex, ChunkData>
    var currentPlayerChunk: ChunkIndex
    var updateTimer: real
    /** Every entry the dictionary has held: the objects a pass may change. */
    ghost var Repr: set<ChunkData>
    /** What each entry would destroy if unloaded now. */
    ghost var Owned: map<ChunkIndex, seq<Handle>>

    /** The entry under `k`, if any, as a frame. */
    function EntryAt(k: ChunkIndex): set<ChunkData>
      reads this
    {
      if k in loadedChunks then {loadedChunks[k]} else {}
    }

    /**
     * Every entry is stored under its own index, is loaded, owns what
     * `Owned` says, and is among `Repr`.
     */
    ghost predicate Valid()
      reads this`loadedChunks, this`Owned, this`Repr, loadedChunks.Values
    {
      && Owned.Keys == loadedChunks.Keys
      && (forall k :: k in loadedChunks ==> loadedChunks[k] in Repr)
      && forall k {:trigger Intact(loadedChunks[k], k, Owned[k])} :: k in loadedChunks ==> Intact(loadedChunks[k], k, Owned[k])
    }

    /** What the generator would create for chunk `k`. */
    function Contents(k: ChunkIndex): Fallible<seq<Creation>>
      requires worldGenerator != null
      reads this`worldGenerator, worldGenerator, worldGenerator.terrainGenerator
    {
      ChunkContents(worldGenerator.CurrentSettings(), worldGenerator.CurrentTerrainSetup(), k, chunkSize)
    }

    /** `plan` yields `Contents` for every chunk. */
    ghost predicate Agrees(plan: Plan)
      requires worldGenerator != null
      reads this`worldGenerator, worldGenerator, worldGenerator.terrainGenerator
    {
      forall k {:trigger Contents(k)} :: k in plan && plan[k] == Contents(k)
    }

    /**
     * `Contents` for every chunk, under the generator's current settings.
     * It is the one plan that agrees with `Contents`; the load pass treats
     * it as a table and only looks an entry up where it generates a chunk.
     */
    ghost function Generator(): (plan: Plan)
      requires worldGenerator != null
      reads this`worldGenerator, worldGenerator, worldGenerator.terrainGenerator
      ensures Agrees(plan)
    {
      var table := imap k: ChunkIndex | true :: Contents(k);
      assert Agrees(table);
      var plan :| Agrees(plan); plan
    }

    /** The serialized defaults are 50, 2 and 0.5; the dictionary starts empty. */
    constructor (chunkSize: ChunkSize, viewDistance: int, updateInterval: real, host: Host,
                 worldGenerator: WorldGenerator?)
      ensures this.chunkSize == chunkSize && this.viewDistance == viewDistance
      ensures this.updateInterval == updateInterval && this.host == host
      ensures this.worldGenerator == worldGenerator
      ensures enabled && loadedChunks == map[] && currentPlayerChunk == ChunkIndex(0, 0) && updateTimer == 0.0
      ensures Valid()
    {
      this.chunkSize := chunkSize;
      this.viewDistance := viewDistance;
      this.updateInterval := updateInterval;
      this.host := host;
      this.worldGenerator := worldGenerator;
      enabled := true;
      loadedChunks := map[];
      currentPlayerChunk := ChunkIndex(0, 0);
      updateTimer := 0.0;
      Repr, Owned := {}, map[];
    }

    /** The chunk containing a position: the chunk index of its world coordinate. */
    function GetChunkIndexFromPosition(worldPosition: Vector3): (i: ChunkIndex)
      ensures i == FromWorldPosition(worldPosition, chunkSize).chunkIndex
    {
      ChunkIndex(FloorToInt(worldPosition.x / chunkSize), FloorToInt(worldPosition.z / chunkSize))
    }

    /** The entry under `chunkIndex`, or null: a non-null result is that chunk's live, loaded entry. */
    function GetChunkAt(chunkIndex: ChunkIndex): (r: ChunkData?)
      requires Valid()
      reads this, loadedChunks.Values
      ensures r != null <==> chunkIndex in loadedChunks
      ensures r != null ==> r == loadedChunks[chunkIndex] && r.chunkIndex == chunkIndex && r.isLoaded
    {
      if chunkIndex in loadedChunks then
        assert Intact(loadedChunks[chunkIndex], chunkIndex, Owned[chunkIndex]);
        loadedChunks[chunkIndex]
      else
        null
    }

    /**
     * `Start`: a null player, or no generator on the object either, disables
     * the component; otherwise the player's chunk is taken and the square
     * around it is loaded. No unload pass runs, so the square's corners stay.
     * `player` is the player's position, `None` for a null reference, and
     * `sibling` is what `GetComponent<WorldGenerator>` finds.
     */
    method Start(player: Option<Vector3>, sibling: WorldGenerator?)
      returns (failure: Option<Exception>, ghost loaded: seq<ChunkIndex>)
      requires Valid()
      modifies this`loadedChunks, this`Repr, this`Owned, this`worldGenerator, this`enabled, this`currentPlayerChunk, host
      ensures Valid()
      ensures player.None? || (old(worldGenerator) == null && sibling == null) ==>
        && !enabled && failure.None? && worldGenerator == old(worldGenerator)
        && loadedChunks == old(loadedChunks) && currentPlayerChunk == old(currentPlayerChunk)
        && host.created == old(host.created) && loaded == []
      ensures player.Some? && (old(worldGenerator) != null || sibling != null) ==>
        && worldGenerator == (if old(worldGenerator) != null then old(worldGenerator) else sibling)
        && enabled == old(enabled)
        && currentPlayerChunk == GetChunkIndexFromPosition(player.value)
        && (failure.None? ==>
          forall k :: k in loadedChunks <==> k in old(loadedChunks) || InSquare(k, currentPlayerChunk, viewDistance))
        && (forall k :: k in old(loadedChunks) ==> k in loadedChunks && loadedChunks[k] == old(loadedChunks)[k])
        && worldGenerator != null && Loads(Generator(), loaded, Owned)
        && (failure.None? ==> host.created == old(host.created) + Created(Generator(), loaded))
        && old(host.created) + Created(Generator(), loaded) <= host.created
      ensures old(host.created) <= host.created && host.destroyed == old(host.destroyed)
    {
      failure, loaded := None, [];
      if player.None? {
        enabled := false;
        return;
      }
      if worldGenerator == null {
        worldGenerator := sibling;
        if worldGenerator == null {
          enabled := false;
          return;
        }
      }
      currentPlayerChunk := GetChunkIndexFromPosition(player.value);
      failure, loaded := LoadChunksAroundPlayer();
    }

    /**
     * `Update`: the timer accumulates the frame time; once it reaches the
     * interval it is reset and the chunks are updated. Unity calls it only
     * on an enabled component, after `Start` found a generator. The ghost
     * results are those of `UpdateChunks`, and empty when it does not run.
     * `UpdateChunks` never reads the timer, so resetting it after the pass
     * leaves the same state as resetting it before.
     */
    method Update(deltaTime: real, playerPosition: Vector3)
      returns (failure: Option<Exception>, ghost loaded: seq<ChunkIndex>, ghost owned: map<ChunkIndex, seq<Handle>>,
               ghost unloaded: seq<ChunkIndex>)
      requires Valid() && enabled && worldGenerator != null
      modifies this`updateTimer, this`loadedChunks, this`Repr, this`Owned, this`currentPlayerChunk, host, Repr
      ensures Valid()
      ensures old(updateTimer) + deltaTime < updateInterval ==>
        && updateTimer == old(updateTimer) + deltaTime && failure.None?
        && loadedChunks == old(loadedChunks) && currentPlayerChunk == old(currentPlayerChunk)
        && unchanged(loadedChunks.Values)
        && host.created == old(host.created) && host.destroyed == old(host.destroyed)
        && loaded == [] && unloaded == []
      ensures old(updateTimer) + deltaTime >= updateInterval ==>
        && updateTimer == 0.0
        && currentPlayerChunk == GetChunkIndexFromPosition(playerPosition)
        && (currentPlayerChunk == old(currentPlayerChunk) ==>
          && loadedChunks == old(loadedChunks) && unchanged(loadedChunks.Values)
          && host.created == old(host.created) && host.destroyed == old(host.destroyed)
          && loaded == [] && unloaded == [])
        && (currentPlayerChunk != old(currentPlayerChunk) && failure.None? ==>
          forall k :: k in loadedChunks <==> InDiamond(k, currentPlayerChunk, viewDistance))
      ensures forall k :: k in loadedChunks && k in old(loadedChunks) ==>
        loadedChunks[k] == old(loadedChunks)[k] && Owned[k] == old(Owned)[k]
      ensures failure.Some? ==>
        && currentPlayerChunk != old(currentPlayerChunk) && unloaded == []
        && exists k :: InSquare(k, currentPlayerChunk, viewDistance) && k !in loadedChunks
             && k in old(Generator()) && old(Generator())[k] == Thrown(failure.value)
      ensures Loads(old(Generator()), loaded, owned)
      ensures failure.None? ==> host.created == old(host.created) + Created(old(Generator()), loaded)
      ensures old(host.created) + Created(old(Generator()), loaded) <= host.created
      ensures Unloads(owned, unloaded)
      ensures currentPlayerChunk != old(currentPlayerChunk) && failure.None? ==>
        forall k :: k in loaded <==> InSquare(k, currentPlayerChunk, viewDistance) && k !in old(loadedChunks)
      ensures currentPlayerChunk != old(currentPlayerChunk) && failure.None? ==>
        forall k :: k in unloaded <==> k in owned && !InDiamond(k, currentPlayerChunk, viewDistance)
    {
      var timer := updateTimer + deltaTime;
      if timer >= updateInterval {
        failure, loaded, owned, unloaded := UpdateChunks(playerPosition);
        updateTimer := 0.0;
      } else {
        failure, loaded, owned, unloaded := None, [], Owned, [];
        updateTimer := timer;
      }
    }

    /**
     * What a load pass asked the engine to create: the chunks `loaded`,
     * none of them present before and none twice, each generated without
     * an exception, one after another from the first new handle on. `owned`
     * is what every entry owned after the pass: the old entries what they
     * owned before, each new one the run of handles of its own records
     * (`ExtendKeeps`, `ExtendRun`).
     */
    twostate predicate Loads(new plan: Plan, new loaded: seq<ChunkIndex>, new owned: map<ChunkIndex, seq<Handle>>)
    {
      && Fresh(old(Owned), loaded) && AllOk(plan, loaded)
      && owned == Extend(old(Owned), |old(host.created)|, plan, loaded)
    }

    /**
     * What a pass asked the engine to destroy: the handles that the entries
     * `unloaded` owned after the load pass, in that order. Each of them
     * lies outside the diamond and is listed once; every entry still
     * loaded owns what it owned then.
     */
    twostate predicate Unloads(new owned: map<ChunkIndex, seq<Handle>>, new unloaded: seq<ChunkIndex>)
      reads this`Owned, this`currentPlayerChunk, host
    {
      && host.destroyed == old(host.destroyed) + Teardown(owned, unloaded)
      && Distinct(unloaded)
      && (forall k :: k in unloaded ==> k in owned && !InDiamond(k, currentPlayerChunk, viewDistance))
      && Owned == owned - KeySet(unloaded)
    }

    /**
     * When the player has entered another chunk: loads the square around
     * it, then unloads everything outside the diamond. Afterwards exactly
     * the diamond is loaded, whatever was loaded before. The ghost results
     * are the chunks the load pass created (`loaded`, with their records),
     * what every entry owned after it (`owned`), and the unload list.
     */
    method UpdateChunks(playerPosition: Vector3)
      returns (failure: Option<Exception>, ghost loaded: seq<ChunkIndex>, ghost owned: map<ChunkIndex, seq<Handle>>,
               ghost unloaded: seq<ChunkIndex>)
      requires Valid() && worldGenerator != null
      modifies this`loadedChunks, this`Repr, this`Owned, this`currentPlayerChunk, host, Repr
      ensures Valid()
      ensures currentPlayerChunk == GetChunkIndexFromPosition(playerPosition)
      ensures currentPlayerChunk == old(currentPlayerChunk) ==>
        && failure.None? && loadedChunks == old(loadedChunks) && unchanged(loadedChunks.Values)
        && host.created == old(host.created) && host.destroyed == old(host.destroyed)
        && loaded == [] && unloaded == []
      ensures currentPlayerChunk != old(currentPlayerChunk) && failure.None? ==>
        forall k :: k in loadedChunks <==> InDiamond(k, currentPlayerChunk, viewDistance)
      ensures forall k :: k in loadedChunks && k in old(loadedChunks) ==> loadedChunks[k] == old(loadedChunks)[k]
      ensures forall k :: k in loadedChunks && k in old(loadedChunks) ==> Owned[k] == old(Owned)[k]
      ensures failure.Some? ==>
        && currentPlayerChunk != old(currentPlayerChunk) && unloaded == []
        && exists k :: InSquare(k, currentPlayerChunk, viewDistance) && k !in loadedChunks
             && k in old(Generator()) && old(Generator())[k] == Thrown(failure.value)
      ensures Loads(old(Generator()), loaded, owned)
      ensures failure.None? ==> host.created == old(host.created) + Created(old(Generator()), loaded)
      ensures old(host.created) + Created(old(Generator()), loaded) <= host.created
      ensures Unloads(owned, unloaded)
      ensures currentPlayerChunk != old(currentPlayerChunk) && failure.None? ==>
        forall k :: k in loaded <==> InSquare(k, currentPlayerChunk, viewDistance) && k !in old(loadedChunks)
      ensures currentPlayerChunk != old(currentPlayerChunk) && failure.None? ==>
        forall k :: k in unloaded <==> k in owned && !InDiamond(k, currentPlayerChunk, viewDistance)
    {
      failure, loaded, owned, unloaded := None, [], Owned, [];
      var newPlayerChunk := GetChunkIndexFromPosition(playerPosition);
      if newPlayerChunk != currentPlayerChunk {
        currentPlayerChunk := newPlayerChunk;
        failure, loaded := LoadChunksAroundPlayer();
        assert Generator() == old(Generator());
        owned := Owned;
        forall k | k in old(Owned)
          ensures k in owned && owned[k] == old(Owned)[k]
        {
          ExtendKeeps(old(Owned), |old(host.created)|, Generator(), loaded, k);
        }
        if failure.Some? {
          return;
        }
        ExtendKeys(old(Owned), |old(host.created)|, Generator(), loaded);
        forall k
          ensures k in loaded <==> InSquare(k, currentPlayerChunk, viewDistance) && k !in old(loadedChunks)
        {
          KeySetMembers(loaded, k);
        }
        unloaded := UnloadDistantChunks();
        forall k | InDiamond(k, currentPlayerChunk, viewDistance)
          ensures k in loadedChunks
        {
          DiamondInSquare(k, currentPlayerChunk, viewDistance);
        }
      }
    }

    /**
     * Loads every chunk of the square around the player's chunk that is
     * not loaded yet, row by row. Entries already present stay as they are;
     * an exception from the generator ends the pass. `loaded` lists the
     * chunks created, in order.
     */
    method LoadChunksAroundPlayer() returns (failure: Option<Exception>, ghost loaded: seq<ChunkIndex>)
      requires Valid() && worldGenerator != null
      modifies this`loadedChunks, this`Repr, this`Owned, host
      ensures Valid() && Owned == Extend(old(Owned), |old(host.created)|, Generator(), loaded)
      ensures Fresh(old(Owned), loaded) && AllOk(Generator(), loaded)
      ensures loadedChunks - KeySet(loaded) == old(loadedChunks)
      ensures failure.None? ==>
        forall k :: k in loadedChunks <==> k in old(loadedChunks) || InSquare(k, currentPlayerChunk, viewDistance)
      ensures failure.Some? ==>
        exists k :: InSquare(k, currentPlayerChunk, viewDistance) && k !in loadedChunks
             && k in Generator() && Generator()[k] == Thrown(failure.value)
      ensures old(Repr) <= Repr && fresh(Repr - old(Repr))
      ensures failure.None? ==> host.created == old(host.created) + Created(Generator(), loaded)
      ensures old(host.created) + Created(Generator(), loaded) <= host.created
      ensures host.destroyed == old(host.destroyed)
    {
      ghost var plan, owned0, created0 := Generator(), Owned, host.created;
      failure, loaded := None, [];
      var c, d := currentPlayerChunk, viewDistance;
      var x := -d;
      assert loadedChunks - KeySet(loaded) == old(loadedChunks);
      while x <= d
        invariant -d <= x && plan == Generator()
        invariant failure == None
        invariant Valid() && Owned == Extend(owned0, |created0|, plan, loaded)
        invariant Fresh(owned0, loaded) && AllOk(plan, loaded)
        invariant loadedChunks - KeySet(loaded) == old(loadedChunks)
        invariant d >= 0 ==> x <= d + 1
        invariant Covered(c, d, x, -d, old(loadedChunks).Keys, loadedChunks.Keys)
        invariant old(Repr) <= Repr && fresh(Repr - old(Repr))
        invariant host.created == created0 + Created(plan, loaded) && host.destroyed == old(host.destroyed)
      {
        failure, loaded := LoadRow(c, d, x, plan, owned0, created0, old(loadedChunks), loaded);
        if failure.Some? {
          return;
        }
        CoveredColumn(c, d, x, old(loadedChunks).Keys, loadedChunks.Keys);
        x := x + 1;
      }
      SquareCovered(c, d, x, old(loadedChunks).Keys, loadedChunks.Keys);
    }

    /**
     * One pass of the inner loop of `LoadChunksAroundPlayer`: the chunks
     * `(c.x + x, c.y + z)` for `z` from `-d` to `d`, where `c` and `d` are
     * the player's chunk and the view distance as the caller read them.
     * `plan` is what the
     * generator yields, `owned0` what the entries owned and `created0`
     * the create log before the whole pass, and `loaded` the chunks the
     * pass created so far; `loaded'` extends it.
     */
    method LoadRow(c: ChunkIndex, d: int, x: int, ghost plan: Plan, ghost owned0: map<ChunkIndex, seq<Handle>>,
                   ghost created0: seq<Creation>, ghost entries0: map<ChunkIndex, ChunkData>, ghost loaded: seq<ChunkIndex>)
      returns (failure: Option<Exception>, ghost loaded': seq<ChunkIndex>)
      requires -d <= x <= d
      requires worldGenerator != null && plan == Generator()
      requires Valid() && Owned == Extend(owned0, |created0|, plan, loaded) && Fresh(owned0, loaded) && AllOk(plan, loaded)
      requires host.created == created0 + Created(plan, loaded) && loadedChunks - KeySet(loaded) == entries0
      requires Covered(c, d, x, -d, entries0.Keys, loadedChunks.Keys)
      modifies this`loadedChunks, this`Repr, this`Owned, host
      ensures Valid() && Owned == Extend(owned0, |created0|, plan, loaded') && Fresh(owned0, loaded') && AllOk(plan, loaded')
      ensures loadedChunks - KeySet(loaded') == entries0
      ensures failure.None? ==> Covered(c, d, x, d + 1, entries0.Keys, loadedChunks.Keys)
      ensures failure.Some? ==>
        exists k :: InSquare(k, c, d) && k !in loadedChunks && k in plan && plan[k] == Thrown(failure.value)
      ensures old(Repr) <= Repr && fresh(Repr - old(Repr))
      ensures failure.None? ==> host.created == created0 + Created(plan, loaded')
      ensures created0 + Created(plan, loaded') <= host.created && host.destroyed == old(host.destroyed)
    {
      failure, loaded' := None, loaded;
      var z := -d;
      while z <= d
        invariant -d <= z <= d + 1
        invariant failure == None
        invariant Valid() && Owned == Extend(owned0, |created0|, plan, loaded') && Fresh(owned0, loaded') && AllOk(plan, loaded')
        invariant loadedChunks - KeySet(loaded') == entries0
        invariant Covered(c, d, x, z, entries0.Keys, loadedChunks.Keys)
        invariant old(Repr) <= Repr && fresh(Repr - old(Repr))
        invariant host.created == created0 + Created(plan, loaded') && host.destroyed == old(host.destroyed)
      {
        failure, loaded' := LoadStep(c, d, x, z, plan, owned0, created0, entries0, loaded');
        if failure.Some? {
          return;
        }
        z := z + 1;
      }
      assert z == d + 1;
    }

    /**
     * One step of `LoadRow`: load the chunk `(c.x + x, c.y + z)` unless it
     * is already present, appending it to the pass's list `loaded` when it
     * is new.
     */
    method LoadStep(c: ChunkIndex, d: int, x: int, z: int, ghost plan: Plan, ghost owned0: map<ChunkIndex, seq<Handle>>,
                    ghost created0: seq<Creation>, ghost entries0: map<ChunkIndex, ChunkData>, ghost loaded: seq<ChunkIndex>)
      returns (failure: Option<Exception>, ghost loaded': seq<ChunkIndex>)
      requires -d <= x <= d && -d <= z <= d
      requires worldGenerator != null && plan == Generator()
      requires Valid() && Owned == Extend(owned0, |created0|, plan, loaded) && Fresh(owned0, loaded) && AllOk(plan, loaded)
      requires host.created == created0 + Created(plan, loaded) && loadedChunks - KeySet(loaded) == entries0
      requires Covered(c, d, x, z, entries0.Keys, loadedChunks.Keys)
      modifies this`loadedChunks, this`Repr, this`Owned, host
      ensures Valid() && Owned == Extend(owned0, |created0|, plan, loaded') && Fresh(owned0, loaded') && AllOk(plan, loaded')
      ensures loadedChunks - KeySet(loaded') == entries0
      ensures failure.Some? ==>
        && (exists k :: InSquare(k, c, d) && k !in loadedChunks && k in plan && plan[k] == Thrown(failure.value))
        && loadedChunks == old(loadedChunks) && loaded' == loaded
      ensures failure.None? ==>
        && Covered(c, d, x, z + 1, entries0.Keys, loadedChunks.Keys)
        && host.created == created0 + Created(plan, loaded')
      ensures ChunkIndex(c.x + x, c.y + z) in old(loadedChunks) ==>
        failure.None? && loadedChunks == old(loadedChunks) && host.created == old(host.created) && loaded' == loaded
      ensures old(host.created) <= host.created && host.destroyed == old(host.destroyed)
      ensures old(Repr) <= Repr && fresh(Repr - old(Repr))
    {
      var chunkIndex := ChunkIndex(c.x + x, c.y + z);
      if chunkIndex in loadedChunks {
        failure, loaded' := None, loaded;
        CoveredStep(c, d, x, z, entries0.Keys, loadedChunks.Keys, loadedChunks.Keys);
      } else {
        failure, loaded' := LoadNew(chunkIndex, plan, owned0, created0, entries0, loaded);
        if failure.Some? {
          assert InSquare(chunkIndex, c, d);
        } else {
          CoveredStep(c, d, x, z, entries0.Keys, old(loadedChunks).Keys, loadedChunks.Keys);
        }
      }
    }

    /**
     * Generates the missing chunk `chunkIndex` and adds it, appending it to
     * the pass's list `loaded`; an exception from the generator leaves
     * everything as it was.
     */
    method LoadNew(chunkIndex: ChunkIndex, ghost plan: Plan, ghost owned0: map<ChunkIndex, seq<Handle>>,
                   ghost created0: seq<Creation>, ghost entries0: map<ChunkIndex, ChunkData>, ghost loaded: seq<ChunkIndex>)
      returns (failure: Option<Exception>, ghost loaded': seq<ChunkIndex>)
      requires chunkIndex !in loadedChunks
      requires worldGenerator != null && plan == Generator()
      requires Valid() && Owned == Extend(owned0, |created0|, plan, loaded) && Fresh(owned0, loaded) && AllOk(plan, loaded)
      requires host.created == created0 + Created(plan, loaded) && loadedChunks - KeySet(loaded) == entries0
      modifies this`loadedChunks, this`Repr, this`Owned, host
      ensures Valid() && Owned == Extend(owned0, |created0|, plan, loaded') && Fresh(owned0, loaded') && AllOk(plan, loaded')
      ensures loadedChunks - KeySet(loaded') == entries0
      ensures failure.Some? ==>
        && chunkIndex !in loadedChunks && chunkIndex in plan && plan[chunkIndex] == Thrown(failure.value)
        && loadedChunks == old(loadedChunks) && loaded' == loaded
      ensures failure.None? ==>
        && loaded' == loaded + [chunkIndex] && KeySet(loaded') == KeySet(loaded) + {chunkIndex}
        && loadedChunks == old(loadedChunks)[chunkIndex := loadedChunks[chunkIndex]] && fresh(loadedChunks[chunkIndex])
        && host.created == created0 + Created(plan, loaded')
      ensures old(host.created) <= host.created && host.destroyed == old(host.destroyed)
      ensures old(Repr) <= Repr && fresh(Repr - old(Repr))
    {
      failure, loaded' := None, loaded;
      ExtendKeys(owned0, |created0|, plan, loaded);
      assert chunkIndex !in owned0 && chunkIndex !in KeySet(loaded);
      ghost var start := |host.created|;
      assert start == |created0| + |Created(plan, loaded)|;
      failure := LoadChunk(chunkIndex);
      if failure.None? {
        ghost var records := Contents(chunkIndex).value;
        assert plan[chunkIndex] == Ok(records);
        PassSnoc(owned0, |created0|, plan, loaded, chunkIndex, records, start);
        loaded' := loaded + [chunkIndex];
        KeySetSnoc(loaded, chunkIndex);
        UpdateRemove(old(loadedChunks), KeySet(loaded), chunkIndex, loadedChunks[chunkIndex]);
        AppendAssoc(created0, Created(plan, loaded), records);
      }
    }

    /**
     * Generates the chunk and adds it under its index, unless the index is
     * already present. The generator's exception escapes before the entry
     * is added.
     */
    method LoadChunk(chunkIndex: ChunkIndex) returns (failure: Option<Exception>)
      requires Valid() && worldGenerator != null
      modifies this`loadedChunks, this`Repr, this`Owned, host
      ensures Valid()
      ensures chunkIndex in old(loadedChunks) ==>
        && failure.None? && loadedChunks == old(loadedChunks) && Owned == old(Owned)
        && host.created == old(host.created) && Repr == old(Repr)
      ensures chunkIndex !in old(loadedChunks) ==>
        && (failure.Some? <==> Contents(chunkIndex).Thrown?)
        && (failure.Some? ==>
          failure.value == Contents(chunkIndex).error && loadedChunks == old(loadedChunks) && Owned == old(Owned) && Repr == old(Repr))
        && (failure.None? ==>
          && chunkIndex in loadedChunks
          && loadedChunks == old(loadedChunks)[chunkIndex := loadedChunks[chunkIndex]]
          && fresh(loadedChunks[chunkIndex]) && Repr == old(Repr) + {loadedChunks[chunkIndex]}
          && host.created == old(host.created) + Contents(chunkIndex).value
          && loadedChunks[chunkIndex].chunkObject == Some(|old(host.created)|)
          && Intact(loadedChunks[chunkIndex], chunkIndex, Handles(|old(host.created)|, |Contents(chunkIndex).value|))
          && Owned == old(Owned)[chunkIndex := Handles(|old(host.created)|, |Contents(chunkIndex).value|)])
      ensures old(host.created) <= host.created && host.destroyed == old(host.destroyed)
      ensures old(Repr) <= Repr && fresh(Repr - old(Repr))
    {
      failure := None;
      if chunkIndex in loadedChunks {
        return;
      }
      ghost var contents := Contents(chunkIndex);
      var chunkData := worldGenerator.GenerateChunk(chunkIndex, chunkSize, host);
      assert Contents(chunkIndex) == contents;
      if chunkData.Thrown? {
        return Some(chunkData.error);
      }
      PrefixOfConcat(old(host.created), contents.value);
      loadedChunks := loadedChunks[chunkIndex := chunkData.value];
      Repr := Repr + {chunkData.value};
      Owned := Owned[chunkIndex := OwnedHandles(chunkData.value.chunkObject, chunkData.value.objects)];
      assert Contents(chunkIndex) == contents;
    }

    /**
     * Collects the keys farther than `viewDistance` (L1) from the player's
     * chunk, in the dictionary's order, then unloads them one by one.
     * `unloaded` is that list.
     */
    method UnloadDistantChunks() returns (ghost unloaded: seq<ChunkIndex>)
      requires Valid()
      modifies this`loadedChunks, this`Owned, host, Repr
      ensures Valid()
      ensures loadedChunks == old(loadedChunks) - KeySet(unloaded)
      ensures forall k :: k in loadedChunks <==> k in old(loadedChunks) && InDiamond(k, currentPlayerChunk, viewDistance)
      ensures forall k :: k in unloaded <==> k in old(loadedChunks) && !InDiamond(k, currentPlayerChunk, viewDistance)
      ensures Distinct(unloaded)
      ensures host.destroyed == old(host.destroyed) + Teardown(old(Owned), unloaded)
      ensures host.created == old(host.created)
      ensures Owned == old(Owned) - KeySet(unloaded)
      ensures forall k :: k in unloaded ==> Unloaded(old(loadedChunks)[k])
    {
      var chunksToUnload: seq<ChunkIndex> := [];
      var remaining := loadedChunks.Keys;
      while remaining != {}
        invariant remaining <= loadedChunks.Keys
        invariant forall k :: k in chunksToUnload <==>
          k in loadedChunks && k !in remaining && !InDiamond(k, currentPlayerChunk, viewDistance)
        invariant Distinct(chunksToUnload)
        decreases remaining
      {
        var k :| k in remaining;
        if ChunkDistance(k, currentPlayerChunk) > viewDistance {
          chunksToUnload := chunksToUnload + [k];
        }
        remaining := remaining - {k};
      }
      unloaded := chunksToUnload;
      UnloadKeys(chunksToUnload);
      forall k
        ensures k in KeySet(unloaded) <==> k in unloaded
      {
        KeySetMembers(unloaded, k);
      }
    }

    /**
     * Part way through unloading from the dictionary `entries`, whose
     * entries own `owned`: the keys `gone` are removed and their entries
     * unloaded; the others are untouched.
     */
    ghost predicate Unloading(entries: map<ChunkIndex, ChunkData>, owned: map<ChunkIndex, seq<Handle>>, gone: set<ChunkIndex>)
      reads this, entries.Values
    {
      && loadedChunks == entries - gone && Owned == owned - gone
      && entries.Keys == owned.Keys
      && (forall k :: k in entries && k !in gone ==> Intact(entries[k], k, owned[k]))
      && (forall k :: k in entries && k in gone ==> Unloaded(entries[k]))
    }

    /** Unloads and removes the entries under `ks`, in order, as `UnloadChunk` does one by one. */
    method UnloadKeys(ks: seq<ChunkIndex>)
      requires Valid()
      modifies this`loadedChunks, this`Owned, host, loadedChunks.Values
      ensures Valid()
      ensures loadedChunks == old(loadedChunks) - KeySet(ks)
      ensures host.destroyed == old(host.destroyed) + Teardown(old(Owned), ks)
      ensures host.created == old(host.created)
      ensures Owned == old(Owned) - KeySet(ks)
      ensures forall k :: k in old(loadedChunks) && k in KeySet(ks) ==> Unloaded(old(loadedChunks)[k])
    {
      ghost var owned, entries := Owned, loadedChunks;
      assert Unloading(entries, owned, KeySet([]));
      var i := 0;
      while i < |ks|
        invariant 0 <= i <= |ks|
        invariant Unloading(entries, owned, KeySet(ks[..i]))
        invariant host.destroyed == old(host.destroyed) + Teardown(owned, ks[..i])
        invariant host.created == old(host.created)
      {
        SliceSnoc(ks, i);
        TeardownAppend(owned, ks[..i], ks[i]);
        ghost var before := host.destroyed;
        UnloadStep(ks[i], entries, owned, KeySet(ks[..i]));
        AppendAssoc(old(host.destroyed), Teardown(owned, ks[..i]), host.destroyed[|before|..]);
        i := i + 1;
      }
      assert ks[..i] == ks;
    }

    /** `UnloadChunk` as one step of `UnloadKeys`. */
    method UnloadStep(k: ChunkIndex, ghost entries: map<ChunkIndex, ChunkData>,
                      ghost owned: map<ChunkIndex, seq<Handle>>, ghost gone: set<ChunkIndex>)
      requires Unloading(entries, owned, gone)
      modifies this`loadedChunks, this`Owned, host, EntryAt(k)
      ensures Unloading(entries, owned, gone + {k})
      ensures host.destroyed == old(host.destroyed) + (if k in owned && k !in gone then owned[k] else [])
      ensures host.created == old(host.created)
    {
      if k !in loadedChunks {
        UnloadChunk(k);
        RemoveAbsent(entries, gone, k);
        RemoveAbsent(owned, gone, k);
        return;
      }
      RemoveOneMore(entries, gone, k);
      RemoveOneMore(owned, gone, k);
      ghost var e := loadedChunks[k];
      assert Intact(e, k, owned[k]);
      UnloadChunk(k);
      forall j | j in entries && j !in gone + {k}
        ensures Intact(entries[j], j, owned[j])
      {
        assert old(entries[j].chunkIndex) == j;
      }
      forall j | j in entries && j in gone
        ensures Unloaded(entries[j])
      {
        assert old(Unloaded(entries[j]));
      }
    }

    /** Unloads and removes the entry under `chunkIndex`; nothing happens for an absent key. */
    method UnloadChunk(chunkIndex: ChunkIndex)
      modifies this`loadedChunks, this`Owned, host, EntryAt(chunkIndex)
      ensures chunkIndex !in old(loadedChunks) ==>
        loadedChunks == old(loadedChunks) && Owned == old(Owned) && host.destroyed == old(host.destroyed)
      ensures chunkIndex in old(loadedChunks) ==>
        && loadedChunks == old(loadedChunks) - {chunkIndex} && Owned == old(Owned) - {chunkIndex}
        && host.destroyed == old(host.destroyed)
           + OwnedHandles(old(loadedChunks[chunkIndex].chunkObject), old(loadedChunks[chunkIndex].objects))
        && Unloaded(old(loadedChunks)[chunkIndex])
      ensures host.created == old(host.created)
    {
      if chunkIndex !in loadedChunks {
        return;
      }
      var chunkData := loadedChunks[chunkIndex];
      chunkData.Unload(host);
      loadedChunks, Owned := loadedChunks - {chunkIndex}, Owned - {chunkIndex};
    }

    /**
     * Unloads every entry, in the dictionary's order, then empties the
     * dictionary (also what `OnDestroy` does). `cleared` is that order.
     */
    method ClearAllChunks() returns (ghost cleared: seq<ChunkIndex>)
      requires Valid()
      modifies this`loadedChunks, this`Owned, host, loadedChunks.Values
      ensures loadedChunks == map[] && Owned == map[] && Valid()
      ensures KeySet(cleared) == old(loadedChunks).Keys && Distinct(cleared)
      ensures host.destroyed == old(host.destroyed) + Teardown(old(Owned), cleared)
      ensures host.created == old(host.created)
      ensures forall k :: k in old(loadedChunks) ==> Unloaded(old(loadedChunks)[k])
    {
      ghost var owned, entries := Owned, loadedChunks;
      cleared := [];
      var remaining := loadedChunks.Keys;
      while remaining != {}
        invariant Clearing(entries, owned, remaining)
        invariant KeySet(cleared) == entries.Keys - remaining && Distinct(cleared)
        invariant host.destroyed == old(host.destroyed) + Teardown(owned, cleared)
        invariant host.created == old(host.created)
        decreases remaining
      {
        var k :| k in remaining;
        DistinctSnoc(cleared, k);
        TeardownAppend(owned, cleared, k);
        AppendAssoc(old(host.destroyed), Teardown(owned, cleared), owned[k]);
        ClearStep(k, entries, owned, remaining);
        DoneOneMore(entries.Keys, remaining, k);
        cleared := cleared + [k];
        remaining := remaining - {k};
      }
      loadedChunks, Owned := map[], map[];
    }

    /** Part way through clearing `entries`: the keys outside `remaining` are unloaded, the others untouched. */
    predicate Clearing(entries: map<ChunkIndex, ChunkData>, owned: map<ChunkIndex, seq<Handle>>, remaining: set<ChunkIndex>)
      reads this, entries.Values
    {
      && loadedChunks == entries && remaining <= entries.Keys && entries.Keys == owned.Keys
      && (forall k :: k in remaining ==> Intact(entries[k], k, owned[k]))
      && (forall k :: k in entries && k !in remaining ==> Unloaded(entries[k]))
    }

    /** `Unload` of one entry as one step of `ClearAllChunks`. */
    method ClearStep(k: ChunkIndex, ghost entries: map<ChunkIndex, ChunkData>,
                     ghost owned: map<ChunkIndex, seq<Handle>>, ghost remaining: set<ChunkIndex>)
      requires Clearing(entries, owned, remaining) && k in remaining
      modifies host, loadedChunks[k]
      ensures Clearing(entries, owned, remaining - {k})
      ensures host.destroyed == old(host.destroyed) + owned[k]
      ensures host.created == old(host.created)
    {
      assert Intact(loadedChunks[k], k, owned[k]);
      loadedChunks[k].Unload(host);
      forall j | j in remaining - {k}
        ensures Intact(entries[j], j, owned[j])
      {
        assert old(entries[j].chunkIndex) == j;
      }
      forall j | j in entries && j !in remaining && j != k
        ensures Unloaded(entries[j])
      {
        assert old(Unloaded(entries[j]));
      }
    }
  }
}
