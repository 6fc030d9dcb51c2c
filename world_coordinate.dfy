/**
 * The coordinate model: a world position splits into the index of the
 * chunk that contains it and an offset inside that chunk. Only the two
 * horizontal axes take part; the world's x-axis maps to the index's `x`
 * and the world's z-axis to the index's `y`.
 */
module WorldCoordinates {
  import opened Vectors

  /** `Vector2Int` used as a chunk key; `y` stands for the world z-axis. */
  datatype ChunkIndex = ChunkIndex(x: int, y: int)

  datatype Vector2 = Vector2(x: real, y: real)

  datatype WorldCoordinate = WorldCoordinate(chunkIndex: ChunkIndex, localPosition: Vector2)

  /** `Mathf.FloorToInt`: the greatest integer not above `r`. */
  function FloorToInt(r: real): (k: int)
    ensures k as real <= r < k as real + 1.0
  {
    r.Floor
  }

  /**
   * Splits a world position into chunk index and local offset. The offset
   * lies in [0, chunkSize) on each axis when the size is positive, also for
   * negative positions (floor, not truncation).
   */
  function FromWorldPosition(worldPos: Vector3, chunkSize: real): (w: WorldCoordinate)
    requires chunkSize != 0.0
    ensures w.chunkIndex.x as real * chunkSize + w.localPosition.x == worldPos.x
    ensures w.chunkIndex.y as real * chunkSize + w.localPosition.y == worldPos.z
    ensures chunkSize > 0.0 ==> InChunk(w.localPosition, chunkSize)
    ensures chunkSize < 0.0 ==>
      chunkSize < w.localPosition.x <= 0.0 && chunkSize < w.localPosition.y <= 0.0
  {
    var chunkX := FloorToInt(worldPos.x / chunkSize);
    var chunkZ := FloorToInt(worldPos.z / chunkSize);
    FloorOffset(worldPos.x, chunkSize);
    FloorOffset(worldPos.z, chunkSize);
    var localX := worldPos.x - chunkX as real * chunkSize;
    var localZ := worldPos.z - chunkZ as real * chunkSize;
    WorldCoordinate(ChunkIndex(chunkX, chunkZ), Vector2(localX, localZ))
  }

  /** Both components of an offset lie in [0, chunkSize). */
  predicate InChunk(local: Vector2, chunkSize: real) {
    0.0 <= local.x < chunkSize && 0.0 <= local.y < chunkSize
  }

  /**
   * The world position a coordinate denotes; the height is always 0. For a
   * positive size and an offset inside the chunk, the position lies in that
   * chunk's cell.
   */
  function ToWorldPosition(w: WorldCoordinate, chunkSize: real): (p: Vector3)
    ensures p.y == 0.0
    ensures chunkSize > 0.0 && InChunk(w.localPosition, chunkSize) ==>
      && w.chunkIndex.x as real * chunkSize <= p.x < (w.chunkIndex.x + 1) as real * chunkSize
      && w.chunkIndex.y as real * chunkSize <= p.z < (w.chunkIndex.y + 1) as real * chunkSize
  {
    Vector3(
      w.chunkIndex.x as real * chunkSize + w.localPosition.x,
      0.0,
      w.chunkIndex.y as real * chunkSize + w.localPosition.y)
  }

  /** L1 (Manhattan) distance between two chunk indices. */
  function ChunkDistance(a: ChunkIndex, b: ChunkIndex): (d: int)
    ensures d >= 0
    ensures d == 0 <==> a == b
  {
    Abs(a.x - b.x) + Abs(a.y - b.y)
  }

  function Abs(v: int): (r: int)
    ensures r >= 0 && (r == v || r == -v)
  {
    if v < 0 then -v else v
  }

  /** The remainder left by flooring `v / c` lies between 0 and `c`. */
  lemma FloorOffset(v: real, c: real)
    requires c != 0.0
    ensures c > 0.0 ==> 0.0 <= v - FloorToInt(v / c) as real * c < c
    ensures c < 0.0 ==> c < v - FloorToInt(v / c) as real * c <= 0.0
  {
    var q := v / c;
    var k := FloorToInt(q) as real;
    var t := q - k;
    assert v == q * c;
    assert v - k * c == t * c;
    assert 0.0 <= t < 1.0;
    MulSign(t, c);
    MulSign(1.0 - t, c);
    assert (1.0 - t) * c == c - t * c;
  }

  /** Sign rules for a product of reals. */
  lemma MulSign(a: real, b: real)
    ensures a >= 0.0 && b > 0.0 ==> a * b >= 0.0
    ensures a > 0.0 && b > 0.0 ==> a * b > 0.0
    ensures a >= 0.0 && b < 0.0 ==> a * b <= 0.0
    ensures a > 0.0 && b < 0.0 ==> a * b < 0.0
  {
  }

  /** Round trip position -> coordinate -> position keeps x and z and drops y. */
  lemma PositionRoundTrip(worldPos: Vector3, chunkSize: real)
    requires chunkSize != 0.0
    ensures ToWorldPosition(FromWorldPosition(worldPos, chunkSize), chunkSize)
         == Vector3(worldPos.x, 0.0, worldPos.z)
  {
  }

  /** Flooring `v / c` for `v == k * c + l` with `l` in [0, c) gives back `k`. */
  lemma FloorOfChunkStart(v: real, k: int, l: real, c: real)
    requires c > 0.0 && 0.0 <= l < c && v == k as real * c + l
    ensures FloorToInt(v / c) == k
  {
    var q := v / c;
    var t := l / c;
    assert t * c == l;
    assert q == k as real + t;
    MulSign(t, c);
    MulSign(-t, c);
    MulSign(1.0 - t, c);
    MulSign(t - 1.0, c);
    assert (1.0 - t) * c == c - l;
    assert 0.0 <= t < 1.0;
  }

  /**
   * A coordinate whose offset lies inside the chunk is the one its world
   * position converts back to: the decomposition is unique.
   */
  lemma {:induction false} CoordinateRoundTrip(w: WorldCoordinate, chunkSize: real)
    requires chunkSize > 0.0 && InChunk(w.localPosition, chunkSize)
    ensures FromWorldPosition(ToWorldPosition(w, chunkSize), chunkSize) == w
  {
    var p := ToWorldPosition(w, chunkSize);
    FloorOfChunkStart(p.x, w.chunkIndex.x, w.localPosition.x, chunkSize);
    FloorOfChunkStart(p.z, w.chunkIndex.y, w.localPosition.y, chunkSize);
  }

  /** With 50-unit chunks, the position (-1, _, -1) is offset (49, 49) in chunk (-1, -1). */
  lemma NegativePositionExample(height: real)
    ensures FromWorldPosition(Vector3(-1.0, height, -1.0), 50.0)
         == WorldCoordinate(ChunkIndex(-1, -1), Vector2(49.0, 49.0))
  {
    FloorOfChunkStart(-1.0, -1, 49.0, 50.0);
  }

  lemma DistanceSymmetric(a: ChunkIndex, b: ChunkIndex)
    ensures ChunkDistance(a, b) == ChunkDistance(b, a)
  {
  }

  lemma DistanceTriangle(a: ChunkIndex, b: ChunkIndex, c: ChunkIndex)
    ensures ChunkDistance(a, c) <= ChunkDistance(a, b) + ChunkDistance(b, c)
  {
  }
}
