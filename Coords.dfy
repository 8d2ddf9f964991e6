/**
 * World constants and the integer arithmetic that maps world coordinates to
 * chunks (World.cs, Block.cs).
 */
module Coords {

  /** Edge length of a cubic chunk, in blocks (`World.chunkSize`). */
  const ChunkSize: int := 8
  /** Drawing radius, in chunks (`World.radius`). */
  const Radius: int := 12
  /** Height of a chunk column, in chunks (`World.columnHeight`). */
  const ColumnHeight: int := 16

  /** C# integer division, which truncates toward zero (Dafny's `/` is Euclidean). */
  function TruncDiv(a: int, b: int): (q: int)
    requires b > 0
    ensures a >= 0 ==> q == a / b
    ensures a < 0 ==> q == -((-a) / b)
  {
    if a >= 0 then a / b else -((-a) / b)
  }

  /** Origin, along one axis, of the chunk holding world coordinate `p`, computed
    * as `GetWorldBlock` does: negative coordinates are first shifted down by
    * `ChunkSize - 1` so that truncation rounds toward negative infinity. The
    * result is the floor of `p / ChunkSize`, scaled back, for negative and
    * non-negative `p` alike: a lattice point at most `ChunkSize - 1` below `p`. */
  function ChunkOrigin(p: int): (o: int)
    ensures o == (p / ChunkSize) * ChunkSize
    ensures o % ChunkSize == 0 && o <= p < o + ChunkSize
  {
    if p < 0 then
      var q := (ChunkSize - 1 - p) / ChunkSize;
      assert q * ChunkSize <= ChunkSize - 1 - p < q * ChunkSize + ChunkSize;
      assert -q * ChunkSize <= p < -q * ChunkSize + ChunkSize;
      assert p / ChunkSize == -q;
      TruncDiv(p - ChunkSize + 1, ChunkSize) * ChunkSize
    else TruncDiv(p, ChunkSize) * ChunkSize
  }

  /** Any two coordinates of the same chunk get the same origin. */
  lemma SameChunkSameOrigin(p: int, c: int)
    requires c % ChunkSize == 0 && c <= p < c + ChunkSize
    ensures ChunkOrigin(p) == c
  {
    assert c == (c / ChunkSize) * ChunkSize;
    assert p / ChunkSize == c / ChunkSize;
  }

  /** Block index along one axis inside the chunk, `|p - origin|`. */
  function LocalIndex(p: int): (i: int)
    ensures 0 <= i < ChunkSize
    ensures ChunkOrigin(p) + i == p
  {
    var d := p - ChunkOrigin(p);
    if d < 0 then -d else d
  }

  /** A whole number of chunks lies on the chunk lattice. */
  lemma OnLattice(n: int)
    ensures (n * ChunkSize) % ChunkSize == 0
  {
  }

  /** A position `i` steps into the chunk at lattice point `c` has origin `c`
    * and local index `i`. */
  lemma OffsetInChunk(c: int, i: int)
    requires c % ChunkSize == 0 && 0 <= i < ChunkSize
    ensures ChunkOrigin(c + i) == c && LocalIndex(c + i) == i
  {
    SameChunkSameOrigin(c + i, c);
  }

  /** The offsets (i, j, k) into the chunk at lattice point (x, y, z). */
  lemma OffsetsInChunk(x: int, y: int, z: int, i: int, j: int, k: int)
    requires x % ChunkSize == 0 && y % ChunkSize == 0 && z % ChunkSize == 0 && InGrid(i, j, k)
    ensures ChunkOrigin(x + i) == x && ChunkOrigin(y + j) == y && ChunkOrigin(z + k) == z
    ensures LocalIndex(x + i) == i && LocalIndex(y + j) == j && LocalIndex(z + k) == k
  {
    OffsetInChunk(x, i);
    OffsetInChunk(y, j);
    OffsetInChunk(z, k);
  }

  /** `ConvertBlockIndexToLocal`: an index one chunk too low or too high is moved
    * back by one chunk; it maps [-N, 2N) onto [0, N) as `i mod N` and leaves
    * [0, N) unchanged. */
  function ConvertBlockIndexToLocal(i: int): (r: int)
    ensures -ChunkSize <= i < 2 * ChunkSize ==> 0 <= r < ChunkSize && r == i % ChunkSize
    ensures 0 <= i < ChunkSize ==> r == i
    ensures (r - i) % ChunkSize == 0
  {
    if i <= -1 then ChunkSize + i
    else if i >= ChunkSize then i - ChunkSize
    else i
  }

  /** Whether a local index triple addresses a cell of a chunk. */
  predicate InGrid(x: int, y: int, z: int)
  {
    0 <= x < ChunkSize && 0 <= y < ChunkSize && 0 <= z < ChunkSize
  }

  /** Squared Euclidean distance between two integral points. */
  function SquaredDistance(x1: int, y1: int, z1: int, x2: int, y2: int, z2: int): (d: int)
    ensures d >= 0
  {
    (x1 - x2) * (x1 - x2) + (y1 - y2) * (y1 - y2) + (z1 - z2) * (z1 - z2)
  }

  /** Manhattan distance between two chunk coordinates. */
  function Manhattan(x1: int, y1: int, z1: int, x2: int, y2: int, z2: int): (d: int)
    ensures d >= 0
    ensures d == 0 <==> (x1, y1, z1) == (x2, y2, z2)
  {
    Abs(x1 - x2) + Abs(y1 - y2) + Abs(z1 - z2)
  }

  function Abs(a: int): (r: int)
    ensures r >= 0 && (r == a || r == -a)
  {
    if a < 0 then -a else a
  }
}
