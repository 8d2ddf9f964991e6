/**
 * The voxel world as objects: blocks (Block.cs), chunks (Chunk.cs) and the
 * chunk registry (World.cs). A block knows its owning chunk and its position
 * inside it; a chunk owns an 8x8x8 grid of blocks and knows the world; the
 * world maps chunk names to chunks. Neighbour lookups cross chunk borders
 * through the registry, so the three classes share one module.
 *
 * Rendering is reduced to the list of faces a chunk emits (`Chunk.quads`),
 * saving to a map from file names to copies of the block kinds
 * (`World.files`), and the heal coroutine of a hit block to a list of pending
 * heal positions (`Chunk.pendingHeals`).
 */
module Voxel {
  import opened BlockTypes
  import opened BlockHealth
  import opened Coords
  import Names
  import opened Terrain
  import opened Streaming

  /** Number of cells in a chunk. */
  const CellCount: int := ChunkSize * ChunkSize * ChunkSize

  /** Position of cell (i, j, k) in draw order: x innermost, z outermost. */
  function CellIndex(i: int, j: int, k: int): (n: int)
    requires InGrid(i, j, k)
    ensures 0 <= n < CellCount
  {
    i + ChunkSize * (j + ChunkSize * k)
  }

  lemma CellIndexInverse(i: int, j: int, k: int)
    requires InGrid(i, j, k)
    ensures CellIndex(i, j, k) % ChunkSize == i
    ensures CellIndex(i, j, k) / ChunkSize % ChunkSize == j
    ensures CellIndex(i, j, k) / ChunkSize / ChunkSize == k
  {
  }

  /** Distinct cells have distinct positions in draw order. */
  lemma CellIndexInjective(i: int, j: int, k: int, a: int, b: int, c: int)
    requires InGrid(i, j, k) && InGrid(a, b, c) && CellIndex(i, j, k) == CellIndex(a, b, c)
    ensures (i, j, k) == (a, b, c)
  {
    CellIndexInverse(i, j, k);
    CellIndexInverse(a, b, c);
  }

  /** The cell at position `n` of the draw order. */
  function CellOf(n: int): (c: (int, int, int))
    requires 0 <= n < CellCount
    ensures InGrid(c.0, c.1, c.2) && CellIndex(c.0, c.1, c.2) == n
  {
    var row := n / ChunkSize;
    assert n == ChunkSize * row + n % ChunkSize;
    assert row == ChunkSize * (row / ChunkSize) + row % ChunkSize;
    (n % ChunkSize, row % ChunkSize, row / ChunkSize)
  }

  /** The parts joined in order. */
  function Concat<T>(parts: seq<seq<T>>): (r: seq<T>)
  {
    if parts == [] then [] else Concat(parts[..|parts| - 1]) + parts[|parts| - 1]
  }

  lemma {:induction false} ConcatMembers<T>(parts: seq<seq<T>>, e: T)
    ensures e in Concat(parts) <==> exists n | 0 <= n < |parts| :: e in parts[n]
    decreases |parts|
  {
    if parts != [] {
      var front := parts[..|parts| - 1];
      ConcatMembers(front, e);
      assert forall n | 0 <= n < |front| :: front[n] == parts[n];
    }
  }

  lemma ConcatStep<T>(parts: seq<seq<T>>, n: int)
    requires 0 <= n < |parts|
    ensures Concat(parts[..n + 1]) == Concat(parts[..n]) + parts[n]
  {
    assert parts[..n + 1][..n] == parts[..n];
  }

  datatype ChunkStatus = Draw | Done

  /** The local position next to (x, y, z) across face `side`. */
  function Adjacent(x: int, y: int, z: int, side: Side): (p: (int, int, int))
    ensures Manhattan(p.0, p.1, p.2, x, y, z) == 1
  {
    match side
    case Front => (x, y, z + 1)
    case Back => (x, y, z - 1)
    case Top => (x, y + 1, z)
    case Bottom => (x, y - 1, z)
    case Left => (x - 1, y, z)
    case Right => (x + 1, y, z)
  }

  /** The order in which `Draw` tries the sides. */
  const DrawOrder: seq<Side> := [Front, Back, Top, Bottom, Left, Right]

  class Block {
    var blockType: BlockType
    var isSolid: bool
    var isWater: bool
    /** The crack stage, as an enum value (NOCRACK = 6). */
    var health: int
    var currentHealth: int
    /** Position inside the owning chunk. */
    const x: int
    const y: int
    const z: int
    const owner: Chunk

    function State(): BlockState
      reads this
    {
      BlockState(blockType, isSolid, isWater, health, currentHealth)
    }

    /** `new Block(b, pos, parent, o)`: the fields start at their C# defaults
      * (`isWater` false) and `SetType(b)` runs. */
    constructor (b: BlockType, px: int, py: int, pz: int, o: Chunk)
      ensures x == px && y == py && z == pz && owner == o
      ensures State() == SetTypeState(BlockState(b, false, false, 0, 0), b,
                                       b == Sand && old(o.HasAnyWaterNeighbour(px, py, pz)))
    {
      blockType, isSolid, isWater, health, currentHealth := b, false, false, 0, 0;
      x, y, z, owner := px, py, pz, o;
      new;
      assert o.Cells() == old(o.Cells()) && o.world.Grids() == old(o.world.Grids());
      assert o.world.AllCells() == old(o.world.AllCells());
      SetType(b);
    }

    /** Sets the kind and the derived flags; sand next to water becomes grass;
      * the cracks and the health are reset. */
    method SetType(b: BlockType)
      modifies this
      ensures State() == SetTypeState(old(State()), b, b == Sand && old(owner.HasAnyWaterNeighbour(x, y, z)))
    {
      // The neighbour test reads other blocks only, so it is taken first.
      var nearWater := b == Sand && owner.HasAnyWaterNeighbour(x, y, z);
      blockType := b;
      if blockType == Water {
        isWater := true;
      }
      isSolid := !(blockType == Air || blockType == Water);
      if blockType == Sand {
        if nearWater {
          blockType := Grass;
        }
      }
      health := NoCrackStage;
      currentHealth := HealthMax(blockType);
    }

    /** Restores the health, keeps the kind, and redraws the owning chunk. */
    method Reset()
      requires owner.Complete()
      modifies this`health, this`currentHealth, owner`quads, owner`status
      ensures State() == ResetState(old(State()))
      ensures owner.quads == owner.Mesh() && owner.status == Done
    {
      health := NoCrackStage;
      currentHealth := HealthMax(blockType);
      owner.DrawChunk();
    }

    /** Places a block of kind `b` here (the cell was air or water) and redraws
      * the owning chunk; always reports success. */
    method BuildBlock(b: BlockType) returns (built: bool)
      requires owner.Complete()
      modifies this, owner`quads, owner`status
      ensures State() == SetTypeState(old(State()), b, b == Sand && old(owner.HasAnyWaterNeighbour(x, y, z)))
      ensures owner.quads == owner.Mesh() && owner.status == Done
      ensures built
    {
      SetType(b);
      owner.DrawChunk();
      built := true;
    }

    /** One hit: a block at health -1 ignores it; otherwise the health drops
      * and the crack stage advances, the first hit on a block schedules a
      * heal at its position, a block left with no health becomes air, and
      * the owning chunk is redrawn. Reports whether the block was destroyed. */
    method HitBlock() returns (destroyed: bool)
      requires owner.Complete()
      modifies this, owner`quads, owner`status, owner`pendingHeals
      ensures var h := Hit(old(State()));
        && State() == h.after && destroyed == h.destroyed
        && owner.pendingHeals == old(owner.pendingHeals) + (if h.healScheduled then [(x, y, z)] else [])
      ensures old(currentHealth) == -1 ==> owner.quads == old(owner.quads) && owner.status == old(owner.status)
      ensures old(currentHealth) != -1 ==> owner.quads == owner.Mesh() && owner.status == Done
    {
      if currentHealth == -1 {
        return false;
      }
      currentHealth := currentHealth - 1;
      health := health + 1;
      if currentHealth == HealthMax(blockType) - 1 {
        owner.pendingHeals := owner.pendingHeals + [(x, y, z)];
      }
      if currentHealth <= 0 {
        blockType := Air;
        isSolid := false;
        health := NoCrackStage;
        owner.DrawChunk();
        return true;
      }
      owner.DrawChunk();
      return false;
    }

    /** Whether the neighbour at local index (i, j, k) hides the face towards
      * it: it exists and is solid or of this block's kind. */
    function HasSolidNeighbour(i: int, j: int, k: int): (r: bool)
      reads this`blockType, owner.chunkData, owner.world`chunks, set c | c in owner.world.chunks.Values :: c.chunkData
      reads owner.Cells()`isSolid, owner.Cells()`blockType
      reads owner.world.AllCells()`isSolid, owner.world.AllCells()`blockType
      ensures r <==> owner.GetBlock(i, j, k) != null
                     && (owner.GetBlock(i, j, k).isSolid || owner.GetBlock(i, j, k).blockType == blockType)
    {
      var b := owner.GetBlock(i, j, k);
      b != null && (b.isSolid || b.blockType == blockType)
    }

    /** The face of this block on side `side`. */
    function Face(side: Side): (q: Quad)
      reads this`blockType, this`health
      ensures q.side == side && (q.x, q.y, q.z) == (x, y, z)
    {
      Quad(x, y, z, side, UvRow(blockType, side), OverlayRow(health), blockType == Water)
    }

    /** Whether the face on side `side` is hidden by its neighbour. */
    function Culled(side: Side): (r: bool)
      reads this`blockType, owner.chunkData, owner.world`chunks, set c | c in owner.world.chunks.Values :: c.chunkData
      reads owner.Cells()`isSolid, owner.Cells()`blockType
      reads owner.world.AllCells()`isSolid, owner.world.AllCells()`blockType
    {
      var p := Adjacent(x, y, z, side);
      HasSolidNeighbour(p.0, p.1, p.2)
    }

    /** The faces on the given sides that are not culled, in the order given. */
    function FacesOf(sides: seq<Side>): (r: seq<Quad>)
      reads this`blockType, this`health, owner.chunkData, owner.world`chunks, set c | c in owner.world.chunks.Values :: c.chunkData
      reads owner.Cells()`isSolid, owner.Cells()`blockType
      reads owner.world.AllCells()`isSolid, owner.world.AllCells()`blockType
      ensures |r| <= |sides|
    {
      if sides == [] then []
      else (if Culled(sides[0]) then [] else [Face(sides[0])]) + FacesOf(sides[1..])
    }

    /** The faces `Draw` creates, in the order front, back, top, bottom, left,
      * right: none for air, otherwise one for every neighbour that does not
      * hide it (`DrawnFaces`). */
    function Draw(): (r: seq<Quad>)
      reads this`blockType, this`health, owner.chunkData, owner.world`chunks, set c | c in owner.world.chunks.Values :: c.chunkData
      reads owner.Cells()`isSolid, owner.Cells()`blockType
      reads owner.world.AllCells()`isSolid, owner.world.AllCells()`blockType
      ensures blockType == Air ==> r == []
      ensures |r| <= 6
    {
      if blockType == Air then [] else FacesOf(DrawOrder)
    }

    lemma {:induction false} FacesOfMembers(sides: seq<Side>, side: Side)
      ensures Face(side) in FacesOf(sides) <==> side in sides && !Culled(side)
      ensures forall q | q in FacesOf(sides) :: q == Face(q.side)
      decreases |sides|
    {
      if sides != [] {
        FacesOfMembers(sides[1..], side);
        assert sides == [sides[0]] + sides[1..];
      }
    }

    /** Face culling: a block draws its face on side `side` exactly when it is
      * not air and the neighbour across that side is missing, or neither solid
      * nor of the same kind; and every face it draws is its own face. */
    lemma DrawnFaces(side: Side)
      ensures Face(side) in Draw() <==> blockType != Air && !Culled(side)
      ensures forall q | q in Draw() :: q == Face(q.side)
    {
      FacesOfMembers(DrawOrder, side);
    }
  }

  class Chunk {
    /** The chunk's origin in world coordinates (`chunk.transform.position`). */
    const ox: int
    const oy: int
    const oz: int
    const world: World
    const chunkData: array3<Block?>
    var status: ChunkStatus
    /** The faces of the last draw. */
    var quads: seq<Quad>
    /** Positions whose heal coroutine was started by a hit. */
    var pendingHeals: seq<(int, int, int)>

    /** `new Chunk(position, ...)`: the chunk builds its grid at once, before
      * the world registers it; building may green blocks of registered
      * chunks next to the water it places. */
    constructor (px: int, py: int, pz: int, w: World)
      modifies w.AllCells()
      ensures ox == px && oy == py && oz == pz && world == w
      ensures Complete() && Settled() && status == Draw && quads == [] && pendingHeals == []
      ensures fresh(chunkData) && forall i, j, k | InGrid(i, j, k) :: fresh(chunkData[i, j, k])
      ensures forall b: Block | old(allocated(b)) :: GreenedState(old(b.State()), b.State())
    {
      ox, oy, oz, world := px, py, pz, w;
      chunkData := new Block?[ChunkSize, ChunkSize, ChunkSize]((i, j, k) => null);
      status, quads, pendingHeals := Draw, [], [];
      new;
      BuildChunk();
    }

    /** `BuildChunkFileName`: the save file of this chunk. */
    function FileName(): string
    {
      Names.ChunkFileName(world.dataPath, ox, oy, oz, ChunkSize, Radius)
    }

    /** `Save`: the block kinds are copied into a `BlockData` written to the
      * chunk's save file; no other file changes. */
    method Save()
      requires Complete()
      modifies world`files
      ensures FileName() in world.files && fresh(world.files[FileName()])
      ensures world.files == old(world.files)[FileName() := world.files[FileName()]]
      ensures world.files[FileName()].Copies(chunkData)
    {
      var bd := new BlockData(chunkData);
      world.files := world.files[FileName() := bd];
    }

    /** The grid has the chunk's size along each axis. */
    predicate Shaped()
    {
      chunkData.Length0 == ChunkSize && chunkData.Length1 == ChunkSize && chunkData.Length2 == ChunkSize
    }

    /** The blocks in the grid. */
    ghost function Cells(): set<Block>
      reads chunkData
    {
      set i, j, k | 0 <= i < chunkData.Length0 && 0 <= j < chunkData.Length1 && 0 <= k < chunkData.Length2
                    && chunkData[i, j, k] != null :: chunkData[i, j, k]
    }

    /** Every block in the grid belongs to this chunk and knows its index. */
    ghost predicate Placed()
      reads chunkData
    {
      forall i, j, k | 0 <= i < chunkData.Length0 && 0 <= j < chunkData.Length1 && 0 <= k < chunkData.Length2
                       && chunkData[i, j, k] != null ::
        chunkData[i, j, k].owner == this && chunkData[i, j, k].x == i
        && chunkData[i, j, k].y == j && chunkData[i, j, k].z == k
    }

    /** A built chunk: every cell of the grid holds its block. */
    ghost predicate Complete()
      reads chunkData
    {
      Shaped() && Placed() && forall i, j, k | InGrid(i, j, k) :: chunkData[i, j, k] != null
    }

    /** `GetBlock(i, j, k)` of a block of this chunk: the grid cell for an index
      * inside the chunk, otherwise the block at the world position
      * origin + (i, j, k), if its chunk is registered. */
    function GetBlock(i: int, j: int, k: int): (r: Block?)
      reads chunkData, world`chunks, set c | c in world.chunks.Values :: c.chunkData
      ensures InGrid(i, j, k) && Shaped() ==> r == chunkData[i, j, k]
      ensures !InGrid(i, j, k) ==> r == world.GetWorldBlock(ox + i, oy + j, oz + k)
      ensures r != null ==> (InGrid(i, j, k) ==> r in Cells()) && (!InGrid(i, j, k) ==> r in world.AllCells())
    {
      if !InGrid(i, j, k) then world.GetWorldBlock(ox + i, oy + j, oz + k)
      else if Shaped() then chunkData[i, j, k]
      else null
    }

    /** The kind of the block at (i, j, k); a missing block reads as air. */
    function GetBlockType(i: int, j: int, k: int): (t: BlockType)
      reads chunkData, world`chunks, set c | c in world.chunks.Values :: c.chunkData, Cells()`blockType, world.AllCells()`blockType
      ensures GetBlock(i, j, k) == null ==> t == Air
      ensures GetBlock(i, j, k) != null ==> t == GetBlock(i, j, k).blockType
    {
      var b := GetBlock(i, j, k);
      if b == null then Air else b.blockType
    }

    /** Whether the block at (i, j, k) exists and has ever held water. */
    function HasWaterNeighbour(i: int, j: int, k: int): (r: bool)
      reads chunkData, world`chunks, set c | c in world.chunks.Values :: c.chunkData, Cells()`isWater, world.AllCells()`isWater
      ensures r <==> GetBlock(i, j, k) != null && GetBlock(i, j, k).isWater
    {
      var b := GetBlock(i, j, k);
      b != null && b.isWater
    }

    /** `hasAnyWaterNeighbour` of the block at (i, j, k): one of its six face
      * neighbours, tried in the order z+1, z-1, y+1, y-1, x-1, x+1, has held
      * water. */
    function HasAnyWaterNeighbour(i: int, j: int, k: int): (r: bool)
      reads chunkData, world`chunks, set c | c in world.chunks.Values :: c.chunkData, Cells()`isWater, world.AllCells()`isWater
      ensures r <==> exists side: Side :: var p := Adjacent(i, j, k, side); HasWaterNeighbour(p.0, p.1, p.2)
    {
      assert Adjacent(i, j, k, Front) == (i, j, k + 1) && Adjacent(i, j, k, Back) == (i, j, k - 1);
      assert Adjacent(i, j, k, Top) == (i, j + 1, k) && Adjacent(i, j, k, Bottom) == (i, j - 1, k);
      assert Adjacent(i, j, k, Left) == (i - 1, j, k) && Adjacent(i, j, k, Right) == (i + 1, j, k);
      HasWaterNeighbour(i, j, k + 1) || HasWaterNeighbour(i, j, k - 1)
      || HasWaterNeighbour(i, j + 1, k) || HasWaterNeighbour(i, j - 1, k)
      || HasWaterNeighbour(i - 1, j, k) || HasWaterNeighbour(i + 1, j, k)
    }

    /** The faces of one cell. */
    ghost function CellQuads(i: int, j: int, k: int): seq<Quad>
      requires Complete() && InGrid(i, j, k)
      reads chunkData, world`chunks, set c | c in world.chunks.Values :: c.chunkData, Cells(), world.AllCells()
    {
      chunkData[i, j, k].Draw()
    }

    /** The faces of the first `n` cells in draw order. */
    ghost function CellFaces(n: nat): (t: seq<seq<Quad>>)
      requires Complete() && n <= CellCount
      reads chunkData, world`chunks, set c | c in world.chunks.Values :: c.chunkData, Cells(), world.AllCells()
      ensures |t| == n
    {
      if n == 0 then []
      else
        var c := CellOf(n - 1);
        CellFaces(n - 1) + [CellQuads(c.0, c.1, c.2)]
    }

    lemma {:induction false} CellFacesAt(n: nat, i: int, j: int, k: int)
      requires Complete() && n <= CellCount && InGrid(i, j, k) && CellIndex(i, j, k) < n
      ensures CellFaces(n)[CellIndex(i, j, k)] == CellQuads(i, j, k)
      decreases n
    {
      CellIndexInverse(i, j, k);
      if CellIndex(i, j, k) < n - 1 {
        CellFacesAt(n - 1, i, j, k);
      }
    }

    /** The chunk's mesh: the faces of all cells, z outermost and x innermost. */
    ghost function Mesh(): seq<Quad>
      requires Complete()
      reads chunkData, world`chunks, set c | c in world.chunks.Values :: c.chunkData, Cells(), world.AllCells()
    {
      Concat(CellFaces(CellCount))
    }

    /** The mesh holds exactly the faces the cells draw. */
    lemma MeshMembers(q: Quad)
      requires Complete()
      ensures q in Mesh() <==> exists i, j, k | InGrid(i, j, k) :: q in CellQuads(i, j, k)
    {
      var t := CellFaces(CellCount);
      ConcatMembers(t, q);
      if q in Mesh() {
        var n :| 0 <= n < |t| && q in t[n];
        var c := CellOf(n);
        CellFacesAt(CellCount, c.0, c.1, c.2);
        assert q in CellQuads(c.0, c.1, c.2);
      } else {
        forall i, j, k | InGrid(i, j, k) ensures q !in CellQuads(i, j, k) {
          CellFacesAt(CellCount, i, j, k);
        }
      }
    }

    /** The draw loop of `DrawChunk`: every cell draws its faces, z outermost
      * and x innermost. */
    method DrawCells() returns (drawn: seq<Quad>)
      requires Complete()
      ensures drawn == Mesh()
    {
      drawn := [];
      ghost var n := 0;
      for k := 0 to ChunkSize
        invariant n == k * ChunkSize * ChunkSize
        invariant drawn == Concat(CellFaces(CellCount)[..n])
      {
        for j := 0 to ChunkSize
          invariant n == (k * ChunkSize + j) * ChunkSize
          invariant drawn == Concat(CellFaces(CellCount)[..n])
        {
          for i := 0 to ChunkSize
            invariant n == CellIndex(0, j, k) + i
            invariant drawn == Concat(CellFaces(CellCount)[..n])
          {
            CellFacesAt(CellCount, i, j, k);
            ConcatStep(CellFaces(CellCount), n);
            drawn := drawn + chunkData[i, j, k].Draw();
            n := n + 1;
          }
        }
      }
      assert CellFaces(CellCount)[..CellCount] == CellFaces(CellCount);
    }

    /** Draws every cell, combines the faces into the chunk's mesh and moves
      * the chunk from DRAW to DONE. */
    method DrawChunk()
      requires Complete()
      modifies this`quads, this`status
      ensures quads == Mesh() && status == Done
    {
      var drawn := DrawCells();
      quads, status := drawn, Done;
      assert Cells() == old(Cells()) && world.Grids() == old(world.Grids());
      assert world.AllCells() == old(world.AllCells());
    }

    /** Cell (i, j, k) holds a block of this chunk, placed at that index, whose
      * kind settles the planned kind `plan`. */
    ghost predicate Holds(i: int, j: int, k: int, plan: BlockType)
      requires Shaped() && InGrid(i, j, k)
      reads chunkData, Cells()`blockType
    {
      var b := chunkData[i, j, k];
      b != null && b.owner == this && b.x == i && b.y == j && b.z == k && Settles(plan, b.blockType)
    }

    /** What a rule chain has left in cell (i, j, k): nothing yet, or a block
      * settling the chain's result. */
    ghost predicate CellIs(i: int, j: int, k: int, plan: Option<BlockType>)
      requires Shaped() && InGrid(i, j, k)
      reads chunkData, Cells()`blockType
    {
      if plan.None? then chunkData[i, j, k] == null else Holds(i, j, k, plan.value)
    }

    /** `chunkData[x, y, z] = new Block(b, pos, ...)`: a new block of kind `b`
      * replaces the cell; sand next to water becomes grass. */
    method Place(i: int, j: int, k: int, b: BlockType) returns (blk: Block)
      requires Shaped() && InGrid(i, j, k)
      modifies chunkData
      ensures fresh(blk) && chunkData[i, j, k] == blk
      ensures blk.owner == this && blk.x == i && blk.y == j && blk.z == k
      ensures old(Placed()) ==> Placed()
      ensures b != Sand ==> blk.State() == SetTypeState(BlockState(b, false, false, 0, 0), b, false)
      ensures b == Sand ==> blk.State() == SetTypeState(BlockState(b, false, false, 0, 0), b, old(HasAnyWaterNeighbour(i, j, k)))
      ensures forall a, c, d | InGrid(a, c, d) && (a, c, d) != (i, j, k) :: chunkData[a, c, d] == old(chunkData[a, c, d])
    {
      blk := new Block(b, i, j, k, this);
      chunkData[i, j, k] := blk;
    }

    /** `setSand`. */
    method SetSand(i: int, j: int, k: int)
      requires Shaped() && InGrid(i, j, k)
      modifies chunkData
      ensures chunkData[i, j, k] != null && fresh(chunkData[i, j, k])
      ensures Holds(i, j, k, Sand)
      ensures chunkData[i, j, k].blockType == (if old(HasAnyWaterNeighbour(i, j, k)) then Grass else Sand)
      ensures forall a, c, d | InGrid(a, c, d) && (a, c, d) != (i, j, k) :: chunkData[a, c, d] == old(chunkData[a, c, d])
    {
      var blk := Place(i, j, k, Sand);
    }

    /** `setAir`. */
    method SetAir(i: int, j: int, k: int)
      requires Shaped() && InGrid(i, j, k)
      modifies chunkData
      ensures chunkData[i, j, k] != null && fresh(chunkData[i, j, k])
      ensures Holds(i, j, k, Air) && chunkData[i, j, k].blockType == Air
      ensures forall a, c, d | InGrid(a, c, d) && (a, c, d) != (i, j, k) :: chunkData[a, c, d] == old(chunkData[a, c, d])
    {
      var blk := Place(i, j, k, Air);
    }

    /** One of the four cells beside (i, j, k) in the x-z plane, tried in the
      * order x-1, z-1, x+1, z+1, holds a cactus base. */
    function BaseBeside(i: int, j: int, k: int): bool
      reads chunkData, world`chunks, set c | c in world.chunks.Values :: c.chunkData, Cells()`blockType, world.AllCells()`blockType
    {
      || GetBlockType(i - 1, j, k) == CactusBase || GetBlockType(i, j, k - 1) == CactusBase
      || GetBlockType(i + 1, j, k) == CactusBase || GetBlockType(i, j, k + 1) == CactusBase
    }

    /** `setCactus` at height `h` above the surface: a cactus base at the
      * surface; above it a cactus, which turns to sand (grass next to water)
      * when a cactus base lies beside the column's surface cell. */
    method SetCactus(i: int, j: int, k: int, h: int)
      requires Shaped() && InGrid(i, j, k)
      modifies chunkData
      ensures chunkData[i, j, k] != null && fresh(chunkData[i, j, k])
      ensures Holds(i, j, k, if h == 0 then CactusBase else Cactus)
      ensures h == 0 ==> chunkData[i, j, k].blockType == CactusBase
      ensures h != 0 && !old(BaseBeside(i, j - h, k)) ==> chunkData[i, j, k].blockType == Cactus
      ensures h != 0 && old(BaseBeside(i, j - h, k)) ==>
                chunkData[i, j, k].blockType == (if HasAnyWaterNeighbour(i, j, k) then Grass else Sand)
      ensures forall a, c, d | InGrid(a, c, d) && (a, c, d) != (i, j, k) :: chunkData[a, c, d] == old(chunkData[a, c, d])
    {
      if h == 0 {
        var blk := Place(i, j, k, CactusBase);
      } else {
        // The four tests read cells beside the column, never (i, j, k)
        // itself, so they are taken before the cactus is placed.
        var left := GetBlockType(i - 1, j - h, k) == CactusBase;
        var back := GetBlockType(i, j - h, k - 1) == CactusBase;
        var right := GetBlockType(i + 1, j - h, k) == CactusBase;
        var front := GetBlockType(i, j - h, k + 1) == CactusBase;
        var blk := Place(i, j, k, Cactus);
        if left {
          TurnToSand(blk);
        }
        if back {
          TurnToSand(blk);
        }
        if right {
          TurnToSand(blk);
        }
        if front {
          TurnToSand(blk);
        }
      }
    }

    /** `SetType(SAND)` on a block of this chunk: it becomes sand, or grass
      * when its cell has a water neighbour; since the kind is not water, no
      * water test changes. */
    method TurnToSand(blk: Block)
      requires blk.owner == this
      modifies blk
      ensures blk.State() == SetTypeState(old(blk.State()), Sand, HasAnyWaterNeighbour(blk.x, blk.y, blk.z))
      ensures blk.blockType == (if HasAnyWaterNeighbour(blk.x, blk.y, blk.z) then Grass else Sand)
      ensures HasAnyWaterNeighbour(blk.x, blk.y, blk.z) == old(HasAnyWaterNeighbour(blk.x, blk.y, blk.z))
    {
      blk.SetType(Sand);
      assert blk.isWater == old(blk.isWater);
      assert HasAnyWaterNeighbour(blk.x, blk.y, blk.z) == old(HasAnyWaterNeighbour(blk.x, blk.y, blk.z));
    }

    /** One neighbour test of `setWater`, on the block found at the
      * neighbour's position: sand or a cactus base is set to grass. */
    static method GreenBlock(b: Block?)
      modifies b
      ensures forall n: Block | old(allocated(n)) :: GreenedState(old(n.State()), n.State())
      ensures b != null && old(b.blockType) in {Sand, CactusBase} ==> b.blockType == Grass
    {
      if b != null && (b.blockType == Sand || b.blockType == CactusBase) {
        b.SetType(Grass);
      }
    }

    /** Three consecutive neighbour tests of `setWater`. */
    static method GreenThree(b0: Block?, b1: Block?, b2: Block?)
      modifies b0, b1, b2
      ensures forall n: Block | old(allocated(n)) :: GreenedState(old(n.State()), n.State())
      ensures forall n: Block? | n in [b0, b1, b2] && n != null && old(n.blockType) in {Sand, CactusBase} ::
                n.blockType == Grass
    {
      label L1:
      GreenBlock(b0);
      label L2:
      GreenBlock(b1);
      label L3:
      GreenBlock(b2);
      forall n: Block | old(allocated(n)) ensures GreenedState(old(n.State()), n.State()) {
        GreenedStateTransitive(old(n.State()), old@L2(n.State()), old@L3(n.State()));
        GreenedStateTransitive(old(n.State()), old@L3(n.State()), n.State());
      }
      forall n: Block? | n in [b0, b1, b2] && n != null && old(n.blockType) in {Sand, CactusBase}
        ensures n.blockType == Grass
      {
        assert GreenedState(old@L2(n.State()), old@L3(n.State()));
        assert GreenedState(old@L3(n.State()), n.State());
        if n == b0 {
          assert old@L2(n.State()).blockType == Grass;
        } else if n == b1 {
          assert old@L3(n.State()).blockType == Grass;
        }
      }
    }

    /** The six neighbour tests of `setWater`, on the blocks `ns` found at
      * x-1, y-1, z-1, x+1, y+1 and z+1: sand and cactus bases among them turn
      * to grass, and no other block changes. */
    static method GreenBlocks(ns: seq<Block?>)
      requires |ns| == 6
      modifies set n: Block | n in ns
      ensures forall n: Block | old(allocated(n)) :: GreenedState(old(n.State()), n.State())
      ensures forall n: Block? | n in ns && n != null && old(n.blockType) in {Sand, CactusBase} :: n.blockType == Grass
      ensures forall n: Block | old(allocated(n)) && n !in ns :: n.State() == old(n.State())
    {
      assert ns == [ns[0], ns[1], ns[2], ns[3], ns[4], ns[5]];
      GreenThree(ns[0], ns[1], ns[2]);
      label Lower:
      GreenThree(ns[3], ns[4], ns[5]);
      forall n: Block | old(allocated(n)) ensures GreenedState(old(n.State()), n.State()) {
        GreenedStateTransitive(old(n.State()), old@Lower(n.State()), n.State());
      }
      forall n: Block? | n in ns && n != null && old(n.blockType) in {Sand, CactusBase}
        ensures n.blockType == Grass
      {
        assert GreenedState(old@Lower(n.State()), n.State());
        if n in ns[..3] {
          assert old@Lower(n.State()).blockType == Grass;
        }
      }
    }

    /** `setWater`: a water block fills the cell, then sand and cactus bases
      * among the face neighbours x-1, y-1, z-1, x+1, y+1, z+1 turn to grass,
      * in this chunk or across its border. */
    method SetWater(i: int, j: int, k: int)
      requires Shaped() && Placed() && InGrid(i, j, k)
      modifies chunkData, Cells(), world.AllCells()
      ensures chunkData[i, j, k] != null && fresh(chunkData[i, j, k])
      ensures Holds(i, j, k, Water) && chunkData[i, j, k].blockType == Water
      ensures forall a, c, d | InGrid(a, c, d) && (a, c, d) != (i, j, k) :: chunkData[a, c, d] == old(chunkData[a, c, d])
      ensures forall b: Block | old(allocated(b)) :: GreenedState(old(b.State()), b.State())
      ensures forall n: Block? | n in old(Neighbours(i, j, k)) && n != null && old(n.blockType) in {Sand, CactusBase} ::
                n.blockType == Grass
      ensures forall b: Block | old(allocated(b)) && b !in old(Neighbours(i, j, k)) :: b.State() == old(b.State())
    {
      // The neighbour lookups read only other cells of the grids, which
      // placing the water block leaves as they are, so they are taken first.
      var ns := Neighbours(i, j, k);
      var blk := Place(i, j, k, Water);
      assert blk !in ns;
      GreenBlocks(ns);
      assert chunkData[i, j, k] == blk && blk.blockType == Water;
    }

    /** The first rule of `BuildChunk` on an empty cell: bedrock at height
      * 100, otherwise sand on the column's surface. */
    method BedrockStep(i: int, j: int, k: int)
      requires Shaped() && Placed() && InGrid(i, j, k) && chunkData[i, j, k] == null
      modifies chunkData
      ensures Placed() && CellIs(i, j, k, BedrockRule(world.terrain, ox + i, oy + j, oz + k))
      ensures forall b | b in Cells() :: b in old(Cells()) || fresh(b)
      ensures forall a, c, d | InGrid(a, c, d) && (a, c, d) != (i, j, k) :: chunkData[a, c, d] == old(chunkData[a, c, d])
      ensures chunkData[i, j, k] == old(chunkData[i, j, k]) || fresh(chunkData[i, j, k])
    {
      var wy := oy + j;
      if wy == BedrockLevel {
        var blk := Place(i, j, k, Bedrock);
      } else if wy == world.terrain.height(ox + i, oz + k) {
        SetSand(i, j, k);
      }
    }

    /** The second rule of `BuildChunk`, on a cell the first rule left as
      * `below`: cacti in the cactus band, sand up to the surface, water under
      * the water level, air above. */
    method TerrainStep(i: int, j: int, k: int, ghost below: Option<BlockType>)
      requires Shaped() && Placed() && InGrid(i, j, k)
      requires CellIs(i, j, k, below)
      modifies chunkData, Cells(), world.AllCells()
      ensures Placed() && CellIs(i, j, k, TerrainRule(world.terrain, ox + i, oy + j, oz + k, below))
      ensures forall a, c, d | InGrid(a, c, d) && (a, c, d) != (i, j, k) :: chunkData[a, c, d] == old(chunkData[a, c, d])
      ensures forall b: Block | old(allocated(b)) :: GreenedState(old(b.State()), b.State())
      ensures chunkData[i, j, k] == old(chunkData[i, j, k]) || fresh(chunkData[i, j, k])
    {
      var t := world.terrain;
      var wx, wy, wz := ox + i, oy + j, oz + k;
      var s := t.height(wx, wz);
      if InCactusBand(s) && wy == s {
        if t.cactusNoise(wx, wy, wz) {
          SetCactus(i, j, k, 0);
        }
      } else if InCactusBand(s) && wy == s + 1 {
        if t.cactusNoise(wx, wy - 1, wz) {
          SetCactus(i, j, k, 1);
        } else {
          SetAir(i, j, k);
        }
      } else if InCactusBand(s) && wy == s + 2 {
        if t.cactusNoise(wx, wy - 2, wz) && t.cactusTopNoise(wx, wy - 2, wz) {
          SetCactus(i, j, k, 2);
        } else {
          SetAir(i, j, k);
        }
      } else if wy <= s {
        SetSand(i, j, k);
      } else if wy < t.waterLevel {
        SetWater(i, j, k);
      } else {
        SetAir(i, j, k);
      }
    }

    /** The third rule of `BuildChunk`: the sign post in the sign column. */
    method SignPostStep(i: int, j: int, k: int, ghost below: Option<BlockType>)
      requires Shaped() && Placed() && InGrid(i, j, k) && CellIs(i, j, k, below)
      modifies chunkData
      ensures Placed() && CellIs(i, j, k, SignPostRule(world.terrain, ox + i, oy + j, oz + k, below))
      ensures forall a, c, d | InGrid(a, c, d) && (a, c, d) != (i, j, k) :: chunkData[a, c, d] == old(chunkData[a, c, d])
      ensures chunkData[i, j, k] == old(chunkData[i, j, k]) || fresh(chunkData[i, j, k])
    {
      var t := world.terrain;
      var wx, wy, wz := ox + i, oy + j, oz + k;
      var s := t.height(wx, wz);
      if wy <= s + 1 && wx == t.signX && wz == t.signZ {
        var blk := Place(i, j, k, SignBase);
      } else if wy == s + 2 && wx == t.signX && wz == t.signZ {
        var blk := Place(i, j, k, SignBase);
      } else if wy == s + 3 && wx == t.signX && wz == t.signZ {
        var blk := Place(i, j, k, SignMiddle);
      }
    }

    /** The fourth rule of `BuildChunk`: the sign boards, and air or HELGE
      * blocks around the sign. */
    method SignSurroundStep(i: int, j: int, k: int, ghost below: Option<BlockType>)
      requires Shaped() && Placed() && InGrid(i, j, k) && CellIs(i, j, k, below)
      modifies chunkData
      ensures Placed() && CellIs(i, j, k, SignSurroundRule(world.terrain, ox + i, oy + j, oz + k, below))
      ensures forall a, c, d | InGrid(a, c, d) && (a, c, d) != (i, j, k) :: chunkData[a, c, d] == old(chunkData[a, c, d])
      ensures chunkData[i, j, k] == old(chunkData[i, j, k]) || fresh(chunkData[i, j, k])
    {
      var t := world.terrain;
      var wx, wy, wz := ox + i, oy + j, oz + k;
      var s := t.height(wx, wz);
      var signHeight := t.height(t.signX, t.signZ);
      ghost var rule := SignSurroundRule(t, wx, wy, wz, below);
      if wy == t.height(wx + 1, wz) + 3 && wx == t.signX - 1 && wz == t.signZ {
        var blk := Place(i, j, k, SignLeft);
      } else if wy == t.height(wx - 1, wz) + 3 && wx == t.signX + 1 && wz == t.signZ {
        var blk := Place(i, j, k, SignRight);
      } else if (wx != t.signX || wz != t.signZ) && NearSign(t, wx, wz) {
        if wy > signHeight {
          var blk := Place(i, j, k, Air);
        } else if wy <= s && wy <= signHeight {
          var blk := Place(i, j, k, Helge);
        } else {
          assert rule == below;
        }
      } else {
        assert rule == below;
      }
    }

    /** The first two rules of `BuildChunk` on an empty cell. */
    method GroundSteps(i: int, j: int, k: int)
      requires Shaped() && Placed() && InGrid(i, j, k)
      requires chunkData[i, j, k] == null
      modifies chunkData, Cells(), world.AllCells()
      ensures Placed()
      ensures var t := world.terrain;
        CellIs(i, j, k, TerrainRule(t, ox + i, oy + j, oz + k, BedrockRule(t, ox + i, oy + j, oz + k)))
      ensures forall a, c, d | InGrid(a, c, d) && (a, c, d) != (i, j, k) :: chunkData[a, c, d] == old(chunkData[a, c, d])
      ensures forall b: Block | old(allocated(b)) :: GreenedState(old(b.State()), b.State())
      ensures chunkData[i, j, k] == old(chunkData[i, j, k]) || fresh(chunkData[i, j, k])
    {
      BedrockStep(i, j, k);
      TerrainStep(i, j, k, BedrockRule(world.terrain, ox + i, oy + j, oz + k));
    }

    /** The last two rules of `BuildChunk`, on a cell the first two left as
      * `below`. */
    method SignSteps(i: int, j: int, k: int, ghost below: Option<BlockType>)
      requires Shaped() && Placed() && InGrid(i, j, k) && CellIs(i, j, k, below)
      modifies chunkData
      ensures Placed()
      ensures var t := world.terrain;
        CellIs(i, j, k, SignSurroundRule(t, ox + i, oy + j, oz + k, SignPostRule(t, ox + i, oy + j, oz + k, below)))
      ensures forall a, c, d | InGrid(a, c, d) && (a, c, d) != (i, j, k) :: chunkData[a, c, d] == old(chunkData[a, c, d])
      ensures chunkData[i, j, k] == old(chunkData[i, j, k]) || fresh(chunkData[i, j, k])
    {
      SignPostStep(i, j, k, below);
      SignSurroundStep(i, j, k, SignPostRule(world.terrain, ox + i, oy + j, oz + k, below));
    }

    /** One iteration of `BuildChunk`: the four rules in order leave a block
      * that settles the planned kind. */
    method BuildCell(i: int, j: int, k: int)
      requires Shaped() && Placed() && InGrid(i, j, k)
      requires chunkData[i, j, k] == null
      modifies chunkData, Cells(), world.AllCells()
      ensures Placed() && Holds(i, j, k, PlannedKind(world.terrain, ox + i, oy + j, oz + k))
      ensures forall a, c, d | InGrid(a, c, d) && (a, c, d) != (i, j, k) :: chunkData[a, c, d] == old(chunkData[a, c, d])
      ensures forall b: Block | old(allocated(b)) :: GreenedState(old(b.State()), b.State())
      ensures fresh(chunkData[i, j, k])
    {
      GroundSteps(i, j, k);
      ghost var t := world.terrain;
      SignSteps(i, j, k, TerrainRule(t, ox + i, oy + j, oz + k, BedrockRule(t, ox + i, oy + j, oz + k)));
    }

    /** Every cell holds a block settling the kind the rules plan for its
      * world position. */
    ghost predicate Settled()
      requires Shaped()
      reads chunkData, Cells()`blockType
    {
      forall i, j, k | InGrid(i, j, k) :: Holds(i, j, k, PlannedKind(world.terrain, ox + i, oy + j, oz + k))
    }

    /** The cells before position `n` of the build order are settled, the
      * others still empty. */
    ghost predicate BuiltUpTo(n: int)
      requires Shaped()
      reads chunkData, Cells()`blockType
    {
      forall i, j, k | InGrid(i, j, k) ::
        && (CellIndex(i, j, k) < n ==> Holds(i, j, k, PlannedKind(world.terrain, ox + i, oy + j, oz + k)))
        && (CellIndex(i, j, k) >= n ==> chunkData[i, j, k] == null)
    }

    /** Building cell (i, j, k) extends the settled prefix of the build order
      * by one, provided it touched no other cell and only greened blocks. */
    twostate lemma BuiltOneMore(cell: (int, int, int))
      requires Shaped() && InGrid(cell.0, cell.1, cell.2) && old(BuiltUpTo(CellIndex(cell.0, cell.1, cell.2)))
      requires Holds(cell.0, cell.1, cell.2, PlannedKind(world.terrain, ox + cell.0, oy + cell.1, oz + cell.2))
      requires forall a, c, d | InGrid(a, c, d) && CellIndex(a, c, d) != CellIndex(cell.0, cell.1, cell.2) ::
        chunkData[a, c, d] == old(chunkData[a, c, d])
      requires forall b: Block | old(allocated(b)) :: GreenedState(old(b.State()), b.State())
      ensures BuiltUpTo(CellIndex(cell.0, cell.1, cell.2) + 1)
    {
      var (i, j, k) := cell;
      var n := CellIndex(i, j, k);
      forall a, b, c | InGrid(a, b, c)
        ensures CellIndex(a, b, c) < n + 1 ==> Holds(a, b, c, PlannedKind(world.terrain, ox + a, oy + b, oz + c))
        ensures CellIndex(a, b, c) >= n + 1 ==> chunkData[a, b, c] == null
      {
        if CellIndex(a, b, c) < n {
          var blk := chunkData[a, b, c];
          var plan := PlannedKind(world.terrain, ox + a, oy + b, oz + c);
          assert old(Holds(a, b, c, plan));
          GreenedStateKind(old(blk.State()), blk.State());
          SettlesGreened(plan, old(blk.blockType), blk.blockType);
        } else if CellIndex(a, b, c) == n {
          CellIndexInjective(a, b, c, i, j, k);
        } else {
          assert old(chunkData[a, b, c]) == null;
        }
      }
    }

    /** The body of the `BuildChunk` loops: cell (i, j, k) is built, and the
      * cells built before it stay settled while their blocks are greened. */
    method BuildNext(i: int, j: int, k: int)
      requires Shaped() && Placed() && InGrid(i, j, k)
      requires BuiltUpTo(CellIndex(i, j, k))
      modifies chunkData, Cells(), world.AllCells()
      ensures Placed() && BuiltUpTo(CellIndex(i, j, k) + 1)
      ensures fresh(chunkData[i, j, k])
      ensures forall a, c, d | InGrid(a, c, d) && (a, c, d) != (i, j, k) :: chunkData[a, c, d] == old(chunkData[a, c, d])
      ensures forall b: Block | old(allocated(b)) :: GreenedState(old(b.State()), b.State())
    {
      BuildCell(i, j, k);
      BuiltOneMore((i, j, k));
    }

    /** `BuildChunk`: a fresh grid is filled cell by cell, z outermost and x
      * innermost; afterwards every cell is settled, and blocks of registered
      * chunks next to water placed here have only been greened. */
    method BuildChunk()
      requires Shaped() && Placed()
      requires forall i, j, k | InGrid(i, j, k) :: chunkData[i, j, k] == null
      modifies this`status, chunkData, world.AllCells()
      ensures Complete() && Settled() && status == Draw
      ensures forall i, j, k | InGrid(i, j, k) :: fresh(chunkData[i, j, k])
      ensures forall b: Block | old(allocated(b)) :: GreenedState(old(b.State()), b.State())
    {
      // The three nested loops visit the cells in draw order; one loop over
      // the draw order visits them in the same order.
      for n := 0 to CellCount
        invariant Placed() && BuiltUpTo(n)
        invariant forall a, c, d | InGrid(a, c, d) && chunkData[a, c, d] != null :: fresh(chunkData[a, c, d])
        invariant n > 0 ==> status == Draw
        invariant forall b: Block | old(allocated(b)) :: GreenedState(old(b.State()), b.State())
      {
        var (i, j, k) := CellOf(n);
        label Before:
        BuildNext(i, j, k);
        forall b: Block | old(allocated(b)) ensures GreenedState(old(b.State()), b.State()) {
          GreenedStateTransitive(old(b.State()), old@Before(b.State()), b.State());
        }
        status := Draw;
      }
      forall i, j, k | InGrid(i, j, k) ensures Holds(i, j, k, PlannedKind(world.terrain, ox + i, oy + j, oz + k)) {
        assert CellIndex(i, j, k) < CellCount;
      }
    }

    /** The six face neighbours of a cell, in the order x-1, y-1, z-1, x+1,
      * y+1, z+1: blocks of this chunk or of registered chunks. */
    function Neighbours(i: int, j: int, k: int): (ns: seq<Block?>)
      reads chunkData, world`chunks, set c | c in world.chunks.Values :: c.chunkData
      ensures |ns| == 6
      ensures forall n: Block? | n in ns && n != null :: n in Cells() || n in world.AllCells()
    {
      [GetBlock(i - 1, j, k), GetBlock(i, j - 1, k), GetBlock(i, j, k - 1),
       GetBlock(i + 1, j, k), GetBlock(i, j + 1, k), GetBlock(i, j, k + 1)]
    }
  }

  /** The registry name of the chunk at chunk coordinates c. */
  function ChunkKey(c: Coord): string
  {
    Names.ChunkName(c.x * ChunkSize, c.y * ChunkSize, c.z * ChunkSize)
  }

  /** The chunk coordinates of a chunk, from its origin. */
  function ChunkCoord(c: Chunk): Coord
  {
    Coord(c.ox / ChunkSize, c.oy / ChunkSize, c.oz / ChunkSize)
  }

  /** The chunk coordinates of the chunks in a registry. */
  ghost function Positions(m: map<string, Chunk>): set<Coord>
  {
    set k | k in m :: ChunkCoord(m[k])
  }

  /** `after` keeps every entry of `before` and adds chunks exactly at the
    * requested coordinates in `s` that held none. */
  ghost predicate Grows(before: map<string, Chunk>, after: map<string, Chunk>, s: seq<Coord>)
  {
    && (forall n | n in before :: n in after && after[n] == before[n])
    && Positions(after) == Positions(before) + (set c | c in s)
  }

  /** Registering a chunk under a new key adds its coordinates. */
  lemma PositionsAdd(m: map<string, Chunk>, k: string, c: Chunk)
    requires k !in m
    ensures Positions(m[k := c]) == Positions(m) + {ChunkCoord(c)}
  {
    forall p | p in Positions(m[k := c]) ensures p in Positions(m) + {ChunkCoord(c)} {
      var k' :| k' in m[k := c] && ChunkCoord(m[k := c][k']) == p;
      if k' != k {
        assert k' in m && ChunkCoord(m[k']) == p;
      }
    }
    forall p | p in Positions(m) ensures p in Positions(m[k := c]) {
      var k' :| k' in m && ChunkCoord(m[k']) == p;
      assert k' in m[k := c] && m[k := c][k'] == m[k'];
    }
    assert k in m[k := c] && m[k := c][k] == c;
  }

  /** A chunk added under a new key at coordinates c grows the registry by c. */
  lemma GrowsByNew(m: map<string, Chunk>, k: string, ch: Chunk, c: Coord)
    requires k !in m && ChunkCoord(ch) == c
    ensures Grows(m, m[k := ch], [c])
  {
    PositionsAdd(m, k, ch);
    assert (set p | p in [c]) == {c};
  }

  /** Requesting coordinates that already hold a chunk leaves the registry as it is. */
  lemma GrowsByPresent(m: map<string, Chunk>, c: Coord)
    requires c in Positions(m)
    ensures Grows(m, m, [c])
  {
    assert (set p | p in [c]) == {c};
  }

  lemma GrowsTransitive(a: map<string, Chunk>, b: map<string, Chunk>, c: map<string, Chunk>, s: seq<Coord>, t: seq<Coord>)
    requires Grows(a, b, s) && Grows(b, c, t)
    ensures Grows(a, c, s + t)
  {
    assert (set p | p in s + t) == (set p | p in s) + (set p | p in t);
  }

  /** One more batch of requests: the log and the registered positions both
    * extend by it. */
  lemma Extend(l: seq<Coord>, a: map<string, Chunk>, b: map<string, Chunk>, c: map<string, Chunk>,
               s: seq<Coord>, t: seq<Coord>, u: seq<Coord>)
    requires Grows(a, b, s) && Grows(b, c, t) && u == s + t
    ensures Grows(a, c, u) && l + s + t == l + u
  {
    GrowsTransitive(a, b, c, s, t);
  }

  class World {
    const terrain: Terrain
    /** `Application.persistentDataPath`. */
    const dataPath: string
    var chunks: map<string, Chunk>
    var toRemove: seq<string>
    /** The save files written so far. */
    var files: map<string, BlockData>
    /** Chunk coordinates of every `BuildChunkAt` call, in call order. */
    ghost var log: seq<Coord>

    constructor (t: Terrain, path: string)
      ensures terrain == t && dataPath == path && chunks == map[] && toRemove == [] && files == map[] && log == []
    {
      terrain, dataPath := t, path;
      chunks, toRemove, files, log := map[], [], map[], [];
    }

    ghost function Grids(): set<array3<Block?>>
      reads this`chunks
    {
      set c | c in chunks.Values :: c.chunkData
    }

    /** The blocks of all registered chunks. */
    ghost function AllCells(): set<Block>
      reads this`chunks, set c | c in chunks.Values :: c.chunkData
    {
      set g, i, j, k | g in Grids() && 0 <= i < g.Length0 && 0 <= j < g.Length1 && 0 <= k < g.Length2
                       && g[i, j, k] != null :: g[i, j, k]
    }

    /** The registry invariant: every chunk is registered under the name of its
      * origin, which lies on the chunk lattice, and is fully built. */
    ghost predicate Valid()
      reads this`chunks, set c | c in chunks.Values :: c.chunkData
    {
      && (forall key | key in chunks ::
            && key in {Names.ChunkName(chunks[key].ox, chunks[key].oy, chunks[key].oz)}
            && chunks[key].ox % ChunkSize == 0 && chunks[key].oy % ChunkSize == 0 && chunks[key].oz % ChunkSize == 0)
      && (forall c | c in chunks.Values :: c.world == this && c.Complete())
    }

    /** The block at a world position: the chunk origin is found by flooring
      * each coordinate to the chunk lattice, the block by the offset inside
      * the chunk; null when that chunk is not registered. */
    function GetWorldBlock(px: int, py: int, pz: int): (r: Block?)
      reads this`chunks, set c | c in chunks.Values :: c.chunkData
      ensures r != null ==> r in AllCells()
      ensures Names.ChunkName(ChunkOrigin(px), ChunkOrigin(py), ChunkOrigin(pz)) !in chunks ==> r == null
    {
      var cx, cy, cz := ChunkOrigin(px), ChunkOrigin(py), ChunkOrigin(pz);
      var key := Names.ChunkName(cx, cy, cz);
      if key in chunks then
        var c := chunks[key];
        assert c in chunks.Values;
        var i, j, k := LocalIndex(px), LocalIndex(py), LocalIndex(pz);
        assert c.chunkData in Grids();
        if c.Shaped() then c.chunkData[i, j, k] else null
      else null
    }

    /** A block found through the registry belongs to a registered, built
      * chunk of this world and sits at the asked position. */
    lemma WorldBlockOwner(px: int, py: int, pz: int)
      requires Valid()
      ensures var r := GetWorldBlock(px, py, pz);
        r != null ==>
          && r.owner in chunks.Values && r.owner.world == this && r.owner.Complete()
          && r.owner.ox + r.x == px && r.owner.oy + r.y == py && r.owner.oz + r.z == pz
    {
      var key := Names.ChunkName(ChunkOrigin(px), ChunkOrigin(py), ChunkOrigin(pz));
      if key in chunks {
        var c := chunks[key];
        assert c in chunks.Values;
        Names.ChunkNameInjective(c.ox, c.oy, c.oz, ChunkOrigin(px), ChunkOrigin(py), ChunkOrigin(pz));
      }
    }

    /** Every cell of a registered chunk is found through the registry at its
      * world position. */
    lemma FindsRegistered(c: Chunk, i: int, j: int, k: int)
      requires Valid() && c in chunks.Values && InGrid(i, j, k)
      ensures GetWorldBlock(c.ox + i, c.oy + j, c.oz + k) == c.chunkData[i, j, k]
    {
      RegisteredChunk(c);
      OffsetsInChunk(c.ox, c.oy, c.oz, i, j, k);
    }

    /** A registered chunk lies on the chunk lattice, has a full-size grid and
      * is registered under the name of its origin. */
    lemma RegisteredChunk(c: Chunk)
      requires Valid() && c in chunks.Values
      ensures c.ox % ChunkSize == 0 && c.oy % ChunkSize == 0 && c.oz % ChunkSize == 0
      ensures c.Shaped() && c.world == this
      ensures Names.ChunkName(c.ox, c.oy, c.oz) in chunks && chunks[Names.ChunkName(c.ox, c.oy, c.oz)] == c
    {
    }

    /** `BuildChunkAt(x, y, z)`: the chunk at chunk coordinates (x, y, z) is
      * built and registered under its name, unless that name is already
      * registered, in which case the registry stays as it is. */
    method BuildChunkAt(x: int, y: int, z: int)
      requires Valid()
      modifies this`chunks, this`log, AllCells()
      ensures Valid() && log == old(log) + [Coord(x, y, z)]
      ensures Grows(old(chunks), chunks, [Coord(x, y, z)])
      ensures Coord(x, y, z) in Positions(old(chunks)) ==> chunks == old(chunks)
      ensures forall c | c in chunks.Values && c !in old(chunks.Values) ::
        && fresh(c) && c.ox == x * ChunkSize && c.oy == y * ChunkSize && c.oz == z * ChunkSize
        && c.status == Draw
      ensures forall b | b in AllCells() :: b in old(AllCells()) || fresh(b)
      ensures forall b: Block | old(allocated(b)) :: GreenedState(old(b.State()), b.State())
    {
      var n := Names.ChunkName(x * ChunkSize, y * ChunkSize, z * ChunkSize);
      PositionRegistered(Coord(x, y, z));
      if n !in chunks {
        Register(x, y, z);
        GrowsByNew(old(chunks), n, chunks[n], Coord(x, y, z));
      } else {
        GrowsByPresent(chunks, Coord(x, y, z));
      }
      log := log + [Coord(x, y, z)];
    }

    /** The chunk coordinates c are registered exactly when their name is. */
    lemma PositionRegistered(c: Coord)
      requires Valid()
      ensures c in Positions(chunks) <==> ChunkKey(c) in chunks
    {
      if c in Positions(chunks) {
        var k :| k in chunks && ChunkCoord(chunks[k]) == c;
        var ch := chunks[k];
        assert k in {Names.ChunkName(ch.ox, ch.oy, ch.oz)};
        assert ch.ox == c.x * ChunkSize && ch.oy == c.y * ChunkSize && ch.oz == c.z * ChunkSize;
      }
      if ChunkKey(c) in chunks {
        var ch := chunks[ChunkKey(c)];
        assert ChunkKey(c) in {Names.ChunkName(ch.ox, ch.oy, ch.oz)};
        Names.ChunkNameInjective(ch.ox, ch.oy, ch.oz, c.x * ChunkSize, c.y * ChunkSize, c.z * ChunkSize);
        assert ChunkCoord(ch) == c;
      }
    }

    /** The insertion branch of `BuildChunkAt`: a new chunk is built at chunk
      * coordinates (x, y, z) and added under its name. */
    method Register(x: int, y: int, z: int)
      requires Valid() && ChunkKey(Coord(x, y, z)) !in chunks
      modifies this`chunks, AllCells()
      ensures Valid() && ChunkKey(Coord(x, y, z)) in chunks
      ensures var c := chunks[ChunkKey(Coord(x, y, z))];
        && chunks == old(chunks)[ChunkKey(Coord(x, y, z)) := c]
        && fresh(c) && c.ox == x * ChunkSize && c.oy == y * ChunkSize && c.oz == z * ChunkSize
        && c.status == Draw
      ensures forall b | b in AllCells() :: b in old(AllCells()) || fresh(b)
      ensures forall b: Block | old(allocated(b)) :: GreenedState(old(b.State()), b.State())
    {
      OnLattice(x);
      OnLattice(y);
      OnLattice(z);
      var c := new Chunk(x * ChunkSize, y * ChunkSize, z * ChunkSize, this);
      chunks := chunks[ChunkKey(Coord(x, y, z)) := c];
    }

    /** The innermost loop of `BuildWorld`: the chunks (x + i, y, z + j) for j
      * from -r to r. */
    method BuildRow(x: int, y: int, z: int, r: int, i: int)
      requires Valid()
      modifies this`chunks, this`log, AllCells()
      ensures Valid() && log == old(log) + RowPrefix(x, y, z, r, i, Width(r))
      ensures Grows(old(chunks), chunks, RowPrefix(x, y, z, r, i, Width(r)))
      ensures forall b | b in AllCells() :: b in old(AllCells()) || fresh(b)
      ensures forall b: Block | old(allocated(b)) :: GreenedState(old(b.State()), b.State())
    {
      var j := -r;
      ghost var n := 0;
      while j <= r
        invariant -r <= j && (r >= 0 ==> j <= r + 1) && (r < 0 ==> j == -r) && n == j + r
        invariant Valid() && log == old(log) + RowPrefix(x, y, z, r, i, n)
        invariant Grows(old(chunks), chunks, RowPrefix(x, y, z, r, i, n))
        invariant forall b | b in AllCells() :: b in old(AllCells()) || fresh(b)
        invariant forall b: Block | old(allocated(b)) :: GreenedState(old(b.State()), b.State())
        decreases r - j
      {
        label Before:
        ghost var before := chunks;
        BuildChunkAt(i + x, y, j + z);
        RowPrefixStep(x, y, z, r, i, n, j);
        Extend(old(log), old(chunks), before, chunks, RowPrefix(x, y, z, r, i, n), [Coord(i + x, y, j + z)],
               RowPrefix(x, y, z, r, i, n + 1));
        forall b: Block | old(allocated(b)) ensures GreenedState(old(b.State()), b.State()) {
          GreenedStateTransitive(old(b.State()), old@Before(b.State()), b.State());
        }
        j, n := j + 1, n + 1;
      }
    }

    /** The middle loop of `BuildWorld`: the rows i = -r .. r of layer y. */
    method BuildLayer(x: int, y: int, z: int, r: int)
      requires Valid()
      modifies this`chunks, this`log, AllCells()
      ensures Valid() && log == old(log) + LayerPrefix(x, y, z, r, Width(r))
      ensures Grows(old(chunks), chunks, LayerPrefix(x, y, z, r, Width(r)))
      ensures forall b | b in AllCells() :: b in old(AllCells()) || fresh(b)
      ensures forall b: Block | old(allocated(b)) :: GreenedState(old(b.State()), b.State())
    {
      var i := -r;
      ghost var n := 0;
      while i <= r
        invariant -r <= i && (r >= 0 ==> i <= r + 1) && (r < 0 ==> i == -r) && n == i + r
        invariant Valid() && log == old(log) + LayerPrefix(x, y, z, r, n)
        invariant Grows(old(chunks), chunks, LayerPrefix(x, y, z, r, n))
        invariant forall b | b in AllCells() :: b in old(AllCells()) || fresh(b)
        invariant forall b: Block | old(allocated(b)) :: GreenedState(old(b.State()), b.State())
        decreases r - i
      {
        label Before:
        ghost var before := chunks;
        BuildRow(x, y, z, r, i);
        LayerPrefixStep(x, y, z, r, n, i);
        Extend(old(log), old(chunks), before, chunks, LayerPrefix(x, y, z, r, n), RowPrefix(x, y, z, r, i, Width(r)),
               LayerPrefix(x, y, z, r, n + 1));
        forall b: Block | old(allocated(b)) ensures GreenedState(old(b.State()), b.State()) {
          GreenedStateTransitive(old(b.State()), old@Before(b.State()), b.State());
        }
        i, n := i + 1, n + 1;
      }
    }

    /** `BuildWorld(x, z, r)`: requests every chunk of layers 12 to 21 within
      * r chunks of (x, z) along both horizontal axes, layer by layer, and
      * registers each one that was missing. */
    method BuildWorld(x: int, z: int, r: int)
      requires Valid()
      modifies this`chunks, this`log, AllCells()
      ensures Valid() && log == old(log) + BuildWorldOrder(x, z, r)
      ensures Grows(old(chunks), chunks, BuildWorldOrder(x, z, r))
      ensures forall c: Coord | LowestLayer <= c.y <= HighestLayer && Abs(c.x - x) <= r && Abs(c.z - z) <= r ::
        ChunkKey(c) in chunks
      ensures forall b | b in AllCells() :: b in old(AllCells()) || fresh(b)
      ensures forall b: Block | old(allocated(b)) :: GreenedState(old(b.State()), b.State())
    {
      ghost var n := 0;
      for y := LowestLayer to HighestLayer + 1
        invariant n == y - LowestLayer
        invariant Valid() && log == old(log) + OrderPrefix(x, z, r, n)
        invariant Grows(old(chunks), chunks, OrderPrefix(x, z, r, n))
        invariant forall b | b in AllCells() :: b in old(AllCells()) || fresh(b)
        invariant forall b: Block | old(allocated(b)) :: GreenedState(old(b.State()), b.State())
      {
        label Before:
        ghost var before := chunks;
        BuildLayer(x, y, z, r);
        OrderPrefixStep(x, z, r, n, y);
        Extend(old(log), old(chunks), before, chunks, OrderPrefix(x, z, r, n), LayerPrefix(x, y, z, r, Width(r)),
               OrderPrefix(x, z, r, n + 1));
        forall b: Block | old(allocated(b)) ensures GreenedState(old(b.State()), b.State()) {
          GreenedStateTransitive(old(b.State()), old@Before(b.State()), b.State());
        }
        n := n + 1;
      }
      forall c: Coord | LowestLayer <= c.y <= HighestLayer && Abs(c.x - x) <= r && Abs(c.z - z) <= r
        ensures ChunkKey(c) in chunks
      {
        BuildWorldMembers(x, z, r, c);
        PositionRegistered(c);
      }
    }

    /** One run of a `BuildRecursiveWorld(x, y, z, _, rad)` coroutine: unless the
      * radius is used up or the layer is outside 10..26, each of the six
      * neighbours, front, back, left, right, up and down, is built and a
      * coroutine with radius rad - 1 is queued for it. */
    method ExpandTask(t: Task) returns (kids: seq<Task>)
      requires Valid()
      modifies this`chunks, this`log, AllCells()
      ensures Valid() && log == old(log) + Built(t) && kids == Children(t)
      ensures Grows(old(chunks), chunks, Built(t))
      ensures forall b | b in AllCells() :: b in old(AllCells()) || fresh(b)
      ensures forall b: Block | old(allocated(b)) :: GreenedState(old(b.State()), b.State())
    {
      kids := [];
      if t.rad <= 0 || t.y < 10 || t.y > ColumnHeight + 10 {
        assert Grows(chunks, chunks, []);
        return;
      }
      var ns := Neighbours(t);
      for k := 0 to 6
        invariant Valid() && log == old(log) + ns[..k] && kids == Children(t)[..k]
        invariant Grows(old(chunks), chunks, ns[..k])
        invariant forall b | b in AllCells() :: b in old(AllCells()) || fresh(b)
        invariant forall b: Block | old(allocated(b)) :: GreenedState(old(b.State()), b.State())
      {
        label Before:
        BuildNeighbour(ns, k, old(log), old(chunks));
        forall b: Block | old(allocated(b)) ensures GreenedState(old(b.State()), b.State()) {
          GreenedStateTransitive(old(b.State()), old@Before(b.State()), b.State());
        }
        kids := kids + [Task(ns[k].x, ns[k].y, ns[k].z, t.rad - 1)];
        assert Children(t)[..k + 1] == Children(t)[..k] + [Children(t)[k]];
      }
      assert ns[..6] == ns && Children(t)[..6] == Children(t);
    }

    /** The k-th of the six `BuildChunkAt` calls of a coroutine step: the
      * requests so far, `ns[..k]`, grow by `ns[k]`. */
    method BuildNeighbour(ns: seq<Coord>, k: int, ghost log0: seq<Coord>, ghost chunks0: map<string, Chunk>)
      requires Valid() && 0 <= k < |ns| && log == log0 + ns[..k] && Grows(chunks0, chunks, ns[..k])
      modifies this`chunks, this`log, AllCells()
      ensures Valid() && log == log0 + ns[..k + 1] && Grows(chunks0, chunks, ns[..k + 1])
      ensures forall b | b in AllCells() :: b in old(AllCells()) || fresh(b)
      ensures forall b: Block | old(allocated(b)) :: GreenedState(old(b.State()), b.State())
    {
      ghost var before := chunks;
      BuildChunkAt(ns[k].x, ns[k].y, ns[k].z);
      assert ns[..k + 1] == ns[..k] + [ns[k]];
      Extend(log0, chunks0, before, chunks, ns[..k], [ns[k]], ns[..k + 1]);
    }

    /** `BuildRecursiveWorld(x, y, z, startrad, rad)` with its coroutines run
      * first in, first out until none is left: the chunks requested are
      * `RecursiveOrder(x, y, z, rad)`, all within Manhattan distance rad of
      * (x, y, z) and in layers 9..27. */
    method BuildRecursiveWorld(x: int, y: int, z: int, startrad: int, rad: int)
      requires Valid()
      modifies this`chunks, this`log, AllCells()
      ensures Valid() && log == old(log) + RecursiveOrder(x, y, z, rad)
      ensures Grows(old(chunks), chunks, RecursiveOrder(x, y, z, rad))
      ensures forall c | c in Positions(chunks) - Positions(old(chunks)) ::
        Manhattan(c.x, c.y, c.z, x, y, z) <= rad && 9 <= c.y <= ColumnHeight + 11
      ensures forall b | b in AllCells() :: b in old(AllCells()) || fresh(b)
      ensures forall b: Block | old(allocated(b)) :: GreenedState(old(b.State()), b.State())
    {
      var queue := [Task(x, y, z, rad)];
      ghost var done: seq<Coord> := [];
      assert Grows(chunks, chunks, []);
      while queue != []
        invariant Valid() && log == old(log) + done && done + Drain(queue) == RecursiveOrder(x, y, z, rad)
        invariant Grows(old(chunks), chunks, done)
        invariant forall b | b in AllCells() :: b in old(AllCells()) || fresh(b)
        invariant forall b: Block | old(allocated(b)) :: GreenedState(old(b.State()), b.State())
        decreases Weight(queue)
      {
        label Before:
        queue, done := RunFirst(queue, done, RecursiveOrder(x, y, z, rad), old(log), old(chunks));
        forall b: Block | old(allocated(b)) ensures GreenedState(old(b.State()), b.State()) {
          GreenedStateTransitive(old(b.State()), old@Before(b.State()), b.State());
        }
      }
      assert done == RecursiveOrder(x, y, z, rad);
      forall c | c in Positions(chunks) - Positions(old(chunks))
        ensures Manhattan(c.x, c.y, c.z, x, y, z) <= rad && 9 <= c.y <= ColumnHeight + 11
      {
        RecursiveOrderWithinReach(x, y, z, rad, c);
      }
    }

    /** One turn of the coroutine queue of `BuildRecursiveWorld`: the first
      * task runs and its children join the back of the queue, so the
      * requests made so far, `done`, followed by those the queue still makes
      * stay `order`, and the queue gets lighter. */
    method RunFirst(queue: seq<Task>, ghost done: seq<Coord>, ghost order: seq<Coord>,
                    ghost log0: seq<Coord>, ghost chunks0: map<string, Chunk>)
      returns (queue': seq<Task>, ghost done': seq<Coord>)
      requires Valid() && queue != []
      requires log == log0 + done && done + Drain(queue) == order && Grows(chunks0, chunks, done)
      modifies this`chunks, this`log, AllCells()
      ensures Valid() && log == log0 + done' && done' + Drain(queue') == order && Grows(chunks0, chunks, done')
      ensures Weight(queue') < Weight(queue)
      ensures forall b | b in AllCells() :: b in old(AllCells()) || fresh(b)
      ensures forall b: Block | old(allocated(b)) :: GreenedState(old(b.State()), b.State())
    {
      ghost var before := chunks;
      var kids := ExpandTask(queue[0]);
      DrainStep(queue, done, order);
      Extend(log0, chunks0, before, chunks, done, Built(queue[0]), done + Built(queue[0]));
      done' := done + Built(queue[0]);
      queue' := queue[1..] + kids;
    }

    /** A chunk lies beyond the drawing radius: the Euclidean distance from the
      * player to its origin exceeds `Radius * ChunkSize`, compared squared. */
    predicate OutOfRange(c: Chunk, px: int, py: int, pz: int)
    {
      (c.ox - px) * (c.ox - px) + (c.oy - py) * (c.oy - py) + (c.oz - pz) * (c.oz - pz)
        > (Radius * ChunkSize) * (Radius * ChunkSize)
    }

    /** `DrawChunks` with the player at (px, py, pz): every chunk still in DRAW
      * is drawn and becomes DONE, and `toRemove` is refilled with the names of
      * exactly the chunks out of range, each once, in dictionary order. */
    method DrawChunks(px: int, py: int, pz: int)
      requires Valid()
      modifies this`toRemove, chunks.Values`status, chunks.Values`quads
      ensures Valid()
      ensures forall k :: k in toRemove <==> k in chunks && OutOfRange(chunks[k], px, py, pz)
      ensures forall a, b | 0 <= a < b < |toRemove| :: toRemove[a] != toRemove[b]
      ensures forall c | c in chunks.Values :: c.status == Done && (old(c.status) == Done ==> c.quads == old(c.quads))
    {
      DistinctChunks();
      DrawEntries(chunks, px, py, pz);
    }

    /** The dictionary loop of `DrawChunks` over the registry `m`, visiting
      * the names in an unspecified order. */
    method DrawEntries(m: map<string, Chunk>, px: int, py: int, pz: int)
      requires forall a, b | a in m && b in m && a != b :: m[a] != m[b]
      requires forall c | c in m.Values :: c.Complete()
      modifies this`toRemove, m.Values`status, m.Values`quads
      ensures forall k :: k in toRemove <==> k in m && OutOfRange(m[k], px, py, pz)
      ensures forall a, b | 0 <= a < b < |toRemove| :: toRemove[a] != toRemove[b]
      ensures forall k | k in m :: m[k].status == Done && (old(m[k].status) == Done ==> m[k].quads == old(m[k].quads))
    {
      toRemove := [];
      var pending := m.Keys;
      while pending != {}
        invariant pending <= m.Keys
        invariant forall k :: k in toRemove <==> k in m && k !in pending && OutOfRange(m[k], px, py, pz)
        invariant forall a, b | 0 <= a < b < |toRemove| :: toRemove[a] != toRemove[b]
        invariant forall k | k in pending :: m[k].status == old(m[k].status) && m[k].quads == old(m[k].quads)
        invariant forall k | k in m && k !in pending ::
          m[k].status == Done && (old(m[k].status) == Done ==> m[k].quads == old(m[k].quads))
        decreases pending
      {
        var key :| key in pending;
        var c := m[key];
        assert c in m.Values;
        CompleteKept(c);
        assert key !in toRemove;
        DrawEntry(key, c, px, py, pz);
        pending := pending - {key};
      }
    }

    /** One entry of the dictionary loop of `DrawChunks`: the chunk is drawn
      * if it is still in DRAW, and its name is queued for removal if it is out
      * of range. */
    method DrawEntry(key: string, c: Chunk, px: int, py: int, pz: int)
      requires c.Complete()
      modifies this`toRemove, c`status, c`quads
      ensures c.status == Done && (old(c.status) == Done ==> c.quads == old(c.quads))
      ensures toRemove == if OutOfRange(c, px, py, pz) then old(toRemove) + [key] else old(toRemove)
    {
      if c.status == Draw {
        c.DrawChunk();
      }
      if OutOfRange(c, px, py, pz) {
        toRemove := toRemove + [key];
      }
    }

    /** A chunk stays complete while its grid and its blocks are unchanged. */
    twostate lemma CompleteKept(c: Chunk)
      requires old(c.Complete()) && unchanged(c.chunkData)
      ensures c.Complete()
    {
    }

    /** Distinct names are registered to distinct chunks. */
    lemma DistinctChunks()
      requires Valid()
      ensures forall a, b | a in chunks && b in chunks && a != b :: chunks[a] != chunks[b]
    {
      forall a, b | a in chunks && b in chunks && chunks[a] == chunks[b] ensures a == b {
        assert a in {Names.ChunkName(chunks[a].ox, chunks[a].oy, chunks[a].oz)};
        assert b in {Names.ChunkName(chunks[b].ox, chunks[b].oy, chunks[b].oz)};
      }
    }

    /** The save files of the registered chunks named in `keys`. */
    function SaveNames(m: map<string, Chunk>, keys: seq<string>): set<string>
    {
      set k | k in keys && k in m :: m[k].FileName()
    }

    /** The files saved for a name list extended by n are those of the list
      * and that of n, if registered. */
    lemma SaveNamesStep(m: map<string, Chunk>, keys: seq<string>, n: string)
      ensures SaveNames(m, keys + [n]) == SaveNames(m, keys) + if n in m then {m[n].FileName()} else {}
    {
    }

    /** `RemoveOldChunks`: every chunk named in `toRemove` that is still
      * registered is saved and unregistered; names already gone are skipped. */
    method RemoveOldChunks()
      requires Valid()
      modifies this`chunks, this`files
      ensures Valid()
      ensures chunks == old(chunks) - (set k | k in toRemove)
      ensures files.Keys == old(files).Keys + SaveNames(old(chunks), toRemove)
      ensures forall f | f in old(files) && f !in SaveNames(old(chunks), toRemove) :: files[f] == old(files)[f]
    {
      ghost var m := chunks;
      RemoveEntries();
      RemovedValid(m);
    }

    /** The loop of `RemoveOldChunks` over `toRemove`, in list order. */
    method RemoveEntries()
      requires forall c | c in chunks.Values :: c.world == this && c.Complete()
      modifies this`chunks, this`files
      ensures chunks == old(chunks) - (set k | k in toRemove)
      ensures files.Keys == old(files).Keys + SaveNames(old(chunks), toRemove)
      ensures forall f | f in old(files) && f !in SaveNames(old(chunks), toRemove) :: files[f] == old(files)[f]
    {
      ghost var m := chunks;
      for i := 0 to |toRemove|
        invariant forall k :: k in chunks <==> k in m && k !in toRemove[..i]
        invariant forall k | k in chunks :: chunks[k] == m[k]
        invariant files.Keys == old(files).Keys + SaveNames(m, toRemove[..i])
        invariant forall f | f in old(files) && f !in SaveNames(m, toRemove[..i]) :: f in files && files[f] == old(files)[f]
        invariant forall c | c in m.Values :: c.world == this && c.Complete()
      {
        RemoveNext(m, i, old(files));
      }
      assert toRemove[..|toRemove|] == toRemove;
    }

    /** The body of the loop of `RemoveOldChunks` for its i-th name. */
    method RemoveNext(ghost m: map<string, Chunk>, i: int, ghost base: map<string, BlockData>)
      requires 0 <= i < |toRemove|
      requires forall k :: k in chunks <==> k in m && k !in toRemove[..i]
      requires forall k | k in chunks :: chunks[k] == m[k]
      requires files.Keys == base.Keys + SaveNames(m, toRemove[..i])
      requires forall f | f in base && f !in SaveNames(m, toRemove[..i]) :: f in files && files[f] == base[f]
      requires forall c | c in m.Values :: c.world == this && c.Complete()
      modifies this`chunks, this`files
      ensures forall k :: k in chunks <==> k in m && k !in toRemove[..i + 1]
      ensures forall k | k in chunks :: chunks[k] == m[k]
      ensures files.Keys == base.Keys + SaveNames(m, toRemove[..i + 1])
      ensures forall f | f in base && f !in SaveNames(m, toRemove[..i + 1]) :: f in files && files[f] == base[f]
    {
      var n := toRemove[i];
      ghost var cs, fs := chunks, files;
      RemoveEntry(n);
      PrefixStep(toRemove, i);
      RemovedKeys(m, toRemove[..i], n, cs, chunks);
      SavedKeys(m, toRemove[..i], n, base, cs, fs, files);
      KeptFiles(m, toRemove[..i], n, base, cs, fs, files);
    }

    lemma PrefixStep(s: seq<string>, i: int)
      requires 0 <= i < |s|
      ensures s[..i + 1] == s[..i] + [s[i]]
    {
    }

    /** Unregistering the next name keeps the registry equal to the chunks of
      * `m` not named so far. */
    lemma RemovedKeys(m: map<string, Chunk>, done: seq<string>, n: string, cs: map<string, Chunk>, cs': map<string, Chunk>)
      requires forall k :: k in cs <==> k in m && k !in done
      requires forall k | k in cs :: cs[k] == m[k]
      requires cs' == cs - {n}
      ensures forall k :: k in cs' <==> k in m && k !in done + [n]
      ensures forall k | k in cs' :: cs'[k] == m[k]
    {
    }

    /** Saving the next registered chunk adds exactly its file to the saved ones. */
    lemma SavedKeys(m: map<string, Chunk>, done: seq<string>, n: string, base: map<string, BlockData>,
                    cs: map<string, Chunk>, fs: map<string, BlockData>, fs': map<string, BlockData>)
      requires forall k :: k in cs <==> k in m && k !in done
      requires forall k | k in cs :: cs[k] == m[k]
      requires fs.Keys == base.Keys + SaveNames(m, done)
      requires n !in cs ==> fs' == fs
      requires n in cs ==> var f := cs[n].FileName(); f in fs' && fs' == fs[f := fs'[f]]
      ensures fs'.Keys == base.Keys + SaveNames(m, done + [n])
    {
      SaveNamesStep(m, done, n);
      if n in cs {
        assert fs'.Keys == fs.Keys + {cs[n].FileName()};
      } else if n in m {
        assert m[n].FileName() in SaveNames(m, done);
      }
    }

    /** Saving the next registered chunk leaves every file that is not a save
      * file of the chunks named so far as it was. */
    lemma KeptFiles(m: map<string, Chunk>, done: seq<string>, n: string, base: map<string, BlockData>,
                    cs: map<string, Chunk>, fs: map<string, BlockData>, fs': map<string, BlockData>)
      requires forall k | k in cs :: k in m && cs[k] == m[k]
      requires forall f | f in base && f !in SaveNames(m, done) :: f in fs && fs[f] == base[f]
      requires n !in cs ==> fs' == fs
      requires n in cs ==> var f := cs[n].FileName(); f in fs' && fs' == fs[f := fs'[f]]
      ensures forall f | f in base && f !in SaveNames(m, done + [n]) :: f in fs' && fs'[f] == base[f]
    {
      SaveNamesStep(m, done, n);
    }

    /** One step of `RemoveOldChunks`: the chunk named n, if still registered,
      * is saved to its file and unregistered. */
    method RemoveEntry(n: string)
      requires n in chunks ==> chunks[n].world == this && chunks[n].Complete()
      modifies this`chunks, this`files
      ensures chunks == old(chunks) - {n}
      ensures n !in old(chunks) ==> files == old(files)
      ensures n in old(chunks) ==>
        var f := old(chunks)[n].FileName();
        && f in files && files == old(files)[f := files[f]] && fresh(files[f])
        && files[f].Copies(old(chunks)[n].chunkData)
    {
      if n in chunks {
        var c := chunks[n];
        c.Save();
        chunks := chunks - {n};
      }
    }

    /** Distinct registered chunks have distinct save files. */
    lemma DistinctFiles()
      requires Valid()
      ensures forall a, b | a in chunks && b in chunks && a != b :: chunks[a].FileName() != chunks[b].FileName()
    {
      forall a, b | a in chunks && b in chunks && chunks[a].FileName() == chunks[b].FileName() ensures a == b {
        var ca, cb := chunks[a], chunks[b];
        Names.ChunkFileNameInjective(dataPath, ca.ox, ca.oy, ca.oz, ChunkSize, Radius, cb.ox, cb.oy, cb.oz, ChunkSize, Radius);
        assert a in {Names.ChunkName(ca.ox, ca.oy, ca.oz)};
        assert b in {Names.ChunkName(cb.ox, cb.oy, cb.oz)};
      }
    }

    /** Unregistering chunks keeps the registry invariant. */
    twostate lemma RemovedValid(m: map<string, Chunk>)
      requires old(Valid()) && m == old(chunks) && chunks.Keys <= m.Keys
      requires forall k | k in chunks :: chunks[k] == m[k]
      requires forall c | c in m.Values :: unchanged(c.chunkData)
      ensures Valid()
    {
      forall c | c in chunks.Values ensures c.world == this && c.Complete() {
        var k :| k in chunks && chunks[k] == c;
        assert c in m.Values;
        assert old(c.Complete());
      }
    }
  }

  /** The serializable copy of a chunk's block kinds. */
  class BlockData {
    const matrix: array3<BlockType>

    /** The matrix has the chunk's size and holds the kind of every block of `b`. */
    ghost predicate Copies(b: array3<Block?>)
      reads matrix, b, set i, j, k | 0 <= i < b.Length0 && 0 <= j < b.Length1 && 0 <= k < b.Length2
                                     && b[i, j, k] != null :: b[i, j, k]
    {
      && matrix.Length0 == ChunkSize && matrix.Length1 == ChunkSize && matrix.Length2 == ChunkSize
      && b.Length0 == ChunkSize && b.Length1 == ChunkSize && b.Length2 == ChunkSize
      && forall i, j, k | InGrid(i, j, k) :: b[i, j, k] != null && matrix[i, j, k] == b[i, j, k].blockType
    }

    /** `new BlockData(b)`: copies the kinds, z outermost and x innermost. */
    constructor (b: array3<Block?>)
      requires b.Length0 == ChunkSize && b.Length1 == ChunkSize && b.Length2 == ChunkSize
      requires forall i, j, k | InGrid(i, j, k) :: b[i, j, k] != null
      ensures fresh(matrix) && Copies(b)
    {
      var m := new BlockType[ChunkSize, ChunkSize, ChunkSize];
      for z := 0 to ChunkSize
        invariant forall a, c, d | InGrid(a, c, d) && d < z :: m[a, c, d] == b[a, c, d].blockType
      {
        for y := 0 to ChunkSize
          invariant forall a, c, d | InGrid(a, c, d) && (d < z || (d == z && c < y)) :: m[a, c, d] == b[a, c, d].blockType
        {
          for x := 0 to ChunkSize
            invariant forall a, c, d | InGrid(a, c, d) && (d < z || (d == z && (c < y || (c == y && a < x)))) ::
              m[a, c, d] == b[a, c, d].blockType
          {
            m[x, y, z] := b[x, y, z].blockType;
          }
        }
      }
      matrix := m;
    }
  }
}
