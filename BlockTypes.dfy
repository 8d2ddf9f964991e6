/**
 * Block kinds, cube sides, the health table and the choice of texture-atlas
 * rows for one face of a block (Block.cs).
 *
 * Texture coordinates are not modelled as floats: a face records the row of
 * the atlas table that the source indexes (rows 0..24), once for the block's
 * own texture and once for the crack overlay.
 */
module BlockTypes {

  /** The block kinds in declaration order, so that `Ordinal` is the C# enum value.
    * `CactusBase` is used by the chunk builder but missing from the enum; it is
    * appended last (ordinal 20). */
  datatype BlockType =
    | Grass | Cactus | Water | Stone | Sand | Bedrock | NoCrack
    | Crack1 | Crack2 | Crack3 | Crack4 | Air | Pumpkin | Lisa | Julia
    | SignBase | SignLeft | SignMiddle | SignRight | Helge | CactusBase

  /** The six faces of a cube, in declaration order. */
  datatype Side = Bottom | Top | Left | Right | Front | Back

  /** Number of rows in the texture atlas table. */
  const AtlasRows: int := 25

  /** Enum value of a block kind. */
  function Ordinal(t: BlockType): (n: nat)
    ensures n <= 20
    ensures n == 20 <==> t == CactusBase
  {
    match t
    case Grass => 0
    case Cactus => 1
    case Water => 2
    case Stone => 3
    case Sand => 4
    case Bedrock => 5
    case NoCrack => 6
    case Crack1 => 7
    case Crack2 => 8
    case Crack3 => 9
    case Crack4 => 10
    case Air => 11
    case Pumpkin => 12
    case Lisa => 13
    case Julia => 14
    case SignBase => 15
    case SignLeft => 16
    case SignMiddle => 17
    case SignRight => 18
    case Helge => 19
    case CactusBase => 20
  }

  /** The block kind with a given enum value. */
  function FromOrdinal(n: nat): (t: BlockType)
    requires n <= 20
    ensures Ordinal(t) == n
  {
    if n == 0 then Grass else if n == 1 then Cactus else if n == 2 then Water
    else if n == 3 then Stone else if n == 4 then Sand else if n == 5 then Bedrock
    else if n == 6 then NoCrack else if n == 7 then Crack1 else if n == 8 then Crack2
    else if n == 9 then Crack3 else if n == 10 then Crack4 else if n == 11 then Air
    else if n == 12 then Pumpkin else if n == 13 then Lisa else if n == 14 then Julia
    else if n == 15 then SignBase else if n == 16 then SignLeft else if n == 17 then SignMiddle
    else if n == 18 then SignRight else if n == 19 then Helge else CactusBase
  }

  /** The enum values are distinct: a kind is recovered from its value. */
  lemma OrdinalRoundTrip(t: BlockType)
    ensures FromOrdinal(Ordinal(t)) == t
  {
  }

  /** `health` holds a crack stage as an enum value; undamaged is NOCRACK. */
  const NoCrackStage: int := 6

  /** Maximal health per kind (`blockHealthMax`); bedrock's -1 marks it indestructible.
    * CactusBase has no entry in the source table; it is given the cactus value 3. */
  function HealthMax(t: BlockType): (h: int)
    ensures -1 <= h <= 10
    ensures h == -1 <==> t == Bedrock
    ensures h == 0 <==> t in {NoCrack, Crack1, Crack2, Crack3, Crack4, Air}
  {
    match t
    case Grass => 3
    case Cactus => 3
    case Water => 10
    case Stone => 4
    case Sand => 2
    case Bedrock => -1
    case NoCrack => 0
    case Crack1 => 0
    case Crack2 => 0
    case Crack3 => 0
    case Crack4 => 0
    case Air => 0
    case Pumpkin => 3
    case Lisa => 3
    case Julia => 3
    case SignBase => 2
    case SignLeft => 2
    case SignMiddle => 2
    case SignRight => 2
    case Helge => 5
    case CactusBase => 3
  }

  /** Atlas row of the texture drawn on face `side` of a block of kind `t`. */
  function UvRow(t: BlockType, side: Side): (r: int)
    ensures 0 <= r < AtlasRows
  {
    if t == Grass && side == Top then 0
    else if t == Grass then 1
    else if t == Cactus && side == Top then 2
    else if t == Pumpkin && side == Front then Ordinal(t) + 1
    else if t == Pumpkin && side == Top then Ordinal(t) + 3
    else if t == Lisa && side == Top then Ordinal(t) + 3
    else if t == Lisa then Ordinal(t) + 4
    else if t == Julia && side == Top then Ordinal(t) + 4
    else if t == Julia || t == SignBase then Ordinal(t) + 5
    else if t == Helge then 6
    else if t == SignLeft then (if side == Back then 21 else if side == Front then 23 else 24)
    else if t == SignRight then (if side == Front then 21 else if side == Back then 23 else 24)
    else if t == SignMiddle then (if side == Back || side == Front then 22 else 24)
    else Ordinal(t) + 2
  }

  /** Atlas row of the crack overlay for crack stage `health`. */
  function OverlayRow(health: int): int
  {
    health + 2
  }

  /** The text rows 21..23 are shown only on the front and back of the sign
    * boards; every other face of a board shows the plain side row 24, and the
    * left and right boards show the outer text rows mirrored. */
  lemma SignBoardFaces(t: BlockType, side: Side)
    requires t in {SignLeft, SignMiddle, SignRight}
    ensures 21 <= UvRow(t, side) <= 24
    ensures UvRow(t, side) != 24 <==> side in {Front, Back}
    ensures t == SignMiddle && side in {Front, Back} ==> UvRow(t, side) == 22
    ensures side in {Front, Back} && t != SignMiddle ==>
      UvRow(SignLeft, side) + UvRow(SignRight, side) == 21 + 23
  {
  }

  /** Blocks that have a texture row of their own (rows 0..7 and 13..20) never
    * draw their body with a crack-overlay row 8..12, except for the kinds that
    * are crack stages themselves. */
  lemma BodyRowsAvoidCracks(t: BlockType, side: Side)
    requires t !in {NoCrack, Crack1, Crack2, Crack3, Crack4}
    ensures !(8 <= UvRow(t, side) <= 12)
  {
  }

  /** A face emitted by `Draw`: the block position, the side, the two atlas rows,
    * and whether it goes to the transparent (water) mesh. */
  datatype Quad = Quad(x: int, y: int, z: int, side: Side, uvRow: int, overlayRow: int, liquid: bool)
}
