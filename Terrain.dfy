/**
 * The rules `Chunk.BuildChunk` applies to every world position, as values:
 * which block kind each rule writes, in the order the rules run, so that a
 * later rule overwrites an earlier one. The noise sources of the game are
 * parameters of the terrain.
 */
module Terrain {
  import opened BlockTypes

  datatype Option<T> = None | Some(value: T)

  /** The noise-driven inputs of chunk building:
    * - `height(x, z)`: the surface height of column (x, z) (`Utils.GenerateHeightMountains`);
    * - `cactusNoise(x, y, z)`: the 4-octave cactus noise at (x, y, z) is below 0.4;
    * - `cactusTopNoise(x, y, z)`: the 5-octave cactus noise at (x, y, z) is below 0.39;
    * - `waterLevel`: a height y is under the water threshold exactly when y < waterLevel
    *   (`y < Utils.startHeightMountains - 2.9` for integral y);
    * - `signX`, `signZ`: the column of the sign (`World.signPos`). */
  datatype Terrain = Terrain(
    height: (int, int) -> int,
    cactusNoise: (int, int, int) -> bool,
    cactusTopNoise: (int, int, int) -> bool,
    waterLevel: int,
    signX: int,
    signZ: int)

  /** Height of the bedrock layer. */
  const BedrockLevel: int := 100

  /** Columns whose surface lies strictly between 103 and 106 grow cacti. */
  predicate InCactusBand(surface: int)
  {
    surface < 106 && surface > 103
  }

  /** Horizontal distance to the sign below 3, for integral positions. */
  predicate NearSign(t: Terrain, wx: int, wz: int)
  {
    (wx - t.signX) * (wx - t.signX) + (wz - t.signZ) * (wz - t.signZ) < 9
  }

  predicate IsSignColumn(t: Terrain, wx: int, wz: int)
  {
    wx == t.signX && wz == t.signZ
  }

  /** First rule: bedrock at height 100, else sand on the surface, else nothing. */
  function BedrockRule(t: Terrain, wx: int, wy: int, wz: int): (r: Option<BlockType>)
    ensures r == Some(Bedrock) <==> wy == BedrockLevel
    ensures r.Some? ==> r.value in {Bedrock, Sand}
    ensures wy == t.height(wx, wz) ==> r.Some?
  {
    if wy == BedrockLevel then Some(Bedrock)
    else if wy == t.height(wx, wz) then Some(Sand)
    else None
  }

  /** Second rule: the cactus band, sand up to the surface, water under the
    * water level, air above; `below` is what the first rule wrote. */
  function TerrainRule(t: Terrain, wx: int, wy: int, wz: int, below: Option<BlockType>): (r: Option<BlockType>)
    ensures r != below ==> r.Some? && r.value in {CactusBase, Cactus, Sand, Water, Air}
    ensures r == below ==> r.Some? || wy == t.height(wx, wz)
    ensures r != below && r == Some(Water) ==> t.height(wx, wz) < wy < t.waterLevel
  {
    var s := t.height(wx, wz);
    if InCactusBand(s) && wy == s then
      (if t.cactusNoise(wx, wy, wz) then Some(CactusBase) else below)
    else if InCactusBand(s) && wy == s + 1 then
      Some(if t.cactusNoise(wx, wy - 1, wz) then Cactus else Air)
    else if InCactusBand(s) && wy == s + 2 then
      Some(if t.cactusNoise(wx, wy - 2, wz) && t.cactusTopNoise(wx, wy - 2, wz) then Cactus else Air)
    else if wy <= s then Some(Sand)
    else if wy < t.waterLevel then Some(Water)
    else Some(Air)
  }

  /** Third rule: the sign post in the sign column. */
  function SignPostRule(t: Terrain, wx: int, wy: int, wz: int, below: Option<BlockType>): (r: Option<BlockType>)
    ensures !IsSignColumn(t, wx, wz) ==> r == below
    ensures r != below ==> r.Some? && r.value in {SignBase, SignMiddle}
  {
    var s := t.height(wx, wz);
    if wy <= s + 1 && IsSignColumn(t, wx, wz) then Some(SignBase)
    else if wy == s + 2 && IsSignColumn(t, wx, wz) then Some(SignBase)
    else if wy == s + 3 && IsSignColumn(t, wx, wz) then Some(SignMiddle)
    else below
  }

  /** Fourth rule: the left and right sign boards beside the post, and around
    * the sign air above the sign's height and HELGE blocks below it. */
  function SignSurroundRule(t: Terrain, wx: int, wy: int, wz: int, below: Option<BlockType>): (r: Option<BlockType>)
    ensures IsSignColumn(t, wx, wz) || !NearSign(t, wx, wz) ==> r == below
    ensures r != below ==> r.Some? && r.value in {SignLeft, SignRight, Air, Helge}
  {
    var s := t.height(wx, wz);
    var signHeight := t.height(t.signX, t.signZ);
    if wy == t.height(wx + 1, wz) + 3 && wx == t.signX - 1 && wz == t.signZ then Some(SignLeft)
    else if wy == t.height(wx - 1, wz) + 3 && wx == t.signX + 1 && wz == t.signZ then Some(SignRight)
    else if !IsSignColumn(t, wx, wz) && NearSign(t, wx, wz) then
      (if wy > signHeight then Some(Air)
       else if wy <= s && wy <= signHeight then Some(Helge)
       else below)
    else below
  }

  /** The kind the four rules, applied in order, place at a world position:
    * every position receives a block, and the bedrock of the first rule is
    * always overwritten. */
  function Planned(t: Terrain, wx: int, wy: int, wz: int): (r: Option<BlockType>)
    ensures r.Some? && r.value != Bedrock
  {
    var first := BedrockRule(t, wx, wy, wz);
    var second := TerrainRule(t, wx, wy, wz, first);
    var third := SignPostRule(t, wx, wy, wz, second);
    SignSurroundRule(t, wx, wy, wz, third)
  }

  /** The kind planned for a world position. */
  function PlannedKind(t: Terrain, wx: int, wy: int, wz: int): (k: BlockType)
    ensures Planned(t, wx, wy, wz) == Some(k)
    ensures k != Bedrock
  {
    Planned(t, wx, wy, wz).value
  }

  /** Away from the cactus band and the sign: sand up to the surface, water
    * under the water level, air above. */
  lemma PlainTerrain(t: Terrain, wx: int, wy: int, wz: int)
    requires !InCactusBand(t.height(wx, wz)) && !NearSign(t, wx, wz)
    ensures var s := t.height(wx, wz);
      Planned(t, wx, wy, wz) == Some(if wy <= s then Sand else if wy < t.waterLevel then Water else Air)
  {
  }

  /** In the cactus band (away from the sign): the surface cell is a cactus
    * base when its noise test passes and sand otherwise; the cell above is a
    * cactus exactly when the base test passes; the one above that only when
    * both noise tests pass; otherwise those cells are air. */
  lemma CactusBand(t: Terrain, wx: int, wy: int, wz: int)
    requires InCactusBand(t.height(wx, wz)) && !NearSign(t, wx, wz)
    ensures var s := t.height(wx, wz);
      && (wy == s ==> Planned(t, wx, wy, wz) == Some(if t.cactusNoise(wx, s, wz) then CactusBase else Sand))
      && (wy == s + 1 ==> Planned(t, wx, wy, wz) == Some(if t.cactusNoise(wx, s, wz) then Cactus else Air))
      && (wy == s + 2 ==>
            Planned(t, wx, wy, wz) == Some(if t.cactusNoise(wx, s, wz) && t.cactusTopNoise(wx, s, wz) then Cactus else Air))
      && (wy < s ==> Planned(t, wx, wy, wz) == Some(Sand))
  {
  }

  /** The sign column holds the post: SIGNBASE up to two above its surface and
    * SIGNMIDDLE three above it. */
  lemma SignPost(t: Terrain, wy: int)
    ensures var s := t.height(t.signX, t.signZ);
      && (wy <= s + 2 ==> Planned(t, t.signX, wy, t.signZ) == Some(SignBase))
      && (wy == s + 3 ==> Planned(t, t.signX, wy, t.signZ) == Some(SignMiddle))
  {
  }

  /** The boards: SIGNLEFT one column to the left and SIGNRIGHT one column to
    * the right of the post, at the height of SIGNMIDDLE. */
  lemma SignBoards(t: Terrain)
    ensures var h := t.height(t.signX, t.signZ) + 3;
      && Planned(t, t.signX - 1, h, t.signZ) == Some(SignLeft)
      && Planned(t, t.signX + 1, h, t.signZ) == Some(SignRight)
  {
  }

  /** Around the sign (horizontal distance below 3, except the post and the
    * board cells): air above the sign's height, HELGE at or below both the
    * column surface and the sign's height. */
  lemma SignSurroundings(t: Terrain, wx: int, wy: int, wz: int)
    requires NearSign(t, wx, wz) && !IsSignColumn(t, wx, wz)
    requires !(wx == t.signX - 1 && wz == t.signZ && wy == t.height(wx + 1, wz) + 3)
    requires !(wx == t.signX + 1 && wz == t.signZ && wy == t.height(wx - 1, wz) + 3)
    ensures var signHeight := t.height(t.signX, t.signZ);
      && (wy > signHeight ==> Planned(t, wx, wy, wz) == Some(Air))
      && (wy <= t.height(wx, wz) && wy <= signHeight ==> Planned(t, wx, wy, wz) == Some(Helge))
  {
  }

  /** The only later change a placed block can undergo while chunks are built:
    * sand and cactus bases touching water turn to grass. */
  predicate Greened(before: BlockType, after: BlockType)
  {
    after == before || (before in {Sand, CactusBase} && after == Grass)
  }

  /** A built cell agrees with the plan, up to the conversions the builder
    * performs next to water and next to cactus bases: planned sand, cactus
    * bases and cacti may have become grass, and a cactus may have become sand. */
  predicate Settles(planned: BlockType, actual: BlockType)
  {
    || actual == planned
    || (planned in {Sand, CactusBase, Cactus} && actual == Grass)
    || (planned == Cactus && actual == Sand)
  }

  /** Greening keeps a cell settled. */
  lemma SettlesGreened(planned: BlockType, before: BlockType, after: BlockType)
    requires Settles(planned, before) && Greened(before, after)
    ensures Settles(planned, after)
  {
  }

  /** Greening composes. */
  lemma GreenedTransitive(a: BlockType, b: BlockType, c: BlockType)
    requires Greened(a, b) && Greened(b, c)
    ensures Greened(a, c)
  {
  }

  /** A settled cell keeps the planned kind whenever that kind is neither sand,
    * a cactus base nor a cactus: water, air, the sign parts and HELGE are
    * placed exactly. */
  lemma SettledExactly(planned: BlockType, actual: BlockType)
    requires Settles(planned, actual) && planned !in {Sand, CactusBase, Cactus}
    ensures actual == planned
  {
  }
}
