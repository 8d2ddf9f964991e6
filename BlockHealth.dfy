/**
 * The health state machine of one block (Block.SetType, Block.HitBlock,
 * Block.Reset), on values: the `Block` class states its methods in terms of
 * these functions, and the lemmas here follow a block through any number of
 * hits.
 */
module BlockHealth {
  import opened BlockTypes
  import Terrain

  /** The mutable fields of a block. `health` is the crack stage as an enum
    * value (it starts at NOCRACK and is incremented per hit, possibly beyond
    * the last crack stage). */
  datatype BlockState = BlockState(blockType: BlockType, isSolid: bool, isWater: bool, health: int, currentHealth: int)

  /** Crack stages used plus health left always add up to the kind's maximum. */
  predicate Balanced(s: BlockState)
  {
    (s.health - NoCrackStage) + s.currentHealth == HealthMax(s.blockType)
  }

  /** A block as `SetType` or `Reset` leaves it: no cracks, full health. */
  predicate Fresh(s: BlockState)
  {
    s.health == NoCrackStage && s.currentHealth == HealthMax(s.blockType)
  }

  /** The fields after `SetType(b)`, where `nearWater` tells whether one of the
    * six face neighbours has `isWater` set. */
  function SetTypeState(s: BlockState, b: BlockType, nearWater: bool): (r: BlockState)
    ensures Fresh(r) && Balanced(r)
    ensures !r.isSolid <==> b == Air || b == Water
    ensures r.isWater <==> s.isWater || b == Water
    ensures b == Sand ==> (r.blockType == Grass <==> nearWater) && r.blockType in {Sand, Grass}
    ensures b != Sand ==> r.blockType == b
  {
    var t := if b == Sand && nearWater then Grass else b;
    BlockState(t, !(b == Air || b == Water), s.isWater || b == Water, NoCrackStage, HealthMax(t))
  }

  /** The fields after `Reset`: the kind stays, cracks and health are restored. */
  function ResetState(s: BlockState): (r: BlockState)
    ensures Fresh(r) && Balanced(r)
    ensures r.blockType == s.blockType && r.isSolid == s.isSolid && r.isWater == s.isWater
  {
    s.(health := NoCrackStage, currentHealth := HealthMax(s.blockType))
  }

  /** The only change the chunk builder makes to a block it has already placed:
    * a sand block or cactus base next to new water is set to grass. */
  predicate GreenedState(before: BlockState, after: BlockState)
  {
    after == before || (before.blockType in {Sand, CactusBase} && after == SetTypeState(before, Grass, false))
  }

  /** Greening twice is greening once: grass is not greened again. */
  lemma GreenedStateTransitive(a: BlockState, b: BlockState, c: BlockState)
    requires GreenedState(a, b) && GreenedState(b, c)
    ensures GreenedState(a, c)
  {
  }

  /** Greening a block changes its kind only as `Terrain.Greened` allows. */
  lemma GreenedStateKind(before: BlockState, after: BlockState)
    requires GreenedState(before, after)
    ensures Terrain.Greened(before.blockType, after.blockType)
  {
  }

  /** Result of one `HitBlock`: the new fields, the returned "destroyed" flag,
    * and whether a heal coroutine was started. */
  datatype HitOutcome = HitOutcome(after: BlockState, destroyed: bool, healScheduled: bool)

  /** One call of `HitBlock`. */
  function Hit(s: BlockState): (r: HitOutcome)
    ensures s.currentHealth == -1 ==> r == HitOutcome(s, false, false)
    ensures r.after.isWater == s.isWater
    ensures r.destroyed ==> r.after.blockType == Air && !r.after.isSolid
                            && r.after.health == NoCrackStage && r.after.currentHealth <= 0
    ensures !r.destroyed ==> r.after.blockType == s.blockType && r.after.isSolid == s.isSolid
    ensures Balanced(s) && !r.destroyed ==> Balanced(r.after)
  {
    if s.currentHealth == -1 then HitOutcome(s, false, false)
    else
      var current := s.currentHealth - 1;
      var heal := current == HealthMax(s.blockType) - 1;
      if current <= 0 then
        HitOutcome(BlockState(Air, false, s.isWater, NoCrackStage, current), true, heal)
      else
        HitOutcome(s.(currentHealth := current, health := s.health + 1), false, heal)
  }

  /** The fields after `k` consecutive hits. */
  function AfterHits(s: BlockState, k: nat): BlockState
    decreases k
  {
    if k == 0 then s else Hit(AfterHits(s, k - 1)).after
  }

  /** The destroyed remains of a block: air, with health 0 after the destroying
    * hit and -1 after one more. */
  function Remains(s: BlockState, current: int): BlockState
  {
    BlockState(Air, false, s.isWater, NoCrackStage, current)
  }

  /** The state of a fresh block of maximal health h >= 1 after i hits: the
    * kind stays and the health drops by one per hit for i < h, then air with
    * health 0 after hit h and health -1 from then on. */
  function FreshAfter(s: BlockState, i: nat): BlockState
  {
    var h := HealthMax(s.blockType);
    if i < h then s.(health := NoCrackStage + i, currentHealth := h - i)
    else if i == h then Remains(s, 0)
    else Remains(s, -1)
  }

  /** Hit i + 1 of a fresh block of maximal health h >= 1. */
  lemma FreshBlockHit(s: BlockState, i: nat)
    requires Fresh(s) && HealthMax(s.blockType) >= 1
    ensures var h := HealthMax(s.blockType);
      && Hit(FreshAfter(s, i)).after == FreshAfter(s, i + 1)
      && (Hit(FreshAfter(s, i)).destroyed <==> i == h - 1 || i == h)
      && (Hit(FreshAfter(s, i)).healScheduled <==> i == 0 || i == h)
  {
  }

  lemma {:induction false} FreshBlockStates(s: BlockState, i: nat)
    requires Fresh(s) && HealthMax(s.blockType) >= 1
    ensures AfterHits(s, i) == FreshAfter(s, i)
    decreases i
  {
    if i > 0 {
      FreshBlockStates(s, i - 1);
      FreshBlockHit(s, i - 1);
    }
  }

  /** A fresh block of maximal health h >= 1, hit repeatedly: hits 1..h-1 leave
    * the kind and report "not destroyed", keeping the health balance; hit h
    * and hit h+1 report "destroyed" and leave air with health 0 and then -1;
    * every later hit reports "not destroyed" and changes nothing. A heal is
    * scheduled on the first hit and on hit h+1 only. The crack overlay of the
    * live block moves one row per hit. */
  lemma FreshBlockHits(s: BlockState, i: nat)
    requires Fresh(s) && HealthMax(s.blockType) >= 1
    ensures var h := HealthMax(s.blockType);
      && (i < h ==> AfterHits(s, i) == s.(health := NoCrackStage + i, currentHealth := h - i)
                    && Balanced(AfterHits(s, i))
                    && OverlayRow(AfterHits(s, i).health) == OverlayRow(NoCrackStage) + i)
      && (i == h ==> AfterHits(s, i) == Remains(s, 0))
      && (i > h ==> AfterHits(s, i) == Remains(s, -1))
      && (Hit(AfterHits(s, i)).destroyed <==> i == h - 1 || i == h)
      && (Hit(AfterHits(s, i)).healScheduled <==> i == 0 || i == h)
  {
    FreshBlockStates(s, i);
    FreshBlockHit(s, i);
  }

  /** A fresh block of a kind with maximal health 0 (the crack kinds and air) is
    * destroyed by the first hit, which also schedules a heal; it then stays
    * air with health -1 and no later hit has any effect. */
  lemma {:induction false} HollowBlockHits(s: BlockState, i: nat)
    requires Fresh(s) && HealthMax(s.blockType) == 0
    ensures i >= 1 ==> AfterHits(s, i) == Remains(s, -1)
    ensures Hit(AfterHits(s, i)).destroyed <==> i == 0
    ensures Hit(AfterHits(s, i)).healScheduled <==> i == 0
    decreases i
  {
    if i > 0 {
      HollowBlockHits(s, i - 1);
    }
  }

  /** A block with health -1 (fresh bedrock, or spent remains) ignores every hit. */
  lemma {:induction false} IndestructibleHits(s: BlockState, i: nat)
    requires s.currentHealth == -1
    ensures AfterHits(s, i) == s
    ensures !Hit(AfterHits(s, i)).destroyed && !Hit(AfterHits(s, i)).healScheduled
    decreases i
  {
    if i > 0 {
      IndestructibleHits(s, i - 1);
    }
  }

  /** Fresh bedrock is indestructible. */
  lemma BedrockIsIndestructible(s: BlockState, i: nat)
    requires Fresh(s) && s.blockType == Bedrock
    ensures AfterHits(s, i) == s && !Hit(AfterHits(s, i)).destroyed
  {
    IndestructibleHits(s, i);
  }

  /** Every block whose kind has at most 5 health points shows only the crack
    * stages (atlas rows 8..12) as its overlay while it is alive. */
  lemma OverlayStaysOnCrackRows(s: BlockState, i: nat)
    requires Fresh(s) && 1 <= HealthMax(s.blockType) <= 5 && i < HealthMax(s.blockType)
    ensures 8 <= OverlayRow(AfterHits(s, i).health) <= 12
  {
    FreshBlockHits(s, i);
  }

  /** Whatever the kind, the overlay row a fresh block selects after any number
    * of hits lies between the first crack row 8 and row h + 7 for maximal
    * health h, inside the atlas. */
  lemma OverlayInAtlas(s: BlockState, i: nat)
    requires Fresh(s) && HealthMax(s.blockType) >= 1
    ensures 8 <= OverlayRow(AfterHits(s, i).health) <= HealthMax(s.blockType) + 7 < AtlasRows
  {
    FreshBlockHits(s, i);
  }

  /** Water, with maximal health 10, keeps being drawn after its fifth hit: its
    * overlay then leaves the crack rows and selects rows 13..17, which hold
    * block textures instead of cracks. */
  lemma WaterOverlayLeavesCrackRows(s: BlockState, i: nat)
    requires Fresh(s) && s.blockType == Water && 5 <= i < 10
    ensures OverlayRow(AfterHits(s, i).health) == 8 + i
    ensures 13 <= OverlayRow(AfterHits(s, i).health) <= 17
  {
    FreshBlockHits(s, i);
  }
}
