/**
 * The order in which the world asks for chunks (World.BuildWorld and
 * World.BuildRecursiveWorld), as sequences of chunk coordinates. The `World`
 * class runs the same enumerations as loops and records every `BuildChunkAt`
 * call; the lemmas here say which coordinates are requested, how many, in
 * which order, and why the recursive strategy stops.
 */
module Streaming {
  import opened Coords

  /** A chunk coordinate, counted in chunks (the chunk's origin divided by the chunk size). */
  datatype Coord = Coord(x: int, y: int, z: int)

  /** The chunk layers `BuildWorld` fills, bottom to top. */
  const LowestLayer: int := 12
  const HighestLayer: int := ColumnHeight + 5
  const LayerCount: int := HighestLayer - LowestLayer + 1

  /** Number of values in -r..r. */
  function Width(r: int): nat
  {
    if r >= 0 then 2 * r + 1 else 0
  }

  /** The first n requests of the innermost loop: j = -r .. -r+n-1 at (i, y). */
  function RowPrefix(x: int, y: int, z: int, r: int, i: int, n: nat): (s: seq<Coord>)
    ensures |s| == n
    decreases n
  {
    if n == 0 then [] else RowPrefix(x, y, z, r, i, n - 1) + [Coord(i + x, y, -r + n - 1 + z)]
  }

  /** Request k of the innermost loop is for j = -r + k. */
  lemma {:induction false} RowPrefixIndex(x: int, y: int, z: int, r: int, i: int, n: nat, k: nat)
    requires k < n
    ensures RowPrefix(x, y, z, r, i, n)[k] == Coord(i + x, y, -r + k + z)
    decreases n
  {
    if k < n - 1 {
      RowPrefixIndex(x, y, z, r, i, n - 1, k);
    }
  }

  /** One more request of the innermost loop. */
  lemma RowPrefixStep(x: int, y: int, z: int, r: int, i: int, n: nat, j: int)
    requires n == j + r
    ensures RowPrefix(x, y, z, r, i, n + 1) == RowPrefix(x, y, z, r, i, n) + [Coord(i + x, y, j + z)]
  {
  }

  lemma {:induction false} RowPrefixMembers(x: int, y: int, z: int, r: int, i: int, n: nat, c: Coord)
    ensures c in RowPrefix(x, y, z, r, i, n) <==> c.x == i + x && c.y == y && -r <= c.z - z < -r + n
    decreases n
  {
    if n > 0 {
      RowPrefixMembers(x, y, z, r, i, n - 1, c);
    }
  }

  /** The first n rows of a layer: i = -r .. -r+n-1, each a full row of j. */
  function LayerPrefix(x: int, y: int, z: int, r: int, n: nat): (s: seq<Coord>)
    ensures |s| == n * Width(r)
    decreases n
  {
    if n == 0 then []
    else LayerPrefix(x, y, z, r, n - 1) + RowPrefix(x, y, z, r, -r + n - 1, Width(r))
  }

  /** One more row of a layer. */
  lemma LayerPrefixStep(x: int, y: int, z: int, r: int, n: nat, i: int)
    requires i == -r + n
    ensures LayerPrefix(x, y, z, r, n + 1) == LayerPrefix(x, y, z, r, n) + RowPrefix(x, y, z, r, i, Width(r))
  {
  }

  /** The first n layers: y = 12 .. 12+n-1, each a full layer of i and j. */
  function OrderPrefix(x: int, z: int, r: int, n: nat): (s: seq<Coord>)
    ensures |s| == n * (Width(r) * Width(r))
    decreases n
  {
    if n == 0 then []
    else
      var layer := LayerPrefix(x, LowestLayer + n - 1, z, r, Width(r));
      assert |layer| == Width(r) * Width(r);
      OrderPrefix(x, z, r, n - 1) + layer
  }

  /** One more layer. */
  lemma OrderPrefixStep(x: int, z: int, r: int, n: nat, y: int)
    requires y == LowestLayer + n
    ensures OrderPrefix(x, z, r, n + 1) == OrderPrefix(x, z, r, n) + LayerPrefix(x, y, z, r, Width(r))
  {
  }

  /** Every `BuildChunkAt` request of `BuildWorld(x, z, r)`, in call order. */
  function BuildWorldOrder(x: int, z: int, r: int): seq<Coord>
  {
    OrderPrefix(x, z, r, LayerCount)
  }

  /** `BuildWorld` makes 10 * W^2 requests, where W = 2r + 1 is the number of
    * values in -r..r: none at all for a negative radius. */
  lemma BuildWorldCount(x: int, z: int, r: int)
    ensures |BuildWorldOrder(x, z, r)| == 10 * Width(r) * Width(r)
    ensures r < 0 ==> BuildWorldOrder(x, z, r) == []
  {
  }

  lemma {:induction false} LayerPrefixMembers(x: int, y: int, z: int, r: int, n: nat, c: Coord)
    ensures c in LayerPrefix(x, y, z, r, n) <==>
      c.y == y && -r <= c.x - x < -r + n && -r <= c.z - z <= r
    decreases n
  {
    if n > 0 {
      LayerPrefixMembers(x, y, z, r, n - 1, c);
      var row := RowPrefix(x, y, z, r, -r + n - 1, Width(r));
      RowPrefixMembers(x, y, z, r, -r + n - 1, Width(r), c);
    }
  }

  lemma {:induction false} OrderPrefixMembers(x: int, z: int, r: int, n: nat, c: Coord)
    ensures c in OrderPrefix(x, z, r, n) <==>
      LowestLayer <= c.y < LowestLayer + n && -r <= c.x - x <= r && -r <= c.z - z <= r
    decreases n
  {
    if n > 0 {
      OrderPrefixMembers(x, z, r, n - 1, c);
      LayerPrefixMembers(x, LowestLayer + n - 1, z, r, Width(r), c);
    }
  }

  /** `BuildWorld(x, z, r)` requests exactly the chunks of layers 12..21 within
    * r chunks of (x, z) along both horizontal axes. */
  lemma BuildWorldMembers(x: int, z: int, r: int, c: Coord)
    ensures c in BuildWorldOrder(x, z, r) <==>
      LowestLayer <= c.y <= HighestLayer && Abs(c.x - x) <= r && Abs(c.z - z) <= r
  {
    OrderPrefixMembers(x, z, r, LayerCount, c);
  }

  lemma {:induction false} LayerPrefixIndex(x: int, y: int, z: int, r: int, n: nat, a: nat, b: nat)
    requires a < n && b < Width(r)
    ensures a * Width(r) + b < n * Width(r)
    ensures LayerPrefix(x, y, z, r, n)[a * Width(r) + b] == Coord(x - r + a, y, z - r + b)
    decreases n
  {
    var w := Width(r);
    assert a * w + b < (a + 1) * w <= n * w;
    if a < n - 1 {
      LayerPrefixIndex(x, y, z, r, n - 1, a, b);
    } else {
      assert |LayerPrefix(x, y, z, r, n - 1)| == a * w;
      RowPrefixIndex(x, y, z, r, -r + n - 1, w, b);
    }
  }

  /** Block m of n blocks of size q, offset t within it, is inside all n blocks. */
  lemma MulLess(m: nat, n: nat, q: nat, t: nat)
    requires m < n && t < q
    ensures 0 <= m * q + t < n * q
  {
    assert (m + 1) * q <= n * q;
  }

  lemma {:induction false} OrderPrefixIndex(x: int, z: int, r: int, n: nat, m: nat, t: nat)
    requires m < n && t < Width(r) * Width(r)
    ensures m * (Width(r) * Width(r)) + t < n * (Width(r) * Width(r))
    ensures OrderPrefix(x, z, r, n)[m * (Width(r) * Width(r)) + t]
         == LayerPrefix(x, LowestLayer + m, z, r, Width(r))[t]
    decreases n
  {
    var q := Width(r) * Width(r);
    MulLess(m, n, q, t);
    if m < n - 1 {
      OrderPrefixIndex(x, z, r, n - 1, m, t);
    } else {
      assert |OrderPrefix(x, z, r, n - 1)| == m * q;
    }
  }

  /** The requests come in loop order: layer by layer from the bottom, within a
    * layer by x, within that by z: the request for (x+i, y, z+j) is number
    * (y - 12) * W^2 + (i + r) * W + (j + r), with W = 2r + 1. */
  lemma BuildWorldIndex(x: int, z: int, r: int, y: int, i: int, j: int)
    requires LowestLayer <= y <= HighestLayer && -r <= i <= r && -r <= j <= r
    ensures var w := Width(r);
      var k := (y - LowestLayer) * (w * w) + (i + r) * w + (j + r);
      0 <= k < |BuildWorldOrder(x, z, r)| && BuildWorldOrder(x, z, r)[k] == Coord(x + i, y, z + j)
  {
    var w := Width(r);
    var m, a, b := y - LowestLayer, i + r, j + r;
    LayerPrefixIndex(x, y, z, r, w, a, b);
    MulLess(a, w, w, b);
    MulLess(m, LayerCount, w * w, a * w + b);
    OrderPrefixIndex(x, z, r, LayerCount, m, a * w + b);
  }

  /** A pending `BuildRecursiveWorld(x, y, z, _, rad)` coroutine. */
  datatype Task = Task(x: int, y: int, z: int, rad: int)

  /** A task does work unless its radius is used up or its layer is outside 10..26. */
  predicate Expands(t: Task)
  {
    !(t.rad <= 0 || t.y < 10 || t.y > ColumnHeight + 10)
  }

  /** The six axis neighbours in the order front, back, left, right, up, down. */
  function Neighbours(t: Task): (s: seq<Coord>)
    ensures |s| == 6
  {
    [Coord(t.x, t.y, t.z + 1), Coord(t.x, t.y, t.z - 1), Coord(t.x - 1, t.y, t.z),
     Coord(t.x + 1, t.y, t.z), Coord(t.x, t.y + 1, t.z), Coord(t.x, t.y - 1, t.z)]
  }

  /** The chunks a task builds. */
  function Built(t: Task): seq<Coord>
  {
    if Expands(t) then Neighbours(t) else []
  }

  /** The tasks a task starts: one per built neighbour, with the radius reduced by one. */
  function Children(t: Task): (s: seq<Task>)
    ensures |s| == |Built(t)|
    ensures forall k :: 0 <= k < |s| ==>
      s[k] == Task(Built(t)[k].x, Built(t)[k].y, Built(t)[k].z, t.rad - 1)
  {
    if Expands(t) then
      var n := Neighbours(t);
      seq(6, k requires 0 <= k < 6 => Task(n[k].x, n[k].y, n[k].z, t.rad - 1))
    else []
  }

  function Pow7(n: nat): (p: nat)
    ensures p >= 1
  {
    if n == 0 then 1 else 7 * Pow7(n - 1)
  }

  /** Termination measure of a task queue: a task of radius r weighs 7^r. */
  function Weight(q: seq<Task>): nat
  {
    if q == [] then 0 else Pow7(if q[0].rad > 0 then q[0].rad else 0) + Weight(q[1..])
  }

  lemma {:induction false} WeightAppend(a: seq<Task>, b: seq<Task>)
    ensures Weight(a + b) == Weight(a) + Weight(b)
    decreases |a|
  {
    if a == [] {
      assert a + b == b;
    } else {
      assert (a + b)[0] == a[0];
      assert (a + b)[1..] == a[1..] + b;
      WeightAppend(a[1..], b);
    }
  }

  /** The children of a task weigh less than the task: six tasks of radius
    * r - 1 against one of radius r, or none at all. */
  lemma ChildrenLighter(t: Task)
    ensures Weight(Children(t)) < Pow7(if t.rad > 0 then t.rad else 0)
  {
    if Expands(t) {
      var c := Children(t);
      var p := Pow7(t.rad - 1);
      assert Weight(c[5..]) == p;
      assert Weight(c[4..]) == 2 * p;
      assert Weight(c[3..]) == 3 * p;
      assert Weight(c[2..]) == 4 * p;
      assert Weight(c[1..]) == 5 * p;
      assert Weight(c) == 6 * p;
    }
  }

  /** Replacing the first task by its children makes the queue lighter. */
  lemma WeightDrops(q: seq<Task>)
    requires q != []
    ensures Weight(q[1..] + Children(q[0])) < Weight(q)
  {
    WeightAppend(q[1..], Children(q[0]));
    ChildrenLighter(q[0]);
  }

  /** Every chunk the queued tasks build, running the queue first in, first out. */
  function Drain(q: seq<Task>): seq<Coord>
    decreases Weight(q)
  {
    if q == [] then []
    else
      WeightDrops(q);
      Built(q[0]) + Drain(q[1..] + Children(q[0]))
  }

  /** Running the first task of the queue moves its requests from what the
    * queue still makes to what was made, and lightens the queue. */
  lemma DrainStep(q: seq<Task>, done: seq<Coord>, order: seq<Coord>)
    requires q != [] && done + Drain(q) == order
    ensures (done + Built(q[0])) + Drain(q[1..] + Children(q[0])) == order
    ensures Weight(q[1..] + Children(q[0])) < Weight(q)
  {
    WeightDrops(q);
    Regroup(done, Built(q[0]), Drain(q[1..] + Children(q[0])), Drain(q), order);
  }

  lemma Regroup(a: seq<Coord>, b: seq<Coord>, c: seq<Coord>, d: seq<Coord>, e: seq<Coord>)
    requires d == b + c && a + d == e
    ensures (a + b) + c == e
  {
  }

  /** Every chunk requested by `BuildRecursiveWorld(x, y, z, _, rad)`. */
  function RecursiveOrder(x: int, y: int, z: int, rad: int): seq<Coord>
  {
    Drain([Task(x, y, z, rad)])
  }

  /** A queue of tasks that stay within reach of the start (x, y, z): a task's
    * distance from the start plus its radius never exceeds the initial radius. */
  predicate WithinReach(q: seq<Task>, x: int, y: int, z: int, rad: int)
  {
    forall k :: 0 <= k < |q| ==> Manhattan(q[k].x, q[k].y, q[k].z, x, y, z) + q[k].rad <= rad
  }

  /** A neighbour is one step further from any point, and one layer apart at most. */
  lemma NeighbourDistance(t: Task, k: int, x: int, y: int, z: int)
    requires 0 <= k < 6
    ensures var n := Neighbours(t)[k];
      Manhattan(n.x, n.y, n.z, x, y, z) <= Manhattan(t.x, t.y, t.z, x, y, z) + 1
      && t.y - 1 <= n.y <= t.y + 1
  {
  }

  /** Running the first task keeps the queue within reach, and what it builds
    * is within reach. */
  lemma StepWithinReach(q: seq<Task>, x: int, y: int, z: int, rad: int)
    requires q != [] && WithinReach(q, x, y, z, rad)
    ensures WithinReach(q[1..] + Children(q[0]), x, y, z, rad)
    ensures forall c :: c in Built(q[0]) ==>
      Manhattan(c.x, c.y, c.z, x, y, z) <= rad && 9 <= c.y <= ColumnHeight + 11
  {
    var t := q[0];
    assert Manhattan(t.x, t.y, t.z, x, y, z) + t.rad <= rad;
    var kids := Children(t);
    forall k | 0 <= k < |kids|
      ensures Manhattan(kids[k].x, kids[k].y, kids[k].z, x, y, z) + kids[k].rad <= rad
    {
      NeighbourDistance(t, k, x, y, z);
    }
    forall c | c in Built(t)
      ensures Manhattan(c.x, c.y, c.z, x, y, z) <= rad && 9 <= c.y <= ColumnHeight + 11
    {
      var k :| 0 <= k < 6 && Neighbours(t)[k] == c;
      NeighbourDistance(t, k, x, y, z);
    }
    var next := q[1..] + kids;
    forall k | 0 <= k < |next|
      ensures Manhattan(next[k].x, next[k].y, next[k].z, x, y, z) + next[k].rad <= rad
    {
      if k >= |q| - 1 {
        assert next[k] == kids[k - (|q| - 1)];
      } else {
        assert next[k] == q[k + 1];
      }
    }
  }

  lemma {:induction false} DrainWithinReach(q: seq<Task>, x: int, y: int, z: int, rad: int)
    requires WithinReach(q, x, y, z, rad)
    ensures forall c :: c in Drain(q) ==>
      Manhattan(c.x, c.y, c.z, x, y, z) <= rad && 9 <= c.y <= ColumnHeight + 11
    decreases Weight(q)
  {
    if q != [] {
      WeightDrops(q);
      StepWithinReach(q, x, y, z, rad);
      DrainWithinReach(q[1..] + Children(q[0]), x, y, z, rad);
      assert Drain(q) == Built(q[0]) + Drain(q[1..] + Children(q[0]));
    }
  }

  /** `BuildRecursiveWorld(x, y, z, _, rad)` only requests chunks within
    * Manhattan distance rad of (x, y, z), in layers 9..27. */
  lemma RecursiveOrderWithinReach(x: int, y: int, z: int, rad: int, c: Coord)
    requires c in RecursiveOrder(x, y, z, rad)
    ensures Manhattan(c.x, c.y, c.z, x, y, z) <= rad
    ensures 9 <= c.y <= ColumnHeight + 11
  {
    DrainWithinReach([Task(x, y, z, rad)], x, y, z, rad);
  }

  /** All children of a sequence of tasks. */
  function ChildrenOf(q: seq<Task>): seq<Task>
    decreases |q|
  {
    if q == [] then [] else Children(q[0]) + ChildrenOf(q[1..])
  }

  /** The tasks `d` recursive calls below the task t. */
  function Generation(t: Task, d: nat): seq<Task>
    decreases d
  {
    if d == 0 then [t] else ChildrenOf(Generation(t, d - 1))
  }

  /** The tasks one task starts have its radius minus one and lie one step
    * further from any point than the task itself. */
  lemma ChildrenNear(p: Task, t: Task, dist: int)
    requires Manhattan(p.x, p.y, p.z, t.x, t.y, t.z) <= dist
    ensures forall k :: 0 <= k < |Children(p)| ==>
      Children(p)[k].rad == p.rad - 1 && Manhattan(Children(p)[k].x, Children(p)[k].y, Children(p)[k].z, t.x, t.y, t.z) <= dist + 1
  {
    forall k | 0 <= k < |Children(p)|
      ensures Manhattan(Children(p)[k].x, Children(p)[k].y, Children(p)[k].z, t.x, t.y, t.z) <= dist + 1
    {
      var n := Neighbours(p)[k];
      assert Abs(n.x - p.x) + Abs(n.y - p.y) + Abs(n.z - p.z) == 1;
    }
  }

  lemma {:induction false} ChildrenOfShape(q: seq<Task>, rad: int, dist: int, t: Task)
    requires forall k :: 0 <= k < |q| ==> q[k].rad == rad && Manhattan(q[k].x, q[k].y, q[k].z, t.x, t.y, t.z) <= dist
    ensures forall k :: 0 <= k < |ChildrenOf(q)| ==>
      ChildrenOf(q)[k].rad == rad - 1 && Manhattan(ChildrenOf(q)[k].x, ChildrenOf(q)[k].y, ChildrenOf(q)[k].z, t.x, t.y, t.z) <= dist + 1
    ensures rad <= 0 ==> ChildrenOf(q) == []
    decreases |q|
  {
    if q != [] {
      ChildrenOfShape(q[1..], rad, dist, t);
      ChildrenNear(q[0], t, dist);
      var c := Children(q[0]);
      var rest := ChildrenOf(q[1..]);
      forall k | 0 <= k < |ChildrenOf(q)|
        ensures ChildrenOf(q)[k].rad == rad - 1
        ensures Manhattan(ChildrenOf(q)[k].x, ChildrenOf(q)[k].y, ChildrenOf(q)[k].z, t.x, t.y, t.z) <= dist + 1
      {
        if k < |c| {
          assert ChildrenOf(q)[k] == c[k];
        } else {
          assert ChildrenOf(q)[k] == rest[k - |c|];
        }
      }
    }
  }

  /** The tasks at recursion depth d have radius rad - d and lie within
    * Manhattan distance d of the first task; there are none deeper than the
    * initial radius, so the recursion depth is at most rad. */
  lemma {:induction false} GenerationShape(t: Task, d: nat)
    ensures forall k :: 0 <= k < |Generation(t, d)| ==>
      Generation(t, d)[k].rad == t.rad - d
      && Manhattan(Generation(t, d)[k].x, Generation(t, d)[k].y, Generation(t, d)[k].z, t.x, t.y, t.z) <= d
    ensures d >= 1 && d > t.rad ==> Generation(t, d) == []
    decreases d
  {
    if d > 0 {
      GenerationShape(t, d - 1);
      ChildrenOfShape(Generation(t, d - 1), t.rad - (d - 1), d - 1, t);
    }
  }
}
