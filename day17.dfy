/** Day 17: Conway cubes. A state is the set of live points of an
    N-dimensional grid; a generation keeps a live point alive when exactly 2
    or 3 of its neighbours are live and makes a dead point live when exactly
    3 are. `next` only looks at the bounding box of the live points widened
    by one on every axis, which is enough because nothing farther out has a
    live neighbour. Points are sequences of length N. */
module Day17 {
  /** A point of the grid. */
  type Point = seq<int>

  /** An inclusive range of one coordinate, `lo..=hi`. */
  type Span = (int, int)

  /** A box: one inclusive range per axis. */
  type Volume = seq<Span>

  /** The set of live points. */
  type State = set<Point>

  /** p lies in the box vol. */
  predicate InVol(p: Point, vol: Volume)
  {
    |p| == |vol| && forall i :: 0 <= i < |vol| ==> vol[i].0 <= p[i] <= vol[i].1
  }

  /** q differs from p by at most 1 on every axis. */
  predicate Near(q: Point, p: Point)
  {
    |q| == |p| && forall i :: 0 <= i < |p| ==> p[i] - 1 <= q[i] <= p[i] + 1
  }

  /** q is a neighbour of p: near it and not p itself. */
  predicate Adjacent(q: Point, p: Point)
  {
    Near(q, p) && q != p
  }

  /** The box of points within 1 of p on every axis. */
  function Neighborhood(p: Point): (r: Volume)
    ensures |r| == |p|
    ensures forall q :: InVol(q, r) <==> Near(q, p)
  {
    seq(|p|, i requires 0 <= i < |p| => (p[i] - 1, p[i] + 1))
  }

  /** The integers of `lo..=hi`, in increasing order. */
  function Ints(lo: int, hi: int): (r: seq<int>)
    ensures |r| == if lo <= hi then hi - lo + 1 else 0
    ensures forall k :: 0 <= k < |r| ==> r[k] == lo + k
    decreases hi - lo
  {
    if lo > hi then [] else [lo] + Ints(lo + 1, hi)
  }

  /** Each point of ps with x in front. */
  function Prefix(x: int, ps: seq<Point>): (r: seq<Point>)
    ensures |r| == |ps|
    ensures forall k :: 0 <= k < |r| ==> |r[k]| > 0 && r[k][0] == x && r[k][1..] == ps[k]
  {
    seq(|ps|, k requires 0 <= k < |ps| => [x] + ps[k])
  }

  /** The points with first coordinate from xs and the rest from ps, the
      first coordinate varying slowest. */
  function Layer(xs: seq<int>, ps: seq<Point>): seq<Point>
  {
    if xs == [] then [] else Prefix(xs[0], ps) + Layer(xs[1..], ps)
  }

  /** Every point of a box, in the order of a cartesian product whose first
      axis varies slowest. */
  function IterVol(vol: Volume): seq<Point>
    decreases |vol|
  {
    if vol == [] then [[]] else Layer(Ints(vol[0].0, vol[0].1), IterVol(vol[1..]))
  }

  /** No point occurs twice. */
  predicate Distinct(s: seq<Point>)
  {
    forall i, j :: 0 <= i < j < |s| ==> s[i] != s[j]
  }

  lemma {:induction false} LayerExact(xs: seq<int>, ps: seq<Point>, q: Point)
    ensures q in Layer(xs, ps) <==> |q| > 0 && q[0] in xs && q[1..] in ps
  {
    if xs != [] {
      LayerExact(xs[1..], ps, q);
      var pre := Prefix(xs[0], ps);
      if q in pre {
        var k :| 0 <= k < |pre| && pre[k] == q;
        assert q[1..] == ps[k];
      }
      if |q| > 0 && q[0] == xs[0] && q[1..] in ps {
        var k :| 0 <= k < |ps| && ps[k] == q[1..];
        assert pre[k] == [q[0]] + q[1..] == q;
      }
    }
  }

  /** `iter_vol` yields exactly the points of the box. */
  lemma {:induction false} IterVolExact(vol: Volume, q: Point)
    ensures q in IterVol(vol) <==> InVol(q, vol)
    decreases |vol|
  {
    if vol != [] {
      var xs := Ints(vol[0].0, vol[0].1);
      LayerExact(xs, IterVol(vol[1..]), q);
      if |q| > 0 {
        IterVolExact(vol[1..], q[1..]);
        assert q[0] in xs <==> vol[0].0 <= q[0] <= vol[0].1 by {
          if vol[0].0 <= q[0] <= vol[0].1 {
            assert xs[q[0] - vol[0].0] == q[0];
          }
        }
        if InVol(q[1..], vol[1..]) && vol[0].0 <= q[0] <= vol[0].1 {
          forall i | 0 <= i < |vol|
            ensures vol[i].0 <= q[i] <= vol[i].1
          {
            if i > 0 { assert q[1..][i - 1] == q[i]; }
          }
        }
        if InVol(q, vol) {
          forall i | 0 <= i < |vol| - 1
            ensures vol[1..][i].0 <= q[1..][i] <= vol[1..][i].1
          {
            assert q[1..][i] == q[i + 1];
          }
        }
      }
    }
  }

  lemma DistinctJoin(a: seq<Point>, b: seq<Point>)
    requires Distinct(a) && Distinct(b)
    requires forall i :: 0 <= i < |a| ==> a[i] !in b
    ensures Distinct(a + b)
  {
    forall i, j | 0 <= i < j < |a + b|
      ensures (a + b)[i] != (a + b)[j]
    {
      if j >= |a| && i < |a| {
        assert (a + b)[j] == b[j - |a|];
      }
    }
  }

  lemma {:induction false} LayerDistinct(xs: seq<int>, ps: seq<Point>)
    requires forall i, j :: 0 <= i < j < |xs| ==> xs[i] != xs[j]
    requires Distinct(ps)
    ensures Distinct(Layer(xs, ps))
    ensures |Layer(xs, ps)| == |xs| * |ps|
  {
    if xs != [] {
      LayerDistinct(xs[1..], ps);
      var pre, rest := Prefix(xs[0], ps), Layer(xs[1..], ps);
      forall i | 0 <= i < |pre|
        ensures pre[i] !in rest
      {
        LayerExact(xs[1..], ps, pre[i]);
        assert xs[0] !in xs[1..];
      }
      forall i, j | 0 <= i < j < |pre|
        ensures pre[i] != pre[j]
      {
        assert pre[i][1..] == ps[i] && pre[j][1..] == ps[j];
      }
      DistinctJoin(pre, rest);
    }
  }

  /** The product of the lengths of a box's ranges. */
  function Size(vol: Volume): nat
    decreases |vol|
  {
    if vol == [] then 1
    else (if vol[0].0 <= vol[0].1 then vol[0].1 - vol[0].0 + 1 else 0) * Size(vol[1..])
  }

  /** `iter_vol` yields each point of the box once, so it yields as many
      points as the box holds. */
  lemma {:induction false} IterVolDistinct(vol: Volume)
    ensures Distinct(IterVol(vol))
    ensures |IterVol(vol)| == Size(vol)
    decreases |vol|
  {
    if vol != [] {
      IterVolDistinct(vol[1..]);
      LayerDistinct(Ints(vol[0].0, vol[0].1), IterVol(vol[1..]));
    }
  }

  function Pow3(n: nat): nat
  {
    if n == 0 then 1 else 3 * Pow3(n - 1)
  }

  /** A neighbourhood holds 3^N points. */
  lemma {:induction false} NeighborhoodSize(p: Point)
    ensures |IterVol(Neighborhood(p))| == Pow3(|p|)
  {
    IterVolDistinct(Neighborhood(p));
    NeighborhoodSizeFrom(Neighborhood(p));
  }

  lemma {:induction false} NeighborhoodSizeFrom(vol: Volume)
    requires forall i :: 0 <= i < |vol| ==> vol[i].1 == vol[i].0 + 2
    ensures Size(vol) == Pow3(|vol|)
    decreases |vol|
  {
    if vol != [] {
      NeighborhoodSizeFrom(vol[1..]);
    }
  }

  /** The live points of s other than p, counted along s, as the chain of
      filters in `next` counts them. */
  function CountLive(s: seq<Point>, p: Point, prev: State): nat
  {
    if s == [] then 0
    else (if s[0] != p && s[0] in prev then 1 else 0) + CountLive(s[1..], p, prev)
  }

  /** The number of live neighbours of p, as `next` computes it. */
  function NeighbourCount(prev: State, p: Point): nat
  {
    CountLive(IterVol(Neighborhood(p)), p, prev)
  }

  /** The live neighbours of p. */
  ghost function Neighbours(prev: State, p: Point): set<Point>
  {
    set q | q in prev && Adjacent(q, p)
  }

  /** The rule of the automaton: exactly 3 live neighbours, or exactly 2 and
      live already. */
  ghost predicate Lives(prev: State, p: Point)
  {
    var k := |Neighbours(prev, p)|;
    k == 3 || (k == 2 && p in prev)
  }

  ghost function Hits(s: seq<Point>, p: Point, prev: State): set<Point>
  {
    set q | q in s && q != p && q in prev
  }

  lemma DistinctTail(s: seq<Point>)
    requires Distinct(s) && s != []
    ensures Distinct(s[1..]) && s[0] !in s[1..]
  {
    var rest := s[1..];
    forall i, j | 0 <= i < j < |rest|
      ensures rest[i] != rest[j]
    {
      assert rest[i] == s[i + 1] && rest[j] == s[j + 1];
    }
  }

  lemma HitsSplit(s: seq<Point>, p: Point, prev: State)
    requires s != []
    ensures Hits(s, p, prev) == (if s[0] != p && s[0] in prev then {s[0]} else {}) + Hits(s[1..], p, prev)
  {
    assert s == [s[0]] + s[1..];
  }

  lemma {:induction false} CountHits(s: seq<Point>, p: Point, prev: State)
    requires Distinct(s)
    ensures CountLive(s, p, prev) == |Hits(s, p, prev)|
  {
    if s != [] {
      DistinctTail(s);
      CountHits(s[1..], p, prev);
      HitsSplit(s, p, prev);
    }
  }

  /** The count `next` computes is the number of live neighbours: the
      neighbourhood box holds each point once, and the cell itself is
      filtered out. */
  lemma NeighbourCountExact(prev: State, p: Point)
    ensures NeighbourCount(prev, p) == |Neighbours(prev, p)|
  {
    var s := IterVol(Neighborhood(p));
    IterVolDistinct(Neighborhood(p));
    CountHits(s, p, prev);
    forall q
      ensures q in Hits(s, p, prev) <==> q in Neighbours(prev, p)
    {
      IterVolExact(Neighborhood(p), q);
    }
    assert Hits(s, p, prev) == Neighbours(prev, p);
  }

  lemma SubsetSize(a: State, b: State)
    requires a <= b
    ensures |a| <= |b|
  {
    assert b == a + (b - a);
  }

  /** A live point has a live neighbour, so every point of the next
      generation lies within 1 of some live point, and thus in the bounding
      box of the live points widened by 1 on every axis. */
  lemma LiveNearPrev(prev: State, p: Point)
    requires Lives(prev, p)
    ensures exists q :: q in prev && Adjacent(q, p)
  {
    var q :| q in Neighbours(prev, p);
  }

  /** With fewer than two live points nothing lives in the next generation:
      no point has two live neighbours. */
  lemma Sparse(prev: State, p: Point)
    requires |prev| < 2
    ensures !Lives(prev, p)
  {
    SubsetSize(Neighbours(prev, p), prev);
  }

  /** vol holds every live point strictly inside it on every axis. */
  ghost predicate Widened(prev: State, vol: Volume)
  {
    forall q, j :: q in prev && 0 <= j < |vol| && j < |q| ==> vol[j].0 < q[j] < vol[j].1
  }

  /** A point that will live lies in a box widened around the live points. */
  lemma InWidened(prev: State, vol: Volume, p: Point)
    requires forall q :: q in prev ==> |q| == |vol|
    requires Widened(prev, vol) && |p| == |vol| && Lives(prev, p)
    ensures InVol(p, vol)
  {
    LiveNearPrev(prev, p);
    var q :| q in prev && Adjacent(q, p);
    forall j | 0 <= j < |vol|
      ensures vol[j].0 <= p[j] <= vol[j].1
    {
      assert vol[j].0 < q[j] < vol[j].1;
    }
  }

  /** What `minmax` reports of a run of numbers. */
  datatype MinMaxResult = NoElements | OneElement(x: int) | MinMax(lo: int, hi: int)

  /** r is what `minmax` reports of axis i over the points of seen. */
  ghost predicate Reports(r: MinMaxResult, seen: State, i: nat)
    requires forall p :: p in seen ==> i < |p|
  {
    && (r.NoElements? <==> |seen| == 0)
    && (r.OneElement? <==> |seen| == 1)
    && (r.OneElement? ==> forall p :: p in seen ==> p[i] == r.x)
    && (r.MinMax? ==> forall p :: p in seen ==> r.lo <= p[i] <= r.hi)
    && (r.MinMax? ==> exists p, q :: p in seen && q in seen && p[i] == r.lo && q[i] == r.hi)
  }

  /** The report after one more number. */
  function Push(r: MinMaxResult, x: int): MinMaxResult
  {
    match r
    case NoElements => OneElement(x)
    case OneElement(y) => MinMax(if x < y then x else y, if x < y then y else x)
    case MinMax(lo, hi) => MinMax(if x < lo then x else lo, if x > hi then x else hi)
  }

  lemma ReportsNone(i: nat)
    ensures Reports(NoElements, {}, i)
  {
  }

  lemma PushReports(r: MinMaxResult, seen: State, p: Point, i: nat)
    requires forall q :: q in seen ==> i < |q|
    requires i < |p| && p !in seen && Reports(r, seen, i)
    ensures Reports(Push(r, p[i]), seen + {p}, i)
  {
    if r.OneElement? {
      var q :| q in seen;
      assert seen == (seen - {q}) + {q};
      assert seen - {q} == {};
    }
  }

  /** Axis i's minimum and maximum over the live points, or how few points
      there are. */
  method MinMaxAxis(prev: State, i: nat) returns (r: MinMaxResult)
    requires forall p :: p in prev ==> i < |p|
    ensures Reports(r, prev, i)
  {
    r := NoElements;
    var rest := prev;
    ghost var done: State := {};
    ReportsNone(i);
    while rest != {}
      invariant done <= prev && rest == prev - done
      invariant Reports(r, done, i)
      decreases rest
    {
      var p :| p in rest;
      PushReports(r, done, p, i);
      r := Push(r, p[i]);
      done := done + {p};
      rest := rest - {p};
    }
    assert done == prev;
  }

  /** One generation: every point of the widened bounding box whose live
      neighbour count obeys the rule. */
  method Next(prev: State, n: nat) returns (next: State)
    requires forall p :: p in prev ==> |p| == n
    ensures forall p :: p in next <==> |p| == n && Lives(prev, p)
  {
    var vol, found := Bounds(prev, n);
    if !found {
      forall p
        ensures !Lives(prev, p)
      {
        Sparse(prev, p);
      }
      return {};
    }
    next := Collect(prev, vol);
    BoxSuffices(prev, vol, next);
  }

  /** The bounding box of the live points widened by one on every axis, or
      a report that fewer than two points live. */
  method Bounds(prev: State, n: nat) returns (vol: Volume, found: bool)
    requires forall p :: p in prev ==> |p| == n
    ensures found ==> |vol| == n && Widened(prev, vol)
    ensures !found ==> |prev| < 2
  {
    vol := seq(n, _ => (0, 0));
    for i := 0 to n
      invariant |vol| == n
      invariant forall q, j :: q in prev && 0 <= j < i ==> vol[j].0 < q[j] < vol[j].1
    {
      var m := MinMaxAxis(prev, i);
      assert m.MinMax? || |prev| < 2;
      match m {
        case MinMax(lo, hi) =>
          vol := vol[i := (lo - 1, hi + 1)];
        case _ =>
          return vol, false;
      }
    }
    found := true;
  }

  /** The points of the box that obey the rule. */
  method Collect(prev: State, vol: Volume) returns (next: State)
    ensures forall p :: p in next <==> p in IterVol(vol) && Lives(prev, p)
  {
    next := {};
    var cells := IterVol(vol);
    for k := 0 to |cells|
      invariant forall p :: p in next <==> p in cells[..k] && Lives(prev, p)
    {
      var cell := cells[k];
      var count := NeighbourCount(prev, cell);
      NeighbourCountExact(prev, cell);
      if count == 3 || (count == 2 && cell in prev) {
        next := next + {cell};
      }
      assert cells[..k + 1] == cells[..k] + [cell];
    }
    assert cells[..|cells|] == cells;
  }

  /** Collecting the points of a widened box that obey the rule misses no
      point that obeys it. */
  lemma BoxSuffices(prev: State, vol: Volume, next: State)
    requires forall q :: q in prev ==> |q| == |vol|
    requires Widened(prev, vol)
    requires forall p :: p in next <==> p in IterVol(vol) && Lives(prev, p)
    ensures forall p :: p in next <==> |p| == |vol| && Lives(prev, p)
  {
    forall p
      ensures p in next <==> |p| == |vol| && Lives(prev, p)
    {
      IterVolExact(vol, p);
      if |p| == |vol| && Lives(prev, p) {
        InWidened(prev, vol, p);
      }
    }
  }

  /** next is the generation after prev. */
  ghost predicate IsNext(prev: State, next: State, n: nat)
  {
    forall p :: p in next <==> |p| == n && Lives(prev, p)
  }

  /** The point for column x of row y: (x, y, 0, ..., 0). */
  function Place(x: int, y: int, n: nat): (p: Point)
    requires n >= 2
    ensures |p| == n && p[0] == x && p[1] == y
    ensures forall j :: 2 <= j < n ==> p[j] == 0
  {
    [x, y] + seq(n - 2, _ => 0)
  }

  /** state holds the '#' cells of grid at (x, y, 0, ..., 0), and nothing
      else. */
  ghost predicate Parsed(grid: seq<seq<bool>>, n: nat, state: State)
  {
    forall p :: p in state <==>
      |p| == n && n >= 2 && 0 <= p[1] < |grid| && 0 <= p[0] < |grid[p[1]]| && grid[p[1]][p[0]]
      && forall j :: 2 <= j < n ==> p[j] == 0
  }

  /** Places each live cell of the grid on the plane of the first two axes. */
  method Parse(grid: seq<seq<bool>>, n: nat) returns (state: State)
    requires n >= 2
    ensures Parsed(grid, n, state)
  {
    state := {};
    for y := 0 to |grid|
      invariant forall p :: p in state <==>
        |p| == n && 0 <= p[1] < y && 0 <= p[0] < |grid[p[1]]| && grid[p[1]][p[0]]
        && forall j :: 2 <= j < n ==> p[j] == 0
    {
      var row := grid[y];
      for x := 0 to |row|
        invariant forall p :: p in state <==>
          |p| == n && (0 <= p[1] < y || (p[1] == y && p[0] < x)) && 0 <= p[0] < |grid[p[1]]| && grid[p[1]][p[0]]
          && forall j :: 2 <= j < n ==> p[j] == 0
      {
        if row[x] {
          var point := Place(x, y, n);
          state := state + {point};
          forall p | |p| == n && p[0] == x && p[1] == y && forall j :: 2 <= j < n ==> p[j] == 0
            ensures p == point
          {
          }
        }
      }
    }
  }

  /** All live points of a state have n coordinates. */
  ghost predicate Dims(state: State, n: nat)
  {
    forall p :: p in state ==> |p| == n
  }

  /** Six generations from the parsed grid, and the number of live points
      then; `part1` runs it in 3 dimensions and `part2` in 4. */
  method Run(grid: seq<seq<bool>>, n: nat) returns (count: nat)
    requires n >= 2
    ensures exists h: seq<State> ::
      |h| == 7 && Parsed(grid, n, h[0]) && |h[6]| == count
      && forall k :: 0 <= k < 6 ==> IsNext(h[k], h[k + 1], n)
  {
    var state := Parse(grid, n);
    ghost var h := [state];
    for round := 0 to 6
      invariant |h| == round + 1 && h[round] == state && Parsed(grid, n, h[0])
      invariant Dims(state, n)
      invariant forall k :: 0 <= k < round ==> IsNext(h[k], h[k + 1], n)
    {
      state := Next(state, n);
      h := h + [state];
    }
    count := |state|;
  }

  method Part1(grid: seq<seq<bool>>) returns (count: nat)
    ensures exists h: seq<State> ::
      |h| == 7 && Parsed(grid, 3, h[0]) && |h[6]| == count
      && forall k :: 0 <= k < 6 ==> IsNext(h[k], h[k + 1], 3)
  {
    count := Run(grid, 3);
  }

  method Part2(grid: seq<seq<bool>>) returns (count: nat)
    ensures exists h: seq<State> ::
      |h| == 7 && Parsed(grid, 4, h[0]) && |h[6]| == count
      && forall k :: 0 <= k < 6 ==> IsNext(h[k], h[k + 1], 4)
  {
    count := Run(grid, 4);
  }

  /** The lines of the input as rows of cells, '#' for live. */
  function Read(lines: seq<string>): (grid: seq<seq<bool>>)
    ensures |grid| == |lines|
    ensures forall y :: 0 <= y < |lines| ==> |grid[y]| == |lines[y]|
  {
    seq(|lines|, y requires 0 <= y < |lines| =>
      seq(|lines[y]|, x requires 0 <= x < |lines[y]| => lines[y][x] == '#'))
  }

  function Show(grid: seq<seq<bool>>): (lines: seq<string>)
    ensures |lines| == |grid|
  {
    seq(|grid|, y requires 0 <= y < |grid| =>
      seq(|grid[y]|, x requires 0 <= x < |grid[y]| => if grid[y][x] then '#' else '.'))
  }

  /** A grid written with '#' and '.' reads back as itself. */
  lemma ReadShow(grid: seq<seq<bool>>)
    ensures Read(Show(grid)) == grid
  {
    var g := Read(Show(grid));
    forall y | 0 <= y < |grid|
      ensures g[y] == grid[y]
    {
    }
  }

  const Sample: seq<seq<bool>> := [[false, true, false], [false, false, true], [true, true, true]]

  /** The sample's glider sits on the plane z = 0. */
  lemma SampleParsed(state: State)
    requires Parsed(Sample, 3, state)
    ensures state == {[1, 0, 0], [2, 1, 0], [0, 2, 0], [1, 2, 0], [2, 2, 0]}
  {
    var want: State := {[1, 0, 0], [2, 1, 0], [0, 2, 0], [1, 2, 0], [2, 2, 0]};
    forall p | p in want
      ensures p in state
    {
    }
    forall p | p in state
      ensures p in want
    {
      assert p == [p[0], p[1], p[2]];
    }
  }
}
