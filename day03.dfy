/** Day 3: sledding down a map of trees that repeats to the right.
    Each row is parsed into booleans (`true` for a tree); `traverse` walks
    from the top-left corner by a slope (dx, dy) and counts the trees hit. */
module Day03 {

  /** The cells of one map row: a tree exactly where the text has '#'. */
  function Cells(s: string): seq<bool>
  {
    seq(|s|, i requires 0 <= i < |s| => s[i] == '#')
  }

  /** `Row::from_str`: one boolean per char, pushed in order. */
  method ParseRow(s: string) returns (row: seq<bool>)
    ensures |row| == |s|
    ensures forall i :: 0 <= i < |s| ==> (row[i] <==> s[i] == '#')
    ensures row == Cells(s)
  {
    row := [];
    for i := 0 to |s|
      invariant |row| == i
      invariant forall j :: 0 <= j < i ==> (row[j] <==> s[j] == '#')
    {
      row := row + [s[i] == '#'];
    }
  }

  /** The rows the walk visits from row y on (y, y + dy, ...) are non-empty;
      otherwise `x % row.len()` divides by zero. */
  predicate VisitedNonEmpty(rows: seq<seq<bool>>, dy: nat, y: nat)
    requires dy > 0
    decreases |rows| - y
  {
    y >= |rows| || (|rows[y]| > 0 && VisitedNonEmpty(rows, dy, y + dy))
  }

  /** Trees hit from position (x, y) on: row y at column x modulo that
      row's width, then (x + dx, y + dy), and so on while y is a row. */
  function TreesFrom(rows: seq<seq<bool>>, dx: nat, dy: nat, x: nat, y: nat): nat
    requires dy > 0 && VisitedNonEmpty(rows, dy, y)
    decreases |rows| - y
  {
    if y >= |rows| then 0
    else
      var row := rows[y];
      (if row[x % |row|] then 1 else 0) + TreesFrom(rows, dx, dy, x + dx, y + dy)
  }

  /** `traverse`: walks rows 0, dy, 2dy, ... and counts the trees hit. */
  method Traverse(rows: seq<seq<bool>>, dx: nat, dy: nat) returns (n: nat)
    requires dy > 0 && VisitedNonEmpty(rows, dy, 0)
    ensures n == TreesFrom(rows, dx, dy, 0, 0)
    ensures n * dy < |rows| + dy
  {
    n := 0;
    var x: nat, y: nat := 0, 0;
    while y < |rows|
      invariant VisitedNonEmpty(rows, dy, y)
      invariant n + TreesFrom(rows, dx, dy, x, y) == TreesFrom(rows, dx, dy, 0, 0)
      decreases |rows| - y
    {
      var row := rows[y];
      if row[x % |row|] {
        n := n + 1;
      }
      x := x + dx;
      y := y + dy;
    }
    TreesBound(rows, dx, dy, 0, 0);
  }

  /** At most one tree per visited row: the count from row y on, times dy,
      stays below the rows left plus dy, so the whole walk hits at most
      ceil(|rows| / dy) trees. */
  lemma {:induction false} TreesBound(rows: seq<seq<bool>>, dx: nat, dy: nat, x: nat, y: nat)
    requires dy > 0 && VisitedNonEmpty(rows, dy, y) && y < |rows| + dy
    ensures TreesFrom(rows, dx, dy, x, y) * dy < |rows| - y + dy
    decreases |rows| - y
  {
    if y < |rows| {
      TreesBound(rows, dx, dy, x + dx, y + dy);
      var t := TreesFrom(rows, dx, dy, x, y);
      var t1 := TreesFrom(rows, dx, dy, x + dx, y + dy);
      assert t <= t1 + 1;
      MulMono(dy, t, t1 + 1);
      assert (t1 + 1) * dy == t1 * dy + dy;
    }
  }

  lemma MulMono(m: nat, a: nat, b: nat)
    requires a <= b
    ensures a * m <= b * m
  {
  }

  /** `part1`: the trees hit on slope right 3, down 1. */
  method Part1(rows: seq<seq<bool>>) returns (n: nat)
    requires VisitedNonEmpty(rows, 1, 0)
    ensures n == TreesFrom(rows, 3, 1, 0, 0)
    ensures n <= |rows|
  {
    n := Traverse(rows, 3, 1);
  }

  /** The five slopes `part2` tries, as (right, down). */
  const Slopes: seq<(nat, nat)> := [(1, 1), (3, 1), (5, 1), (7, 1), (1, 2)]

  function Product(xs: seq<nat>): nat
  {
    if xs == [] then 1 else xs[0] * Product(xs[1..])
  }

  /** `part2`: the product of the tree counts over the five slopes. */
  method Part2(rows: seq<seq<bool>>) returns (p: nat)
    requires VisitedNonEmpty(rows, 1, 0) && VisitedNonEmpty(rows, 2, 0)
    ensures p == Product([TreesFrom(rows, 1, 1, 0, 0), TreesFrom(rows, 3, 1, 0, 0), TreesFrom(rows, 5, 1, 0, 0),
                          TreesFrom(rows, 7, 1, 0, 0), TreesFrom(rows, 1, 2, 0, 0)])
  {
    var a := Traverse(rows, 1, 1);
    var b := Traverse(rows, 3, 1);
    var c := Traverse(rows, 5, 1);
    var d := Traverse(rows, 7, 1);
    var e := Traverse(rows, 1, 2);
    p := Product([a, b, c, d, e]);
  }

  /** A map whose rows are all non-empty can be walked with any slope. */
  lemma {:induction false} AllNonEmpty(rows: seq<seq<bool>>, dy: nat, y: nat)
    requires dy > 0
    requires forall i :: 0 <= i < |rows| ==> |rows[i]| > 0
    ensures VisitedNonEmpty(rows, dy, y)
    decreases |rows| - y
  {
    if y < |rows| {
      AllNonEmpty(rows, dy, y + dy);
    }
  }

  /** The example map. */
  const SampleRows: seq<seq<bool>> := [
    Cells("..##......."),
    Cells("#...#...#.."),
    Cells(".#....#..#."),
    Cells("..#.#...#.#"),
    Cells(".#...##..#."),
    Cells("..#.##....."),
    Cells(".#.#.#....#"),
    Cells(".#........#"),
    Cells("#.##...#..."),
    Cells("#...##....#"),
    Cells(".#..#...#.#")
  ]

  /** The example map: 2, 7, 3, 4 and 2 trees on the five slopes; `part1`
      is the second, 7, and `part2` their product, 336. */
  lemma SampleSlope11()
    ensures VisitedNonEmpty(SampleRows, 1, 0)
    ensures TreesFrom(SampleRows, 1, 1, 0, 0) == 2
  {
    var rows := SampleRows;
    assert forall y :: 0 <= y < |rows| ==> |rows[y]| == 11;
    AllNonEmpty(rows, 1, 0);
    assert TreesFrom(rows, 1, 1, 11, 11) == 0;
    assert TreesFrom(rows, 1, 1, 10, 10) == 1;
    assert TreesFrom(rows, 1, 1, 9, 9) == 1;
    assert TreesFrom(rows, 1, 1, 8, 8) == 1;
    assert TreesFrom(rows, 1, 1, 7, 7) == 1;
    assert TreesFrom(rows, 1, 1, 6, 6) == 1;
    assert TreesFrom(rows, 1, 1, 5, 5) == 2;
    assert TreesFrom(rows, 1, 1, 4, 4) == 2;
    assert TreesFrom(rows, 1, 1, 3, 3) == 2;
    assert TreesFrom(rows, 1, 1, 2, 2) == 2;
    assert TreesFrom(rows, 1, 1, 1, 1) == 2;
    assert TreesFrom(rows, 1, 1, 0, 0) == 2;
  }

  lemma SampleSlope31()
    ensures VisitedNonEmpty(SampleRows, 1, 0)
    ensures TreesFrom(SampleRows, 3, 1, 0, 0) == 7
  {
    var rows := SampleRows;
    assert forall y :: 0 <= y < |rows| ==> |rows[y]| == 11;
    AllNonEmpty(rows, 1, 0);
    assert TreesFrom(rows, 3, 1, 33, 11) == 0;
    assert TreesFrom(rows, 3, 1, 30, 10) == 1;
    assert TreesFrom(rows, 3, 1, 27, 9) == 2;
    assert TreesFrom(rows, 3, 1, 24, 8) == 3;
    assert TreesFrom(rows, 3, 1, 21, 7) == 4;
    assert TreesFrom(rows, 3, 1, 18, 6) == 4;
    assert TreesFrom(rows, 3, 1, 15, 5) == 5;
    assert TreesFrom(rows, 3, 1, 12, 4) == 6;
    assert TreesFrom(rows, 3, 1, 9, 3) == 6;
    assert TreesFrom(rows, 3, 1, 6, 2) == 7;
    assert TreesFrom(rows, 3, 1, 3, 1) == 7;
    assert TreesFrom(rows, 3, 1, 0, 0) == 7;
  }

  lemma SampleSlope51()
    ensures VisitedNonEmpty(SampleRows, 1, 0)
    ensures TreesFrom(SampleRows, 5, 1, 0, 0) == 3
  {
    var rows := SampleRows;
    assert forall y :: 0 <= y < |rows| ==> |rows[y]| == 11;
    AllNonEmpty(rows, 1, 0);
    assert TreesFrom(rows, 5, 1, 55, 11) == 0;
    assert TreesFrom(rows, 5, 1, 50, 10) == 0;
    assert TreesFrom(rows, 5, 1, 45, 9) == 0;
    assert TreesFrom(rows, 5, 1, 40, 8) == 1;
    assert TreesFrom(rows, 5, 1, 35, 7) == 1;
    assert TreesFrom(rows, 5, 1, 30, 6) == 1;
    assert TreesFrom(rows, 5, 1, 25, 5) == 1;
    assert TreesFrom(rows, 5, 1, 20, 4) == 2;
    assert TreesFrom(rows, 5, 1, 15, 3) == 3;
    assert TreesFrom(rows, 5, 1, 10, 2) == 3;
    assert TreesFrom(rows, 5, 1, 5, 1) == 3;
    assert TreesFrom(rows, 5, 1, 0, 0) == 3;
  }

  lemma SampleSlope71()
    ensures VisitedNonEmpty(SampleRows, 1, 0)
    ensures TreesFrom(SampleRows, 7, 1, 0, 0) == 4
  {
    var rows := SampleRows;
    assert forall y :: 0 <= y < |rows| ==> |rows[y]| == 11;
    AllNonEmpty(rows, 1, 0);
    assert TreesFrom(rows, 7, 1, 77, 11) == 0;
    assert TreesFrom(rows, 7, 1, 70, 10) == 1;
    assert TreesFrom(rows, 7, 1, 63, 9) == 1;
    assert TreesFrom(rows, 7, 1, 56, 8) == 1;
    assert TreesFrom(rows, 7, 1, 49, 7) == 1;
    assert TreesFrom(rows, 7, 1, 42, 6) == 1;
    assert TreesFrom(rows, 7, 1, 35, 5) == 2;
    assert TreesFrom(rows, 7, 1, 28, 4) == 3;
    assert TreesFrom(rows, 7, 1, 21, 3) == 4;
    assert TreesFrom(rows, 7, 1, 14, 2) == 4;
    assert TreesFrom(rows, 7, 1, 7, 1) == 4;
    assert TreesFrom(rows, 7, 1, 0, 0) == 4;
  }

  lemma SampleSlope12()
    ensures VisitedNonEmpty(SampleRows, 2, 0)
    ensures TreesFrom(SampleRows, 1, 2, 0, 0) == 2
  {
    var rows := SampleRows;
    assert forall y :: 0 <= y < |rows| ==> |rows[y]| == 11;
    AllNonEmpty(rows, 2, 0);
    assert TreesFrom(rows, 1, 2, 6, 12) == 0;
    assert TreesFrom(rows, 1, 2, 5, 10) == 0;
    assert TreesFrom(rows, 1, 2, 4, 8) == 0;
    assert TreesFrom(rows, 1, 2, 3, 6) == 1;
    assert TreesFrom(rows, 1, 2, 2, 4) == 1;
    assert TreesFrom(rows, 1, 2, 1, 2) == 2;
    assert TreesFrom(rows, 1, 2, 0, 0) == 2;
  }

  lemma SampleProduct()
    ensures VisitedNonEmpty(SampleRows, 1, 0) && VisitedNonEmpty(SampleRows, 2, 0)
    ensures Product([TreesFrom(SampleRows, 1, 1, 0, 0), TreesFrom(SampleRows, 3, 1, 0, 0),
                     TreesFrom(SampleRows, 5, 1, 0, 0), TreesFrom(SampleRows, 7, 1, 0, 0),
                     TreesFrom(SampleRows, 1, 2, 0, 0)]) == 336
  {
    SampleSlope11();
    SampleSlope31();
    SampleSlope51();
    SampleSlope71();
    SampleSlope12();
    ProductOf5(2, 7, 3, 4, 2);
  }

  lemma ProductOf5(a: nat, b: nat, c: nat, d: nat, e: nat)
    ensures Product([a, b, c, d, e]) == a * (b * (c * (d * e)))
  {
    assert [a, b, c, d, e][1..] == [b, c, d, e];
    assert [b, c, d, e][1..] == [c, d, e];
    assert [c, d, e][1..] == [d, e];
    assert [d, e][1..] == [e];
    assert [e][1..] == [];
    assert Product([e]) == e;
    assert Product([d, e]) == d * e;
    assert Product([c, d, e]) == c * (d * e);
    assert Product([b, c, d, e]) == b * (c * (d * e));
  }
}
