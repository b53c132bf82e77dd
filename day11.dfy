/** Day 11: seating system. A grid of floor, empty and occupied seats
    evolves by a cellular rule until nothing changes; the answer is the
    number of occupied seats then. Rule 1 counts the 3x3 box around a seat
    (the seat included), rule 2 the first seat visible in each of the eight
    directions. */
module Day11 {
  import opened Outcomes

  datatype State = Empty | Occupied | Floor

  /** The byte each state is represented by. */
  function ToChar(s: State): char
  {
    match s
    case Empty => 'L'
    case Occupied => '#'
    case Floor => '.'
  }

  /** `State::from_char`: only '.', 'L' and '#' are accepted. */
  function FromChar(c: char): (r: Result<State>)
    ensures r.Ok? <==> c == '.' || c == 'L' || c == '#'
    ensures r.Ok? ==> ToChar(r.value) == c
    ensures !r.Ok? ==> r.Panic?
  {
    match c
    case '.' => Ok(Floor)
    case 'L' => Ok(Empty)
    case '#' => Ok(Occupied)
    case _ => Panic("explicit panic")
  }

  lemma CharRoundTrip(s: State)
    ensures FromChar(ToChar(s)) == Ok(s)
  {
  }

  type Grid = seq<seq<State>>

  /** A line of the input, char by char. */
  function ParseRow(line: string): (r: Result<seq<State>>)
    ensures r.Ok? ==> |r.value| == |line|
    ensures !r.Ok? ==> r.Panic?
  {
    if line == [] then Ok([])
    else
      match FromChar(line[0])
      case Ok(s) => (match ParseRow(line[1..]) case Ok(rest) => Ok([s] + rest) case Panic(m) => Panic(m) case Err(m) => Err(m))
      case Panic(m) => Panic(m)
      case Err(m) => Err(m)
  }

  /** `read`: one row per line. */
  function ParseGrid(lines: seq<string>): (r: Result<Grid>)
    ensures r.Ok? ==> |r.value| == |lines|
    ensures !r.Ok? ==> r.Panic?
  {
    if lines == [] then Ok([])
    else
      match ParseRow(lines[0])
      case Ok(row) => (match ParseGrid(lines[1..]) case Ok(rest) => Ok([row] + rest) case Panic(m) => Panic(m) case Err(m) => Err(m))
      case Panic(m) => Panic(m)
      case Err(m) => Err(m)
  }

  function RenderRow(row: seq<State>): (line: string)
    ensures |line| == |row|
  {
    if row == [] then [] else [ToChar(row[0])] + RenderRow(row[1..])
  }

  function Render(g: Grid): seq<string>
  {
    if g == [] then [] else [RenderRow(g[0])] + Render(g[1..])
  }

  /** Reading a rendered grid gives the grid back, and a grid that reads
      renders to the lines it was read from. */
  lemma {:induction false} ParseRender(g: Grid)
    ensures ParseGrid(Render(g)) == Ok(g)
  {
    if g != [] {
      ParseRender(g[1..]);
      ParseRenderRow(g[0]);
      assert g == [g[0]] + g[1..];
      var lines := Render(g);
      assert lines[0] == RenderRow(g[0]) && lines[1..] == Render(g[1..]);
    }
  }

  lemma {:induction false} ParseRenderRow(row: seq<State>)
    ensures ParseRow(RenderRow(row)) == Ok(row)
  {
    if row != [] {
      ParseRenderRow(row[1..]);
      CharRoundTrip(row[0]);
      assert row == [row[0]] + row[1..];
      var line := RenderRow(row);
      assert line[0] == ToChar(row[0]) && line[1..] == RenderRow(row[1..]);
    }
  }

  lemma {:induction false} RenderParse(lines: seq<string>)
    requires ParseGrid(lines).Ok?
    ensures Render(ParseGrid(lines).value) == lines
  {
    if lines != [] {
      RenderParse(lines[1..]);
      RenderParseRow(lines[0]);
    }
  }

  lemma {:induction false} RenderParseRow(line: string)
    requires ParseRow(line).Ok?
    ensures RenderRow(ParseRow(line).value) == line
  {
    if line != [] {
      RenderParseRow(line[1..]);
    }
  }

  // ---------------------------------------------------------------- grids

  /** What the generations need to index without panicking: `prev[0]`
      exists, and every row reaches the first row's width. */
  predicate Shaped(g: Grid)
  {
    |g| >= 1 && forall y :: 0 <= y < |g| ==> |g[y]| >= |g[0]|
  }

  /** The width the generations sweep: cells past it in a longer row are
      never updated. */
  function Width(g: Grid): nat
    requires |g| >= 1
  {
    |g[0]|
  }

  /** 1 for an occupied seat inside the swept area, 0 elsewhere, off the
      grid included. */
  function OccAt(g: Grid, x: int, y: int): (n: nat)
    requires Shaped(g)
    ensures n <= 1
  {
    if 0 <= y < |g| && 0 <= x < Width(g) && g[y][x] == Occupied then 1 else 0
  }

  // ---------------------------------------------------------------- rule 1

  /** Occupied cells `lo..hi` of row y. */
  function RowSum(g: Grid, y: int, lo: nat, hi: nat): nat
    requires Shaped(g)
    decreases hi
  {
    if hi <= lo then 0 else RowSum(g, y, lo, hi - 1) + OccAt(g, hi - 1, y)
  }

  /** Occupied cells in columns `xlo..xhi` of rows `ylo..yhi`. */
  function BoxSum(g: Grid, xlo: nat, xhi: nat, ylo: nat, yhi: nat): nat
    requires Shaped(g)
    decreases yhi
  {
    if yhi <= ylo then 0 else BoxSum(g, xlo, xhi, ylo, yhi - 1) + RowSum(g, yhi - 1, xlo, xhi)
  }

  /** The count `generation` takes: the 3x3 box around (x, y), clipped to
      the grid with saturating subtraction and `min`, the cell itself
      included. */
  function Box(g: Grid, x: nat, y: nat): nat
    requires Shaped(g) && x < Width(g) && y < |g|
  {
    BoxSum(g, Lo(x), Hi(x, Width(g)) + 1, Lo(y), Hi(y, |g|) + 1)
  }

  /** `c.saturating_sub(1)`. */
  function Lo(c: nat): nat
  {
    if c >= 1 then c - 1 else 0
  }

  /** `c.add(1).min(n - 1)`. */
  function Hi(c: nat, n: nat): nat
    requires c < n
  {
    if c + 1 <= n - 1 then c + 1 else n - 1
  }

  // ---------------------------------------------------------------- rule 2

  /** The eight directions in the order `gen2` scans them. */
  const Dirs: seq<(int, int)> := [(-1, -1), (-1, 0), (-1, 1), (0, -1), (0, 1), (1, -1), (1, 0), (1, 1)]

  predicate IsDir(d: (int, int))
  {
    -1 <= d.0 <= 1 && -1 <= d.1 <= 1 && d != (0, 0)
  }

  /** Coordinate c moved r steps in direction d. */
  function Along(c: nat, r: nat, d: int): int
  {
    if d < 0 then c - r else if d > 0 then c + r else c
  }

  /** The ray of `gen2` from step r on: 1 if the first seat it meets is
      occupied, 0 if it is empty or the ray leaves the grid first. */
  function Ray(g: Grid, x: nat, y: nat, d: (int, int), r: nat): (n: nat)
    requires Shaped(g) && x < Width(g) && y < |g| && IsDir(d) && r >= 1
    ensures n <= 1
    decreases Width(g) + |g| - r
  {
    if (r > x && d.0 < 0) || (r + x >= Width(g) && d.0 > 0) then 0
    else if (r > y && d.1 < 0) || (r + y >= |g| && d.1 > 0) then 0
    else
      var s := g[Along(y, r, d.1)][Along(x, r, d.0)];
      if s == Occupied then 1
      else if s == Empty then 0
      else Ray(g, x, y, d, r + 1)
  }

  datatype Rule = Adjacent | Visible

  /** What one direction contributes: the neighbour there (rule 1) or the
      first seat seen along it (rule 2). */
  function Look(rule: Rule, g: Grid, x: nat, y: nat, d: (int, int)): nat
    requires Shaped(g) && x < Width(g) && y < |g| && IsDir(d)
  {
    if rule == Adjacent then OccAt(g, x + d.0, y + d.1) else Ray(g, x, y, d, 1)
  }

  function DirSum(rule: Rule, g: Grid, x: nat, y: nat, ds: seq<(int, int)>): nat
    requires Shaped(g) && x < Width(g) && y < |g|
    requires forall k :: 0 <= k < |ds| ==> IsDir(ds[k])
  {
    if ds == [] then 0 else DirSum(rule, g, x, y, ds[..|ds| - 1]) + Look(rule, g, x, y, ds[|ds| - 1])
  }

  /** The occupied seats among the eight neighbours. */
  function Neighbours(g: Grid, x: nat, y: nat): nat
    requires Shaped(g) && x < Width(g) && y < |g|
  {
    DirSum(Adjacent, g, x, y, Dirs)
  }

  /** The occupied seats among the first seats seen in the eight directions. */
  function Seen(g: Grid, x: nat, y: nat): nat
    requires Shaped(g) && x < Width(g) && y < |g|
  {
    DirSum(Visible, g, x, y, Dirs)
  }

  // ---------------------------------------------------------------- a generation

  /** The count each generation compares with its thresholds. */
  function Count(rule: Rule, g: Grid, x: nat, y: nat): nat
    requires Shaped(g) && x < Width(g) && y < |g|
  {
    if rule == Adjacent then Box(g, x, y) else Seen(g, x, y)
  }

  /** The new state of a swept cell: floor stays, an empty seat with a count
      of 0 fills, an occupied seat with a count of 5 or more empties. */
  function Next(rule: Rule, g: Grid, x: nat, y: nat): State
    requires Shaped(g) && x < Width(g) && y < |g|
  {
    var seat := g[y][x];
    if seat == Floor then Floor
    else
      var n := Count(rule, g, x, y);
      if seat == Empty && n == 0 then Occupied
      else if seat == Occupied && n >= 5 then Empty
      else seat
  }

  /** The whole grid after one generation, every cell computed from `g`. */
  function Step(rule: Rule, g: Grid): Grid
    requires Shaped(g)
  {
    seq(|g|, y requires 0 <= y < |g| =>
      seq(|g[y]|, x requires 0 <= x < |g[y]| => if x < Width(g) then Next(rule, g, x, y) else g[y][x]))
  }

  /** A generation keeps the grid's shape, and floor stays floor while
      seats stay seats. */
  lemma StepShape(rule: Rule, g: Grid)
    requires Shaped(g)
    ensures |Step(rule, g)| == |g| && Shaped(Step(rule, g))
    ensures forall y :: 0 <= y < |g| ==> |Step(rule, g)[y]| == |g[y]|
    ensures forall y, x :: 0 <= y < |g| && 0 <= x < |g[y]| ==> (Step(rule, g)[y][x] == Floor <==> g[y][x] == Floor)
  {
  }

  /** A cell some generation changes. */
  predicate Changes(rule: Rule, g: Grid, x: nat, y: nat)
    requires Shaped(g) && x < Width(g) && y < |g|
  {
    Next(rule, g, x, y) != g[y][x]
  }

  /** `gen2`'s scan along one direction. */
  method LookAlong(g: Grid, x: nat, y: nat, d: (int, int)) returns (n: nat)
    requires Shaped(g) && x < Width(g) && y < |g| && IsDir(d)
    ensures n == Ray(g, x, y, d, 1)
  {
    var r := 1;
    while true
      invariant r >= 1
      invariant Ray(g, x, y, d, r) == Ray(g, x, y, d, 1)
      decreases Width(g) + |g| - r
    {
      if (r > x && d.0 < 0) || (r + x >= Width(g) && d.0 > 0) {
        return 0;
      } else if (r > y && d.1 < 0) || (r + y >= |g| && d.1 > 0) {
        return 0;
      }
      var s := g[Along(y, r, d.1)][Along(x, r, d.0)];
      if s == Occupied {
        return 1;
      } else if s == Empty {
        return 0;
      }
      r := r + 1;
    }
  }

  /** `gen2`'s count: the eight scans added up. */
  method CountSeen(g: Grid, x: nat, y: nat) returns (n: nat)
    requires Shaped(g) && x < Width(g) && y < |g|
    ensures n == Seen(g, x, y)
  {
    n := 0;
    for i := 0 to |Dirs|
      invariant n == DirSum(Visible, g, x, y, Dirs[..i])
    {
      assert Dirs[..i + 1][..i] == Dirs[..i];
      var hit := LookAlong(g, x, y, Dirs[i]);
      n := n + hit;
    }
    assert Dirs[..|Dirs|] == Dirs;
  }

  /** The body of the sweep for one cell: floor is skipped, seats are
      counted around and flipped when their threshold is met. */
  method NewState(rule: Rule, prev: Grid, x: nat, y: nat) returns (seat: State, flipped: bool)
    requires Shaped(prev) && x < Width(prev) && y < |prev|
    ensures seat == Next(rule, prev, x, y)
    ensures flipped <==> Changes(rule, prev, x, y)
  {
    seat := prev[y][x];
    if seat == Floor {
      return seat, false;
    }
    var n;
    if rule == Adjacent {
      n := Box(prev, x, y);
    } else {
      n := CountSeen(prev, x, y);
    }
    if seat == Empty && n == 0 {
      seat, flipped := Occupied, true;
    } else if seat == Occupied && n >= 5 {
      seat, flipped := Empty, true;
    } else {
      flipped := false;
    }
  }

  /** `generation` (rule 1) and `gen2` (rule 2): every swept cell is
      recomputed from `prev` into a copy, and the flag records whether any
      changed. */
  method Generation(rule: Rule, prev: Grid) returns (next: Grid, changed: bool)
    requires Shaped(prev)
    ensures next == Step(rule, prev)
    ensures changed <==> next != prev
  {
    var w, h := |prev[0]|, |prev|;
    next, changed := prev, false;
    for x := 0 to w
      invariant |next| == h && forall y :: 0 <= y < h ==> |next[y]| == |prev[y]|
      invariant forall y, x' :: 0 <= y < h && 0 <= x' < |prev[y]| ==>
                  next[y][x'] == if x' < x then Next(rule, prev, x', y) else prev[y][x']
      invariant changed <==> exists y, x' :: 0 <= y < h && 0 <= x' < x && Changes(rule, prev, x', y)
    {
      for y := 0 to h
        invariant |next| == h && forall y :: 0 <= y < h ==> |next[y]| == |prev[y]|
        invariant forall y', x' :: 0 <= y' < h && 0 <= x' < |prev[y']| ==>
                    next[y'][x'] == if x' < x || (x' == x && y' < y) then Next(rule, prev, x', y') else prev[y'][x']
        invariant changed <==> exists y', x' :: 0 <= y' < h && (0 <= x' < x || (x' == x && y' < y)) && Changes(rule, prev, x', y')
      {
        var seat, flipped := NewState(rule, prev, x, y);
        if flipped {
          next := next[y := next[y][x := seat]];
          changed := true;
        }
      }
    }
    StepMatches(rule, prev, next);
  }

  /** A grid that holds the new state in every swept cell and the old one
      elsewhere is the step, and it differs from the old grid exactly when
      some cell changes. */
  lemma StepMatches(rule: Rule, prev: Grid, next: Grid)
    requires Shaped(prev)
    requires |next| == |prev| && forall y :: 0 <= y < |prev| ==> |next[y]| == |prev[y]|
    requires forall y, x :: 0 <= y < |prev| && 0 <= x < |prev[y]| ==>
               next[y][x] == if x < Width(prev) then Next(rule, prev, x, y) else prev[y][x]
    ensures next == Step(rule, prev)
    ensures next != prev <==> exists y, x :: 0 <= y < |prev| && 0 <= x < Width(prev) && Changes(rule, prev, x, y)
  {
    var s := Step(rule, prev);
    assert forall y :: 0 <= y < |prev| ==> next[y] == s[y];
    if next != prev {
      var y :| 0 <= y < |prev| && next[y] != prev[y];
      var x :| 0 <= x < |prev[y]| && next[y][x] != prev[y][x];
      assert Changes(rule, prev, x, y);
    }
  }

  // ---------------------------------------------------------------- the rules explained

  /** Off-grid rows hold no occupied seat. */
  lemma {:induction false} RowSumOff(g: Grid, y: int, lo: nat, hi: nat)
    requires Shaped(g) && (y < 0 || y >= |g|)
    ensures RowSum(g, y, lo, hi) == 0
    decreases hi
  {
    if hi > lo {
      RowSumOff(g, y, lo, hi - 1);
    }
  }

  /** A row of the box is the three cells around column x, clipping only
      dropping cells off the grid. */
  lemma RowThree(g: Grid, x: nat, y: int)
    requires Shaped(g) && x < Width(g)
    ensures RowSum(g, y, Lo(x), Hi(x, Width(g)) + 1) == OccAt(g, x - 1, y) + OccAt(g, x, y) + OccAt(g, x + 1, y)
  {
    var lo := Lo(x);
    assert RowSum(g, y, lo, lo) == 0;
    if x >= 1 {
      assert RowSum(g, y, lo, lo + 1) == OccAt(g, x - 1, y);
      assert RowSum(g, y, lo, lo + 2) == OccAt(g, x - 1, y) + OccAt(g, x, y);
    } else {
      assert RowSum(g, y, lo, lo + 1) == OccAt(g, x, y);
    }
  }

  /** The box is the three rows around row y, clipping only dropping rows
      off the grid. */
  lemma BoxRows(g: Grid, x: nat, y: nat)
    requires Shaped(g) && x < Width(g) && y < |g|
    ensures var lo, hi := Lo(x), Hi(x, Width(g)) + 1;
      Box(g, x, y) == RowSum(g, y - 1, lo, hi) + RowSum(g, y, lo, hi) + RowSum(g, y + 1, lo, hi)
  {
    var lo, hi := Lo(x), Hi(x, Width(g)) + 1;
    var ylo := Lo(y);
    assert BoxSum(g, lo, hi, ylo, ylo) == 0;
    if y == 0 {
      RowSumOff(g, -1, lo, hi);
      assert BoxSum(g, lo, hi, ylo, y + 1) == RowSum(g, y, lo, hi);
    } else {
      assert BoxSum(g, lo, hi, ylo, y) == RowSum(g, y - 1, lo, hi);
    }
    assert BoxSum(g, lo, hi, ylo, y + 1) == RowSum(g, y - 1, lo, hi) + RowSum(g, y, lo, hi);
    if y + 1 == |g| {
      RowSumOff(g, y + 1, lo, hi);
    } else {
      assert Box(g, x, y) == BoxSum(g, lo, hi, ylo, y + 2);
    }
  }

  /** The box count is the cell itself plus its eight neighbours. */
  lemma BoxSelf(g: Grid, x: nat, y: nat)
    requires Shaped(g) && x < Width(g) && y < |g|
    ensures Box(g, x, y) == OccAt(g, x, y) + Neighbours(g, x, y)
  {
    BoxRows(g, x, y);
    RowThree(g, x, y - 1);
    RowThree(g, x, y);
    RowThree(g, x, y + 1);
    NeighboursTerms(g, x, y);
  }

  /** The eight neighbours one by one. */
  lemma NeighboursTerms(g: Grid, x: nat, y: nat)
    requires Shaped(g) && x < Width(g) && y < |g|
    ensures Neighbours(g, x, y) ==
      OccAt(g, x - 1, y - 1) + OccAt(g, x - 1, y) + OccAt(g, x - 1, y + 1) + OccAt(g, x, y - 1) +
      OccAt(g, x, y + 1) + OccAt(g, x + 1, y - 1) + OccAt(g, x + 1, y) + OccAt(g, x + 1, y + 1)
  {
    DirSumEight(Adjacent, g, x, y, Dirs);
  }

  /** A sum over eight directions, term by term. */
  lemma DirSumEight(rule: Rule, g: Grid, x: nat, y: nat, ds: seq<(int, int)>)
    requires Shaped(g) && x < Width(g) && y < |g|
    requires |ds| == 8 && forall i :: 0 <= i < |ds| ==> IsDir(ds[i])
    ensures DirSum(rule, g, x, y, ds) ==
      Look(rule, g, x, y, ds[0]) + Look(rule, g, x, y, ds[1]) + Look(rule, g, x, y, ds[2]) + Look(rule, g, x, y, ds[3]) +
      Look(rule, g, x, y, ds[4]) + Look(rule, g, x, y, ds[5]) + Look(rule, g, x, y, ds[6]) + Look(rule, g, x, y, ds[7])
  {
    DirSumFour(rule, g, x, y, ds, 0);
    DirSumFour(rule, g, x, y, ds, 4);
    assert ds[..8] == ds;
  }

  /** Four directions more. */
  lemma DirSumFour(rule: Rule, g: Grid, x: nat, y: nat, ds: seq<(int, int)>, k: nat)
    requires Shaped(g) && x < Width(g) && y < |g|
    requires k + 4 <= |ds| && forall i :: 0 <= i < |ds| ==> IsDir(ds[i])
    ensures DirSum(rule, g, x, y, ds[..k + 4]) == DirSum(rule, g, x, y, ds[..k]) +
      Look(rule, g, x, y, ds[k]) + Look(rule, g, x, y, ds[k + 1]) + Look(rule, g, x, y, ds[k + 2]) + Look(rule, g, x, y, ds[k + 3])
  {
    DirSumLast(rule, g, x, y, ds, k + 1);
    DirSumLast(rule, g, x, y, ds, k + 2);
    DirSumLast(rule, g, x, y, ds, k + 3);
    DirSumLast(rule, g, x, y, ds, k + 4);
  }

  /** The sum over a prefix one direction longer. */
  lemma DirSumLast(rule: Rule, g: Grid, x: nat, y: nat, ds: seq<(int, int)>, k: nat)
    requires Shaped(g) && x < Width(g) && y < |g|
    requires forall i :: 0 <= i < |ds| ==> IsDir(ds[i])
    requires 1 <= k <= |ds|
    ensures DirSum(rule, g, x, y, ds[..k]) == DirSum(rule, g, x, y, ds[..k - 1]) + Look(rule, g, x, y, ds[k - 1])
  {
    assert ds[..k][..k - 1] == ds[..k - 1];
  }

  /** Rule 1 in terms of the neighbours: since the box holds the seat too,
      an empty seat fills iff no neighbour is occupied and an occupied seat
      empties iff four or more neighbours are. */
  lemma AdjacentRule(g: Grid, x: nat, y: nat)
    requires Shaped(g) && x < Width(g) && y < |g|
    ensures g[y][x] == Empty ==> (Next(Adjacent, g, x, y) == Occupied <==> Neighbours(g, x, y) == 0)
    ensures g[y][x] == Occupied ==> (Next(Adjacent, g, x, y) == Empty <==> Neighbours(g, x, y) >= 4)
    ensures g[y][x] == Floor ==> Next(Adjacent, g, x, y) == Floor
  {
    BoxSelf(g, x, y);
  }

  /** Rule 2 thresholds: an empty seat fills iff it sees no occupied seat,
      an occupied one empties iff it sees five or more. */
  lemma VisibleRule(g: Grid, x: nat, y: nat)
    requires Shaped(g) && x < Width(g) && y < |g|
    ensures g[y][x] == Empty ==> (Next(Visible, g, x, y) == Occupied <==> Seen(g, x, y) == 0)
    ensures g[y][x] == Occupied ==> (Next(Visible, g, x, y) == Empty <==> Seen(g, x, y) >= 5)
    ensures g[y][x] == Floor ==> Next(Visible, g, x, y) == Floor
  {
  }

  predicate NoFloor(g: Grid)
  {
    forall y, x :: 0 <= y < |g| && 0 <= x < |g[y]| ==> g[y][x] != Floor
  }

  /** Without floor the first seat seen in a direction is the neighbour. */
  lemma LookNoFloor(g: Grid, x: nat, y: nat, d: (int, int))
    requires Shaped(g) && x < Width(g) && y < |g| && IsDir(d) && NoFloor(g)
    ensures Look(Visible, g, x, y, d) == Look(Adjacent, g, x, y, d)
  {
  }

  /** So on a grid without floor both rules count the same neighbours. */
  lemma {:induction false} SeenNoFloor(g: Grid, x: nat, y: nat, ds: seq<(int, int)>)
    requires Shaped(g) && x < Width(g) && y < |g| && NoFloor(g)
    requires forall k :: 0 <= k < |ds| ==> IsDir(ds[k])
    ensures DirSum(Visible, g, x, y, ds) == DirSum(Adjacent, g, x, y, ds)
  {
    if ds != [] {
      SeenNoFloor(g, x, y, ds[..|ds| - 1]);
      LookNoFloor(g, x, y, ds[|ds| - 1]);
    }
  }

  // ---------------------------------------------------------------- the parts

  /** Generations until one changes nothing, at most `fuel` of them. */
  function Settle(rule: Rule, g: Grid, fuel: nat): (r: Option<Grid>)
    requires Shaped(g)
    ensures r.Some? ==> Shaped(r.value) && Step(rule, r.value) == r.value
    decreases fuel
  {
    if fuel == 0 then None
    else
      var g' := Step(rule, g);
      StepShape(rule, g);
      if g' == g then Some(g') else Settle(rule, g', fuel - 1)
  }

  /** The occupied seats of the grid. */
  function CountOccupied(g: Grid): nat
  {
    if g == [] then 0 else CountOccupied(g[..|g| - 1]) + RowOccupied(g[|g| - 1])
  }

  function RowOccupied(row: seq<State>): nat
  {
    if row == [] then 0 else RowOccupied(row[..|row| - 1]) + (if row[|row| - 1] == Occupied then 1 else 0)
  }

  /** `part1` (rule 1) and `part2` (rule 2): generations until nothing
      changes, then the occupied seats. An empty or ragged grid panics in
      the first generation; `None` stands for a grid still changing after
      `fuel` generations. */
  method Part(rule: Rule, input: Grid, fuel: nat) returns (r: Option<Result<nat>>)
    ensures !Shaped(input) ==> r == Some(Panic("index out of bounds"))
    ensures Shaped(input) ==> (r.None? <==> Settle(rule, input, fuel).None?)
    ensures Shaped(input) && r.Some? ==> r.value == Ok(CountOccupied(Settle(rule, input, fuel).value))
  {
    if !Shaped(input) {
      return Some(Panic("index out of bounds"));
    }
    var g, k := input, fuel;
    while true
      invariant Shaped(g)
      invariant Settle(rule, g, k) == Settle(rule, input, fuel)
      decreases k
    {
      if k == 0 {
        return None;
      }
      var g', changed := Generation(rule, g);
      StepShape(rule, g);
      g := g';
      if !changed {
        break;
      }
      k := k - 1;
    }
    return Some(Ok(CountOccupied(g)));
  }
}
