/** Day 23: the crab's cup game. The cups sit in a circle, listed clockwise
    from the current cup. A move picks up the three cups after the current
    one, chooses a destination label (the current label minus one, wrapping
    from below 1 to the number of cups and skipping the picked labels),
    puts the three cups back right after the destination in the same
    order, and makes the cup after the current one current.

    `do_move` keeps the current cup at the front of a `VecDeque`; the model
    keeps the deque as a sequence and performs the same rotations, pops and
    inserts on it. */
module Day23 {
  import opened Outcomes

  // ---------------------------------------------------------- destination

  /** One step down from label x, wrapping from below 1 to `max`. */
  function Down(x: nat, max: nat): nat
  {
    if x < 2 then max else x - 1
  }

  /** A label among 1..4 that none of the three picked cups carries. */
  function FirstFree(picked: seq<nat>): (v: nat)
    requires |picked| == 3
    ensures 1 <= v <= 4 && v !in picked
  {
    if 1 !in picked then 1 else if 2 !in picked then 2 else if 3 !in picked then 3
    else
      assert picked == [picked[0], picked[1], picked[2]];
      4
  }

  /** How many steps down it takes from x to reach v. */
  function Dist(x: nat, v: nat, max: nat): nat
    requires v <= max
  {
    if x >= v then x - v else x + max - v
  }

  /** The first label at or below x (cyclically) that is not picked. */
  function DestFrom(x: nat, picked: seq<nat>, max: nat): (d: nat)
    requires 1 <= x && 4 <= max && |picked| == 3
    ensures 1 <= d && d !in picked
    decreases Dist(x, FirstFree(picked), max)
  {
    if x !in picked then x else DestFrom(Down(x, max), picked, max)
  }

  /** The destination label for current label c. */
  function Destination(c: nat, picked: seq<nat>, max: nat): (d: nat)
    requires 1 <= c && 4 <= max && |picked| == 3
  {
    DestFrom(Down(c, max), picked, max)
  }

  /** v lies strictly between d and c going down from c: the labels tried
      before d. */
  predicate Tried(d: nat, c: nat, v: nat)
  {
    if d < c then d < v < c else v < c || v > d
  }

  /** The destination is the first label below the current one, cyclically
      over 1..max, that was not picked up: every label tried before it was
      picked. */
  lemma DestinationLabel(c: nat, picked: seq<nat>, max: nat)
    requires 1 <= c <= max && 4 <= max && |picked| == 3 && c !in picked
    ensures var d := Destination(c, picked, max);
      1 <= d <= max && d !in picked &&
      forall v :: 1 <= v <= max && Tried(d, c, v) ==> v in picked
  {
    DestFromTried(Down(c, max), c, picked, max);
  }

  lemma {:induction false} DestFromTried(x: nat, c: nat, picked: seq<nat>, max: nat)
    requires 1 <= x <= max && 1 <= c <= max && 4 <= max && |picked| == 3 && c !in picked
    requires forall v :: 1 <= v <= max && Tried(x, c, v) ==> v in picked
    ensures var d := DestFrom(x, picked, max);
      d <= max && forall v :: 1 <= v <= max && Tried(d, c, v) ==> v in picked
    decreases Dist(x, FirstFree(picked), max)
  {
    if x in picked {
      var x' := Down(x, max);
      forall v | 1 <= v <= max && Tried(x', c, v) ensures v in picked {
        assert Tried(x, c, v) || v == x;
      }
      DestFromTried(x', c, picked, max);
    }
  }

  /** `do_move`'s destination loop. */
  method FindDestination(c: nat, picked: seq<nat>, max: nat) returns (dest: nat)
    requires 1 <= c && 4 <= max && |picked| == 3
    ensures dest == Destination(c, picked, max)
  {
    dest := c - 1;
    if dest < 1 {
      dest := max;
    }
    var v := FirstFree(picked);
    while dest in picked
      invariant 1 <= dest && DestFrom(dest, picked, max) == Destination(c, picked, max)
      decreases Dist(dest, v, max)
    {
      dest := dest - 1;
      if dest < 1 {
        dest := max;
      }
    }
  }

  // ------------------------------------------------------------- the search

  /** The j-th index `left.interleave(right)` visits over 0..n: 0, n-1, 1,
      n-2, and so on. */
  function Probe(n: nat, j: nat): (i: nat)
    requires j < 2 * n
    ensures i < n
  {
    if j % 2 == 0 then j / 2 else n - 1 - j / 2
  }

  /** The first index, in the interleaved order from the j-th on, holding
      `dest`. */
  function FindFrom(ring: seq<nat>, dest: nat, j: nat): (r: Option<nat>)
    ensures r.Some? ==> r.value < |ring| && ring[r.value] == dest
    decreases 2 * |ring| - j
  {
    if j >= 2 * |ring| then None
    else if ring[Probe(|ring|, j)] == dest then Some(Probe(|ring|, j))
    else FindFrom(ring, dest, j + 1)
  }

  /** The search finds the label whenever it is there; when it is there
      once, it finds its index. */
  lemma {:induction false} FindExact(ring: seq<nat>, dest: nat, j: nat, k: nat)
    requires k < |ring| && ring[k] == dest && j <= 2 * k
    ensures FindFrom(ring, dest, j).Some?
    ensures (forall i :: 0 <= i < |ring| && ring[i] == dest ==> i == k) ==> FindFrom(ring, dest, j) == Some(k)
    decreases 2 * |ring| - j
  {
    if ring[Probe(|ring|, j)] != dest {
      FindExact(ring, dest, j + 1, k);
    }
  }

  // -------------------------------------------------------------- the move

  /** One move as a function of the cups, listed from the current one. The
      deque operations panic on fewer than 4 cups: `rotate_left(1)` on an
      empty deque, a `pop_front` with fewer than three cups left, and
      `rotate_right(1)` once all cups are picked. A label 0 underflows, and a
      destination label no cup carries fails the search. */
  function Move(cups: seq<nat>): Result<seq<nat>>
  {
    if |cups| == 0 || |cups| == 3 then Panic("assertion failed: n <= self.len()")
    else if |cups| < 3 then Panic("called `Option::unwrap()` on a `None` value")
    else if cups[0] == 0 then Panic("attempt to subtract with overflow")
    else
      var picked := cups[1..4];
      var dest := Destination(cups[0], picked, |cups|);
      var ring := [cups[0]] + cups[4..];
      match FindFrom(ring, dest, 0)
      case None => Panic("called `Option::unwrap()` on a `None` value")
      case Some(i) =>
        var rotated := ring[1..] + [ring[0]];
        Ok(rotated[..i] + picked + rotated[i..])
  }

  /** The labels 1 to n in order. */
  function Iota(n: nat): seq<nat>
  {
    if n == 0 then [] else Iota(n - 1) + [n]
  }

  /** The cups labelled 1 to n, each once: a permutation of `Iota`. */
  predicate Labels(cups: seq<nat>)
  {
    multiset(cups) == multiset(Iota(|cups|))
  }

  lemma {:induction false} IotaCount(n: nat, v: nat)
    ensures multiset(Iota(n))[v] == if 1 <= v <= n then 1 else 0
  {
    if n > 0 {
      IotaCount(n - 1, v);
    }
  }

  /** Labelled cups carry each label from 1 to n exactly once, and no other. */
  lemma LabelsFacts(cups: seq<nat>)
    requires Labels(cups)
    ensures forall i :: 0 <= i < |cups| ==> 1 <= cups[i] <= |cups|
    ensures forall i, j :: 0 <= i < j < |cups| ==> cups[i] != cups[j]
    ensures forall v :: 1 <= v <= |cups| ==> v in cups
  {
    forall i | 0 <= i < |cups| ensures 1 <= cups[i] <= |cups| {
      assert cups[i] in multiset(cups);
      IotaCount(|cups|, cups[i]);
    }
    forall i, j | 0 <= i < j < |cups| ensures cups[i] != cups[j] {
      if cups[i] == cups[j] {
        assert cups == cups[..i] + [cups[i]] + cups[i + 1..j] + [cups[j]] + cups[j + 1..];
        assert multiset(cups)[cups[i]] >= 2;
        IotaCount(|cups|, cups[i]);
        assert false;
      }
    }
    forall v | 1 <= v <= |cups| ensures v in cups {
      IotaCount(|cups|, v);
      assert v in multiset(cups);
    }
  }

  /** A move keeps the same cups. */
  lemma MovePermutes(cups: seq<nat>)
    requires Move(cups).Ok?
    ensures multiset(Move(cups).value) == multiset(cups)
  {
    var picked := cups[1..4];
    var ring := [cups[0]] + cups[4..];
    var i := FindFrom(ring, Destination(cups[0], picked, |cups|), 0).value;
    var rotated := ring[1..] + [ring[0]];
    assert rotated == rotated[..i] + rotated[i..];
    assert cups == [cups[0]] + picked + cups[4..];
    calc {
      multiset(Move(cups).value);
      multiset(rotated[..i]) + multiset(picked) + multiset(rotated[i..]);
      multiset(rotated) + multiset(picked);
      multiset(ring) + multiset(picked);
      multiset(cups);
    }
  }

  /** The three picked cups come back right after the destination, in
      order, and the old current cup ends up last; when the destination is
      another cup, the cup after the picked ones becomes current. When the
      destination is the current cup itself (four cups), the picked cups
      lead, still right after it around the circle. */
  lemma MoveShape(cups: seq<nat>)
    requires Move(cups).Ok?
    ensures var r := Move(cups).value;
      var dest := Destination(cups[0], cups[1..4], |cups|);
      |r| == |cups| && r[|r| - 1] == cups[0] &&
      ((dest == cups[0] && r[..3] == cups[1..4]) ||
       (exists k :: 0 <= k < |cups| - 4 && cups[4 + k] == dest && r[k] == dest && r[k + 1..k + 4] == cups[1..4] &&
                    r[0] == cups[4]))
  {
    var picked := cups[1..4];
    var dest := Destination(cups[0], picked, |cups|);
    var ring := [cups[0]] + cups[4..];
    var i := FindFrom(ring, dest, 0).value;
    var rotated := ring[1..] + [ring[0]];
    var r := Move(cups).value;
    assert r == rotated[..i] + picked + rotated[i..];
    if i == 0 {
      assert r[..3] == picked;
    } else {
      var k := i - 1;
      assert ring[i] == cups[4 + k];
      assert r[k] == rotated[k] == ring[i];
      assert r[k + 1..k + 4] == picked;
    }
  }

  /** With the cups labelled 1 to n and at least four of them, the move
      never panics, and the cups stay labelled 1 to n. */
  lemma MoveLabelled(cups: seq<nat>)
    requires |cups| >= 4 && Labels(cups)
    ensures Move(cups).Ok? && Labels(Move(cups).value)
  {
    LabelsFacts(cups);
    var max := |cups|;
    var picked := cups[1..4];
    assert cups[0] !in picked;
    DestinationLabel(cups[0], picked, max);
    var dest := Destination(cups[0], picked, max);
    var ring := [cups[0]] + cups[4..];
    assert dest in cups;
    var k :| 0 <= k < max && cups[k] == dest;
    var k' := if k == 0 then 0 else k - 3;
    assert ring[k'] == dest;
    FindExact(ring, dest, 0, k');
    MovePermutes(cups);
    MoveShape(cups);
  }

  /** `do_move`, step by step on the deque. */
  method DoMove(cups0: seq<nat>) returns (r: Result<seq<nat>>)
    ensures r == Move(cups0)
  {
    var cups := cups0;
    var max := |cups|;
    if |cups| == 0 {
      return Panic("assertion failed: n <= self.len()");
    }
    cups := cups[1..] + [cups[0]];
    if |cups| < 3 {
      return Panic("called `Option::unwrap()` on a `None` value");
    }
    var picked := [cups[0], cups[1], cups[2]];
    cups := cups[3..];
    if |cups| == 0 {
      return Panic("assertion failed: n <= self.len()");
    }
    cups := [cups[|cups| - 1]] + cups[..|cups| - 1];
    assert picked == cups0[1..4];
    assert cups == [cups0[0]] + cups0[4..];
    if cups[0] == 0 {
      return Panic("attempt to subtract with overflow");
    }
    var dest := FindDestination(cups[0], picked, max);
    var found := FindFrom(cups, dest, 0);
    if found.None? {
      return Panic("called `Option::unwrap()` on a `None` value");
    }
    var i := found.value;
    var rotated := cups[1..] + [cups[0]];
    cups := rotated;
    cups := cups[..i] + [picked[2]] + cups[i..];
    assert cups[..i] == rotated[..i] && cups[i..] == [picked[2]] + rotated[i..];
    cups := cups[..i] + [picked[1]] + cups[i..];
    assert cups[..i] == rotated[..i] && cups[i..] == [picked[1], picked[2]] + rotated[i..];
    cups := cups[..i] + [picked[0]] + cups[i..];
    assert cups == rotated[..i] + picked + rotated[i..];
    return Ok(cups);
  }

  // ---------------------------------------------------------------- parts

  /** n moves in a row; the first panic ends the game. */
  function Moves(cups: seq<nat>, n: nat): Result<seq<nat>>
  {
    if n == 0 then Ok(cups)
    else match Moves(cups, n - 1)
      case Ok(c) => Move(c)
      case Err(e) => Err(e)
      case Panic(e) => Panic(e)
  }

  /** Moves keep the cups. */
  lemma {:induction false} MovesPermute(cups: seq<nat>, n: nat)
    requires Moves(cups, n).Ok?
    ensures multiset(Moves(cups, n).value) == multiset(cups)
  {
    if n > 0 {
      MovesPermute(cups, n - 1);
      MovePermutes(Moves(cups, n - 1).value);
    }
  }

  /** Labelled cups, at least four, never panic. */
  lemma {:induction false} MovesLabelled(cups: seq<nat>, n: nat)
    requires |cups| >= 4 && Labels(cups)
    ensures Moves(cups, n).Ok? && Labels(Moves(cups, n).value) && |Moves(cups, n).value| == |cups|
  {
    if n > 0 {
      MovesLabelled(cups, n - 1);
      MoveLabelled(Moves(cups, n - 1).value);
      MoveShape(Moves(cups, n - 1).value);
    }
  }

  /** The position of the cup labelled 1 that rotating right stops at: the
      front, or else the last 1. */
  function OneAt(cups: seq<nat>): (j: nat)
    requires 1 in cups
    ensures j < |cups| && cups[j] == 1
    ensures j > 0 ==> cups[0] != 1 && forall k :: j < k < |cups| ==> cups[k] != 1
  {
    if cups[0] == 1 then 0 else LastOne(cups)
  }

  function LastOne(cups: seq<nat>): (j: nat)
    requires 1 in cups
    ensures j < |cups| && cups[j] == 1
    ensures forall k :: j < k < |cups| ==> cups[k] != 1
  {
    if cups[|cups| - 1] == 1 then |cups| - 1 else LastOne(cups[..|cups| - 1])
  }

  /** The labels clockwise after cup 1. */
  function AfterOne(cups: seq<nat>): seq<nat>
    requires 1 in cups
  {
    var j := OneAt(cups);
    cups[j + 1..] + cups[..j]
  }

  /** Around the circle, the answer lists the cups after 1 in order: k
      places after 1 is the cup k + 1 places after it. */
  lemma AfterOneOrder(cups: seq<nat>)
    requires 1 in cups
    ensures |AfterOne(cups)| == |cups| - 1
    ensures forall k :: 0 <= k < |cups| - 1 ==>
      AfterOne(cups)[k] == if OneAt(cups) + 1 + k < |cups| then cups[OneAt(cups) + 1 + k] else cups[OneAt(cups) + 1 + k - |cups|]
  {
  }

  /** The deque after m rotations to the right. */
  function RotR(cups: seq<nat>, m: nat): seq<nat>
    requires m <= |cups|
  {
    cups[|cups| - m..] + cups[..|cups| - m]
  }

  /** One more rotation to the right moves the last cup to the front. */
  lemma RotStep(cups: seq<nat>, m: nat)
    requires m < |cups|
    ensures var q := RotR(cups, m); [q[|q| - 1]] + q[..|q| - 1] == RotR(cups, m + 1)
  {
    var n := |cups|;
    var q := RotR(cups, m);
    assert q[|q| - 1] == cups[n - m - 1];
    assert q[..|q| - 1] == cups[n - m..] + cups[..n - m - 1];
  }

  /** `part1`'s last loop: rotate right until cup 1 is in front, then drop
      it. */
  method FrontOne(cups: seq<nat>) returns (r: seq<nat>)
    requires 1 in cups
    ensures r == AfterOne(cups)
  {
    var n := |cups|;
    var j := OneAt(cups);
    var target := if j == 0 then 0 else n - j;
    var q := cups;
    var m := 0;
    assert RotR(cups, 0) == cups;
    while q[0] != 1
      invariant m <= target && q == RotR(cups, m)
      decreases target - m
    {
      if m > 0 {
        assert cups[n - m] != 1;
      }
      RotStep(cups, m);
      q := [q[|q| - 1]] + q[..|q| - 1];
      m := m + 1;
    }
    if m > 0 {
      assert cups[n - m] == 1;
    }
    assert m == target;
    r := q[1..];
  }

  /** The labels after cup 1 once n moves are made. */
  function AfterMoves(input: seq<nat>, n: nat): Result<seq<nat>>
    requires Moves(input, n).Ok? ==> 1 in input
  {
    match Moves(input, n)
    case Ok(c) =>
      MovesPermute(input, n);
      assert 1 in multiset(c);
      Ok(AfterOne(c))
    case Err(e) => Err(e)
    case Panic(e) => Panic(e)
  }

  /** The answer of `part1`. */
  function Part1Answer(input: seq<nat>): Result<seq<nat>>
    requires Moves(input, 100).Ok? ==> 1 in input
  {
    AfterMoves(input, 100)
  }

  /** `part1`: 100 moves, then the labels after cup 1. The last loop only
      ends when cup 1 is among the cups. */
  method Part1(input: seq<nat>) returns (r: Result<seq<nat>>)
    requires Moves(input, 100).Ok? ==> 1 in input
    ensures r == Part1Answer(input)
  {
    var cups := input;
    for k := 0 to 100
      invariant Moves(input, k) == Ok(cups)
    {
      var next := DoMove(cups);
      if !next.Ok? {
        MovesFail(input, k + 1, 100);
        return if next.Err? then Err(next.msg) else Panic(next.msg);
      }
      cups := next.value;
    }
    MovesPermute(input, 100);
    assert 1 in multiset(cups);
    var after := FrontOne(cups);
    return Ok(after);
  }

  /** Once a move panics, later moves change nothing. */
  lemma {:induction false} MovesFail(cups: seq<nat>, k: nat, n: nat)
    requires k <= n && !Moves(cups, k).Ok?
    ensures Moves(cups, n) == Moves(cups, k)
    decreases n - k
  {
    if k < n {
      MovesFail(cups, k + 1, n);
    }
  }

  /** The highest label `part2` fills the circle up to. */
  const MaxLabel: nat := 1_000_000

  /** The number of moves `part2` makes. */
  const Rounds: nat := 10_000_000

  /** The cups with the labels i to top appended in order. */
  function Append(cups: seq<nat>, i: nat, top: nat): (r: seq<nat>)
    ensures |r| == |cups| + if i <= top then top + 1 - i else 0
    ensures r[..|cups|] == cups
    ensures forall j :: |cups| <= j < |r| ==> r[j] == i + (j - |cups|)
    decreases top + 1 - i
  {
    if i > top then cups
    else
      var r := Append(cups + [i], i + 1, top);
      assert r[..|cups|] == r[..|cups| + 1][..|cups|];
      assert r[|cups|] == r[..|cups| + 1][|cups|] == i;
      r
  }

  /** `part2`'s circle: the input followed by the labels 10 to `MaxLabel`. */
  function Extended(input: seq<nat>): seq<nat>
  {
    Append(input, 10, MaxLabel)
  }

  /** Labels are below 2^32, so their product as u64 cannot overflow. */
  function Product(a: nat, b: nat): nat
  {
    a * b
  }

  /** The answer of `part2`: the product of the two labels clockwise after
      cup 1 once the moves are made. */
  function Part2Answer(input: seq<nat>): Result<nat>
    requires Moves(Extended(input), Rounds).Ok? ==> 1 in input
  {
    match Moves(Extended(input), Rounds)
    case Ok(c) =>
      MovesPermute(Extended(input), Rounds);
      assert |c| == |multiset(c)| == |Extended(input)|;
      assert 1 in multiset(c) by { assert Extended(input)[..|input|] == input; }
      var after := AfterOne(c);
      Ok(Product(after[0], after[1]))
    case Err(e) => Err(e)
    case Panic(e) => Panic(e)
  }

  /** `part2`: extends the circle, makes the moves, and multiplies the two
      labels after cup 1. The last loop only ends when cup 1 is among the
      cups. */
  method Part2(input: seq<nat>) returns (r: Result<nat>)
    requires Moves(Extended(input), Rounds).Ok? ==> 1 in input
    ensures r == Part2Answer(input)
  {
    var cups := input;
    for i := 10 to MaxLabel + 1
      invariant Append(cups, i, MaxLabel) == Extended(input)
    {
      cups := cups + [i];
    }
    ghost var start := cups;
    for k := 0 to Rounds
      invariant Moves(start, k) == Ok(cups)
    {
      var next := DoMove(cups);
      if !next.Ok? {
        MovesFail(start, k + 1, Rounds);
        return if next.Err? then Err(next.msg) else Panic(next.msg);
      }
      cups := next.value;
    }
    MovesPermute(start, Rounds);
    assert |cups| == |multiset(cups)| == |start|;
    assert 1 in multiset(cups) by { assert start[..|input|] == input; }
    var after := FrontOne(cups);
    return Ok(Product(after[0], after[1]));
  }

  /** `read`: the digits of the input, each a label. */
  function Read(data: string): (r: seq<nat>)
    ensures |r| <= |data|
    ensures forall i :: 0 <= i < |r| ==> r[i] <= 9
  {
    if data == [] then []
    else if '0' <= data[0] <= '9' then [data[0] as nat - '0' as nat] + Read(data[1..])
    else Read(data[1..])
  }

  function Show(labels: seq<nat>): string
    requires forall i :: 0 <= i < |labels| ==> labels[i] <= 9
  {
    if labels == [] then [] else [('0' as nat + labels[0]) as char] + Show(labels[1..])
  }

  /** Reading written labels gives them back. */
  lemma {:induction false} ReadShow(labels: seq<nat>)
    requires forall i :: 0 <= i < |labels| ==> labels[i] <= 9
    ensures Read(Show(labels)) == labels
  {
    if labels != [] {
      var c := ('0' as nat + labels[0]) as char;
      assert Show(labels) == [c] + Show(labels[1..]);
      assert '0' <= c <= '9' && c as nat - '0' as nat == labels[0];
      ReadShow(labels[1..]);
      assert Show(labels)[1..] == Show(labels[1..]);
    }
  }
}
