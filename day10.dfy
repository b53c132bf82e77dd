/** Day 10: the adapter chain. Sorted, with the outlet (0) in front and the
    device (largest + 3) at the end, the joltages form a chain; part 1
    counts gaps of 1 and of 3, part 2 counts arrangements by multiplying a
    per-run table over the runs that gaps of 3 separate. */
module Day10 {
  import opened Outcomes

  predicate Sorted(s: seq<nat>)
  {
    forall i, j :: 0 <= i < j < |s| ==> s[i] <= s[j]
  }

  // ---------------------------------------------------------------- sort

  /** Insert x at its place in a sorted list. */
  method InsertSorted(s: seq<nat>, x: nat) returns (r: seq<nat>)
    requires Sorted(s)
    ensures Sorted(r) && multiset(r) == multiset(s) + multiset{x}
  {
    var i := 0;
    while i < |s| && s[i] <= x
      invariant 0 <= i <= |s|
      invariant forall j :: 0 <= j < i ==> s[j] <= x
    {
      i := i + 1;
    }
    r := s[..i] + [x] + s[i..];
    InsertAt(s, i, x);
  }

  /** x put between the elements at most x and the rest. */
  lemma InsertAt(s: seq<nat>, i: nat, x: nat)
    requires Sorted(s) && i <= |s|
    requires forall j :: 0 <= j < i ==> s[j] <= x
    requires i < |s| ==> x < s[i]
    ensures Sorted(s[..i] + [x] + s[i..])
    ensures multiset(s[..i] + [x] + s[i..]) == multiset(s) + multiset{x}
  {
    InsertAtSorted(s, i, x);
    assert s == s[..i] + s[i..];
  }

  lemma InsertAtSorted(s: seq<nat>, i: nat, x: nat)
    requires Sorted(s) && i <= |s|
    requires forall j :: 0 <= j < i ==> s[j] <= x
    requires i < |s| ==> x < s[i]
    ensures Sorted(s[..i] + [x] + s[i..])
  {
    var r := s[..i] + [x] + s[i..];
    assert forall k :: 0 <= k < i ==> r[k] == s[k];
    assert r[i] == x;
    assert forall k :: i < k < |r| ==> r[k] == s[k - 1];
    forall a, b | 0 <= a < b < |r|
      ensures r[a] <= r[b]
    {
      if b < i {
        assert r[a] == s[a] && r[b] == s[b];
      } else if a > i {
        assert r[a] == s[a - 1] && r[b] == s[b - 1];
      } else if a == i {
        assert r[b] == s[b - 1] && s[i] <= s[b - 1];
      } else if b == i {
        assert r[a] == s[a];
      } else {
        assert r[a] == s[a] && r[b] == s[b - 1] && s[i] <= s[b - 1];
      }
    }
  }

  /** `Vec::sort`: a sorted permutation. */
  method Sort(s: seq<nat>) returns (r: seq<nat>)
    ensures Sorted(r) && multiset(r) == multiset(s)
  {
    r := [];
    for i := 0 to |s|
      invariant Sorted(r) && multiset(r) == multiset(s[..i])
    {
      assert s[..i + 1] == s[..i] + [s[i]];
      r := InsertSorted(r, s[i]);
    }
    assert s[..|s|] == s;
  }

  /** A list has one sorted permutation, so the sort is determined. */
  lemma {:induction false} SortedUnique(a: seq<nat>, b: seq<nat>)
    requires Sorted(a) && Sorted(b) && multiset(a) == multiset(b)
    ensures a == b
    decreases |a|
  {
    assert |a| == |multiset(a)| == |multiset(b)| == |b|;
    if a != [] {
      SortedHead(b, a[0]);
      SortedHead(a, b[0]);
      DropHead(a);
      DropHead(b);
      assert a[0] == b[0];
      assert multiset(a[1..]) == multiset(b[1..]);
      SortedTail(a);
      SortedTail(b);
      SortedUnique(a[1..], b[1..]);
    }
  }

  lemma SortedTail(s: seq<nat>)
    requires Sorted(s) && s != []
    ensures Sorted(s[1..])
  {
    forall i, j | 0 <= i < j < |s| - 1
      ensures s[1..][i] <= s[1..][j]
    {
      assert s[1..][i] == s[i + 1] && s[1..][j] == s[j + 1];
    }
  }

  lemma DropHead(s: seq<nat>)
    requires s != []
    ensures multiset(s[1..]) == multiset(s) - multiset{s[0]}
  {
    assert s == [s[0]] + s[1..];
  }

  /** The head of a sorted list is its least element. */
  lemma SortedHead(s: seq<nat>, x: nat)
    requires Sorted(s) && x in multiset(s)
    ensures s[0] <= x
  {
    var j :| 0 <= j < |s| && s[j] == x;
  }

  // ---------------------------------------------------------------- part 1

  /** The number of adjacent pairs of c that differ by d. */
  function Gaps(c: seq<nat>, d: int): nat
  {
    if |c| < 2 then 0
    else Gaps(c[..|c| - 1], d) + (if c[|c| - 1] as int - c[|c| - 2] == d then 1 else 0)
  }

  /** The chain `part1` builds from a sorted input. */
  function Chain(sorted: seq<nat>): seq<nat>
  {
    var withOutlet := [0] + sorted;
    withOutlet + [withOutlet[|withOutlet| - 1] + 3]
  }

  /** The device's gap of 3 is always counted. */
  lemma ChainHasGap3(sorted: seq<nat>)
    ensures Gaps(Chain(sorted), 3) >= 1
  {
    var c := Chain(sorted);
    assert c[..|c| - 1] == [0] + sorted;
  }

  /** `part1`: sort, put 0 in front and max + 3 behind, count the gaps. */
  method Part1(input: seq<nat>) returns (r: nat, ghost sorted: seq<nat>)
    ensures Sorted(sorted) && multiset(sorted) == multiset(input)
    ensures r == Gaps(Chain(sorted), 1) * Gaps(Chain(sorted), 3)
    ensures Gaps(Chain(sorted), 3) >= 1
  {
    var s := Sort(input);
    sorted := s;
    var c := [0] + s;
    c := c + [c[|c| - 1] + 3];
    assert c == Chain(sorted);
    var diff1, diff3 := 0, 0;
    for i := 1 to |c|
      invariant diff1 == Gaps(c[..i], 1) && diff3 == Gaps(c[..i], 3)
    {
      GapsLast(c, 1, i + 1);
      GapsLast(c, 3, i + 1);
      var gap := c[i] - c[i - 1];
      if gap == 1 {
        diff1 := diff1 + 1;
      } else if gap == 3 {
        diff3 := diff3 + 1;
      }
    }
    assert c[..|c|] == c;
    ChainHasGap3(sorted);
    r := diff1 * diff3;
  }

  // ---------------------------------------------------------------- part 2

  /** Arrangements per run of n consecutive joltages; runs of 6 or more
      index past the table. */
  const Lookup: seq<nat> := [1, 1, 1, 2, 4, 7]

  /** The lengths of the maximal runs of c that gaps of 3 separate. */
  function Runs(c: seq<nat>): (rs: seq<nat>)
    requires |c| >= 1
    ensures |rs| >= 1
  {
    if |c| == 1 then [1]
    else
      var rs := Runs(c[..|c| - 1]);
      if c[|c| - 1] as int - c[|c| - 2] == 3 then rs + [1]
      else rs[..|rs| - 1] + [rs[|rs| - 1] + 1]
  }

  function Total(rs: seq<nat>): nat
  {
    if rs == [] then 0 else Total(rs[..|rs| - 1]) + rs[|rs| - 1]
  }

  /** The runs split the chain: one more run than there are gaps of 3, and
      their lengths add up to the chain's. */
  lemma {:induction false} RunsPartition(c: seq<nat>)
    requires |c| >= 1
    ensures |Runs(c)| == 1 + Gaps(c, 3)
    ensures Total(Runs(c)) == |c|
  {
    if |c| > 1 {
      var pre := c[..|c| - 1];
      RunsPartition(pre);
      var rs := Runs(pre);
      if c[|c| - 1] as int - c[|c| - 2] != 3 {
        assert rs == rs[..|rs| - 1] + [rs[|rs| - 1]];
        TotalSnoc(rs[..|rs| - 1], rs[|rs| - 1] + 1);
        TotalSnoc(rs[..|rs| - 1], rs[|rs| - 1]);
      } else {
        TotalSnoc(rs, 1);
      }
    }
  }

  lemma TotalSnoc(rs: seq<nat>, x: nat)
    ensures Total(rs + [x]) == Total(rs) + x
  {
    assert (rs + [x])[..|rs|] == rs;
  }

  predicate Fits(rs: seq<nat>)
  {
    forall k :: 0 <= k < |rs| ==> rs[k] < |Lookup|
  }

  /** The product of the table entries for the runs. */
  function Product(rs: seq<nat>): nat
    requires Fits(rs)
  {
    if rs == [] then 1 else Product(rs[..|rs| - 1]) * Lookup[rs[|rs| - 1]]
  }

  predicate HasGap2(c: seq<nat>)
  {
    exists i :: 1 <= i < |c| && c[i] as int - c[i - 1] == 2
  }

  /** The `assert!` of `part2`: no two neighbours differ by 2. */
  method CheckNoGap2(c: seq<nat>) returns (ok: bool)
    requires Sorted(c)
    ensures ok <==> !HasGap2(c)
  {
    var i := 1;
    while i < |c|
      invariant 1 <= i
      invariant forall j :: 1 <= j < i && j < |c| ==> c[j] - c[j - 1] != 2
    {
      if c[i] - c[i - 1] == 2 {
        return false;
      }
      i := i + 1;
    }
    return true;
  }

  /** The runs of the first i joltages closed by a gap of 3, and the
      length of the run still open. */
  function Closed(c: seq<nat>, i: nat): seq<nat>
    requires 1 <= i <= |c|
  {
    var rs := Runs(c[..i]);
    rs[..|rs| - 1]
  }

  function Open(c: seq<nat>, i: nat): nat
    requires 1 <= i <= |c|
  {
    var rs := Runs(c[..i]);
    rs[|rs| - 1]
  }

  /** Extending a prefix by one joltage closes the open run at a gap of 3
      and lengthens it otherwise. */
  lemma RunsStep(c: seq<nat>, i: nat)
    requires 1 <= i < |c|
    ensures c[i] as int - c[i - 1] == 3 ==> Closed(c, i + 1) == Closed(c, i) + [Open(c, i)] && Open(c, i + 1) == 1
    ensures c[i] as int - c[i - 1] != 3 ==> Closed(c, i + 1) == Closed(c, i) && Open(c, i + 1) == Open(c, i) + 1
  {
    assert c[..i + 1][..i] == c[..i];
    var rs := Runs(c[..i]);
    assert rs == rs[..|rs| - 1] + [rs[|rs| - 1]];
  }

  /** Every closed run of a prefix is a run of the whole chain. */
  lemma {:induction false} ClosedPrefix(c: seq<nat>, i: nat, j: nat)
    requires 1 <= i <= j <= |c|
    ensures |Closed(c, i)| <= |Closed(c, j)|
    ensures Closed(c, i) == Closed(c, j)[..|Closed(c, i)|]
    decreases j - i
  {
    if i < j {
      ClosedPrefix(c, i, j - 1);
      RunsStep(c, j - 1);
    }
  }

  lemma ProductSnoc(rs: seq<nat>, g: nat)
    requires Fits(rs) && g < |Lookup|
    ensures Fits(rs + [g]) && Product(rs + [g]) == Product(rs) * Lookup[g]
  {
    assert (rs + [g])[..|rs|] == rs;
  }

  /** The loop of `part2`: `n *= lookup[group_size]` when a gap of 3 closes a
      run and once more for the last run; a run of 6 or more indexes past
      the table. */
  method RunProduct(c: seq<nat>) returns (r: Result<nat>)
    requires |c| >= 1 && Sorted(c)
    ensures r.Ok? || r.Panic?
    ensures r.Ok? <==> Fits(Runs(c))
    ensures r.Ok? ==> r.value == Product(Runs(c))
  {
    var n := 1;
    var groupSize := 1;
    assert c[..1] == [c[0]];
    for i := 1 to |c|
      invariant groupSize == Open(c, i)
      invariant Fits(Closed(c, i)) && n == Product(Closed(c, i))
    {
      RunsStep(c, i);
      if c[i] - c[i - 1] == 3 {
        if groupSize >= |Lookup| {
          ClosedPrefix(c, i + 1, |c|);
          assert Closed(c, i + 1)[|Closed(c, i)|] == groupSize;
          assert c[..|c|] == c;
          assert Runs(c)[|Closed(c, i)|] == groupSize;
          return Panic("index out of bounds");
        }
        ProductSnoc(Closed(c, i), groupSize);
        n := n * Lookup[groupSize];
        groupSize := 0;
      }
      groupSize := groupSize + 1;
    }
    assert c[..|c|] == c;
    ghost var rs := Runs(c);
    assert rs == Closed(c, |c|) + [groupSize];
    if groupSize >= |Lookup| {
      return Panic("index out of bounds");
    }
    ProductSnoc(Closed(c, |c|), groupSize);
    n := n * Lookup[groupSize];
    return Ok(n);
  }

  /** `part2`: add the outlet, sort, check the `assert!`, multiply the table
      entries of the runs. */
  method Part2(input: seq<nat>) returns (r: Result<nat>, ghost chain: seq<nat>)
    ensures Sorted(chain) && multiset(chain) == multiset(input) + multiset{0} && |chain| >= 1
    ensures r.Ok? || r.Panic?
    ensures r.Panic? <==> HasGap2(chain) || !Fits(Runs(chain))
    ensures r.Ok? ==> Fits(Runs(chain)) && r.value == Product(Runs(chain))
  {
    var c := Sort(input + [0]);
    chain := c;
    assert |multiset(c)| == |input| + 1;
    var ok := CheckNoGap2(c);
    if !ok {
      return Panic("assertion failed"), chain;
    }
    r := RunProduct(c);
  }

  /** The gaps of a prefix one longer: one more difference checked. */
  lemma GapsLast(c: seq<nat>, d: int, k: nat)
    requires 2 <= k <= |c|
    ensures Gaps(c[..k], d) == Gaps(c[..k - 1], d) + (if c[k - 1] as int - c[k - 2] == d then 1 else 0)
  {
    assert c[..k][..k - 1] == c[..k - 1];
  }
}
