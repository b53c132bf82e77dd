/** Day 9: the XMAS cipher. Every number after a 25-number preamble should
    be the sum of two of the 25 numbers before it; part 1 finds the first
    that is not, part 2 a contiguous run of numbers summing to it, and adds
    the run's smallest and largest numbers. */
module Day09 {
  import opened Outcomes

  const Preamble: nat := 25

  /** `input[i]` is the sum of the numbers at two distinct positions among
      the 25 before it. */
  predicate IsSum(input: seq<nat>, i: nat)
    requires Preamble <= i < |input|
  {
    exists j, k :: i - Preamble <= j < k < i && input[j] + input[k] == input[i]
  }

  /** The inner loop of `part1`: every pair `(j, k)`, `j < k`, of the window. */
  method CheckSum(input: seq<nat>, i: nat) returns (b: bool)
    requires Preamble <= i < |input|
    ensures b <==> IsSum(input, i)
  {
    for j := i - Preamble to i
      invariant forall j', k :: i - Preamble <= j' < j && j' < k < i ==> input[j'] + input[k] != input[i]
    {
      for k := j + 1 to i
        invariant forall k' :: j < k' < k ==> input[j] + input[k'] != input[i]
      {
        if input[j] + input[k] == input[i] {
          return true;
        }
      }
    }
    return false;
  }

  /** The first index from `from` on whose number breaks the rule. */
  function FirstInvalid(input: seq<nat>, from: nat): (r: Option<nat>)
    requires from >= Preamble
    ensures r.Some? ==> from <= r.value < |input| && !IsSum(input, r.value)
    ensures r.Some? ==> forall i :: from <= i < r.value ==> IsSum(input, i)
    ensures r.None? ==> forall i :: from <= i < |input| ==> IsSum(input, i)
    decreases |input| - from
  {
    if from >= |input| then None
    else if !IsSum(input, from) then Some(from)
    else FirstInvalid(input, from + 1)
  }

  /** `part1`: the first number that breaks the rule; panics when there is none. */
  method Part1(input: seq<nat>) returns (r: Result<nat>)
    ensures r.Ok? || r.Panic?
    ensures r.Ok? <==> FirstInvalid(input, Preamble).Some?
    ensures r.Ok? ==> r.value == input[FirstInvalid(input, Preamble).value]
  {
    var i := Preamble;
    while i < |input|
      invariant Preamble <= i
      invariant FirstInvalid(input, Preamble) == FirstInvalid(input, i)
      decreases |input| - i
    {
      var valid := CheckSum(input, i);
      if !valid {
        return Ok(input[i]);
      }
      i := i + 1;
    }
    return Panic("all numbers seem valid");
  }

  /** The sum of a run of numbers. */
  function Sum(s: seq<nat>): nat
  {
    if s == [] then 0 else Sum(s[..|s| - 1]) + s[|s| - 1]
  }

  function Min(s: seq<nat>): (m: nat)
    requires |s| >= 1
    ensures m in s && forall x :: x in s ==> m <= x
  {
    if |s| == 1 then s[0]
    else
      var m := Min(s[..|s| - 1]);
      assert forall x :: x in s ==> x in s[..|s| - 1] || x == s[|s| - 1];
      if s[|s| - 1] < m then s[|s| - 1] else m
  }

  function Max(s: seq<nat>): (m: nat)
    requires |s| >= 1
    ensures m in s && forall x :: x in s ==> x <= m
  {
    if |s| == 1 then s[0]
    else
      var m := Max(s[..|s| - 1]);
      assert forall x :: x in s ==> x in s[..|s| - 1] || x == s[|s| - 1];
      if s[|s| - 1] > m then s[|s| - 1] else m
  }

  /** A window that is longer only adds numbers: sums grow with the end and
      shrink with the start. */
  lemma {:induction false} SumGrowsEnd(input: seq<nat>, s: nat, e: nat, e': nat)
    requires s <= e <= e' <= |input|
    ensures Sum(input[s..e]) <= Sum(input[s..e'])
    decreases e' - e
  {
    if e < e' {
      SumGrowsEnd(input, s, e, e' - 1);
      assert input[s..e'][..e' - 1 - s] == input[s..e' - 1];
    }
  }

  lemma {:induction false} SumShrinksStart(input: seq<nat>, s: nat, s': nat, e: nat)
    requires s <= s' <= e <= |input|
    ensures Sum(input[s'..e]) <= Sum(input[s..e])
    decreases e - s'
  {
    if s' < e {
      SumShrinksStart(input, s, s', e - 1);
      assert input[s'..e][..e - 1 - s'] == input[s'..e - 1];
      assert input[s..e][..e - 1 - s] == input[s..e - 1];
    } else {
      assert input[s'..e] == [];
    }
  }

  /** Adding the next number to a window. */
  lemma SumSnoc(input: seq<nat>, s: nat, e: nat)
    requires s <= e < |input|
    ensures Sum(input[s..e + 1]) == Sum(input[s..e]) + input[e]
  {
    assert input[s..e + 1][..e - s] == input[s..e];
  }

  /** A non-empty window summing to the target. */
  predicate Good(input: seq<nat>, target: nat, s: nat, e: nat)
  {
    s < e <= |input| && Sum(input[s..e]) == target
  }

  /** No good window starts before `start` or ends before `end`. */
  predicate NoneBefore(input: seq<nat>, target: nat, start: nat, end: nat)
  {
    forall s, e :: 0 <= s < e <= |input| && Good(input, target, s, e) ==> start <= s && end <= e
  }

  /** The answer of the second part for a window. */
  function Weakness(input: seq<nat>, s: nat, e: nat): nat
    requires s < e <= |input|
  {
    Min(input[s..e]) + Max(input[s..e])
  }

  /** The window loop of `part2`: grow the end while the sum is below the
      target (slicing past the input panics), advance the start while it is
      above. The window found is the good one that ends first and, among
      those, starts first; with no good window the end runs off the input.
      A target of 0 stops at the empty window, where `min().unwrap()` panics. */
  method FindWindow(input: seq<nat>, target: nat) returns (r: Result<nat>)
    ensures r.Ok? || r.Panic?
    ensures r.Ok? ==> exists s, e :: 0 <= s < e <= |input| && Good(input, target, s, e) &&
                         NoneBefore(input, target, s, e) && r.value == Weakness(input, s, e)
    ensures r.Panic? && target > 0 ==> forall s, e :: 0 <= s < e <= |input| ==> !Good(input, target, s, e)
    ensures target == 0 ==> r.Panic?
  {
    var start, end := 0, 0;
    while true
      invariant start <= end <= |input|
      invariant Sum(input[start..end]) <= target
      invariant NoneBefore(input, target, start, end)
      invariant target == 0 ==> start == end
      decreases |input| - end
    {
      ghost var end0 := end;
      while Sum(input[start..end]) < target
        invariant start <= end <= |input| && end >= end0
        invariant end == end0 ==> Sum(input[start..end]) <= target
        invariant NoneBefore(input, target, start, end)
        invariant target == 0 ==> start == end
        decreases |input| - end
      {
        if end == |input| {
          forall s, e | 0 <= s < e <= |input| ensures !Good(input, target, s, e) {
            if Good(input, target, s, e) {
              SumShrinksStart(input, start, s, e);
            }
          }
          return Panic("range end index out of range for slice");
        }
        forall s | start <= s <= end ensures !Good(input, target, s, end) {
          SumShrinksStart(input, start, s, end);
        }
        end := end + 1;
      }
      while Sum(input[start..end]) > target
        invariant start <= end <= |input|
        invariant NoneBefore(input, target, start, end)
        invariant end == end0 ==> Sum(input[start..end]) == target
        invariant target == 0 ==> start == end
        decreases end - start
      {
        assert start < end;
        forall e | end <= e <= |input| ensures !Good(input, target, start, e) {
          SumGrowsEnd(input, start, end, e);
        }
        start := start + 1;
      }
      if Sum(input[start..end]) == target {
        if start == end {
          return Panic("called `Option::unwrap()` on a `None` value");
        }
        return Ok(Weakness(input, start, end));
      }
      assert end > end0;
    }
  }

  /** What `part2` promises for the number `part1` found. */
  ghost predicate Answer(input: seq<nat>, target: nat, v: nat)
  {
    exists s, e :: 0 <= s < e <= |input| && Good(input, target, s, e) &&
      NoneBefore(input, target, s, e) && v == Weakness(input, s, e)
  }

  /** `part2`: runs `part1` for the target, then the window loop. */
  method Part2(input: seq<nat>) returns (r: Result<nat>)
    ensures r.Ok? || r.Panic?
    ensures FirstInvalid(input, Preamble).None? ==> r.Panic?
    ensures r.Ok? ==> Answer(input, input[FirstInvalid(input, Preamble).value], r.value)
    ensures r.Panic? && FirstInvalid(input, Preamble).Some? && input[FirstInvalid(input, Preamble).value] > 0 ==>
      forall s, e :: 0 <= s < e <= |input| ==> !Good(input, input[FirstInvalid(input, Preamble).value], s, e)
    ensures FirstInvalid(input, Preamble).Some? && input[FirstInvalid(input, Preamble).value] == 0 ==> r.Panic?
  {
    var target := Part1(input);
    if target.Panic? {
      return Panic(target.msg);
    }
    r := FindWindow(input, target.value);
  }
}
