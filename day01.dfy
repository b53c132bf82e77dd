/** Day 1: find the entries of an expense report that sum to 2020.
    `find_2020_pair` and `find_2020_triplet` take the first combination in the
    order `tuple_combinations` yields them (lexicographic in the positions) and
    panic when there is none; the parts multiply the values found (in `u32`). */
module Day01 {
  import opened Outcomes
  import Text

  const Target: nat := 2020

  predicate IsPair(nums: seq<nat>, i: nat, j: nat)
  {
    i < j < |nums| && nums[i] + nums[j] == Target
  }

  predicate IsTriple(nums: seq<nat>, i: nat, j: nat, k: nat)
  {
    i < j < k < |nums| && nums[i] + nums[j] + nums[k] == Target
  }

  ghost predicate HasPair(nums: seq<nat>)
  {
    exists i: nat, j: nat :: IsPair(nums, i, j)
  }

  ghost predicate HasTriple(nums: seq<nat>)
  {
    exists i: nat, j: nat, k: nat :: IsTriple(nums, i, j, k)
  }

  /** Lexicographic order on position pairs and triples: the order of `tuple_combinations`. */
  predicate PairBefore(p: (nat, nat), q: (nat, nat))
  {
    p.0 < q.0 || (p.0 == q.0 && p.1 < q.1)
  }

  predicate TripleBefore(p: (nat, nat, nat), q: (nat, nat, nat))
  {
    p.0 < q.0 || (p.0 == q.0 && (p.1 < q.1 || (p.1 == q.1 && p.2 < q.2)))
  }

  /** The first pair of positions at or after `(i, j)` whose values sum to 2020. */
  function PairFrom(nums: seq<nat>, i: nat, j: nat): (r: Option<(nat, nat)>)
    requires i < j
    ensures r.Some? ==> IsPair(nums, r.value.0, r.value.1) && !PairBefore(r.value, (i, j))
    ensures forall p: nat, q: nat :: IsPair(nums, p, q) && !PairBefore((p, q), (i, j)) ==>
              r.Some? && !PairBefore((p, q), r.value)
    decreases |nums| - i, |nums| - j
  {
    if i >= |nums| then None
    else if j >= |nums| then PairFrom(nums, i + 1, i + 2)
    else if nums[i] + nums[j] == Target then Some((i, j))
    else PairFrom(nums, i, j + 1)
  }

  /** The first triple of positions at or after `(i, j, k)` whose values sum to 2020. */
  function TripleFrom(nums: seq<nat>, i: nat, j: nat, k: nat): (r: Option<(nat, nat, nat)>)
    requires i < j < k
    ensures r.Some? ==> IsTriple(nums, r.value.0, r.value.1, r.value.2) && !TripleBefore(r.value, (i, j, k))
    ensures forall p: nat, q: nat, s: nat :: IsTriple(nums, p, q, s) && !TripleBefore((p, q, s), (i, j, k)) ==>
              r.Some? && !TripleBefore((p, q, s), r.value)
    decreases |nums| - i, |nums| - j, |nums| - k
  {
    if i >= |nums| then None
    else if j >= |nums| then TripleFrom(nums, i + 1, i + 2, i + 3)
    else if k >= |nums| then TripleFrom(nums, i, j + 1, j + 2)
    else if nums[i] + nums[j] + nums[k] == Target then Some((i, j, k))
    else TripleFrom(nums, i, j, k + 1)
  }

  /** The positions of the first pair summing to 2020. */
  function FirstPair(nums: seq<nat>): (r: (nat, nat))
    requires HasPair(nums)
    ensures IsPair(nums, r.0, r.1)
    ensures forall p: nat, q: nat :: IsPair(nums, p, q) ==> !PairBefore((p, q), r)
  {
    var found := PairFrom(nums, 0, 1);
    assert found.Some?;
    found.value
  }

  /** The positions of the first triple summing to 2020. */
  function FirstTriple(nums: seq<nat>): (r: (nat, nat, nat))
    requires HasTriple(nums)
    ensures IsTriple(nums, r.0, r.1, r.2)
    ensures forall p: nat, q: nat, s: nat :: IsTriple(nums, p, q, s) ==> !TripleBefore((p, q, s), r)
  {
    var found := TripleFrom(nums, 0, 1, 2);
    assert found.Some?;
    found.value
  }

  /** `find_2020_pair`: the values at the first pair of distinct positions summing to 2020.
      The Rust code panics (`unwrap`) when there is no such pair. */
  function FindPair(nums: seq<nat>): (r: (nat, nat))
    requires HasPair(nums)
    ensures r.0 + r.1 == Target
    ensures r.0 in nums && r.1 in nums
  {
    var (i, j) := FirstPair(nums);
    (nums[i], nums[j])
  }

  /** `find_2020_triplet`: the values at the first triple of positions summing to 2020. */
  function FindTriple(nums: seq<nat>): (r: (nat, nat, nat))
    requires HasTriple(nums)
    ensures r.0 + r.1 + r.2 == Target
    ensures r.0 in nums && r.1 in nums && r.2 in nums
  {
    var (i, j, k) := FirstTriple(nums);
    (nums[i], nums[j], nums[k])
  }

  lemma MulMono(x: nat, y: nat, z: nat)
    requires y <= z
    ensures x * y <= x * z
  {
  }

  /** Two naturals summing to at most 2020 multiply to at most 1010 * 1010. */
  lemma ProductBound(a: nat, b: nat)
    requires a + b <= Target
    ensures a * b <= 1010 * 1010
  {
    var t: int := a - 1010;
    assert b <= 1010 - t;
    MulMono(a, b, (1010 - t) as nat);
    assert a * (1010 - t) == (1010 + t) * (1010 - t);
    assert (1010 + t) * (1010 - t) == 1010 * 1010 - t * t;
  }

  /** Two entries of a pair fit a `u32` when multiplied. */
  lemma PairFits(a: nat, b: nat)
    requires a + b == Target
    ensures a * b <= Text.U32Max
  {
    ProductBound(a, b);
  }

  /** So do three entries of a triple. */
  lemma TripleFits(a: nat, b: nat, c: nat)
    requires a + b + c == Target
    ensures a * b * c <= Text.U32Max
  {
    ProductBound(a, b);
    MulMono(c, a * b, 1010 * 1010);
    MulMono(1010 * 1010, c, Target);
    assert a * b * c == c * (a * b);
  }

  /** `part1`: the product of the pair; it always fits the `u32` the Rust code uses. */
  function Part1(nums: seq<nat>): (r: nat)
    requires HasPair(nums)
    ensures r == nums[FirstPair(nums).0] * nums[FirstPair(nums).1]
    ensures r <= Text.U32Max
  {
    var (i, j) := FirstPair(nums);
    PairFits(nums[i], nums[j]);
    nums[i] * nums[j]
  }

  /** `part2`: the product of the triple; it also fits a `u32`. */
  function Part2(nums: seq<nat>): (r: nat)
    requires HasTriple(nums)
    ensures r == nums[FirstTriple(nums).0] * nums[FirstTriple(nums).1] * nums[FirstTriple(nums).2]
    ensures r <= Text.U32Max
  {
    var (i, j, k) := FirstTriple(nums);
    TripleFits(nums[i], nums[j], nums[k]);
    nums[i] * nums[j] * nums[k]
  }

  const ErrUnwrap := "called `Result::unwrap()` on an `Err` value"

  /** `read`: one `u32` per line; a line that does not parse panics in
      `Result::unwrap`, the first such line deciding. */
  function Read(lines: seq<string>): (r: Result<seq<nat>>)
    ensures r.Ok? || r.Panic?
    ensures r.Ok? ==> |r.value| == |lines|
    ensures r.Ok? ==> forall i :: 0 <= i < |lines| ==> Text.ParseNat(lines[i], Text.U32Max) == Some(r.value[i])
    ensures r.Panic? <==> exists i :: 0 <= i < |lines| && Text.ParseNat(lines[i], Text.U32Max).None?
  {
    if lines == [] then Ok([])
    else
      assert forall i :: 0 <= i < |lines| - 1 ==> lines[1..][i] == lines[i + 1];
      match Text.ParseNat(lines[0], Text.U32Max)
      case None => Panic(ErrUnwrap)
      case Some(n) =>
        var rest := Read(lines[1..]);
        if rest.Ok? then Ok([n] + rest.value) else rest
  }

  /** Reading back a report written one entry per line gives it again. */
  lemma {:induction false} ReadShow(nums: seq<nat>, lines: seq<string>)
    requires |lines| == |nums|
    requires forall i :: 0 <= i < |nums| ==> nums[i] <= Text.U32Max && lines[i] == Text.ShowNat(nums[i])
    ensures Read(lines) == Ok(nums)
  {
    if nums != [] {
      ReadShow(nums[1..], lines[1..]);
      Text.ParseShowNat(nums[0], Text.U32Max);
      assert nums == [nums[0]] + nums[1..];
    }
  }

  const Sample: seq<nat> := [1721, 979, 366, 299, 675, 1456]

  /** The example report: the pair is (1721, 299) and the triple (979, 366, 675). */
  lemma SampleResults()
    ensures HasPair(Sample) && FindPair(Sample) == (1721, 299)
    ensures HasTriple(Sample) && FindTriple(Sample) == (979, 366, 675)
  {
    assert IsPair(Sample, 0, 3);
    assert IsTriple(Sample, 1, 2, 4);
    assert PairFrom(Sample, 0, 1) == Some((0, 3));
    assert TripleFrom(Sample, 0, 1, 2) == Some((1, 2, 4));
  }
}
