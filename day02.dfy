/** Day 2: password policies. A `Line` is "lo-hi c: password"; the first
    policy bounds the number of occurrences of `c`, the second asks that
    exactly one of the 1-based positions `lo` and `hi` hold `c`. */
module Day02 {

  datatype Line = Line(lo: nat, hi: nat, c: char, password: string)

  /** `password.chars().filter(|x| x == c).count()`. */
  function Count(s: string, c: char): (n: nat)
    ensures n <= |s|
    ensures n == 0 <==> c !in s
  {
    if s == [] then 0 else (if s[0] == c then 1 else 0) + Count(s[1..], c)
  }

  /** The count is the multiplicity of `c` in the password. */
  lemma {:induction false} CountIsMultiplicity(s: string, c: char)
    ensures Count(s, c) == multiset(s)[c]
  {
    if s != [] {
      CountIsMultiplicity(s[1..], c);
      assert s == [s[0]] + s[1..];
      assert multiset(s) == multiset{s[0]} + multiset(s[1..]);
    }
  }

  /** `Line::is_valid`: the count lies in `lo..=hi`. */
  predicate IsValid(l: Line)
    ensures IsValid(l) && l.lo > 0 ==> l.c in l.password
    ensures l.lo == 0 && |l.password| <= l.hi ==> IsValid(l)
  {
    l.lo <= Count(l.password, l.c) <= l.hi
  }

  /** The first policy in terms of the multiset of the password's chars. */
  lemma ValidIffMultiplicity(l: Line)
    ensures IsValid(l) <==> l.lo <= multiset(l.password)[l.c] <= l.hi
  {
    CountIsMultiplicity(l.password, l.c);
  }

  /** The positions `is_valid_p2` can read without underflowing `lo - 1`
      or unwrapping `None` from `nth`. */
  predicate InRange(l: Line)
  {
    1 <= l.lo && 1 <= l.hi && l.lo <= |l.password| && l.hi <= |l.password|
  }

  /** How many of the listed 1-based positions hold `c`. */
  function Hits(pw: string, c: char, ps: seq<nat>): nat
    requires forall k :: 0 <= k < |ps| ==> 1 <= ps[k] <= |pw|
  {
    if ps == [] then 0 else (if pw[ps[0] - 1] == c then 1 else 0) + Hits(pw, c, ps[1..])
  }

  /** `Line::is_valid_p2`: exactly one of positions `lo` and `hi` (read as a
      pair, so a repeated position counts twice) holds `c`. */
  function IsValidP2(l: Line): (b: bool)
    requires InRange(l)
    ensures b <==> Hits(l.password, l.c, [l.lo, l.hi]) == 1
    ensures b ==> l.lo != l.hi
  {
    assert [l.lo, l.hi][1..] == [l.hi] && [l.hi][1..] == [];
    assert Hits(l.password, l.c, [l.hi]) == if l.password[l.hi - 1] == l.c then 1 else 0;
    (l.password[l.lo - 1] == l.c) != (l.password[l.hi - 1] == l.c)
  }

  /** `part1`: the number of lines valid under the first policy. */
  function Part1(ls: seq<Line>): (n: nat)
    ensures n <= |ls|
    ensures n == 0 <==> forall i :: 0 <= i < |ls| ==> !IsValid(ls[i])
    ensures n == |ls| <==> forall i :: 0 <= i < |ls| ==> IsValid(ls[i])
  {
    if ls == [] then 0
    else
      var rest := Part1(ls[1..]);
      assert forall i :: 1 <= i < |ls| ==> ls[i] == ls[1..][i - 1];
      (if IsValid(ls[0]) then 1 else 0) + rest
  }

  /** `part2`: the number of lines valid under the second policy. */
  function Part2(ls: seq<Line>): (n: nat)
    requires forall i :: 0 <= i < |ls| ==> InRange(ls[i])
    ensures n <= |ls|
    ensures n == 0 <==> forall i :: 0 <= i < |ls| ==> !IsValidP2(ls[i])
    ensures n == |ls| <==> forall i :: 0 <= i < |ls| ==> IsValidP2(ls[i])
  {
    if ls == [] then 0
    else
      var rest := Part2(ls[1..]);
      assert forall i :: 1 <= i < |ls| ==> ls[i] == ls[1..][i - 1];
      (if IsValidP2(ls[0]) then 1 else 0) + rest
  }

  /** Counting distributes over concatenation: the count is per line. */
  lemma {:induction false} Part1Append(a: seq<Line>, b: seq<Line>)
    ensures Part1(a + b) == Part1(a) + Part1(b)
  {
    if a != [] {
      assert (a + b)[1..] == a[1..] + b;
      Part1Append(a[1..], b);
    } else {
      assert a + b == b;
    }
  }

  lemma {:induction false} Part2Append(a: seq<Line>, b: seq<Line>)
    requires forall i :: 0 <= i < |a| ==> InRange(a[i])
    requires forall i :: 0 <= i < |b| ==> InRange(b[i])
    ensures forall i :: 0 <= i < |a + b| ==> InRange((a + b)[i])
    ensures Part2(a + b) == Part2(a) + Part2(b)
  {
    if a != [] {
      assert (a + b)[1..] == a[1..] + b;
      Part2Append(a[1..], b);
    } else {
      assert a + b == b;
    }
  }

  const Sample: seq<Line> := [Line(1, 3, 'a', "abcde"), Line(1, 3, 'b', "cdefg"), Line(2, 9, 'c', "ccccccccc")]

  /** The example lines: [true, false, true] under the first policy. */
  lemma SampleValid()
    ensures IsValid(Sample[0]) && !IsValid(Sample[1]) && IsValid(Sample[2])
  {
    SampleLine0();
    SampleLine1();
    SampleLine2();
  }

  lemma SampleLine0()
    ensures IsValid(Line(1, 3, 'a', "abcde"))
  {
    assert Count("abcde"[1..], 'a') == 0 by {
      assert 'a' !in "abcde"[1..];
    }
  }

  lemma SampleLine1()
    ensures !IsValid(Line(1, 3, 'b', "cdefg"))
  {
    assert 'b' !in "cdefg";
  }

  lemma SampleLine2()
    ensures IsValid(Line(2, 9, 'c', "ccccccccc"))
  {
    var c9 := "ccccccccc";
    assert Count(c9, 'c') == 2 + Count(c9[2..], 'c') by {
      assert c9[1..][1..] == c9[2..];
    }
  }

  /** So `part1` of the example is 2. */
  lemma SamplePart1()
    ensures Part1(Sample) == 2
  {
    SampleValid();
    Part1Three(Sample);
  }

  lemma Part1Three(ls: seq<Line>)
    requires |ls| == 3
    ensures Part1(ls) == (if IsValid(ls[0]) then 1 else 0) + (if IsValid(ls[1]) then 1 else 0) + (if IsValid(ls[2]) then 1 else 0)
  {
    assert ls[1..][1..][1..] == [];
  }

  lemma SamplePart2()
    ensures forall i :: 0 <= i < |Sample| ==> InRange(Sample[i])
    ensures IsValidP2(Sample[0]) && !IsValidP2(Sample[1]) && !IsValidP2(Sample[2])
    ensures Part2(Sample) == 1
  {
    assert Part2(Sample[2..]) == 0;
  }
}
