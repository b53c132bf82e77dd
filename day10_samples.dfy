/** The two examples of `mod test` in src/days/day10.rs. Each is taken in
    sorted order; any sort of the input gives the same sequence, which
    `SortedUnique` shows. */
module Day10Samples {
  import opened Outcomes
  import opened Day10


  /** The joltages of the first example (16, 10, 15, 5, 1, 11, 7, 19, 6,
      12, 4), in order. */
  const SampleSorted: seq<nat> := [1, 4, 5, 6, 7, 10, 11, 12, 15, 16, 19]

  /** A sequence whose neighbours are in order is sorted. */
  lemma {:induction false} SortedByNeighbours(s: seq<nat>)
    requires forall i :: 0 < i < |s| ==> s[i - 1] <= s[i]
    ensures Sorted(s)
  {
    if |s| >= 2 {
      var p := s[..|s| - 1];
      SortedByNeighbours(p);
      assert forall i :: 0 <= i < |p| ==> p[i] <= s[|s| - 1] by {
        forall i | 0 <= i < |p| ensures p[i] <= s[|s| - 1] {
          assert p[i] <= p[|p| - 1];
        }
      }
    }
  }

  lemma SampleSortedSorted()
    ensures Sorted(SampleSorted)
  {
    SortedByNeighbours(SampleSorted);
  }

  const SampleChain: seq<nat> := [0, 1, 4, 5, 6, 7, 10, 11, 12, 15, 16, 19, 22]

  lemma SampleChainIs()
    ensures Chain(SampleSorted) == SampleChain
  {
  }

  /** The example's chain has 7 gaps of 1 and 5 of 3, prefix by prefix. */
  lemma SampleGaps()
    ensures Gaps(SampleChain, 1) == 7 && Gaps(SampleChain, 3) == 5
  {
    SampleGapsOf(1);
    SampleGapsOf(3);
  }

  lemma SampleGapsOf(d: int)
    ensures Gaps(SampleChain, d) == if d == 1 then 7 else if d == 3 then 5 else 0
  {
    var c := SampleChain;
    GapsLast(c, d, 2); GapsLast(c, d, 3); GapsLast(c, d, 4); GapsLast(c, d, 5);
    GapsLast(c, d, 6); GapsLast(c, d, 7); GapsLast(c, d, 8); GapsLast(c, d, 9);
    GapsLast(c, d, 10); GapsLast(c, d, 11); GapsLast(c, d, 12); GapsLast(c, d, 13);
    assert c[..13] == c;
  }

  /** Any sort of the first example gives 7 gaps of 1 and 5 of 3. */
  lemma SamplePart1(sorted: seq<nat>)
    requires Sorted(sorted) && multiset(sorted) == multiset(SampleSorted)
    ensures Gaps(Chain(sorted), 1) * Gaps(Chain(sorted), 3) == 35
  {
    SampleSortedSorted();
    SortedUnique(sorted, SampleSorted);
    SampleChainIs();
    SampleGaps();
  }

  /** The joltages of the second example, in order. */
  const LargeSorted: seq<nat> := [1, 2, 3, 4, 7, 8, 9, 10, 11, 14, 17, 18, 19, 20, 23, 24, 25, 28, 31, 32, 33, 34, 35, 38, 39, 42, 45, 46, 47, 48, 49]

  lemma LargeSortedSorted()
    ensures Sorted(LargeSorted)
  {
    SortedByNeighbours(LargeSorted);
  }

  const LargeA: seq<nat> := [0, 1, 2, 3, 4, 7, 8, 9, 10]
  const LargeB: seq<nat> := [11, 14, 17, 18, 19, 20, 23, 24]
  const LargeC: seq<nat> := [25, 28, 31, 32, 33, 34, 35, 38]
  const LargeD: seq<nat> := [39, 42, 45, 46, 47, 48, 49, 52]
  const LargeChain: seq<nat> := LargeA + LargeB + LargeC + LargeD

  lemma LargeChainIs()
    ensures Chain(LargeSorted) == LargeChain
  {
  }

  /** Gaps of a joined sequence: those of the front, and those of the
      back with the front's last element before it. */
  lemma {:induction false} GapsConcat(a: seq<nat>, b: seq<nat>, d: int)
    requires |a| >= 1
    ensures Gaps(a + b, d) == Gaps(a, d) + Gaps([a[|a| - 1]] + b, d)
  {
    if b == [] {
      assert a + b == a;
    } else {
      var b' := b[..|b| - 1];
      GapsConcat(a, b', d);
      assert (a + b)[..|a + b| - 1] == a + b';
      assert ([a[|a| - 1]] + b)[..|b|] == [a[|a| - 1]] + b';
    }
  }

  lemma LargeAGaps(d: int)
    ensures Gaps(LargeA, d) == if d == 1 then 7 else if d == 3 then 1 else 0
  {
    var c := LargeA;
    GapsLast(c, d, 2); GapsLast(c, d, 3); GapsLast(c, d, 4); GapsLast(c, d, 5);
    GapsLast(c, d, 6); GapsLast(c, d, 7); GapsLast(c, d, 8); GapsLast(c, d, 9);
    assert c[..9] == c;
  }

  lemma LargeBGaps(d: int)
    ensures Gaps([10] + LargeB, d) == if d == 1 then 5 else if d == 3 then 3 else 0
  {
    var c := [10] + LargeB;
    GapsLast(c, d, 2); GapsLast(c, d, 3); GapsLast(c, d, 4); GapsLast(c, d, 5);
    GapsLast(c, d, 6); GapsLast(c, d, 7); GapsLast(c, d, 8); GapsLast(c, d, 9);
    assert c[..9] == c;
  }

  lemma LargeCGaps(d: int)
    ensures Gaps([24] + LargeC, d) == if d == 1 then 5 else if d == 3 then 3 else 0
  {
    var c := [24] + LargeC;
    GapsLast(c, d, 2); GapsLast(c, d, 3); GapsLast(c, d, 4); GapsLast(c, d, 5);
    GapsLast(c, d, 6); GapsLast(c, d, 7); GapsLast(c, d, 8); GapsLast(c, d, 9);
    assert c[..9] == c;
  }

  lemma LargeDGaps(d: int)
    ensures Gaps([38] + LargeD, d) == if d == 1 then 5 else if d == 3 then 3 else 0
  {
    var c := [38] + LargeD;
    GapsLast(c, d, 2); GapsLast(c, d, 3); GapsLast(c, d, 4); GapsLast(c, d, 5);
    GapsLast(c, d, 6); GapsLast(c, d, 7); GapsLast(c, d, 8); GapsLast(c, d, 9);
    assert c[..9] == c;
  }

  /** The second example's chain has 22 gaps of 1 and 10 of 3, counted
      a quarter at a time. */
  lemma LargeGapsOf(d: int)
    ensures Gaps(LargeChain, d) == if d == 1 then 22 else if d == 3 then 10 else 0
  {
    GapsConcat(LargeA + LargeB + LargeC, LargeD, d);
    GapsConcat(LargeA + LargeB, LargeC, d);
    GapsConcat(LargeA, LargeB, d);
    LargeAGaps(d);
    LargeBGaps(d);
    LargeCGaps(d);
    LargeDGaps(d);
  }

  /** Any sort of the second example gives 22 gaps of 1 and 10 of 3. */
  lemma LargePart1(sorted: seq<nat>)
    requires Sorted(sorted) && multiset(sorted) == multiset(LargeSorted)
    ensures Gaps(Chain(sorted), 1) * Gaps(Chain(sorted), 3) == 220
  {
    LargeSortedSorted();
    SortedUnique(sorted, LargeSorted);
    LargeChainIs();
    LargeGapsOf(1);
    LargeGapsOf(3);
  }

  /** The chain `part2` sorts for the first example: the outlet and the
      adapters, without the device. */
  const SampleOutletChain: seq<nat> := [0, 1, 4, 5, 6, 7, 10, 11, 12, 15, 16, 19]

  /** A prefix one longer without a gap of 3 at its end lengthens the open
      run. */
  lemma RunsGrow(c: seq<nat>, k: nat, rs: seq<nat>, x: nat)
    requires 2 <= k <= |c| && c[k - 1] as int - c[k - 2] != 3
    requires Runs(c[..k - 1]) == rs + [x]
    ensures Runs(c[..k]) == rs + [x + 1]
  {
    assert c[..k][..k - 1] == c[..k - 1];
    assert (rs + [x])[..|rs|] == rs;
  }

  /** A prefix one longer with a gap of 3 at its end opens a new run. */
  lemma RunsOpen(c: seq<nat>, k: nat, rs: seq<nat>)
    requires 2 <= k <= |c| && c[k - 1] as int - c[k - 2] == 3
    requires Runs(c[..k - 1]) == rs
    ensures Runs(c[..k]) == rs + [1]
  {
    assert c[..k][..k - 1] == c[..k - 1];
  }

  lemma SampleRunsTo2()
    ensures Runs(SampleOutletChain[..2]) == [2]
  {
    assert SampleOutletChain[..1] == [0];
    RunsGrow(SampleOutletChain, 2, [], 1);
  }

  lemma SampleRunsTo3()
    ensures Runs(SampleOutletChain[..3]) == [2, 1]
  {
    SampleRunsTo2();
    RunsOpen(SampleOutletChain, 3, [2]);
  }

  lemma SampleRunsTo4()
    ensures Runs(SampleOutletChain[..4]) == [2, 2]
  {
    SampleRunsTo3();
    RunsGrow(SampleOutletChain, 4, [2], 1);
  }

  lemma SampleRunsTo5()
    ensures Runs(SampleOutletChain[..5]) == [2, 3]
  {
    SampleRunsTo4();
    RunsGrow(SampleOutletChain, 5, [2], 2);
  }

  lemma SampleRunsTo6()
    ensures Runs(SampleOutletChain[..6]) == [2, 4]
  {
    SampleRunsTo5();
    RunsGrow(SampleOutletChain, 6, [2], 3);
  }

  lemma SampleRunsTo7()
    ensures Runs(SampleOutletChain[..7]) == [2, 4, 1]
  {
    SampleRunsTo6();
    RunsOpen(SampleOutletChain, 7, [2, 4]);
  }

  lemma SampleRunsTo8()
    ensures Runs(SampleOutletChain[..8]) == [2, 4, 2]
  {
    SampleRunsTo7();
    RunsGrow(SampleOutletChain, 8, [2, 4], 1);
  }

  lemma SampleRunsTo9()
    ensures Runs(SampleOutletChain[..9]) == [2, 4, 3]
  {
    SampleRunsTo8();
    RunsGrow(SampleOutletChain, 9, [2, 4], 2);
  }

  lemma SampleRunsTo10()
    ensures Runs(SampleOutletChain[..10]) == [2, 4, 3, 1]
  {
    SampleRunsTo9();
    RunsOpen(SampleOutletChain, 10, [2, 4, 3]);
  }

  lemma SampleRunsTo11()
    ensures Runs(SampleOutletChain[..11]) == [2, 4, 3, 2]
  {
    SampleRunsTo10();
    RunsGrow(SampleOutletChain, 11, [2, 4, 3], 1);
  }

  lemma SampleRunsTo12()
    ensures Runs(SampleOutletChain[..12]) == [2, 4, 3, 2, 1]
  {
    SampleRunsTo11();
    RunsOpen(SampleOutletChain, 12, [2, 4, 3, 2]);
  }

  lemma SampleRuns()
    ensures Runs(SampleOutletChain) == [2, 4, 3, 2, 1]
  {
    SampleRunsTo12();
    assert SampleOutletChain[..12] == SampleOutletChain;
  }

  /** The product over five runs, entry by entry. */
  lemma ProductFive(rs: seq<nat>)
    requires |rs| == 5 && Fits(rs)
    ensures Product(rs) == Lookup[rs[0]] * Lookup[rs[1]] * Lookup[rs[2]] * Lookup[rs[3]] * Lookup[rs[4]]
  {
    assert rs[..4][..3] == rs[..3] && rs[..3][..2] == rs[..2] && rs[..2][..1] == rs[..1];
    assert Product(rs[..1]) == Lookup[rs[0]] by {
      assert rs[..1][..0] == [];
    }
    assert Product(rs[..2]) == Product(rs[..1]) * Lookup[rs[1]];
    assert Product(rs[..3]) == Product(rs[..2]) * Lookup[rs[2]];
    assert Product(rs[..4]) == Product(rs[..3]) * Lookup[rs[3]];
    assert rs[..5] == rs;
  }

  lemma SampleProduct()
    ensures Fits([2, 4, 3, 2, 1]) && Product([2, 4, 3, 2, 1]) == 8
  {
    ProductFive([2, 4, 3, 2, 1]);
  }

  lemma SampleNoGap2()
    ensures !HasGap2(SampleOutletChain)
  {
  }

  /** The outlet in front of a sorted list keeps it sorted. */
  lemma SortedZero(s: seq<nat>)
    requires Sorted(s)
    ensures Sorted([0] + s)
  {
    var r := [0] + s;
    forall i, j | 0 <= i < j < |r|
      ensures r[i] <= r[j]
    {
      assert r[j] == s[j - 1];
      if i > 0 {
        assert r[i] == s[i - 1];
      }
    }
  }

  /** The only sort of the first example's adapters with the outlet. */
  lemma SampleOutletUnique(chain: seq<nat>)
    requires Sorted(chain) && multiset(chain) == multiset(SampleSorted) + multiset{0}
    ensures chain == [0] + SampleSorted
  {
    SampleSortedSorted();
    SortedZero(SampleSorted);
    ConsUnique(chain, 0, SampleSorted);
  }

  lemma SampleOutletChainIs()
    ensures SampleOutletChain == [0] + SampleSorted
  {
  }

  lemma ConsUnique(chain: seq<nat>, x: nat, s: seq<nat>)
    requires Sorted(chain) && Sorted([x] + s) && multiset(chain) == multiset(s) + multiset{x}
    ensures chain == [x] + s
  {
    assert multiset([x] + s) == multiset{x} + multiset(s);
    SortedUnique(chain, [x] + s);
  }

  /** The test of `part2` on the first example: any sort of the adapters
      with the outlet passes the `assert!` and has 8 arrangements. */
  lemma SamplePart2(chain: seq<nat>)
    requires Sorted(chain) && multiset(chain) == multiset(SampleSorted) + multiset{0}
    ensures !HasGap2(chain) && Fits(Runs(chain)) && Product(Runs(chain)) == 8
  {
    SampleOutletUnique(chain);
    SampleOutletChainIs();
    SampleRuns();
    SampleProduct();
    SampleNoGap2();
  }
}
