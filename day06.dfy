/** Day 6: customs declaration forms. Lines are grouped at empty lines,
    each person's answers become the set of the chars on their line, and
    the parts sum, per group, the number of questions anyone (part 1) or
    everyone (part 2) answered. */
module Day06 {
  import opened Sets

  type Group = seq<set<char>>

  /** The answers on one line. */
  function CharSet(line: string): (s: set<char>)
    ensures forall c :: c in s <==> c in line
  {
    set c | c in line
  }

  /** The groups `read` builds from the first lines: every empty line closes
      the current group, and the last group is always pushed. */
  function GroupsOf(lines: seq<string>): (gs: seq<Group>)
    ensures |gs| >= 1
  {
    if lines == [] then [[]]
    else
      var gs := GroupsOf(lines[..|lines| - 1]);
      var last := lines[|lines| - 1];
      if last == "" then gs + [[]]
      else gs[..|gs| - 1] + [gs[|gs| - 1] + [CharSet(last)]]
  }

  /** `read`: pushes each non-empty line's set onto `group`, and `group`
      onto `all` at each empty line and at the end. */
  method Read(lines: seq<string>) returns (all: seq<Group>)
    ensures all == GroupsOf(lines)
  {
    all := [];
    var group: Group := [];
    for i := 0 to |lines|
      invariant all + [group] == GroupsOf(lines[..i])
    {
      assert lines[..i + 1][..i] == lines[..i];
      if lines[i] == "" {
        all := all + [group];
        group := [];
      } else {
        group := group + [CharSet(lines[i])];
      }
    }
    assert lines[..|lines|] == lines;
    all := all + [group];
  }

  function CountEmpty(lines: seq<string>): nat
  {
    if lines == [] then 0 else CountEmpty(lines[..|lines| - 1]) + (if lines[|lines| - 1] == "" then 1 else 0)
  }

  /** The non-empty lines' answer sets, in order. */
  function Answers(lines: seq<string>): seq<set<char>>
  {
    if lines == [] then []
    else Answers(lines[..|lines| - 1]) + (if lines[|lines| - 1] == "" then [] else [CharSet(lines[|lines| - 1])])
  }

  function Flatten(gs: seq<Group>): seq<set<char>>
  {
    if gs == [] then [] else Flatten(gs[..|gs| - 1]) + gs[|gs| - 1]
  }

  /** There is one group more than there are empty lines, and the groups
      hold every non-empty line's answers, in order, and nothing else. */
  lemma {:induction false} GroupsPartition(lines: seq<string>)
    ensures |GroupsOf(lines)| == 1 + CountEmpty(lines)
    ensures Flatten(GroupsOf(lines)) == Answers(lines)
  {
    if lines != [] {
      var pre := lines[..|lines| - 1];
      GroupsPartition(pre);
      var gs := GroupsOf(pre);
      var last := lines[|lines| - 1];
      if last == "" {
        assert (gs + [[]])[..|gs|] == gs;
      } else {
        var gs' := gs[..|gs| - 1] + [gs[|gs| - 1] + [CharSet(last)]];
        assert gs'[..|gs'| - 1] == gs[..|gs| - 1];
        assert gs == gs[..|gs| - 1] + [gs[|gs| - 1]];
        FlattenSnoc(gs[..|gs| - 1], gs[|gs| - 1]);
      }
    }
  }

  lemma FlattenSnoc(gs: seq<Group>, g: Group)
    ensures Flatten(gs + [g]) == Flatten(gs) + g
  {
    assert (gs + [g])[..|gs|] == gs;
  }

  /** The questions anyone in the group answered. */
  function Union(g: Group): (u: set<char>)
    ensures forall i :: 0 <= i < |g| ==> g[i] <= u
  {
    if g == [] then {}
    else
      assert forall i :: 0 <= i < |g| - 1 ==> g[..|g| - 1][i] == g[i];
      Union(g[..|g| - 1]) + g[|g| - 1]
  }

  /** `fold1(|a, b| &a & &b)`: the questions everyone answered; the
      `unwrap` panics on an empty group. */
  function Intersection(g: Group): (u: set<char>)
    requires |g| >= 1
    ensures forall i :: 0 <= i < |g| ==> u <= g[i]
  {
    if |g| == 1 then g[0]
    else
      assert forall i :: 0 <= i < |g| - 1 ==> g[..|g| - 1][i] == g[i];
      Intersection(g[..|g| - 1]) * g[|g| - 1]
  }

  /** A question is in the union iff some member answered it. */
  lemma {:induction false} UnionMembers(g: Group)
    ensures forall c :: c in Union(g) <==> exists i :: 0 <= i < |g| && c in g[i]
  {
    if g != [] {
      UnionMembers(g[..|g| - 1]);
      assert forall i :: 0 <= i < |g| - 1 ==> g[..|g| - 1][i] == g[i];
    }
  }

  /** A question is in the intersection iff every member answered it. */
  lemma {:induction false} IntersectionMembers(g: Group)
    requires |g| >= 1
    ensures forall c :: c in Intersection(g) <==> forall i :: 0 <= i < |g| ==> c in g[i]
  {
    if |g| > 1 {
      IntersectionMembers(g[..|g| - 1]);
      assert forall i :: 0 <= i < |g| - 1 ==> g[..|g| - 1][i] == g[i];
    }
  }

  /** `part1`. */
  function Part1(input: seq<Group>): (n: nat)
    ensures n == 0 <==> forall i :: 0 <= i < |input| ==> Union(input[i]) == {}
  {
    if input == [] then 0
    else
      assert forall i :: 0 <= i < |input| - 1 ==> input[..|input| - 1][i] == input[i];
      Part1(input[..|input| - 1]) + |Union(input[|input| - 1])|
  }

  predicate NoEmptyGroup(input: seq<Group>)
  {
    forall i :: 0 <= i < |input| ==> |input[i]| >= 1
  }

  /** `part2`. */
  function Part2(input: seq<Group>): (n: nat)
    requires NoEmptyGroup(input)
    ensures n == 0 <==> forall i :: 0 <= i < |input| ==> Intersection(input[i]) == {}
  {
    if input == [] then 0
    else
      assert forall i :: 0 <= i < |input| - 1 ==> input[..|input| - 1][i] == input[i];
      Part2(input[..|input| - 1]) + |Intersection(input[|input| - 1])|
  }

  /** Everyone's answers are among anyone's, so `part2` never exceeds `part1`. */
  lemma {:induction false} Part2AtMostPart1(input: seq<Group>)
    requires NoEmptyGroup(input)
    ensures Part2(input) <= Part1(input)
  {
    if input != [] {
      var g := input[|input| - 1];
      Part2AtMostPart1(input[..|input| - 1]);
      assert Intersection(g) <= Union(g) by {
        UnionMembers(g);
        IntersectionMembers(g);
        forall c | c in Intersection(g) ensures c in Union(g) {
          assert c in g[0];
        }
      }
      SubsetCard(Intersection(g), Union(g));
    }
  }

  /** The example groups. */
  const Sample: seq<Group> := [
    [{'a', 'b', 'c'}],
    [{'a'}, {'b'}, {'c'}],
    [{'a', 'b'}, {'a', 'c'}],
    [{'a'}, {'a'}, {'a'}, {'a'}],
    [{'b'}]
  ]

  lemma Card3(a: char, b: char, c: char)
    requires a != b && b != c && a != c
    ensures |{a, b, c}| == 3
  {
    assert {a, b, c} == {a, b} + {c};
  }

  /** Per example group: union sizes 3, 3, 3, 1, 1 and intersection
      sizes 3, 0, 1, 1, 1. */
  lemma SampleGroup0()
    ensures |Union(Sample[0])| == 3 && |Intersection(Sample[0])| == 3
  {
    Card3('a', 'b', 'c');
    assert Sample[0][..0] == [];
  }

  lemma SampleGroup1()
    ensures |Union(Sample[1])| == 3 && |Intersection(Sample[1])| == 0
  {
    var g: Group := [{'a'}, {'b'}, {'c'}];
    assert g[..2] == [{'a'}, {'b'}] && g[..2][..1] == [{'a'}] && g[..1][..0] == [];
    assert Union(g[..1]) == {'a'};
    assert Union(g[..2]) == {'a', 'b'};
    assert Union(g) == {'a', 'b', 'c'};
    assert Intersection(g) == {};
    Card3('a', 'b', 'c');
  }

  lemma SampleGroup2()
    ensures |Union(Sample[2])| == 3 && |Intersection(Sample[2])| == 1
  {
    var g: Group := [{'a', 'b'}, {'a', 'c'}];
    assert g[..1] == [{'a', 'b'}] && g[..1][..0] == [];
    assert Union(g) == {'a', 'b', 'c'};
    assert Intersection(g) == {'a'};
    Card3('a', 'b', 'c');
  }

  lemma SampleGroup3()
    ensures |Union(Sample[3])| == 1 && |Intersection(Sample[3])| == 1
  {
    var g: Group := [{'a'}, {'a'}, {'a'}, {'a'}];
    assert g[..3] == [{'a'}, {'a'}, {'a'}] && g[..3][..2] == [{'a'}, {'a'}];
    assert g[..2][..1] == [{'a'}] && g[..1][..0] == [] && g[..1][0] == {'a'};
    assert Union(g[..1][..0]) == {};
    assert g[..2][..1] == g[..1] && g[..3][..2] == g[..2] && g[..2][1] == {'a'} && g[..3][2] == {'a'};
    assert Union(g[..1]) == {'a'} && Intersection(g[..1]) == {'a'};
    assert Union(g[..2]) == {'a'} && Intersection(g[..2]) == {'a'};
    assert Union(g[..3]) == {'a'} && Intersection(g[..3]) == {'a'};
    assert Union(g) == {'a'};
    assert Intersection(g) == {'a'};
  }

  lemma SampleGroup4()
    ensures |Union(Sample[4])| == 1 && |Intersection(Sample[4])| == 1
  {
    assert Sample[4][..0] == [];
  }

  /** The parts of a five-group input, group by group. */
  lemma {:induction false} Parts5(s: seq<Group>)
    requires |s| == 5 && NoEmptyGroup(s)
    ensures Part1(s) == |Union(s[0])| + |Union(s[1])| + |Union(s[2])| + |Union(s[3])| + |Union(s[4])|
    ensures Part2(s) == |Intersection(s[0])| + |Intersection(s[1])| + |Intersection(s[2])|
                        + |Intersection(s[3])| + |Intersection(s[4])|
  {
    assert s[..5] == s && s[..4][..3] == s[..3] && s[..3][..2] == s[..2] && s[..2][..1] == s[..1] && s[..1][..0] == [];
    assert Part1(s[..1]) == |Union(s[0])| && Part2(s[..1]) == |Intersection(s[0])|;
    assert Part1(s[..2]) == Part1(s[..1]) + |Union(s[1])|;
    assert Part2(s[..2]) == Part2(s[..1]) + |Intersection(s[1])|;
    assert Part1(s[..3]) == Part1(s[..2]) + |Union(s[2])|;
    assert Part2(s[..3]) == Part2(s[..2]) + |Intersection(s[2])|;
    assert Part1(s[..4]) == Part1(s[..3]) + |Union(s[3])|;
    assert Part2(s[..4]) == Part2(s[..3]) + |Intersection(s[3])|;
  }

  lemma SampleNoEmpty()
    ensures NoEmptyGroup(Sample)
  {
    assert |Sample[0]| == 1 && |Sample[1]| == 3 && |Sample[2]| == 2 && |Sample[3]| == 4 && |Sample[4]| == 1;
  }

  /** So `part1` is 11 and `part2` is 6 on the example. */
  lemma SampleSums()
    ensures NoEmptyGroup(Sample)
    ensures Part1(Sample) == 11
    ensures Part2(Sample) == 6
  {
    SampleNoEmpty();
    Parts5(Sample);
    SampleGroup0();
    SampleGroup1();
    SampleGroup2();
    SampleGroup3();
    SampleGroup4();
  }
}
