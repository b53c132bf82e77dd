/** The first sample of the puzzle text: six rules and five messages, of
    which two are words of rule 0. */
module Day19Samples {
  import opened Outcomes
  import opened Day19

  const Rules: Day19.Rules := map[
    0 := Seq([4, 1, 5]),
    1 := Alt([2, 3], [3, 2]),
    2 := Alt([4, 4], [5, 5]),
    3 := Alt([4, 5], [5, 4]),
    4 := Lit(A),
    5 := Lit(B)]

  const Messages := ["ababbb", "bababa", "abbbab", "aaabbb", "aaaabbb"]

  /** The letter of rule 4 or rule 5. */
  function LetterOf(x: nat): char
  {
    if x == 4 then 'a' else 'b'
  }

  predicate AB(c: char)
  {
    c == 'a' || c == 'b'
  }

  /** Two equal letters: the words of rule 2. */
  predicate Same(s: string)
  {
    |s| >= 2 && AB(s[0]) && s[1] == s[0]
  }

  /** Two different letters: the words of rule 3. */
  predicate Differ(s: string)
  {
    |s| >= 2 && AB(s[0]) && AB(s[1]) && s[1] != s[0]
  }

  /** The words of rule 1. */
  predicate Four(s: string)
  {
    |s| >= 4 && ((Same(s) && Differ(s[2..])) || (Differ(s) && Same(s[2..])))
  }

  lemma Single(s: string, x: nat, f: nat)
    requires f >= 1 && x in {4, 5}
    ensures Match(s, Rules[x], Rules, f) ==
      if |s| >= 1 && s[0] == LetterOf(x) then Ok(Some(s[1..])) else Ok(None)
  {
  }

  lemma Pair(s: string, x: nat, y: nat, f: nat)
    requires f >= 1 && x in {4, 5} && y in {4, 5}
    ensures MatchSeq(s, [x, y], Rules, f) ==
      if |s| >= 2 && s[0] == LetterOf(x) && s[1] == LetterOf(y) then Ok(Some(s[2..])) else Ok(None)
  {
    assert [x, y][1..] == [y] && [y][1..] == [];
    Single(s, x, f);
    if |s| >= 1 && s[0] == LetterOf(x) {
      assert MatchSeq(s, [x, y], Rules, f) == MatchSeq(s[1..], [y], Rules, f);
      Single(s[1..], y, f);
      if |s| >= 2 && s[1] == LetterOf(y) {
        assert s[1..][1..] == s[2..];
        assert MatchSeq(s[1..], [y], Rules, f) == MatchSeq(s[2..], [], Rules, f);
      }
    }
  }

  lemma RuleTwo(s: string, f: nat)
    requires f >= 2
    ensures Match(s, Rules[2], Rules, f) == if Same(s) then Ok(Some(s[2..])) else Ok(None)
  {
    Pair(s, 4, 4, f - 1);
    Pair(s, 5, 5, f - 1);
  }

  lemma RuleThree(s: string, f: nat)
    requires f >= 2
    ensures Match(s, Rules[3], Rules, f) == if Differ(s) then Ok(Some(s[2..])) else Ok(None)
  {
    Pair(s, 4, 5, f - 1);
    Pair(s, 5, 4, f - 1);
  }

  lemma Halves(s: string, x: nat, y: nat, f: nat)
    requires f >= 2 && ((x == 2 && y == 3) || (x == 3 && y == 2))
    ensures MatchSeq(s, [x, y], Rules, f) ==
      if |s| >= 4 && (if x == 2 then Same(s) && Differ(s[2..]) else Differ(s) && Same(s[2..]))
      then Ok(Some(s[4..])) else Ok(None)
  {
    assert [x, y][1..] == [y];
    RuleTwo(s, f);
    RuleThree(s, f);
    if |s| >= 2 {
      RuleTwo(s[2..], f);
      RuleThree(s[2..], f);
      var first := if x == 2 then Same(s) else Differ(s);
      if first {
        assert MatchSeq(s, [x, y], Rules, f) == MatchSeq(s[2..], [y], Rules, f);
        var second := if y == 2 then Same(s[2..]) else Differ(s[2..]);
        if second {
          assert s[2..][2..] == s[4..];
          assert MatchSeq(s[2..], [y], Rules, f) == MatchSeq(s[4..], [], Rules, f);
        }
      }
    }
  }

  lemma RuleOne(s: string, f: nat)
    requires f >= 3
    ensures Match(s, Rules[1], Rules, f) == if Four(s) then Ok(Some(s[4..])) else Ok(None)
  {
    Halves(s, 2, 3, f - 1);
    Halves(s, 3, 2, f - 1);
  }

  /** The words of rule 0: 'a', a word of rule 1, 'b'. */
  lemma RuleZero(s: string, f: nat)
    requires f >= 4
    ensures Match(s, Rules[0], Rules, f) ==
      if |s| >= 6 && s[0] == 'a' && Four(s[1..]) && s[5] == 'b' then Ok(Some(s[6..])) else Ok(None)
  {
    assert [4, 1, 5][1..] == [1, 5] && [1, 5][1..] == [5];
    Single(s, 4, f - 1);
    if |s| > 0 && s[0] == 'a' {
      assert MatchSeq(s, [4, 1, 5], Rules, f - 1) == MatchSeq(s[1..], [1, 5], Rules, f - 1);
      RuleOne(s[1..], f - 1);
      if Four(s[1..]) {
        assert MatchSeq(s[1..], [1, 5], Rules, f - 1) == MatchSeq(s[5..], [5], Rules, f - 1);
        assert s[1..][4..] == s[5..];
        Single(s[5..], 5, f - 1);
        if |s| >= 6 && s[5] == 'b' {
          assert s[5..][1..] == s[6..];
          assert MatchSeq(s[5..], [5], Rules, f - 1) == MatchSeq(s[6..], [], Rules, f - 1);
        }
      }
    }
  }

  /** A message is accepted when it is 'a', a word of rule 1, 'b'. */
  lemma AcceptsSample(s: string)
    ensures Accepts(Rules, s, 4) <==> |s| == 6 && s[0] == 'a' && Four(s[1..]) && s[5] == 'b'
  {
    AcceptsWith(s, 4);
  }

  /** The same with the fuel a parameter, so that it is not unrolled. */
  lemma AcceptsWith(s: string, f: nat)
    requires f >= 4
    ensures Accepts(Rules, s, f) <==> |s| == 6 && s[0] == 'a' && Four(s[1..]) && s[5] == 'b'
  {
    RuleZero(s, f);
    if |s| >= 6 && s[0] == 'a' && Four(s[1..]) && s[5] == 'b' {
      assert s[6..] == [] <==> |s| == 6;
    }
  }

  lemma SampleFirst()
    ensures Accepts(Rules, Messages[0], 4)
  {
    var s := Messages[0];
    AcceptsSample(s);
    assert s[1..][2..] == s[3..];
  }

  lemma SampleSecond()
    ensures !Accepts(Rules, Messages[1], 4)
  {
    AcceptsSample(Messages[1]);
  }

  lemma SampleThird()
    ensures Accepts(Rules, Messages[2], 4)
  {
    var s := Messages[2];
    AcceptsSample(s);
    assert s[1..][2..] == s[3..];
  }

  lemma SampleFourth()
    ensures !Accepts(Rules, Messages[3], 4)
  {
    var s := Messages[3];
    AcceptsSample(s);
    assert s[1..][2..] == s[3..];
  }

  lemma SampleFifth()
    ensures !Accepts(Rules, Messages[4], 4)
  {
    AcceptsSample(Messages[4]);
  }

  lemma Part1Step(rules: Day19.Rules, msgs: seq<string>, fuel: nat, n: nat)
    requires 0 in rules && msgs != [] && Match(msgs[0], rules[0], rules, fuel).Ok?
    requires Part1(rules, msgs[1..], fuel) == Ok(n)
    ensures Part1(rules, msgs, fuel) == Ok(n + if Accepts(rules, msgs[0], fuel) then 1 else 0)
  {
    var m := Match(msgs[0], rules[0], rules, fuel);
    assert Part1(rules, msgs, fuel) == Ok((if m.value == Some([]) then 1 else 0) + n);
  }

  /** Part 1 of the sample counts 2. */
  lemma SamplePart1()
    ensures Part1(Rules, Messages, 4) == Ok(2)
  {
    var ms := Messages;
    SampleFirst();
    SampleSecond();
    SampleThird();
    SampleFourth();
    SampleFifth();
    RuleZero(ms[0], 4);
    RuleZero(ms[1], 4);
    RuleZero(ms[2], 4);
    RuleZero(ms[3], 4);
    RuleZero(ms[4], 4);
    assert ms[4..][1..] == [];
    Part1Step(Rules, ms[4..], 4, 0);
    assert ms[3..][1..] == ms[4..];
    Part1Step(Rules, ms[3..], 4, 0);
    assert ms[2..][1..] == ms[3..];
    Part1Step(Rules, ms[2..], 4, 0);
    assert ms[1..][1..] == ms[2..];
    Part1Step(Rules, ms[1..], 4, 1);
    Part1Step(Rules, ms, 4, 1);
  }
}
