/** Day 19: monster messages. A grammar of numbered rules over the letters
    'a' and 'b' is matched against messages. Matching is greedy: each rule
    strips what it matches from the front (or, mirrored, from the back) of
    the message, and an alternative is only tried when the first one fails.
    Part 1 counts the messages rule 0 consumes entirely; part 2 handles the
    looping rules 8 and 11 by peeling rule 31 off the back and rule 42 off
    both ends. */
module Day19 {
  import opened Outcomes
  import opened Text

  datatype Char = A | B

  datatype Rule =
    | Lit(c: Char)
    | Seq(ids: seq<nat>)
    | Alt(l: seq<nat>, r: seq<nat>)

  type Rules = map<nat, Rule>

  const ParseError := "invalid digit found in string"
  const NoColon := "no colon"
  const Underflow := "attempt to subtract with overflow"
  const OutOfRange := "byte index out of range"
  const MissingRule := "no entry found for key"
  /** Rust recursion has no bound; the model counts nested rule calls and
      stops, as a stack overflow would, when the count runs out. */
  const TooDeep := "stack overflow"

  function Letter(c: Char): char
  {
    match c
    case A => 'a'
    case B => 'b'
  }

  // ---------------------------------------------------------------- Rule::from_str

  /** Each word parsed as a `usize`; the first failure is the error. */
  function ParseIds(ws: seq<string>): (r: Result<seq<nat>>)
    ensures !r.Panic?
    ensures r.Ok? <==> forall i :: 0 <= i < |ws| ==> ParseNat(ws[i], U64Max).Some?
    ensures r.Ok? ==> |r.value| == |ws| && forall i :: 0 <= i < |ws| ==> ParseNat(ws[i], U64Max) == Some(r.value[i])
  {
    if ws == [] then Ok([])
    else match ParseNat(ws[0], U64Max)
      case None => Err(ParseError)
      case Some(n) =>
        match ParseIds(ws[1..])
        case Ok(ns) => Ok([n] + ns)
        case Err(m) => Err(m)
        case Panic(m) => Panic(m)
  }

  /** `Rule::from_str`: a quoted letter, two index lists around " | ", or
      one index list. The left list ends one character before the bar and
      the right one starts two after it, so a bar at the very start
      underflows and a bar too close to the end slices out of range. */
  function FromStr(s: string): (r: Result<Rule>)
    ensures r.Ok? ==> WellFormed(r.value)
  {
    if s == "\"a\"" then Ok(Lit(A))
    else if s == "\"b\"" then Ok(Lit(B))
    else match Find(s, '|')
      case Some(bar) =>
        (if bar == 0 then Panic(Underflow)
         else if bar + 2 > |s| then Panic(OutOfRange)
         else
           var left, right := s[..bar - 1], s[bar + 2..];
           match ParseIds(Split(left, ' '))
           case Ok(l) =>
             (match ParseIds(Split(right, ' '))
              case Ok(r) => Ok(Alt(l, r))
              case Err(m) => Err(m)
              case Panic(m) => Panic(m))
           case Err(m) => Err(m)
           case Panic(m) => Panic(m))
      case None =>
        match ParseIds(Split(s, ' '))
        case Ok(ids) => Ok(Seq(ids))
        case Err(m) => Err(m)
        case Panic(m) => Panic(m)
  }

  /** Every index list of a rule is non-empty: `split` always yields at
      least one word, and an empty word does not parse. */
  predicate WellFormed(rule: Rule)
  {
    match rule
    case Lit(_) => true
    case Seq(ids) => |ids| > 0
    case Alt(l, r) => |l| > 0 && |r| > 0
  }

  predicate AllWellFormed(rules: Rules)
  {
    forall i :: i in rules ==> WellFormed(rules[i])
  }

  /** `parse_rule`: the index before the first colon, the rule from two
      characters after it. */
  function ParseRule(s: string): (r: Result<(nat, Rule)>)
    ensures r.Ok? ==> WellFormed(r.value.1)
  {
    match Find(s, ':')
    case None => Err(NoColon)
    case Some(colon) =>
      match ParseNat(s[..colon], U64Max)
      case None => Err(ParseError)
      case Some(idx) =>
        if colon + 2 > |s| then Panic(OutOfRange)
        else
          match FromStr(s[colon + 2..])
          case Ok(rule) => Ok((idx, rule))
          case Err(m) => Err(m)
          case Panic(m) => Panic(m)
  }

  // ---------------------------------------------------------------- writing rules

  /** A list of indices as the puzzle writes it: decimal, space-separated. */
  function ShowIds(ids: seq<nat>): string
  {
    Join(ShowAll(ids), ' ')
  }

  function ShowAll(ids: seq<nat>): (ws: seq<string>)
    ensures |ws| == |ids|
    ensures forall i :: 0 <= i < |ws| ==> ws[i] == ShowNat(ids[i])
  {
    if ids == [] then [] else [ShowNat(ids[0])] + ShowAll(ids[1..])
  }

  function ShowRule(rule: Rule): string
  {
    match rule
    case Lit(c) => ['"', Letter(c), '"']
    case Seq(ids) => ShowIds(ids)
    case Alt(l, r) => ShowIds(l) + " | " + ShowIds(r)
  }

  predicate Small(ids: seq<nat>)
  {
    forall i :: 0 <= i < |ids| ==> ids[i] <= U64Max
  }

  /** A rule whose indices fit a `usize`. */
  predicate Writable(rule: Rule)
  {
    WellFormed(rule) &&
    match rule
    case Lit(_) => true
    case Seq(ids) => Small(ids)
    case Alt(l, r) => Small(l) && Small(r)
  }

  lemma ParseIdsShow(ids: seq<nat>)
    requires Small(ids)
    ensures ParseIds(ShowAll(ids)) == Ok(ids)
    decreases |ids|
  {
    if ids != [] {
      var ws := ShowAll(ids);
      assert ws[0] == ShowNat(ids[0]) && ws[1..] == ShowAll(ids[1..]);
      calc {
        ParseIds(ws);
        { ParseShowNat(ids[0], U64Max); }
        match ParseIds(ws[1..]) case Ok(ns) => Ok([ids[0]] + ns) case Err(m) => Err(m) case Panic(m) => Panic(m);
        { ParseIdsShow(ids[1..]); }
        Ok([ids[0]] + ids[1..]);
        { assert [ids[0]] + ids[1..] == ids; }
        Ok(ids);
      }
    }
  }

  /** The words of a written index list are the written indices. */
  lemma SplitShowIds(ids: seq<nat>)
    requires |ids| > 0
    ensures Split(ShowIds(ids), ' ') == ShowAll(ids)
  {
    var ws := ShowAll(ids);
    forall i | 0 <= i < |ws|
      ensures ' ' !in ws[i]
    {
      ShowDigits(ids[i]);
    }
    SplitJoin(ws, ' ');
  }

  lemma ShowDigits(n: nat)
    ensures AllDigits(ShowNat(n)) && |ShowNat(n)| > 0
    ensures ' ' !in ShowNat(n) && '|' !in ShowNat(n) && ':' !in ShowNat(n)
  {
    ShowNatValue(n);
    var s := ShowNat(n);
    forall i | 0 <= i < |s|
      ensures s[i] != ' ' && s[i] != '|' && s[i] != ':'
    {
      assert IsDigit(s[i]);
    }
  }

  /** A written index list holds only digits and spaces. */
  lemma ShowIdsChars(ids: seq<nat>)
    requires |ids| > 0
    ensures '|' !in ShowIds(ids) && ':' !in ShowIds(ids)
    ensures |ShowIds(ids)| > 0 && IsDigit(ShowIds(ids)[0])
    decreases |ids|
  {
    ShowDigits(ids[0]);
    var ws := ShowAll(ids);
    if |ids| > 1 {
      ShowIdsChars(ids[1..]);
      assert ws[1..] == ShowAll(ids[1..]);
      assert ShowIds(ids) == ws[0] + [' '] + ShowIds(ids[1..]);
    } else {
      assert ShowIds(ids) == ws[0];
    }
  }

  /** Reading a written rule gives the rule back. */
  lemma FromStrShow(rule: Rule)
    requires Writable(rule)
    ensures FromStr(ShowRule(rule)) == Ok(rule)
  {
    match rule
    case Lit(c) =>
    case Seq(ids) => FromStrShowSeq(ids);
    case Alt(l, r) => FromStrShowAlt(l, r);
  }

  lemma FromStrShowSeq(ids: seq<nat>)
    requires |ids| > 0 && Small(ids)
    ensures FromStr(ShowIds(ids)) == Ok(Seq(ids))
  {
    var s := ShowIds(ids);
    ShowIdsChars(ids);
    assert s != "\"a\"" && s != "\"b\"" by { assert IsDigit(s[0]); }
    SplitShowIds(ids);
    ParseIdsShow(ids);
  }

  lemma FromStrShowAlt(l: seq<nat>, r: seq<nat>)
    requires |l| > 0 && |r| > 0 && Small(l) && Small(r)
    ensures FromStr(ShowIds(l) + " | " + ShowIds(r)) == Ok(Alt(l, r))
  {
    var left, right := ShowIds(l), ShowIds(r);
    var s := left + " | " + right;
    var bar := |left| + 1;
    assert Find(s, '|') == Some(bar) && s[..bar - 1] == left && s[bar + 2..] == right by {
      ShowIdsChars(l);
      assert s[..bar] == left + " " by { assert s == (left + " ") + ("| " + right); }
      assert s[bar] == '|';
      FindFirst(s, '|', bar);
    }
    assert s != "\"a\"" && s != "\"b\"" by {
      ShowIdsChars(l);
      assert s[0] == left[0];
      assert IsDigit(s[0]);
    }
    assert ParseIds(Split(left, ' ')) == Ok(l) by {
      SplitShowIds(l);
      ParseIdsShow(l);
    }
    assert ParseIds(Split(right, ' ')) == Ok(r) by {
      SplitShowIds(r);
      ParseIdsShow(r);
    }
  }

  /** Reading a written "idx: rule" line gives the pair back. */
  lemma ParseRuleShow(idx: nat, rule: Rule)
    requires idx <= U64Max && Writable(rule)
    ensures ParseRule(ShowNat(idx) + ": " + ShowRule(rule)) == Ok((idx, rule))
  {
    var n := ShowNat(idx);
    var s := n + ": " + ShowRule(rule);
    ShowDigits(idx);
    assert s[..|n|] == n;
    FindFirst(s, ':', |n|);
    ParseShowNat(idx, U64Max);
    assert s[|n| + 2..] == ShowRule(rule);
    FromStrShow(rule);
  }

  // ---------------------------------------------------------------- match_rule

  function StripPrefix(s: string, c: Char): (r: Option<string>)
  {
    if |s| > 0 && s[0] == Letter(c) then Some(s[1..]) else None
  }

  function StripSuffix(s: string, c: Char): (r: Option<string>)
  {
    if |s| > 0 && s[|s| - 1] == Letter(c) then Some(s[..|s| - 1]) else None
  }

  /** An alternative matches as the sequence it is made of. */
  function Rank(rule: Rule): nat
  {
    if rule.Alt? then 1 else 0
  }

  /** `match_rule` with at most `fuel` nested rule calls: the rest of s
      after the rule, None when it does not match, a panic for a missing
      rule index. */
  function Match(s: string, rule: Rule, rules: Rules, fuel: nat): (r: Result<Option<string>>)
    ensures !r.Err?
    decreases fuel, Rank(rule)
  {
    if fuel == 0 then Panic(TooDeep)
    else match rule
      case Lit(c) => Ok(StripPrefix(s, c))
      case Seq(ids) => MatchSeq(s, ids, rules, fuel - 1)
      case Alt(l, r) =>
        var m := Match(s, Seq(l), rules, fuel);
        if m == Ok(None) then Match(s, Seq(r), rules, fuel) else m
  }

  /** The `Seq` loop: each index in turn, threading the rest through. */
  function MatchSeq(s: string, ids: seq<nat>, rules: Rules, fuel: nat): (r: Result<Option<string>>)
    ensures !r.Err?
    decreases fuel, 2, |ids|
  {
    if ids == [] then Ok(Some(s))
    else if ids[0] !in rules then Panic(MissingRule)
    else
      var m := Match(s, rules[ids[0]], rules, fuel);
      if m.Ok? && m.value.Some? then MatchSeq(m.value.value, ids[1..], rules, fuel) else m
  }

  /** `match_rule` as the source runs it: the `Seq` case loops over the
      indices, reassigning the rest. */
  method MatchRule(s: string, rule: Rule, rules: Rules, fuel: nat) returns (r: Result<Option<string>>)
    ensures r == Match(s, rule, rules, fuel)
    decreases fuel, Rank(rule)
  {
    if fuel == 0 {
      return Panic(TooDeep);
    }
    match rule {
      case Lit(c) =>
        r := Ok(StripPrefix(s, c));
      case Seq(ids) =>
        var rest := s;
        for k := 0 to |ids|
          invariant MatchSeq(rest, ids[k..], rules, fuel - 1) == Match(s, rule, rules, fuel)
        {
          assert ids[k..][1..] == ids[k + 1..];
          if ids[k] !in rules {
            return Panic(MissingRule);
          }
          var m := MatchRule(rest, rules[ids[k]], rules, fuel - 1);
          if !(m.Ok? && m.value.Some?) {
            return m;
          }
          rest := m.value.value;
        }
        r := Ok(Some(rest));
      case Alt(l, rr) =>
        r := MatchRule(s, Seq(l), rules, fuel);
        if r == Ok(None) {
          r := MatchRule(s, Seq(rr), rules, fuel);
        }
    }
  }

  // ---------------------------------------------------------------- match_suffix

  /** `match_suffix`, the mirror image: what is left in front of the rule. */
  function MatchEnd(s: string, rule: Rule, rules: Rules, fuel: nat): (r: Result<Option<string>>)
    ensures !r.Err?
    decreases fuel, Rank(rule)
  {
    if fuel == 0 then Panic(TooDeep)
    else match rule
      case Lit(c) => Ok(StripSuffix(s, c))
      case Seq(ids) => MatchEndSeq(s, ids, rules, fuel - 1)
      case Alt(l, r) =>
        var m := MatchEnd(s, Seq(l), rules, fuel);
        if m == Ok(None) then MatchEnd(s, Seq(r), rules, fuel) else m
  }

  /** The reversed `Seq` loop: the last index first. */
  function MatchEndSeq(s: string, ids: seq<nat>, rules: Rules, fuel: nat): (r: Result<Option<string>>)
    ensures !r.Err?
    decreases fuel, 2, |ids|
  {
    if ids == [] then Ok(Some(s))
    else
      var last := ids[|ids| - 1];
      if last !in rules then Panic(MissingRule)
      else
        var m := MatchEnd(s, rules[last], rules, fuel);
        if m.Ok? && m.value.Some? then MatchEndSeq(m.value.value, ids[..|ids| - 1], rules, fuel) else m
  }

  method MatchSuffix(s: string, rule: Rule, rules: Rules, fuel: nat) returns (r: Result<Option<string>>)
    ensures r == MatchEnd(s, rule, rules, fuel)
    decreases fuel, Rank(rule)
  {
    if fuel == 0 {
      return Panic(TooDeep);
    }
    match rule {
      case Lit(c) =>
        r := Ok(StripSuffix(s, c));
      case Seq(ids) =>
        var rest := s;
        var k := |ids|;
        assert ids[..k] == ids;
        while k > 0
          invariant 0 <= k <= |ids|
          invariant MatchEndSeq(rest, ids[..k], rules, fuel - 1) == MatchEnd(s, rule, rules, fuel)
        {
          assert ids[..k][..k - 1] == ids[..k - 1];
          if ids[k - 1] !in rules {
            return Panic(MissingRule);
          }
          var m := MatchSuffix(rest, rules[ids[k - 1]], rules, fuel - 1);
          if !(m.Ok? && m.value.Some?) {
            return m;
          }
          rest := m.value.value;
          k := k - 1;
        }
        r := Ok(Some(rest));
      case Alt(l, rr) =>
        r := MatchSuffix(s, Seq(l), rules, fuel);
        if r == Ok(None) {
          r := MatchSuffix(s, Seq(rr), rules, fuel);
        }
    }
  }

  // ---------------------------------------------------------------- the words of a rule

  /** w is a word of the rule, using at most `fuel` nested rule calls: a
      letter, the words of a sequence's rules one after another, or a word
      of either side of an alternative. */
  predicate Derives(rules: Rules, rule: Rule, w: string, fuel: nat)
    decreases fuel, Rank(rule)
  {
    fuel > 0 &&
    match rule
    case Lit(c) => w == [Letter(c)]
    case Seq(ids) => DerivesSeq(rules, ids, w, fuel - 1)
    case Alt(l, r) => Derives(rules, Seq(l), w, fuel) || Derives(rules, Seq(r), w, fuel)
  }

  predicate DerivesSeq(rules: Rules, ids: seq<nat>, w: string, fuel: nat)
    decreases fuel, 2, |ids|
  {
    if ids == [] then w == []
    else
      ids[0] in rules &&
      exists k :: 0 <= k <= |w| && Derives(rules, rules[ids[0]], w[..k], fuel) && DerivesSeq(rules, ids[1..], w[k..], fuel)
  }

  /** What `match_rule` strips is a word of the rule, and what it returns is
      the rest of the input after that word. */
  lemma {:induction false} MatchSound(s: string, rule: Rule, rules: Rules, fuel: nat)
    requires Match(s, rule, rules, fuel).Ok? && Match(s, rule, rules, fuel).value.Some?
    ensures var t := Match(s, rule, rules, fuel).value.value;
      |t| <= |s| && s[|s| - |t|..] == t && Derives(rules, rule, s[..|s| - |t|], fuel)
    decreases fuel, Rank(rule)
  {
    match rule
    case Lit(c) =>
      assert s[..1] == [s[0]];
    case Seq(ids) =>
      MatchSeqSound(s, ids, rules, fuel - 1);
    case Alt(l, r) =>
      if Match(s, Seq(l), rules, fuel) == Ok(None) {
        MatchSound(s, Seq(r), rules, fuel);
      } else {
        MatchSound(s, Seq(l), rules, fuel);
      }
  }

  lemma {:induction false} MatchSeqSound(s: string, ids: seq<nat>, rules: Rules, fuel: nat)
    requires MatchSeq(s, ids, rules, fuel).Ok? && MatchSeq(s, ids, rules, fuel).value.Some?
    ensures var t := MatchSeq(s, ids, rules, fuel).value.value;
      |t| <= |s| && s[|s| - |t|..] == t && DerivesSeq(rules, ids, s[..|s| - |t|], fuel)
    decreases fuel, 2, |ids|
  {
    if ids == [] {
      assert s[..0] == [];
    } else {
      var u := Match(s, rules[ids[0]], rules, fuel).value.value;
      MatchSound(s, rules[ids[0]], rules, fuel);
      MatchSeqSound(u, ids[1..], rules, fuel);
      var t := MatchSeq(u, ids[1..], rules, fuel).value.value;
      var k := |s| - |u|;
      var w := s[..|s| - |t|];
      assert w[..k] == s[..k];
      assert w[k..] == u[..|u| - |t|];
    }
  }

  /** The mirror image: `match_suffix` keeps what is in front of a word of
      the rule. */
  lemma {:induction false} MatchEndSound(s: string, rule: Rule, rules: Rules, fuel: nat)
    requires MatchEnd(s, rule, rules, fuel).Ok? && MatchEnd(s, rule, rules, fuel).value.Some?
    ensures var p := MatchEnd(s, rule, rules, fuel).value.value;
      |p| <= |s| && s[..|p|] == p && Derives(rules, rule, s[|p|..], fuel)
    decreases fuel, Rank(rule)
  {
    match rule
    case Lit(c) =>
      assert s[|s| - 1..] == [s[|s| - 1]];
    case Seq(ids) =>
      MatchEndSeqSound(s, ids, rules, fuel - 1);
    case Alt(l, r) =>
      if MatchEnd(s, Seq(l), rules, fuel) == Ok(None) {
        MatchEndSound(s, Seq(r), rules, fuel);
      } else {
        MatchEndSound(s, Seq(l), rules, fuel);
      }
  }

  lemma {:induction false} MatchEndSeqSound(s: string, ids: seq<nat>, rules: Rules, fuel: nat)
    requires MatchEndSeq(s, ids, rules, fuel).Ok? && MatchEndSeq(s, ids, rules, fuel).value.Some?
    ensures var p := MatchEndSeq(s, ids, rules, fuel).value.value;
      |p| <= |s| && s[..|p|] == p && DerivesSeq(rules, ids, s[|p|..], fuel)
    decreases fuel, 2, |ids|
  {
    if ids == [] {
      assert s[|s|..] == [];
    } else {
      var last := ids[|ids| - 1];
      var t := MatchEnd(s, rules[last], rules, fuel).value.value;
      MatchEndSound(s, rules[last], rules, fuel);
      MatchEndSeqSound(t, ids[..|ids| - 1], rules, fuel);
      var p := MatchEndSeq(t, ids[..|ids| - 1], rules, fuel).value.value;
      DerivesSeqSnoc(rules, ids, t[|p|..], s[|t|..], fuel);
      assert s[|p|..] == t[|p|..] + s[|t|..];
    }
  }

  /** A word of a sequence followed by a word of one more rule. */
  lemma {:induction false} DerivesSeqSnoc(rules: Rules, ids: seq<nat>, u: string, v: string, fuel: nat)
    requires |ids| > 0 && ids[|ids| - 1] in rules
    requires DerivesSeq(rules, ids[..|ids| - 1], u, fuel) && Derives(rules, rules[ids[|ids| - 1]], v, fuel)
    ensures DerivesSeq(rules, ids, u + v, fuel)
    decreases |ids|
  {
    if |ids| == 1 {
      assert u == [] && u + v == v;
      assert v[..|v|] == v && v[|v|..] == [];
      assert ids[1..] == [];
    } else {
      var init := ids[..|ids| - 1];
      var k :| 0 <= k <= |u| && Derives(rules, rules[init[0]], u[..k], fuel) && DerivesSeq(rules, init[1..], u[k..], fuel);
      assert init[1..] == ids[1..][..|ids| - 2];
      DerivesSeqSnoc(rules, ids[1..], u[k..], v, fuel);
      assert (u + v)[..k] == u[..k] && (u + v)[k..] == u[k..] + v;
    }
  }

  /** Every word of a rule is at least one letter long when no index list
      is empty, so each successful match consumes input. */
  lemma {:induction false} DerivesNonEmpty(rules: Rules, rule: Rule, w: string, fuel: nat)
    requires AllWellFormed(rules) && WellFormed(rule) && Derives(rules, rule, w, fuel)
    ensures |w| > 0
    decreases fuel, Rank(rule)
  {
    match rule
    case Lit(c) =>
    case Seq(ids) =>
      var k :| 0 <= k <= |w| && Derives(rules, rules[ids[0]], w[..k], fuel - 1) && DerivesSeq(rules, ids[1..], w[k..], fuel - 1);
      DerivesNonEmpty(rules, rules[ids[0]], w[..k], fuel - 1);
    case Alt(l, r) =>
      if Derives(rules, Seq(l), w, fuel) {
        DerivesNonEmpty(rules, Seq(l), w, fuel);
      } else {
        DerivesNonEmpty(rules, Seq(r), w, fuel);
      }
  }

  lemma MatchConsumes(s: string, rule: Rule, rules: Rules, fuel: nat)
    requires AllWellFormed(rules) && WellFormed(rule)
    requires Match(s, rule, rules, fuel).Ok? && Match(s, rule, rules, fuel).value.Some?
    ensures |Match(s, rule, rules, fuel).value.value| < |s|
  {
    var t := Match(s, rule, rules, fuel).value.value;
    MatchSound(s, rule, rules, fuel);
    DerivesNonEmpty(rules, rule, s[..|s| - |t|], fuel);
  }

  lemma MatchEndConsumes(s: string, rule: Rule, rules: Rules, fuel: nat)
    requires AllWellFormed(rules) && WellFormed(rule)
    requires MatchEnd(s, rule, rules, fuel).Ok? && MatchEnd(s, rule, rules, fuel).value.Some?
    ensures |MatchEnd(s, rule, rules, fuel).value.value| < |s|
  {
    var p := MatchEnd(s, rule, rules, fuel).value.value;
    MatchEndSound(s, rule, rules, fuel);
    DerivesNonEmpty(rules, rule, s[|p|..], fuel);
  }

  /** More fuel changes nothing once the answer did not depend on it. */
  lemma {:induction false} MatchFuel(s: string, rule: Rule, rules: Rules, fuel: nat, more: nat)
    requires fuel <= more && Match(s, rule, rules, fuel) != Panic(TooDeep)
    ensures Match(s, rule, rules, more) == Match(s, rule, rules, fuel)
    decreases fuel, Rank(rule)
  {
    match rule
    case Lit(c) =>
    case Seq(ids) =>
      MatchSeqFuel(s, ids, rules, fuel - 1, more - 1);
    case Alt(l, r) =>
      MatchFuel(s, Seq(l), rules, fuel, more);
      if Match(s, Seq(l), rules, fuel) == Ok(None) {
        MatchFuel(s, Seq(r), rules, fuel, more);
      }
  }

  lemma {:induction false} MatchSeqFuel(s: string, ids: seq<nat>, rules: Rules, fuel: nat, more: nat)
    requires fuel <= more && MatchSeq(s, ids, rules, fuel) != Panic(TooDeep)
    ensures MatchSeq(s, ids, rules, more) == MatchSeq(s, ids, rules, fuel)
    decreases fuel, 2, |ids|
  {
    if ids != [] && ids[0] in rules {
      MatchFuel(s, rules[ids[0]], rules, fuel, more);
      var m := Match(s, rules[ids[0]], rules, fuel);
      if m.Ok? && m.value.Some? {
        MatchSeqFuel(m.value.value, ids[1..], rules, fuel, more);
      }
    }
  }

  /** Matching does not backtrack. "aaa" is a word of rule 0 = 1 2 with
      1 = 2 | 2 2 and 2 = "a", but the first alternative of rule 1 takes
      one 'a', rule 2 a second, and the third is left over. */
  const Greedy: Rules := map[0 := Seq([1, 2]), 1 := Alt([2], [2, 2]), 2 := Lit(A)]

  lemma GreedyOne(w: string, fuel: nat)
    requires w == "a" && fuel > 0
    ensures DerivesSeq(Greedy, [2], w, fuel)
  {
    assert Derives(Greedy, Greedy[2], w[..1], fuel);
    assert DerivesSeq(Greedy, [2][1..], w[1..], fuel);
  }

  lemma GreedyTwo(w: string, fuel: nat)
    requires w == "aa" && fuel > 0
    ensures DerivesSeq(Greedy, [2, 2], w, fuel)
  {
    GreedyOne(w[1..], fuel);
    assert Derives(Greedy, Greedy[2], w[..1], fuel);
    assert [2, 2][1..] == [2];
  }

  lemma GreedyAlt(w: string)
    requires w == "aa"
    ensures Derives(Greedy, Greedy[1], w, 2)
  {
    GreedyTwo(w, 1);
    assert Derives(Greedy, Seq([2, 2]), w, 2);
  }

  lemma GreedyDerives()
    ensures Derives(Greedy, Greedy[0], "aaa", 3)
  {
    var w := "aaa";
    GreedyAlt(w[..2]);
    GreedyOne(w[2..], 2);
    GreedySeq(w, w[..2], w[2..]);
  }

  lemma GreedySeq(w: string, u: string, v: string)
    requires w == u + v && Derives(Greedy, Greedy[1], u, 2) && DerivesSeq(Greedy, [2], v, 2)
    ensures Derives(Greedy, Greedy[0], w, 3)
  {
    assert w[..|u|] == u && w[|u|..] == v;
    assert [1, 2][1..] == [2];
  }

  lemma GreedyMatch()
    ensures Match("aaa", Greedy[0], Greedy, 3) == Ok(Some("a"))
  {
    var w := "aaa";
    assert StripPrefix(w, A) == Some(w[1..]);
    assert MatchSeq(w, [2], Greedy, 1) == Ok(Some(w[1..]));
    assert Match(w, Greedy[1], Greedy, 2) == Ok(Some(w[1..]));
    assert StripPrefix(w[1..], A) == Some(w[2..]);
    assert MatchSeq(w[1..], [2], Greedy, 2) == Ok(Some(w[2..]));
    assert MatchSeq(w, [1, 2], Greedy, 2) == Ok(Some(w[2..]));
  }

  /** Matching does not backtrack: "aaa" is a word of rule 0, but the
      match leaves one letter over. */
  lemma NoBacktracking()
    ensures Derives(Greedy, Greedy[0], "aaa", 3)
    ensures Match("aaa", Greedy[0], Greedy, 3) != Ok(Some([]))
  {
    GreedyDerives();
    GreedyMatch();
  }

  // ---------------------------------------------------------------- part 1

  /** Rule 0 consumes the whole message. */
  predicate Accepts(rules: Rules, msg: string, fuel: nat)
    requires 0 in rules
  {
    Match(msg, rules[0], rules, fuel) == Ok(Some([]))
  }

  /** `part1`: the messages rule 0 consumes entirely. The rule is looked up
      for each message, so an absent rule 0 only panics when there is one. */
  function Part1(rules: Rules, msgs: seq<string>, fuel: nat): (r: Result<nat>)
    ensures r.Ok? ==> r.value <= |msgs|
    ensures !r.Err?
  {
    if msgs == [] then Ok(0)
    else if 0 !in rules then Panic(MissingRule)
    else
      var m := Match(msgs[0], rules[0], rules, fuel);
      if m.Panic? then Panic(m.msg)
      else
        var n := Part1(rules, msgs[1..], fuel);
        if n.Panic? then n
        else Ok((if m.value == Some([]) then 1 else 0) + n.value)
  }

  /** A message part 1 counts is a word of rule 0. */
  lemma AcceptedDerives(rules: Rules, msg: string, fuel: nat)
    requires 0 in rules && Accepts(rules, msg, fuel)
    ensures Derives(rules, rules[0], msg, fuel)
  {
    MatchSound(msg, rules[0], rules, fuel);
    assert msg[..|msg|] == msg;
  }

  /** The count is the number of accepted messages: each message adds one
      exactly when rule 0 consumes it. */
  /** The indices of the messages rule 0 consumes entirely. */
  function AcceptedAt(rules: Rules, msgs: seq<string>, fuel: nat): set<nat>
    requires 0 in rules
  {
    set i: nat | i < |msgs| && Accepts(rules, msgs[i], fuel)
  }

  /** The count is the number of accepted messages: each message adds one
      exactly when rule 0 consumes it. */
  lemma {:induction false} Part1Counts(rules: Rules, msgs: seq<string>, fuel: nat)
    requires 0 in rules && Part1(rules, msgs, fuel).Ok?
    ensures Part1(rules, msgs, fuel).value == |AcceptedAt(rules, msgs, fuel)|
    decreases |msgs|
  {
    var all := AcceptedAt(rules, msgs, fuel);
    if msgs != [] {
      Part1Counts(rules, msgs[1..], fuel);
      var rest := AcceptedAt(rules, msgs[1..], fuel);
      ShiftSize(rest);
      var shifted := Shift(rest);
      forall i: nat | i > 0
        ensures i in all <==> i in shifted
      {
        if i < |msgs| {
          assert msgs[1..][i - 1] == msgs[i];
        }
      }
      if Accepts(rules, msgs[0], fuel) {
        assert all == {0} + shifted;
      } else {
        assert all == shifted;
      }
    } else {
      assert all == {};
    }
  }

  /** Every element one higher. */
  function Shift(xs: set<nat>): (r: set<nat>)
    ensures forall i: nat :: i in r <==> i > 0 && i - 1 in xs
  {
    set i | i in xs :: i + 1
  }

  lemma {:induction false} ShiftSize(xs: set<nat>)
    ensures |Shift(xs)| == |xs|
    decreases |xs|
  {
    if xs != {} {
      var x :| x in xs;
      ShiftSize(xs - {x});
      assert Shift(xs) == Shift(xs - {x}) + {x + 1};
    }
  }

  // ---------------------------------------------------------------- part 2

  /** w is k words of rule `id` one after another. */
  predicate Repeats(rules: Rules, id: nat, w: string, k: nat, fuel: nat)
    requires id in rules
    decreases k
  {
    if k == 0 then w == []
    else exists j :: 0 <= j <= |w| && Derives(rules, rules[id], w[..j], fuel) && Repeats(rules, id, w[j..], k - 1, fuel)
  }

  lemma {:induction false} RepeatsAppend(rules: Rules, id: nat, u: string, a: nat, v: string, b: nat, fuel: nat)
    requires id in rules && Repeats(rules, id, u, a, fuel) && Repeats(rules, id, v, b, fuel)
    ensures Repeats(rules, id, u + v, a + b, fuel)
    decreases a
  {
    if a == 0 {
      assert u + v == v;
    } else {
      var j :| 0 <= j <= |u| && Derives(rules, rules[id], u[..j], fuel) && Repeats(rules, id, u[j..], a - 1, fuel);
      RepeatsAppend(rules, id, u[j..], a - 1, v, b, fuel);
      assert (u + v)[..j] == u[..j] && (u + v)[j..] == u[j..] + v;
    }
  }

  lemma RepeatsOne(rules: Rules, id: nat, w: string, fuel: nat)
    requires id in rules && Derives(rules, rules[id], w, fuel)
    ensures Repeats(rules, id, w, 1, fuel)
  {
    assert w[..|w|] == w && w[|w|..] == [];
  }

  /** The `while let` on rule 31: strip words of it from the end while one
      matches; the rest and how many were stripped. */
  function Trailing(s: string, rules: Rules, fuel: nat): (r: Result<(string, nat)>)
    requires AllWellFormed(rules) && 31 in rules
    ensures !r.Err?
    decreases |s|
  {
    var m := MatchEnd(s, rules[31], rules, fuel);
    if m.Panic? then Panic(m.msg)
    else if m.value.None? then Ok((s, 0))
    else
      MatchEndConsumes(s, rules[31], rules, fuel);
      var t := Trailing(m.value.value, rules, fuel);
      if t.Panic? then t else Ok((t.value.0, t.value.1 + 1))
  }

  /** The `for` loop on rule 42: k tries at stripping a word from the end;
      a miss leaves the rest as it was and the loop goes on. */
  function UpTo(s: string, rules: Rules, fuel: nat, k: nat): (r: Result<(string, nat)>)
    requires 42 in rules
    ensures !r.Err?
    ensures r.Ok? ==> r.value.1 <= k
    decreases k
  {
    if k == 0 then Ok((s, 0))
    else
      var m := MatchEnd(s, rules[42], rules, fuel);
      if m.Panic? then Panic(m.msg)
      else if m.value.None? then UpTo(s, rules, fuel, k - 1)
      else
        var t := UpTo(m.value.value, rules, fuel, k - 1);
        if t.Panic? then t else Ok((t.value.0, t.value.1 + 1))
  }

  /** The `while let` on rule 42 for rule 8: strip words from the front. */
  function Leading(s: string, rules: Rules, fuel: nat): (r: Result<(string, nat)>)
    requires AllWellFormed(rules) && 42 in rules
    ensures !r.Err?
    decreases |s|
  {
    var m := Match(s, rules[42], rules, fuel);
    if m.Panic? then Panic(m.msg)
    else if m.value.None? then Ok((s, 0))
    else
      MatchConsumes(s, rules[42], rules, fuel);
      var t := Leading(m.value.value, rules, fuel);
      if t.Panic? then t else Ok((t.value.0, t.value.1 + 1))
  }

  /** `match_part2`: one word of 31 from the end, then as many more as
      match; as many tries at 42 from the end as words of 31 were taken;
      then at least one word of 42 from the front, and as many more as
      match; the message is accepted when nothing is left. */
  function Part2Match(s: string, rules: Rules, fuel: nat): (r: Result<bool>)
    requires AllWellFormed(rules)
    ensures !r.Err?
  {
    if 31 !in rules then Panic(MissingRule)
    else
      var first := MatchEnd(s, rules[31], rules, fuel);
      if first.Panic? then Panic(first.msg)
      else if first.value.None? then Ok(false)
      else
        var t := Trailing(first.value.value, rules, fuel);
        if t.Panic? then Panic(t.msg)
        else if 42 !in rules then Panic(MissingRule)
        else
          var u := UpTo(t.value.0, rules, fuel, t.value.1 + 1);
          if u.Panic? then Panic(u.msg)
          else
            var front := Match(u.value.0, rules[42], rules, fuel);
            if front.Panic? then Panic(front.msg)
            else if front.value.None? then Ok(false)
            else
              var l := Leading(front.value.value, rules, fuel);
              if l.Panic? then Panic(l.msg) else Ok(l.value.0 == [])
  }

  lemma {:induction false} TrailingSound(s: string, rules: Rules, fuel: nat)
    requires AllWellFormed(rules) && 31 in rules && Trailing(s, rules, fuel).Ok?
    ensures var (rest, n) := Trailing(s, rules, fuel).value;
      |rest| <= |s| && s[..|rest|] == rest && Repeats(rules, 31, s[|rest|..], n, fuel)
    decreases |s|
  {
    var m := MatchEnd(s, rules[31], rules, fuel);
    if m.value.None? {
      assert s[|s|..] == [];
    } else {
      var p := m.value.value;
      MatchEndSound(s, rules[31], rules, fuel);
      MatchEndConsumes(s, rules[31], rules, fuel);
      TrailingSound(p, rules, fuel);
      var (rest, n) := Trailing(p, rules, fuel).value;
      RepeatsOne(rules, 31, s[|p|..], fuel);
      RepeatsAppend(rules, 31, p[|rest|..], n, s[|p|..], 1, fuel);
      assert s[|rest|..] == p[|rest|..] + s[|p|..];
    }
  }

  lemma {:induction false} UpToSound(s: string, rules: Rules, fuel: nat, k: nat)
    requires 42 in rules && UpTo(s, rules, fuel, k).Ok?
    ensures var (rest, n) := UpTo(s, rules, fuel, k).value;
      |rest| <= |s| && s[..|rest|] == rest && Repeats(rules, 42, s[|rest|..], n, fuel)
    decreases k
  {
    if k == 0 {
      assert s[|s|..] == [];
    } else {
      var m := MatchEnd(s, rules[42], rules, fuel);
      if m.value.None? {
        UpToSound(s, rules, fuel, k - 1);
      } else {
        var p := m.value.value;
        MatchEndSound(s, rules[42], rules, fuel);
        UpToSound(p, rules, fuel, k - 1);
        var (rest, n) := UpTo(p, rules, fuel, k - 1).value;
        RepeatsOne(rules, 42, s[|p|..], fuel);
        RepeatsAppend(rules, 42, p[|rest|..], n, s[|p|..], 1, fuel);
        assert s[|rest|..] == p[|rest|..] + s[|p|..];
      }
    }
  }

  lemma {:induction false} LeadingSound(s: string, rules: Rules, fuel: nat)
    requires AllWellFormed(rules) && 42 in rules && Leading(s, rules, fuel).Ok?
    ensures var (rest, n) := Leading(s, rules, fuel).value;
      |rest| <= |s| && s[|s| - |rest|..] == rest && Repeats(rules, 42, s[..|s| - |rest|], n, fuel)
    decreases |s|
  {
    var m := Match(s, rules[42], rules, fuel);
    if m.value.None? {
      assert s[..0] == [];
    } else {
      var t := m.value.value;
      MatchSound(s, rules[42], rules, fuel);
      MatchConsumes(s, rules[42], rules, fuel);
      LeadingSound(t, rules, fuel);
      var (rest, n) := Leading(t, rules, fuel).value;
      RepeatsOne(rules, 42, s[..|s| - |t|], fuel);
      RepeatsAppend(rules, 42, s[..|s| - |t|], 1, t[..|t| - |rest|], n, fuel);
      assert s[..|s| - |rest|] == s[..|s| - |t|] + t[..|t| - |rest|];
    }
  }

  /** Words of a rule in front of one more word of it, split off the end. */
  lemma EndWords(rules: Rules, id: nat, s: string, mid: string, p: string, n: nat, fuel: nat)
    requires id in rules
    requires |mid| <= |s| && s[..|mid|] == mid && Derives(rules, rules[id], s[|mid|..], fuel)
    requires |p| <= |mid| && mid[..|p|] == p && Repeats(rules, id, mid[|p|..], n, fuel)
    ensures |p| <= |s| && s[..|p|] == p && Repeats(rules, id, s[|p|..], n + 1, fuel)
  {
    RepeatsOne(rules, id, s[|mid|..], fuel);
    RepeatsAppend(rules, id, mid[|p|..], n, s[|mid|..], 1, fuel);
    assert s[|p|..] == mid[|p|..] + s[|mid|..];
  }

  /** What is in front of the words of 31: one word of 42 from the front,
      a0 more, then the m words of 42 taken from the end. */
  lemma FrontWords(rules: Rules, p: string, q: string, m: nat, f: string, a0: nat, fuel: nat)
    requires 42 in rules
    requires |q| <= |p| && p[..|q|] == q && Repeats(rules, 42, p[|q|..], m, fuel)
    requires |f| <= |q| && q[|q| - |f|..] == f && Derives(rules, rules[42], q[..|q| - |f|], fuel)
    requires Repeats(rules, 42, f, a0, fuel)
    ensures Repeats(rules, 42, p, a0 + 1 + m, fuel)
  {
    RepeatsOne(rules, 42, q[..|q| - |f|], fuel);
    RepeatsAppend(rules, 42, q[..|q| - |f|], 1, f, a0, fuel);
    assert q == q[..|q| - |f|] + f;
    RepeatsAppend(rules, 42, q, a0 + 1, p[|q|..], m, fuel);
    assert p == q + p[|q|..];
  }

  /** An accepted message is k words of rule 42 followed by n words of
      rule 31, where m of the k were taken from the end as partners of the
      words of 31 (m <= n) and the rest, at least one, from the front: rule
      8 then rule 11 when m == n. */
  lemma Part2Sound(s: string, rules: Rules, fuel: nat) returns (i: nat, k: nat, m: nat, n: nat)
    requires AllWellFormed(rules) && Part2Match(s, rules, fuel) == Ok(true)
    ensures 42 in rules && 31 in rules
    ensures i <= |s| && 1 <= n && m <= n && m < k
    ensures Repeats(rules, 42, s[..i], k, fuel) && Repeats(rules, 31, s[i..], n, fuel)
  {
    var first, p, n0, q, f, a0;
    first, p, n0, q, m, f, a0 := Part2Steps(s, rules, fuel);
    Part2Chain(s, rules, fuel, first, p, n0, q, m, f, a0);
    i, k, n := |p|, a0 + 1 + m, n0 + 1;
  }

  /** The words each step of a successful `match_part2` strips. */
  lemma Part2Chain(s: string, rules: Rules, fuel: nat, first: string, p: string, n0: nat, q: string, m: nat, f: string, a0: nat)
    requires AllWellFormed(rules) && 31 in rules && 42 in rules
    requires MatchEnd(s, rules[31], rules, fuel) == Ok(Some(first))
    requires Trailing(first, rules, fuel) == Ok((p, n0))
    requires UpTo(p, rules, fuel, n0 + 1) == Ok((q, m))
    requires Match(q, rules[42], rules, fuel) == Ok(Some(f))
    requires Leading(f, rules, fuel) == Ok(([], a0))
    ensures |p| <= |s| && m <= n0 + 1
    ensures Repeats(rules, 42, s[..|p|], a0 + 1 + m, fuel) && Repeats(rules, 31, s[|p|..], n0 + 1, fuel)
  {
    BackWords(s, rules, fuel, first, p, n0);
    FrontChain(p, rules, fuel, n0 + 1, q, m, f, a0);
    assert s[..|p|] == p;
  }

  /** The back of the message: one word of 31 matched from the end, then
      n0 more stripped. */
  lemma BackWords(s: string, rules: Rules, fuel: nat, first: string, p: string, n0: nat)
    requires AllWellFormed(rules) && 31 in rules
    requires MatchEnd(s, rules[31], rules, fuel) == Ok(Some(first))
    requires Trailing(first, rules, fuel) == Ok((p, n0))
    ensures |p| <= |s| && s[..|p|] == p && Repeats(rules, 31, s[|p|..], n0 + 1, fuel)
  {
    MatchEndSound(s, rules[31], rules, fuel);
    TrailingSound(first, rules, fuel);
    EndWords(rules, 31, s, first, p, n0, fuel);
  }

  /** The front of the message: up to n words of 42 taken from the end,
      one matched from the front, and the rest stripped from the front. */
  lemma FrontChain(p: string, rules: Rules, fuel: nat, n: nat, q: string, m: nat, f: string, a0: nat)
    requires AllWellFormed(rules) && 42 in rules
    requires UpTo(p, rules, fuel, n) == Ok((q, m))
    requires Match(q, rules[42], rules, fuel) == Ok(Some(f))
    requires Leading(f, rules, fuel) == Ok(([], a0))
    ensures m <= n && Repeats(rules, 42, p, a0 + 1 + m, fuel)
  {
    UpToSound(p, rules, fuel, n);
    MatchSound(q, rules[42], rules, fuel);
    LeadingSound(f, rules, fuel);
    assert f[..|f|] == f;
    FrontWords(rules, p, q, m, f, a0, fuel);
  }

  /** The intermediate results of a successful `match_part2`, named. */
  lemma Part2Steps(s: string, rules: Rules, fuel: nat)
    returns (first: string, p: string, n0: nat, q: string, m: nat, f: string, a0: nat)
    requires AllWellFormed(rules) && Part2Match(s, rules, fuel) == Ok(true)
    ensures 31 in rules && 42 in rules
    ensures MatchEnd(s, rules[31], rules, fuel) == Ok(Some(first))
    ensures Trailing(first, rules, fuel) == Ok((p, n0))
    ensures UpTo(p, rules, fuel, n0 + 1) == Ok((q, m))
    ensures Match(q, rules[42], rules, fuel) == Ok(Some(f))
    ensures Leading(f, rules, fuel) == Ok(([], a0))
  {
    first := MatchEnd(s, rules[31], rules, fuel).value.value;
    var t := Trailing(first, rules, fuel).value;
    p, n0 := t.0, t.1;
    var u := UpTo(p, rules, fuel, n0 + 1).value;
    q, m := u.0, u.1;
    f := Match(q, rules[42], rules, fuel).value.value;
    a0 := Leading(f, rules, fuel).value.1;
  }

  /** `match_part2` as the source runs it, its three loops written out
      below. */
  method MatchPart2(s: string, rules: Rules, fuel: nat) returns (r: Result<bool>)
    requires AllWellFormed(rules)
    ensures r == Part2Match(s, rules, fuel)
  {
    if 31 !in rules {
      return Panic(MissingRule);
    }
    var m := MatchSuffix(s, rules[31], rules, fuel);
    if m.Panic? {
      return Panic(m.msg);
    } else if m.value.None? {
      return Ok(false);
    }
    var t := StripTrailing(m.value.value, rules, fuel);
    if t.Panic? {
      return Panic(t.msg);
    }
    var pairs := t.value.1 + 1;
    if 42 !in rules {
      return Panic(MissingRule);
    }
    var u := StripUpTo(t.value.0, rules, fuel, pairs);
    if u.Panic? {
      return Panic(u.msg);
    }
    m := MatchRule(u.value.0, rules[42], rules, fuel);
    if m.Panic? {
      return Panic(m.msg);
    } else if m.value.None? {
      return Ok(false);
    }
    var l := StripLeading(m.value.value, rules, fuel);
    if l.Panic? {
      return Panic(l.msg);
    }
    return Ok(l.value.0 == []);
  }

  /** The `while let` loop on rule 31, counting the words it strips. */
  method StripTrailing(s: string, rules: Rules, fuel: nat) returns (r: Result<(string, nat)>)
    requires AllWellFormed(rules) && 31 in rules
    ensures r == Trailing(s, rules, fuel)
  {
    var rest := s;
    var count: nat := 0;
    var m := MatchSuffix(rest, rules[31], rules, fuel);
    while m.Ok? && m.value.Some?
      invariant m == MatchEnd(rest, rules[31], rules, fuel)
      invariant Trailing(s, rules, fuel) == Then(Trailing(rest, rules, fuel), count)
      decreases |rest|
    {
      MatchEndConsumes(rest, rules[31], rules, fuel);
      rest := m.value.value;
      count := count + 1;
      m := MatchSuffix(rest, rules[31], rules, fuel);
    }
    if m.Panic? {
      return Panic(m.msg);
    }
    return Ok((rest, count));
  }

  /** The counted loop on rule 42 from the end. */
  method StripUpTo(s: string, rules: Rules, fuel: nat, pairs: nat) returns (r: Result<(string, nat)>)
    requires 42 in rules
    ensures r == UpTo(s, rules, fuel, pairs)
  {
    var rest := s;
    var taken: nat := 0;
    for k := 0 to pairs
      invariant UpTo(s, rules, fuel, pairs) == Then(UpTo(rest, rules, fuel, pairs - k), taken)
    {
      var m := MatchSuffix(rest, rules[42], rules, fuel);
      if m.Panic? {
        return Panic(m.msg);
      }
      if m.value.Some? {
        rest := m.value.value;
        taken := taken + 1;
      }
    }
    return Ok((rest, taken));
  }

  /** The `while let` loop on rule 42 from the front, for rule 8. */
  method StripLeading(s: string, rules: Rules, fuel: nat) returns (r: Result<(string, nat)>)
    requires AllWellFormed(rules) && 42 in rules
    ensures r == Leading(s, rules, fuel)
  {
    var rest := s;
    var count: nat := 0;
    var m := MatchRule(rest, rules[42], rules, fuel);
    while m.Ok? && m.value.Some?
      invariant m == Match(rest, rules[42], rules, fuel)
      invariant Leading(s, rules, fuel) == Then(Leading(rest, rules, fuel), count)
      decreases |rest|
    {
      MatchConsumes(rest, rules[42], rules, fuel);
      rest := m.value.value;
      count := count + 1;
      m := MatchRule(rest, rules[42], rules, fuel);
    }
    if m.Panic? {
      return Panic(m.msg);
    }
    return Ok((rest, count));
  }

  /** A rest-and-count result with `extra` more words counted. */
  function Then(r: Result<(string, nat)>, extra: nat): (t: Result<(string, nat)>)
    ensures t.Ok? <==> r.Ok?
    ensures t.Ok? ==> t.value.0 == r.value.0 && t.value.1 == r.value.1 + extra
  {
    if r.Ok? then Ok((r.value.0, r.value.1 + extra)) else r
  }

  /** The part 2 count over the messages, stopping at the first panic. */
  function Part2Count(rules: Rules, msgs: seq<string>, fuel: nat): (r: Result<nat>)
    requires AllWellFormed(rules)
    ensures !r.Err?
    ensures r.Ok? ==> r.value <= |msgs|
  {
    if msgs == [] then Ok(0)
    else
      var m := Part2Match(msgs[0], rules, fuel);
      if m.Panic? then Panic(m.msg)
      else
        var n := Part2Count(rules, msgs[1..], fuel);
        if n.Panic? then n else Ok((if m.value then 1 else 0) + n.value)
  }

  /** `part2`: the loop counting accepted messages. */
  method Part2(rules: Rules, msgs: seq<string>, fuel: nat) returns (r: Result<nat>)
    requires AllWellFormed(rules)
    ensures r == Part2Count(rules, msgs, fuel)
  {
    var count: nat := 0;
    for i := 0 to |msgs|
      invariant Part2Count(rules, msgs, fuel) == Plus(Part2Count(rules, msgs[i..], fuel), count)
    {
      assert msgs[i..][1..] == msgs[i + 1..];
      var ok := MatchPart2(msgs[i], rules, fuel);
      if ok.Panic? {
        return Panic(ok.msg);
      }
      if ok.value {
        count := count + 1;
      }
    }
    return Ok(count);
  }

  function Plus(r: Result<nat>, extra: nat): (t: Result<nat>)
    ensures t.Ok? <==> r.Ok?
    ensures t.Ok? ==> t.value == r.value + extra
  {
    if r.Ok? then Ok(r.value + extra) else r
  }

  /** The indices of the messages part 2 accepts. */
  function Part2At(rules: Rules, msgs: seq<string>, fuel: nat): set<nat>
    requires AllWellFormed(rules)
  {
    set i: nat | i < |msgs| && Part2Match(msgs[i], rules, fuel) == Ok(true)
  }

  lemma {:induction false} Part2Counts(rules: Rules, msgs: seq<string>, fuel: nat)
    requires AllWellFormed(rules) && Part2Count(rules, msgs, fuel).Ok?
    ensures Part2Count(rules, msgs, fuel).value == |Part2At(rules, msgs, fuel)|
    decreases |msgs|
  {
    var all := Part2At(rules, msgs, fuel);
    if msgs != [] {
      Part2Counts(rules, msgs[1..], fuel);
      var rest := Part2At(rules, msgs[1..], fuel);
      ShiftSize(rest);
      Part2AtShift(rules, msgs, fuel);
      if Part2Match(msgs[0], rules, fuel) == Ok(true) {
        assert all == {0} + Shift(rest);
      } else {
        assert all == Shift(rest);
      }
    } else {
      assert all == {};
    }
  }

  lemma Part2AtShift(rules: Rules, msgs: seq<string>, fuel: nat)
    requires AllWellFormed(rules) && msgs != []
    ensures 0 in Part2At(rules, msgs, fuel) <==> Part2Match(msgs[0], rules, fuel) == Ok(true)
    ensures forall i: nat :: i > 0 ==> (i in Part2At(rules, msgs, fuel) <==> i in Shift(Part2At(rules, msgs[1..], fuel)))
  {
    var all, shifted := Part2At(rules, msgs, fuel), Shift(Part2At(rules, msgs[1..], fuel));
    forall i: nat | i > 0
      ensures i in all <==> i in shifted
    {
      if i < |msgs| {
        assert msgs[1..][i - 1] == msgs[i];
      }
    }
  }

  // ---------------------------------------------------------------- reading the input

  /** `read`: rule lines up to the first empty line, each parsed and
      inserted (a repeated index overwrites the earlier rule); the lines
      after it are the messages. */
  function Read(lines: seq<string>): (r: Result<(Rules, seq<string>)>)
    ensures r.Ok? ==> AllWellFormed(r.value.0)
  {
    ReadRules(lines, map[])
  }

  function ReadRules(lines: seq<string>, rules: Rules): (r: Result<(Rules, seq<string>)>)
    requires AllWellFormed(rules)
    ensures r.Ok? ==> AllWellFormed(r.value.0) && rules.Keys <= r.value.0.Keys
    decreases |lines|
  {
    if lines == [] then Ok((rules, []))
    else if lines[0] == "" then Ok((rules, lines[1..]))
    else
      var entry := ParseRule(lines[0]);
      if entry.Ok? then
        InsertWellFormed(rules, entry.value.0, entry.value.1);
        ReadRules(lines[1..], rules[entry.value.0 := entry.value.1])
      else if entry.Err? then Err(entry.msg)
      else Panic(entry.msg)
  }

  lemma InsertWellFormed(rules: Rules, idx: nat, rule: Rule)
    requires AllWellFormed(rules) && WellFormed(rule)
    ensures AllWellFormed(rules[idx := rule])
  {
  }

  /** The rule lines of a list of numbered rules. */
  function ShowRules(entries: seq<(nat, Rule)>): (lines: seq<string>)
    ensures |lines| == |entries|
  {
    if entries == [] then []
    else [ShowNat(entries[0].0) + ": " + ShowRule(entries[0].1)] + ShowRules(entries[1..])
  }

  /** The map the entries build, later entries overwriting earlier ones. */
  function Insert(rules: Rules, entries: seq<(nat, Rule)>): (r: Rules)
    ensures r.Keys == rules.Keys + set e | e in entries :: e.0
    decreases |entries|
  {
    if entries == [] then rules else Insert(rules[entries[0].0 := entries[0].1], entries[1..])
  }

  /** Reading written rules and messages gives them back. */
  lemma {:induction false} ReadShow(entries: seq<(nat, Rule)>, rules: Rules, msgs: seq<string>)
    requires AllWellFormed(rules)
    requires forall e :: e in entries ==> e.0 <= U64Max && Writable(e.1)
    ensures ReadRules(ShowRules(entries) + [""] + msgs, rules) == Ok((Insert(rules, entries), msgs))
    decreases |entries|
  {
    var lines := ShowRules(entries) + [""] + msgs;
    if entries == [] {
      assert lines[0] == "" && lines[1..] == msgs;
    } else {
      var (idx, rule) := entries[0];
      var line := ShowNat(idx) + ": " + ShowRule(rule);
      assert lines == [line] + (ShowRules(entries[1..]) + [""] + msgs);
      ParseRuleShow(idx, rule);
      assert |line| >= 2;
      ReadOne(line, ShowRules(entries[1..]) + [""] + msgs, rules, idx, rule);
      ReadShow(entries[1..], rules[idx := rule], msgs);
    }
  }

  lemma ReadOne(line: string, rest: seq<string>, rules: Rules, idx: nat, rule: Rule)
    requires AllWellFormed(rules) && line != "" && ParseRule(line) == Ok((idx, rule))
    ensures ReadRules([line] + rest, rules) == ReadRules(rest, rules[idx := rule])
  {
    assert ([line] + rest)[0] == line && ([line] + rest)[1..] == rest;
  }
}
