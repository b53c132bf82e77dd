/** Day 7: luggage rules. Each rule names a container colour and the bags
    (amount and colour) it must hold. Part 1 counts the colours that can
    eventually hold a shiny gold bag; part 2 counts the bags inside one. */
module Day07 {
  import opened Sets
  import opened Outcomes
  import opened Text

  datatype Color = Color(adj: string, hue: string)

  datatype SomeBags = SomeBags(amount: nat, color: Color)

  type Rules = map<Color, seq<SomeBags>>

  const Gold: Color := Color("shiny", "gold")

  // ---------------------------------------------------------------- parse_rule

  /** Keep the rule list built so far in front of what the rest parses to. */
  function Prepend(done: seq<SomeBags>, r: Result<seq<SomeBags>>): Result<seq<SomeBags>>
  {
    if r.Ok? then Ok(done + r.value) else r
  }

  /** The contents read from word i on: stop at the end or at "no"; else an
      amount (a `usize` parse, `?` returns its error), a colour of two words
      (`unwrap` panics if they are missing) and a skipped "bag(s)" word. */
  function ParseContents(ws: seq<string>, i: nat): (r: Result<seq<SomeBags>>)
    decreases |ws| - i
  {
    if i >= |ws| || ws[i] == "no" then Ok([])
    else match ParseNat(ws[i], U64Max)
      case None => Err("invalid digit found in string")
      case Some(n) =>
        if i + 2 >= |ws| then Panic("called `Option::unwrap()` on a `None` value")
        else Prepend([SomeBags(n, Color(ws[i + 1], ws[i + 2]))], ParseContents(ws, i + 4))
  }

  /** `parse_rule` on the words of the line: two words of colour, two skipped
      words ("bags contain"), then the contents. */
  function ParseRuleWords(ws: seq<string>): Result<(Color, seq<SomeBags>)>
  {
    if |ws| < 2 then Panic("called `Option::unwrap()` on a `None` value")
    else match ParseContents(ws, 4)
      case Ok(cs) => Ok((Color(ws[0], ws[1]), cs))
      case Err(m) => Err(m)
      case Panic(m) => Panic(m)
  }

  /** `parse_rule`: walks the word iterator, pushing one `SomeBags` per clause. */
  method ParseRule(s: string) returns (r: Result<(Color, seq<SomeBags>)>)
    ensures r == ParseRuleWords(Split(s, ' '))
  {
    var ws := Split(s, ' ');
    if |ws| < 2 {
      return Panic("called `Option::unwrap()` on a `None` value");
    }
    var color := Color(ws[0], ws[1]);
    var contents: seq<SomeBags> := [];
    var i := 4;
    PrependAppend([], [], ParseContents(ws, i));
    while i < |ws|
      invariant ParseContents(ws, 4) == Prepend(contents, ParseContents(ws, i))
      decreases |ws| - i
    {
      var n := ws[i];
      if n == "no" {
        break;
      }
      var amount := ParseNat(n, U64Max);
      if amount.None? {
        return Err("invalid digit found in string");
      }
      if i + 2 >= |ws| {
        return Panic("called `Option::unwrap()` on a `None` value");
      }
      PrependAppend(contents, [SomeBags(amount.value, Color(ws[i + 1], ws[i + 2]))], ParseContents(ws, i + 4));
      contents := contents + [SomeBags(amount.value, Color(ws[i + 1], ws[i + 2]))];
      i := i + 4;
    }
    assert contents + [] == contents;
    return Ok((color, contents));
  }

  lemma PrependAppend(a: seq<SomeBags>, b: seq<SomeBags>, r: Result<seq<SomeBags>>)
    ensures Prepend(a, Prepend(b, r)) == Prepend(a + b, r)
    ensures Prepend([], r) == r
  {
    if r.Ok? {
      assert a + (b + r.value) == (a + b) + r.value;
      assert [] + r.value == r.value;
    }
  }

  /** The words of a rule line as the puzzle writes it. */
  function RuleWords(c: Color, contents: seq<SomeBags>): seq<string>
  {
    [c.adj, c.hue, "bags", "contain"] + (if contents == [] then ["no", "other", "bags."] else ClauseWords(contents))
  }

  function ClauseWords(contents: seq<SomeBags>): seq<string>
  {
    if contents == [] then []
    else
      var b := contents[0];
      [ShowNat(b.amount), b.color.adj, b.color.hue, if |contents| == 1 then "bags." else "bags,"]
        + ClauseWords(contents[1..])
  }

  /** Colour words are single words. */
  predicate Word(w: string)
  {
    ' ' !in w
  }

  predicate Renderable(c: Color, contents: seq<SomeBags>)
  {
    Word(c.adj) && Word(c.hue) &&
    forall k :: 0 <= k < |contents| ==>
      contents[k].amount <= U64Max && Word(contents[k].color.adj) && Word(contents[k].color.hue)
  }

  /** Parsing the clauses of a rendered rule gives the bags back. */
  lemma {:induction false} ParseClauses(pre: seq<string>, contents: seq<SomeBags>)
    requires forall k :: 0 <= k < |contents| ==> contents[k].amount <= U64Max
    ensures ParseContents(pre + ClauseWords(contents), |pre|) == Ok(contents)
    decreases |contents|
  {
    var ws := pre + ClauseWords(contents);
    if contents != [] {
      var b := contents[0];
      var four := [ShowNat(b.amount), b.color.adj, b.color.hue, if |contents| == 1 then "bags." else "bags,"];
      assert ws == (pre + four) + ClauseWords(contents[1..]);
      ParseClauses(pre + four, contents[1..]);
      ParseShowNat(b.amount, U64Max);
      assert ws[|pre|] == ShowNat(b.amount);
      assert ShowNat(b.amount) != "no" by {
        assert IsDigit(ShowNat(b.amount)[0]);
      }
      assert ws[|pre| + 1] == b.color.adj && ws[|pre| + 2] == b.color.hue;
      assert [SomeBags(b.amount, b.color)] + contents[1..] == contents;
    } else {
      assert ws == pre;
    }
  }

  /** Rendering a rule and parsing it gives the rule back. */
  lemma RoundTrip(c: Color, contents: seq<SomeBags>)
    requires Renderable(c, contents)
    ensures ParseRuleWords(RuleWords(c, contents)) == Ok((c, contents))
  {
    var head := [c.adj, c.hue, "bags", "contain"];
    if contents == [] {
      assert RuleWords(c, contents)[4] == "no";
    } else {
      ParseClauses(head, contents);
    }
  }

  /** The whole line: joining the words with spaces and splitting them again
      is the identity, so `parse_rule` inverts the rendering. */
  lemma {:induction false} RoundTripLine(c: Color, contents: seq<SomeBags>)
    requires Renderable(c, contents)
    ensures ParseRuleWords(Split(Join(RuleWords(c, contents), ' '), ' ')) == Ok((c, contents))
  {
    var ws := RuleWords(c, contents);
    forall k | 0 <= k < |ws| ensures ' ' !in ws[k] {
      if k >= 4 && contents != [] {
        ClauseWordsAreWords(contents);
        assert ws[k] == ClauseWords(contents)[k - 4];
      }
    }
    SplitJoin(ws, ' ');
    RoundTrip(c, contents);
  }

  lemma {:induction false} ClauseWordsAreWords(contents: seq<SomeBags>)
    requires forall k :: 0 <= k < |contents| ==> Word(contents[k].color.adj) && Word(contents[k].color.hue)
    ensures forall k :: 0 <= k < |ClauseWords(contents)| ==> ' ' !in ClauseWords(contents)[k]
  {
    if contents != [] {
      ClauseWordsAreWords(contents[1..]);
    }
  }

  // ---------------------------------------------------------------- part 1

  /** Colour c holds gold through a chain of n rules. */
  ghost predicate Reaches(rules: Rules, c: Color, n: nat)
    decreases n
  {
    if n == 0 then c == Gold
    else c in rules && exists k :: 0 <= k < |rules[c]| && Reaches(rules, rules[c][k].color, n - 1)
  }

  /** The colours other than gold that eventually hold a gold bag. */
  ghost function Containers(rules: Rules): set<Color>
  {
    set c | c in rules.Keys && c != Gold && exists n :: Reaches(rules, c, n)
  }

  /** Every colour in ps holds gold. */
  ghost predicate Sound(rules: Rules, ps: set<Color>)
  {
    Gold in ps && ps <= rules.Keys + {Gold} &&
    forall c :: c in ps ==> exists n :: Reaches(rules, c, n)
  }

  predicate HasChildIn(contents: seq<SomeBags>, ps: set<Color>)
  {
    exists k :: 0 <= k < |contents| && contents[k].color in ps
  }

  /** No rule outside ps has a child inside it: a pass would add nothing. */
  predicate Closed(rules: Rules, ps: set<Color>)
  {
    forall c :: c in rules.Keys ==> c in ps || !HasChildIn(rules[c], ps)
  }

  /** The inner `for` of `part1`: does a child's colour lie in `ps`? */
  method AnyChildIn(contents: seq<SomeBags>, ps: set<Color>) returns (b: bool)
    ensures b <==> HasChildIn(contents, ps)
  {
    for k := 0 to |contents|
      invariant forall j :: 0 <= j < k ==> contents[j].color !in ps
    {
      if contents[k].color in ps {
        return true;
      }
    }
    return false;
  }

  /** One pass of `part1` over the rules, in whatever order the map yields
      them: a colour joins `ps` as soon as one of its children is in it. A
      pass that adds nothing leaves `ps` closed; one that adds something
      grows it within the rule keys. */
  method Pass(rules: Rules, ps0: set<Color>) returns (ps: set<Color>, shouldBreak: bool)
    requires Sound(rules, ps0)
    ensures Sound(rules, ps) && ps0 <= ps
    ensures shouldBreak ==> ps == ps0 && Closed(rules, ps)
    ensures !shouldBreak ==> |rules.Keys * ps| > |rules.Keys * ps0|
  {
    ps := ps0;
    shouldBreak := true;
    var todo := rules.Keys;
    while todo != {}
      invariant todo <= rules.Keys
      invariant Sound(rules, ps) && ps0 <= ps
      invariant shouldBreak ==> ps == ps0
      invariant !shouldBreak ==> |rules.Keys * ps| > |rules.Keys * ps0|
      invariant shouldBreak ==> forall c :: c in rules.Keys - todo ==> c in ps || !HasChildIn(rules[c], ps)
      decreases todo
    {
      var color :| color in todo;
      todo := todo - {color};
      if color !in ps {
        var found := AnyChildIn(rules[color], ps);
        if found {
          Grow(rules, ps, color);
          ps := ps + {color};
          shouldBreak := false;
        }
      }
    }
  }

  /** Adding a colour with a child in a sound set keeps it sound and adds
      one rule key. */
  lemma Grow(rules: Rules, ps: set<Color>, color: Color)
    requires Sound(rules, ps) && color in rules && color !in ps && HasChildIn(rules[color], ps)
    ensures Sound(rules, ps + {color})
    ensures |rules.Keys * (ps + {color})| == |rules.Keys * ps| + 1
  {
    var k :| 0 <= k < |rules[color]| && rules[color][k].color in ps;
    var n: nat :| Reaches(rules, rules[color][k].color, n);
    assert Reaches(rules, color, n + 1);
    assert rules.Keys * (ps + {color}) == (rules.Keys * ps) + {color};
  }

  /** `part1`: passes from {gold} until one adds nothing; the answer is
      `ps.len() - 1`, the number of containers. Each pass but the last adds
      a rule key, so there are at most one more passes than rules. */
  method Part1(rules: Rules) returns (r: nat, ghost passes: nat)
    ensures r == |Containers(rules)|
    ensures passes <= |rules| + 1
  {
    var ps: set<Color> := {Gold};
    passes := 0;
    assert Reaches(rules, Gold, 0);
    while true
      invariant Sound(rules, ps)
      invariant passes <= |rules.Keys * ps|
      decreases |rules.Keys - ps|
    {
      var next, shouldBreak := Pass(rules, ps);
      passes := passes + 1;
      if shouldBreak {
        ClosedHoldsAll(rules, ps);
        SubsetCard(rules.Keys * ps, rules.Keys);
        r := |ps| - 1;
        return;
      }
      CardSplit(rules.Keys, ps);
      CardSplit(rules.Keys, next);
      ps := next;
    }
  }

  /** A sound set closed under "has a child in it" is exactly gold and the
      containers. */
  lemma ClosedHoldsAll(rules: Rules, ps: set<Color>)
    requires Sound(rules, ps) && Closed(rules, ps)
    ensures ps == Containers(rules) + {Gold} && Gold !in Containers(rules)
    ensures |ps| == |Containers(rules)| + 1
  {
    forall c | c in rules.Keys && c != Gold && exists n :: Reaches(rules, c, n)
      ensures c in ps
    {
      var n :| Reaches(rules, c, n);
      ReachIn(rules, ps, c, n);
    }
  }

  lemma {:induction false} ReachIn(rules: Rules, ps: set<Color>, c: Color, n: nat)
    requires Gold in ps && Closed(rules, ps)
    requires Reaches(rules, c, n)
    ensures c in ps
    decreases n
  {
    if n > 0 {
      var k :| 0 <= k < |rules[c]| && Reaches(rules, rules[c][k].color, n - 1);
      ReachIn(rules, ps, rules[c][k].color, n - 1);
    }
  }

  lemma CardSplit<T>(a: set<T>, b: set<T>)
    ensures |a - b| + |a * b| == |a|
  {
    assert a == (a - b) + (a * b);
    assert (a - b) * (a * b) == {};
  }

  // ---------------------------------------------------------------- part 2

  /** What `part2` needs of the colours it meets: the ranked colours hold
      gold and the children of every ranked colour, each of them has a rule
      (`input[&bag.color]` panics otherwise), and the rank drops from every
      ranked colour to its children, which rules out cycles among them.
      Colours gold cannot reach need not be ranked: they may have cycles or
      children without rules. */
  ghost predicate WellFounded(rules: Rules, rank: map<Color, nat>)
  {
    Gold in rank &&
    (forall c :: c in rank ==> c in rules) &&
    (forall c, k :: c in rank && 0 <= k < |rules[c]| ==>
       rules[c][k].color in rank && rank[rules[c][k].color] < rank[c])
  }

  /** The children's colours have rules and ranks below `bound`. */
  ghost predicate Below(rules: Rules, rank: map<Color, nat>, kids: seq<SomeBags>, bound: nat)
    requires WellFounded(rules, rank)
  {
    forall k :: 0 <= k < |kids| ==> kids[k].color in rank && rank[kids[k].color] < bound
  }

  /** The bags a bag of colour c stands for, itself included. */
  ghost function Size(rules: Rules, rank: map<Color, nat>, c: Color): nat
    requires WellFounded(rules, rank) && c in rank
    decreases rank[c] + 1, 0
  {
    assert Below(rules, rank, rules[c], rank[c]);
    1 + Inner(rules, rank, rules[c], rank[c])
  }

  /** The bags inside, for a list of children: amount * Size per child. */
  ghost function Inner(rules: Rules, rank: map<Color, nat>, kids: seq<SomeBags>, bound: nat): nat
    requires WellFounded(rules, rank) && Below(rules, rank, kids, bound)
    decreases bound, |kids|
  {
    if kids == [] then 0
    else
      var last := kids[|kids| - 1];
      Inner(rules, rank, kids[..|kids| - 1], bound) + last.amount * Size(rules, rank, last.color)
  }

  /** The number of bags in the unfolded tree counting every amount as one:
      what the worklist still has to visit. */
  ghost function Nodes(rules: Rules, rank: map<Color, nat>, c: Color): nat
    requires WellFounded(rules, rank) && c in rank
    decreases rank[c] + 1, 0
  {
    assert Below(rules, rank, rules[c], rank[c]);
    1 + KidNodes(rules, rank, rules[c], rank[c])
  }

  ghost function KidNodes(rules: Rules, rank: map<Color, nat>, kids: seq<SomeBags>, bound: nat): nat
    requires WellFounded(rules, rank) && Below(rules, rank, kids, bound)
    decreases bound, |kids|
  {
    if kids == [] then 0
    else KidNodes(rules, rank, kids[..|kids| - 1], bound) + Nodes(rules, rank, kids[|kids| - 1].color)
  }

  ghost predicate Ranked(rank: map<Color, nat>, bags: seq<SomeBags>)
  {
    forall k :: 0 <= k < |bags| ==> bags[k].color in rank
  }

  /** The bags the stack still stands for. */
  ghost function Pending(rules: Rules, rank: map<Color, nat>, bags: seq<SomeBags>): nat
    requires WellFounded(rules, rank) && Ranked(rank, bags)
  {
    if bags == [] then 0
    else
      var last := bags[|bags| - 1];
      Pending(rules, rank, bags[..|bags| - 1]) + last.amount * Size(rules, rank, last.color)
  }

  ghost function PendingNodes(rules: Rules, rank: map<Color, nat>, bags: seq<SomeBags>): nat
    requires WellFounded(rules, rank) && Ranked(rank, bags)
  {
    if bags == [] then 0
    else PendingNodes(rules, rank, bags[..|bags| - 1]) + Nodes(rules, rank, bags[|bags| - 1].color)
  }

  /** The children of a bag of amount a, as `part2` pushes them. */
  function Scaled(a: nat, kids: seq<SomeBags>): (r: seq<SomeBags>)
    ensures |r| == |kids|
    ensures forall j :: 0 <= j < |kids| ==> r[j] == SomeBags(a * kids[j].amount, kids[j].color)
  {
    if kids == [] then []
    else
      var last := kids[|kids| - 1];
      Scaled(a, kids[..|kids| - 1]) + [SomeBags(a * last.amount, last.color)]
  }

  /** The inner loop of `part2`: push every child, amount multiplied. */
  method PushChildren(bags: seq<SomeBags>, a: nat, kids: seq<SomeBags>) returns (r: seq<SomeBags>)
    ensures r == bags + Scaled(a, kids)
  {
    r := bags;
    for k := 0 to |kids|
      invariant r == bags + Scaled(a, kids[..k])
    {
      assert kids[..k + 1][..k] == kids[..k];
      r := r + [SomeBags(a * kids[k].amount, kids[k].color)];
    }
    assert kids[..|kids|] == kids;
  }

  /** The step of `PushedPending` in plain arithmetic. */
  lemma Distribute(a: nat, i: nat, n: nat, s: nat)
    ensures a * (i + n * s) == a * i + (a * n) * s
  {
    assert (a * n) * s == a * (n * s);
  }

  /** Pushing the scaled children adds a times their bags to the stack's
      total. */
  lemma {:induction false} PushedPending(rules: Rules, rank: map<Color, nat>, base: seq<SomeBags>, a: nat,
                                         kids: seq<SomeBags>, bound: nat)
    requires WellFounded(rules, rank) && Ranked(rank, base) && Below(rules, rank, kids, bound)
    ensures Ranked(rank, base + Scaled(a, kids))
    ensures Pending(rules, rank, base + Scaled(a, kids)) == Pending(rules, rank, base) + a * Inner(rules, rank, kids, bound)
  {
    var all := base + Scaled(a, kids);
    if kids == [] {
      assert all == base;
    } else {
      var pre := kids[..|kids| - 1];
      var last := kids[|kids| - 1];
      assert Below(rules, rank, pre, bound);
      PushedPending(rules, rank, base, a, pre, bound);
      assert all[..|all| - 1] == base + Scaled(a, pre);
      assert all[|all| - 1] == SomeBags(a * last.amount, last.color);
      var s := Size(rules, rank, last.color);
      var i := Inner(rules, rank, pre, bound);
      assert Inner(rules, rank, kids, bound) == i + last.amount * s;
      assert Pending(rules, rank, all) == Pending(rules, rank, base + Scaled(a, pre)) + (a * last.amount) * s;
      Distribute(a, i, last.amount, s);
    }
  }

  /** Pushing the scaled children adds their tree sizes to what is left to
      visit. */
  lemma {:induction false} PushedNodes(rules: Rules, rank: map<Color, nat>, base: seq<SomeBags>, a: nat,
                                       kids: seq<SomeBags>, bound: nat)
    requires WellFounded(rules, rank) && Ranked(rank, base) && Below(rules, rank, kids, bound)
    requires Ranked(rank, base + Scaled(a, kids))
    ensures PendingNodes(rules, rank, base + Scaled(a, kids)) == PendingNodes(rules, rank, base) + KidNodes(rules, rank, kids, bound)
  {
    var all := base + Scaled(a, kids);
    if kids == [] {
      assert all == base;
    } else {
      var pre := kids[..|kids| - 1];
      assert Below(rules, rank, pre, bound);
      assert all[..|all| - 1] == base + Scaled(a, pre);
      PushedPending(rules, rank, base, a, pre, bound);
      PushedNodes(rules, rank, base, a, pre, bound);
    }
  }

  /** Both totals after pushing the scaled children. */
  lemma PushedTotals(rules: Rules, rank: map<Color, nat>, base: seq<SomeBags>, a: nat,
                     kids: seq<SomeBags>, bound: nat)
    requires WellFounded(rules, rank) && Ranked(rank, base) && Below(rules, rank, kids, bound)
    ensures Ranked(rank, base + Scaled(a, kids))
    ensures Pending(rules, rank, base + Scaled(a, kids)) == Pending(rules, rank, base) + a * Inner(rules, rank, kids, bound)
    ensures PendingNodes(rules, rank, base + Scaled(a, kids)) == PendingNodes(rules, rank, base) + KidNodes(rules, rank, kids, bound)
  {
    PushedPending(rules, rank, base, a, kids, bound);
    PushedNodes(rules, rank, base, a, kids, bound);
  }

  /** A bag of amount a stands for a bags plus a times what it holds. */
  lemma Unfold(rules: Rules, rank: map<Color, nat>, c: Color, a: nat)
    requires WellFounded(rules, rank) && c in rank
    ensures Below(rules, rank, rules[c], rank[c])
    ensures a * Size(rules, rank, c) == a + a * Inner(rules, rank, rules[c], rank[c])
    ensures Nodes(rules, rank, c) == 1 + KidNodes(rules, rank, rules[c], rank[c])
  {
    assert Below(rules, rank, rules[c], rank[c]);
    var i := Inner(rules, rank, rules[c], rank[c]);
    assert Size(rules, rank, c) == 1 + i;
    assert a * (1 + i) == a + a * i;
  }

  /** `part2`: pops a bag, counts it, and pushes its children with the
      amounts multiplied; returns the count less the gold bag itself. */
  method Part2(rules: Rules, ghost rank: map<Color, nat>) returns (r: nat)
    requires WellFounded(rules, rank)
    ensures Below(rules, rank, rules[Gold], rank[Gold])
    ensures r == Inner(rules, rank, rules[Gold], rank[Gold])
  {
    var n := 0;
    var bags := [SomeBags(1, Gold)];
    assert bags[..0] == [];
    while bags != []
      invariant Ranked(rank, bags)
      invariant n + Pending(rules, rank, bags) == Size(rules, rank, Gold)
      decreases PendingNodes(rules, rank, bags)
    {
      var bag := bags[|bags| - 1];
      bags := bags[..|bags| - 1];
      n := n + bag.amount;
      Unfold(rules, rank, bag.color, bag.amount);
      PushedTotals(rules, rank, bags, bag.amount, rules[bag.color], rank[bag.color]);
      bags := PushChildren(bags, bag.amount, rules[bag.color]);
    }
    Unfold(rules, rank, Gold, 1);
    r := n - 1;
  }

  // ---------------------------------------------------------------- examples

  const LightRed := Color("light", "red")
  const DarkOrange := Color("dark", "orange")
  const BrightWhite := Color("bright", "white")
  const MutedYellow := Color("muted", "yellow")
  const DarkOlive := Color("dark", "olive")
  const VibrantPlum := Color("vibrant", "plum")
  const FadedBlue := Color("faded", "blue")
  const DottedBlack := Color("dotted", "black")

  /** The first example's rules. */
  const Sample1: Rules := map[
    LightRed := [SomeBags(1, BrightWhite), SomeBags(2, MutedYellow)],
    DarkOrange := [SomeBags(3, BrightWhite), SomeBags(4, MutedYellow)],
    BrightWhite := [SomeBags(1, Gold)],
    MutedYellow := [SomeBags(2, Gold), SomeBags(9, FadedBlue)],
    Gold := [SomeBags(1, DarkOlive), SomeBags(2, VibrantPlum)],
    DarkOlive := [SomeBags(3, FadedBlue), SomeBags(4, DottedBlack)],
    VibrantPlum := [SomeBags(5, FadedBlue), SomeBags(6, DottedBlack)],
    FadedBlue := [],
    DottedBlack := []
  ]

  const Holders1: set<Color> := {Gold, BrightWhite, MutedYellow, LightRed, DarkOrange}

  lemma Sample1Sound()
    ensures Sound(Sample1, Holders1)
  {
    Sample1Keys();
    assert Reaches(Sample1, Gold, 0);
    assert Reaches(Sample1, BrightWhite, 1) by { assert Sample1[BrightWhite][0].color == Gold; }
    assert Reaches(Sample1, MutedYellow, 1) by { assert Sample1[MutedYellow][0].color == Gold; }
    assert Reaches(Sample1, LightRed, 2) by { assert Sample1[LightRed][0].color == BrightWhite; }
    assert Reaches(Sample1, DarkOrange, 2) by { assert Sample1[DarkOrange][0].color == BrightWhite; }
  }

  lemma Sample1Closed()
    ensures Closed(Sample1, Holders1)
  {
    Sample1Keys();
    forall c | c in Sample1.Keys ensures c in Holders1 || !HasChildIn(Sample1[c], Holders1) {
      if c == DarkOlive || c == VibrantPlum {
        assert forall k :: 0 <= k < 2 ==> Sample1[c][k].color in {FadedBlue, DottedBlack};
      }
    }
  }

  /** Four colours can hold a shiny gold bag in the first example. */
  lemma Sample1Containers()
    ensures |Containers(Sample1)| == 4
  {
    Sample1Sound();
    Sample1Closed();
    ClosedHoldsAll(Sample1, Holders1);
    Holders1Card();
  }

  lemma Holders1Card()
    ensures |Holders1| == 5
  {
    var s4 := {Gold, BrightWhite, MutedYellow, LightRed};
    var s3 := {Gold, BrightWhite, MutedYellow};
    var s2 := {Gold, BrightWhite};
    assert DarkOrange.adj[0] == 'd' && LightRed.adj[0] == 'l' && MutedYellow.adj[0] == 'm';
    assert BrightWhite.adj[0] == 'b' && Gold.adj[0] == 's';
    assert |s2| == 2;
    assert s3 == s2 + {MutedYellow} && MutedYellow !in s2;
    assert s4 == s3 + {LightRed} && LightRed !in s3;
    assert Holders1 == s4 + {DarkOrange} && DarkOrange !in s4;
  }

  lemma Sample1Keys()
    ensures Sample1.Keys == {LightRed, DarkOrange, BrightWhite, MutedYellow, Gold, DarkOlive, VibrantPlum, FadedBlue, DottedBlack}
    ensures Sample1[DarkOlive] == [SomeBags(3, FadedBlue), SomeBags(4, DottedBlack)]
    ensures Sample1[VibrantPlum] == [SomeBags(5, FadedBlue), SomeBags(6, DottedBlack)]
  {
  }

  const Rank1: map<Color, nat> := map[
    LightRed := 4, DarkOrange := 4, BrightWhite := 3, MutedYellow := 3, Gold := 2,
    DarkOlive := 1, VibrantPlum := 1, FadedBlue := 0, DottedBlack := 0
  ]

  lemma Rank1Values()
    ensures Rank1.Keys == Sample1.Keys
    ensures Rank1[LightRed] == 4 && Rank1[DarkOrange] == 4
    ensures Rank1[BrightWhite] == 3 && Rank1[MutedYellow] == 3 && Rank1[Gold] == 2
    ensures Rank1[DarkOlive] == 1 && Rank1[VibrantPlum] == 1
    ensures Rank1[FadedBlue] == 0 && Rank1[DottedBlack] == 0
  {
    Sample1Keys();
  }

  lemma Sample1WellFounded()
    ensures WellFounded(Sample1, Rank1)
  {
    Sample1Keys();
    Rank1Values();
    forall c, k | c in Rank1 && 0 <= k < |Sample1[c]|
      ensures Sample1[c][k].color in Rank1 && Rank1[Sample1[c][k].color] < Rank1[c]
    {
      if c == LightRed || c == DarkOrange {
        assert Sample1[c][k].color in {BrightWhite, MutedYellow};
      } else if c == BrightWhite || c == MutedYellow {
        assert Sample1[c][k].color in {Gold, FadedBlue};
      } else if c == Gold {
        assert Sample1[c][k].color in {DarkOlive, VibrantPlum};
      } else {
        assert c == DarkOlive || c == VibrantPlum;
        assert Sample1[c][k].color in {FadedBlue, DottedBlack};
      }
    }
  }

  /** The gold bag holds 32 bags in the first example. */
  lemma Sample1Inside()
    ensures WellFounded(Sample1, Rank1)
    ensures Below(Sample1, Rank1, Sample1[Gold], Rank1[Gold])
    ensures Inner(Sample1, Rank1, Sample1[Gold], Rank1[Gold]) == 32
  {
    Sample1WellFounded();
    Sample1Keys();
    assert Size(Sample1, Rank1, FadedBlue) == 1;
    assert Size(Sample1, Rank1, DottedBlack) == 1;
    var olive := Sample1[DarkOlive];
    assert olive[..1][..0] == [] && olive[..1] == [olive[0]] && olive[..2] == olive;
    assert Inner(Sample1, Rank1, olive[..1], Rank1[DarkOlive]) == 3;
    assert Size(Sample1, Rank1, DarkOlive) == 8;
    var plum := Sample1[VibrantPlum];
    assert plum[..1][..0] == [] && plum[..1] == [plum[0]] && plum[..2] == plum;
    assert Inner(Sample1, Rank1, plum[..1], Rank1[VibrantPlum]) == 5;
    assert Size(Sample1, Rank1, VibrantPlum) == 12;
    var gold := Sample1[Gold];
    assert gold[..1][..0] == [] && gold[..1] == [gold[0]] && gold[..2] == gold;
    assert Inner(Sample1, Rank1, gold[..1], Rank1[Gold]) == 8;
  }
  /** A colour gold cannot reach may hold itself: `part2` never looks at it. */
  const Looping := Color("looping", "grey")

  lemma CycleElsewhere()
    ensures WellFounded(Sample1[Looping := [SomeBags(1, Looping)]], Rank1)
  {
    Sample1WellFounded();
    Rank1Values();
    assert Looping !in Rank1 by { assert Looping.adj[0] == 'l' && Looping.hue[0] == 'g'; }
  }

  const DarkRed := Color("dark", "red")
  const DarkYellow := Color("dark", "yellow")
  const DarkGreen := Color("dark", "green")
  const DarkBlue := Color("dark", "blue")
  const DarkViolet := Color("dark", "violet")

  /** The second example: a chain of six colours, each holding two of the next. */
  const Sample2: Rules := map[
    Gold := [SomeBags(2, DarkRed)],
    DarkRed := [SomeBags(2, DarkOrange)],
    DarkOrange := [SomeBags(2, DarkYellow)],
    DarkYellow := [SomeBags(2, DarkGreen)],
    DarkGreen := [SomeBags(2, DarkBlue)],
    DarkBlue := [SomeBags(2, DarkViolet)],
    DarkViolet := []
  ]

  const Rank2: map<Color, nat> := map[
    Gold := 6, DarkRed := 5, DarkOrange := 4, DarkYellow := 3, DarkGreen := 2, DarkBlue := 1, DarkViolet := 0
  ]

  lemma Sample2WellFounded()
    ensures WellFounded(Sample2, Rank2)
  {
    forall c, k | c in Rank2 && 0 <= k < |Sample2[c]|
      ensures Sample2[c][k].color in Rank2 && Rank2[Sample2[c][k].color] < Rank2[c]
    {
    }
  }

  /** One child: the bags inside are its amount times its size. */
  lemma OneChild(rules: Rules, rank: map<Color, nat>, c: Color, kid: SomeBags)
    requires WellFounded(rules, rank) && c in rank && rules[c] == [kid]
    ensures kid.color in rank
    ensures Size(rules, rank, c) == 1 + kid.amount * Size(rules, rank, kid.color)
  {
    assert rules[c][0] == kid;
    assert [kid][..0] == [];
    assert Below(rules, rank, rules[c], rank[c]);
    assert Inner(rules, rank, [kid], rank[c]) == Inner(rules, rank, [], rank[c]) + kid.amount * Size(rules, rank, kid.color);
  }

  /** The gold bag holds 126 bags in the second example. */
  lemma Sample2Inside()
    ensures WellFounded(Sample2, Rank2)
    ensures Below(Sample2, Rank2, Sample2[Gold], Rank2[Gold])
    ensures Inner(Sample2, Rank2, Sample2[Gold], Rank2[Gold]) == 126
  {
    Sample2WellFounded();
    assert Size(Sample2, Rank2, DarkViolet) == 1;
    OneChild(Sample2, Rank2, DarkBlue, SomeBags(2, DarkViolet));
    OneChild(Sample2, Rank2, DarkGreen, SomeBags(2, DarkBlue));
    OneChild(Sample2, Rank2, DarkYellow, SomeBags(2, DarkGreen));
    OneChild(Sample2, Rank2, DarkOrange, SomeBags(2, DarkYellow));
    OneChild(Sample2, Rank2, DarkRed, SomeBags(2, DarkOrange));
    OneChild(Sample2, Rank2, Gold, SomeBags(2, DarkRed));
    Unfold(Sample2, Rank2, Gold, 1);
  }
}
