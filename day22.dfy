/** Day 22: the card game Combat. Each player holds a deck; in a round both
    draw their top card and the higher card's owner puts both cards at the
    bottom of their deck, their own first. In the recursive variant a round
    is settled by a sub-game on copies of the top cards whenever both
    players hold at least as many cards as the value they drew, and a deck
    pair seen before in the same game ends it in player 1's favour.

    Neither game of the source is proved to end: the specification
    functions take a `fuel` bound on the number of rounds, and the methods
    ask for a bound under which the game ends. */
module Day22 {
  import opened Outcomes
  import opened Text

  datatype Player = P1 | P2

  /** The two decks, top card first. */
  datatype Decks = Decks(p1: seq<nat>, p2: seq<nat>)

  /** How a game ends: a winner with the final decks, the `wat` panic on two
      equal cards, or, in the model only, running out of rounds. */
  datatype Game = Won(winner: Player, decks: Decks) | Wat | Stuck

  predicate Over(d: Decks)
  {
    d.p1 == [] || d.p2 == []
  }

  /** The player whose deck is not empty; player 2 when player 1's is. */
  function Survivor(d: Decks): Player
  {
    if d.p1 == [] then P2 else P1
  }

  /** All the cards in play. */
  function Cards(d: Decks): multiset<nat>
  {
    multiset(d.p1) + multiset(d.p2)
  }

  /** The end of a round won by w: both top cards leave their decks and go
      to the bottom of w's deck, w's own card first. */
  function Award(d: Decks, w: Player): Decks
    requires !Over(d)
  {
    if w == P1 then Decks(d.p1[1..] + [d.p1[0], d.p2[0]], d.p2[1..])
    else Decks(d.p1[1..], d.p2[1..] + [d.p2[0], d.p1[0]])
  }

  /** A round moves cards between the decks and keeps them all: the winner
      gains one card, the loser loses one. */
  lemma AwardKeepsCards(d: Decks, w: Player)
    requires !Over(d)
    ensures Cards(Award(d, w)) == Cards(d)
    ensures w == P1 ==> |Award(d, w).p1| == |d.p1| + 1 && |Award(d, w).p2| == |d.p2| - 1
    ensures w == P2 ==> |Award(d, w).p2| == |d.p2| + 1 && |Award(d, w).p1| == |d.p1| - 1
  {
    assert d.p1 == [d.p1[0]] + d.p1[1..];
    assert d.p2 == [d.p2[0]] + d.p2[1..];
  }

  /** The owner of the higher top card; none when the two are equal. */
  function Higher(d: Decks): (w: Option<Player>)
    requires !Over(d)
    ensures w == Some(P1) <==> d.p1[0] > d.p2[0]
    ensures w == Some(P2) <==> d.p2[0] > d.p1[0]
  {
    if d.p1[0] > d.p2[0] then Some(P1)
    else if d.p2[0] > d.p1[0] then Some(P2)
    else None
  }

  // ---------------------------------------------------------------- Combat

  /** `play_game` with at most `fuel` rounds. */
  function Combat(d: Decks, fuel: nat): Game
    decreases fuel
  {
    if Over(d) then Won(Survivor(d), d)
    else if fuel == 0 then Stuck
    else match Higher(d)
      case None => Wat
      case Some(w) => Combat(Award(d, w), fuel - 1)
  }

  /** A game that ends has an empty deck, and the other player won it; no
      card was lost or made along the way. */
  lemma {:induction false} CombatEnds(d: Decks, fuel: nat)
    ensures Combat(d, fuel).Won? ==>
      var e := Combat(d, fuel).decks;
      Over(e) && Combat(d, fuel).winner == Survivor(e) && Cards(e) == Cards(d)
    decreases fuel
  {
    if !Over(d) && fuel > 0 && Higher(d).Some? {
      AwardKeepsCards(d, Higher(d).value);
      CombatEnds(Award(d, Higher(d).value), fuel - 1);
    }
  }

  /** More rounds than a game needs change nothing. */
  lemma {:induction false} CombatFuel(d: Decks, fuel: nat, more: nat)
    requires Combat(d, fuel) != Stuck && fuel <= more
    ensures Combat(d, more) == Combat(d, fuel)
    decreases fuel
  {
    if !Over(d) && Higher(d).Some? {
      CombatFuel(Award(d, Higher(d).value), fuel - 1, more - 1);
    }
  }

  /** The decks after one more round of Combat: the same decks once the
      game is over, none on a tie. */
  function Next(d: Decks): Option<Decks>
  {
    if Over(d) then Some(d)
    else match Higher(d)
      case None => None
      case Some(w) => Some(Award(d, w))
  }

  /** The decks after n rounds of Combat. */
  function Play(d: Decks, n: nat): Option<Decks>
  {
    if n == 0 then Some(d)
    else match Play(d, n - 1)
      case None => None
      case Some(e) => Next(e)
  }

  /** Rounds played ahead of time leave the game where it was. */
  lemma {:induction false} PlayCombat(d: Decks, n: nat, fuel: nat)
    requires n <= fuel && Play(d, n).Some?
    ensures Combat(d, fuel) == Combat(Play(d, n).value, fuel - n)
  {
    if n > 0 {
      PlayCombat(d, n - 1, fuel);
    }
  }

  /** One round, the top cards given apart from the rest of each deck. */
  lemma NextRound(a: nat, ra: seq<nat>, b: nat, rb: seq<nat>)
    requires a != b
    ensures a > b ==> Next(Decks([a] + ra, [b] + rb)) == Some(Decks(ra + [a, b], rb))
    ensures b > a ==> Next(Decks([a] + ra, [b] + rb)) == Some(Decks(ra, rb + [b, a]))
  {
    assert ([a] + ra)[1..] == ra && ([b] + rb)[1..] == rb;
  }

  /** `play_game`: the decks change round by round in a loop. */
  method PlayGame(d: Decks, ghost fuel: nat) returns (g: Game)
    requires Combat(d, fuel) != Stuck
    ensures g == Combat(d, fuel)
  {
    var p1: seq<nat>, p2: seq<nat> := d.p1, d.p2;
    ghost var f: nat := fuel;
    while !(p1 == [] || p2 == [])
      invariant Combat(Decks(p1, p2), f) == Combat(d, fuel)
      decreases f
    {
      ghost var before := Decks(p1, p2);
      var c1 := p1[0];
      p1 := p1[1..];
      var c2 := p2[0];
      p2 := p2[1..];
      if c1 > c2 {
        p1 := p1 + [c1, c2];
        assert Decks(p1, p2) == Award(before, P1);
      } else if c2 > c1 {
        p2 := p2 + [c2, c1];
        assert Decks(p1, p2) == Award(before, P2);
      } else {
        return Wat;
      }
      f := f - 1;
    }
    return Won(if p1 == [] then P2 else P1, Decks(p1, p2));
  }

  // ------------------------------------------------------ Recursive Combat

  /** `play_rec_game` with at most `fuel` rounds in each game along any
      chain of sub-games; `seen` holds the deck pairs of earlier rounds of
      this game. */
  function RecCombat(d: Decks, seen: set<Decks>, fuel: nat): Game
    decreases fuel, 1
  {
    if Over(d) then Won(Survivor(d), d)
    else if d in seen then Won(P1, d)
    else if fuel == 0 then Stuck
    else match Round(d, fuel)
      case Won(w, _) => RecCombat(Award(d, w), seen + {d}, fuel - 1)
      case Wat => Wat
      case Stuck => Stuck
  }

  /** Who takes a round of Recursive Combat: the winner of a sub-game on
      copies of the next cards when both players hold enough of them,
      otherwise the higher card. */
  function Round(d: Decks, fuel: nat): Game
    requires !Over(d) && fuel > 0
    decreases fuel, 0
  {
    var c1, c2, r1, r2 := d.p1[0], d.p2[0], d.p1[1..], d.p2[1..];
    if c1 <= |r1| && c2 <= |r2| then RecCombat(Decks(r1[..c1], r2[..c2]), {}, fuel - 1)
    else match Higher(d)
      case None => Wat
      case Some(w) => Won(w, d)
  }

  /** A deck pair seen before in the same game hands the game to player 1
      at once. */
  lemma RepeatWins(d: Decks, seen: set<Decks>, fuel: nat)
    requires !Over(d) && d in seen
    ensures RecCombat(d, seen, fuel) == Won(P1, d)
  {
  }

  /** A recursive game ends with an empty deck and the other player
      winning, or on a repeat with player 1 winning. */
  lemma {:induction false} RecCombatWinner(d: Decks, seen: set<Decks>, fuel: nat)
    ensures var g := RecCombat(d, seen, fuel);
      g.Won? ==> (Over(g.decks) ==> g.winner == Survivor(g.decks)) && (!Over(g.decks) ==> g.winner == P1)
    decreases fuel
  {
    if !Over(d) && d !in seen && fuel > 0 && Round(d, fuel).Won? {
      var w := Round(d, fuel).winner;
      assert RecCombat(d, seen, fuel) == RecCombat(Award(d, w), seen + {d}, fuel - 1);
      RecCombatWinner(Award(d, w), seen + {d}, fuel - 1);
    }
  }

  /** No card is lost or made in a recursive game: a sub-game plays with
      copies, and only its winner matters to the parent. */
  lemma {:induction false} RecCombatKeepsCards(d: Decks, seen: set<Decks>, fuel: nat)
    ensures RecCombat(d, seen, fuel).Won? ==> Cards(RecCombat(d, seen, fuel).decks) == Cards(d)
    decreases fuel
  {
    if !Over(d) && d !in seen && fuel > 0 && Round(d, fuel).Won? {
      var w := Round(d, fuel).winner;
      assert RecCombat(d, seen, fuel) == RecCombat(Award(d, w), seen + {d}, fuel - 1);
      AwardKeepsCards(d, w);
      RecCombatKeepsCards(Award(d, w), seen + {d}, fuel - 1);
    }
  }

  /** `play_rec_game`: the round loop, the seen-states set, and a recursive
      call on fresh copies of the top cards for a sub-game. */
  method PlayRecGame(d: Decks, ghost fuel: nat) returns (g: Game)
    requires RecCombat(d, {}, fuel) != Stuck
    ensures g == RecCombat(d, {}, fuel)
    decreases fuel
  {
    var p1: seq<nat>, p2: seq<nat> := d.p1, d.p2;
    var states: set<Decks> := {};
    ghost var f: nat := fuel;
    while !(p1 == [] || p2 == [])
      invariant f <= fuel && RecCombat(Decks(p1, p2), states, f) == RecCombat(d, {}, fuel)
      decreases f
    {
      ghost var before := Decks(p1, p2);
      if Decks(p1, p2) in states {
        return Won(P1, Decks(p1, p2));
      }
      states := states + {Decks(p1, p2)};
      var c1 := p1[0];
      p1 := p1[1..];
      var c2 := p2[0];
      p2 := p2[1..];
      var w: Player;
      if c1 <= |p1| && c2 <= |p2| {
        var sub := PlayRecGame(Decks(p1[..c1], p2[..c2]), f - 1);
        if sub.Wat? {
          return Wat;
        }
        w := sub.winner;
      } else if c1 > c2 {
        w := P1;
      } else if c2 > c1 {
        w := P2;
      } else {
        return Wat;
      }
      if w == P1 {
        p1 := p1 + [c1, c2];
      } else {
        p2 := p2 + [c2, c1];
      }
      assert Decks(p1, p2) == Award(before, w);
      f := f - 1;
    }
    return Won(if p1 == [] then P2 else P1, Decks(p1, p2));
  }

  // ---------------------------------------------------------------- scores

  /** Each card times its 1-based position counted from the bottom, summed:
      the deck reversed, enumerated from weight 1. */
  function Score(deck: seq<nat>): nat
  {
    Weighted(Reverse(deck), 1)
  }

  function Reverse(s: seq<nat>): (r: seq<nat>)
    ensures |r| == |s|
  {
    if s == [] then [] else Reverse(s[1..]) + [s[0]]
  }

  /** The cards times k, k + 1, ... */
  function Weighted(s: seq<nat>, k: nat): nat
  {
    if s == [] then 0 else k * s[0] + Weighted(s[1..], k + 1)
  }

  function Sum(s: seq<nat>): nat
  {
    if s == [] then 0 else s[0] + Sum(s[1..])
  }

  lemma {:induction false} WeightedAppend(s: seq<nat>, k: nat, c: nat)
    ensures Weighted(s + [c], k) == Weighted(s, k) + (k + |s|) * c
  {
    if s != [] {
      WeightedAppend(s[1..], k + 1, c);
      assert (s + [c])[1..] == s[1..] + [c];
    }
  }

  lemma {:induction false} WeightedShift(s: seq<nat>, k: nat)
    ensures Weighted(s, k + 1) == Weighted(s, k) + Sum(s)
  {
    if s != [] {
      WeightedShift(s[1..], k + 1);
    }
  }

  lemma {:induction false} SumReverse(s: seq<nat>)
    ensures Sum(Reverse(s)) == Sum(s)
  {
    if s != [] {
      SumReverse(s[1..]);
      SumAppend(Reverse(s[1..]), s[0]);
    }
  }

  lemma {:induction false} SumAppend(s: seq<nat>, c: nat)
    ensures Sum(s + [c]) == Sum(s) + c
  {
    if s != [] {
      SumAppend(s[1..], c);
      assert (s + [c])[1..] == s[1..] + [c];
    }
  }

  /** The top card of a deck of n cards counts n times. */
  lemma ScoreTop(deck: seq<nat>)
    requires deck != []
    ensures Score(deck) == |deck| * deck[0] + Score(deck[1..])
  {
    WeightedAppend(Reverse(deck[1..]), 1, deck[0]);
  }

  lemma {:induction false} ReverseAppend(s: seq<nat>, c: nat)
    ensures Reverse(s + [c]) == [c] + Reverse(s)
  {
    if s != [] {
      ReverseAppend(s[1..], c);
      assert (s + [c])[1..] == s[1..] + [c];
    } else {
      assert [c][1..] == [];
    }
  }

  /** The top card of a deck, given apart from the rest, counts once per
      card in the deck. */
  lemma ScoreCons(c: nat, rest: seq<nat>)
    ensures Score([c] + rest) == (|rest| + 1) * c + Score(rest)
  {
    assert ([c] + rest)[1..] == rest;
    ScoreTop([c] + rest);
  }

  /** A card put at the bottom counts once, and every card above it one
      more time than before. */
  lemma ScoreBottom(deck: seq<nat>, c: nat)
    ensures Score(deck + [c]) == Score(deck) + Sum(deck) + c
  {
    ReverseAppend(deck, c);
    assert ([c] + Reverse(deck))[1..] == Reverse(deck);
    WeightedShift(Reverse(deck), 1);
    SumReverse(deck);
  }

  /** `part1`: the score of the winner's deck after Combat. */
  method Part1(d: Decks, ghost fuel: nat) returns (r: Result<nat>)
    requires Combat(d, fuel) != Stuck
    ensures Combat(d, fuel).Won? ==> r == Ok(Score(if Combat(d, fuel).winner == P1 then Combat(d, fuel).decks.p1 else Combat(d, fuel).decks.p2))
    ensures Combat(d, fuel) == Wat ==> r == Panic("wat")
  {
    var g := PlayGame(d, fuel);
    if g.Wat? {
      return Panic("wat");
    }
    var deck := if g.winner == P1 then g.decks.p1 else g.decks.p2;
    return Ok(Score(deck));
  }

  /** `part2`: the score of the winner's deck after Recursive Combat. */
  method Part2(d: Decks, ghost fuel: nat) returns (r: Result<nat>)
    requires RecCombat(d, {}, fuel) != Stuck
    ensures RecCombat(d, {}, fuel).Won? ==>
      var g := RecCombat(d, {}, fuel);
      r == Ok(Score(if g.winner == P1 then g.decks.p1 else g.decks.p2))
    ensures RecCombat(d, {}, fuel) == Wat ==> r == Panic("wat")
  {
    var g := PlayRecGame(d, fuel);
    if g.Wat? {
      return Panic("wat");
    }
    var deck := if g.winner == P1 then g.decks.p1 else g.decks.p2;
    return Ok(Score(deck));
  }

  // --------------------------------------------------------------- reading

  const ParseError := "invalid digit found in string"

  /** The cards on lines i up to end, in order; the first bad line is an
      error. */
  function ParseCards(lines: seq<string>, i: nat, end: nat): (r: Result<seq<nat>>)
    requires i <= end <= |lines|
    ensures r.Ok? || r == Err(ParseError)
    ensures r.Ok? ==> |r.value| == end - i
    decreases end - i
  {
    if i == end then Ok([])
    else match ParseNat(lines[i], U64Max)
      case None => Err(ParseError)
      case Some(v) => Prepend([v], ParseCards(lines, i + 1, end))
  }

  function Prepend(cards: seq<nat>, r: Result<seq<nat>>): Result<seq<nat>>
  {
    if r.Ok? then Ok(cards + r.value) else r
  }

  lemma PrependTwice(a: seq<nat>, b: seq<nat>, r: Result<seq<nat>>)
    ensures Prepend(a, Prepend(b, r)) == Prepend(a + b, r)
    ensures Prepend([], r) == r
  {
    if r.Ok? {
      assert [] + r.value == r.value;
      assert a + (b + r.value) == (a + b) + r.value;
    }
  }

  /** The index of the first empty line at or after i, or the end. */
  function BlankFrom(lines: seq<string>, i: nat): (e: nat)
    requires i <= |lines|
    ensures i <= e <= |lines| && (e < |lines| ==> lines[e] == "")
    ensures forall k :: i <= k < e ==> lines[k] != ""
    decreases |lines| - i
  {
    if i == |lines| || lines[i] == "" then i else BlankFrom(lines, i + 1)
  }

  /** `read`: a header line, player 1's cards up to an empty line, another
      header line, then player 2's cards. */
  function ReadDecks(lines: seq<string>): Result<Decks>
  {
    var s := if |lines| > 0 then 1 else 0;
    var e := BlankFrom(lines, s);
    var t := if e + 2 <= |lines| then e + 2 else |lines|;
    match ParseCards(lines, s, e)
    case Ok(p1) =>
      (match ParseCards(lines, t, |lines|)
       case Ok(p2) => Ok(Decks(p1, p2))
       case _ => Err(ParseError))
    case _ => Err(ParseError)
  }

  /** `read`: skips a header line, reads player 1's cards up to the empty
      line, skips one more line and reads player 2's cards from the rest. */
  method Read(lines: seq<string>) returns (r: Result<Decks>)
    ensures r == ReadDecks(lines)
  {
    var i := 0;
    if i < |lines| {
      i := i + 1;
    }
    var p1, e := ReadUntilBlank(lines, i);
    if p1.Err? {
      return Err(ParseError);
    }
    i := e;
    if i < |lines| {
      i := i + 1;
    }
    if i < |lines| {
      i := i + 1;
    }
    var p2 := ReadToEnd(lines, i);
    if p2.Err? {
      return Err(ParseError);
    }
    return Ok(Decks(p1.value, p2.value));
  }

  /** The first loop of `read`: cards one per line until an empty line,
      which it consumes, or the end. */
  method ReadUntilBlank(lines: seq<string>, s: nat) returns (r: Result<seq<nat>>, e: nat)
    requires s <= |lines|
    ensures e == BlankFrom(lines, s) && r == ParseCards(lines, s, e)
  {
    var i := s;
    e := BlankFrom(lines, s);
    var p1: seq<nat> := [];
    PrependTwice([], [], ParseCards(lines, s, e));
    while i < |lines| && lines[i] != ""
      invariant s <= i <= e && BlankFrom(lines, i) == e
      invariant ParseCards(lines, s, e) == Prepend(p1, ParseCards(lines, i, e))
      decreases e - i
    {
      var card := ParseNat(lines[i], U64Max);
      if card.None? {
        return Err(ParseError), e;
      }
      assert ParseCards(lines, i, e) == Prepend([card.value], ParseCards(lines, i + 1, e));
      PrependTwice(p1, [card.value], ParseCards(lines, i + 1, e));
      p1 := p1 + [card.value];
      i := i + 1;
    }
    assert p1 + [] == p1;
    return Ok(p1), e;
  }

  /** The second loop of `read`: cards one per line to the end. */
  method ReadToEnd(lines: seq<string>, t: nat) returns (r: Result<seq<nat>>)
    requires t <= |lines|
    ensures r == ParseCards(lines, t, |lines|)
  {
    var i := t;
    var p2: seq<nat> := [];
    PrependTwice([], [], ParseCards(lines, t, |lines|));
    while i < |lines|
      invariant t <= i <= |lines| && ParseCards(lines, t, |lines|) == Prepend(p2, ParseCards(lines, i, |lines|))
      decreases |lines| - i
    {
      var card := ParseNat(lines[i], U64Max);
      if card.None? {
        return Err(ParseError);
      }
      assert ParseCards(lines, i, |lines|) == Prepend([card.value], ParseCards(lines, i + 1, |lines|));
      PrependTwice(p2, [card.value], ParseCards(lines, i + 1, |lines|));
      p2 := p2 + [card.value];
      i := i + 1;
    }
    assert p2 + [] == p2;
    return Ok(p2);
  }

  /** Each card on a line of its own. */
  function ShowDeck(cards: seq<nat>): (ls: seq<string>)
    ensures |ls| == |cards|
  {
    seq(|cards|, k requires 0 <= k < |cards| => ShowNat(cards[k]))
  }

  /** The puzzle input for two decks. */
  function Show(d: Decks): seq<string>
  {
    ["Player 1:"] + ShowDeck(d.p1) + ["", "Player 2:"] + ShowDeck(d.p2)
  }

  /** Written cards sit on non-empty lines and parse back. */
  lemma {:induction false} ParseShowDeck(lines: seq<string>, i: nat, cards: seq<nat>)
    requires i + |cards| <= |lines|
    requires forall k :: 0 <= k < |cards| ==> cards[k] <= U64Max && lines[i + k] == ShowNat(cards[k])
    ensures ParseCards(lines, i, i + |cards|) == Ok(cards)
    ensures forall k :: i <= k < i + |cards| ==> lines[k] != ""
    decreases |cards|
  {
    if cards != [] {
      assert lines[i + 0] == ShowNat(cards[0]);
      ParseShowNat(cards[0], U64Max);
      var rest := cards[1..];
      forall k | 0 <= k < |rest|
        ensures rest[k] <= U64Max && lines[i + 1 + k] == ShowNat(rest[k])
      {
        assert rest[k] == cards[k + 1] && lines[i + 1 + k] == lines[i + (k + 1)];
      }
      ParseShowDeck(lines, i + 1, rest);
      assert cards == [cards[0]] + rest;
      forall k | i <= k < i + |cards|
        ensures lines[k] != ""
      {
        assert lines[i + (k - i)] == ShowNat(cards[k - i]);
      }
    }
  }

  /** Reading the written decks gives them back. */
  lemma ReadShow(d: Decks)
    requires forall k :: 0 <= k < |d.p1| ==> d.p1[k] <= U64Max
    requires forall k :: 0 <= k < |d.p2| ==> d.p2[k] <= U64Max
    ensures ReadDecks(Show(d)) == Ok(d)
  {
    var lines := Show(d);
    var e := 1 + |d.p1|;
    ShowFirst(d);
    ShowSecond(d);
    BlankAt(lines, 1, e);
    ReadDecksAt(lines, e, d.p1, d.p2);
  }

  lemma ShowFirst(d: Decks)
    requires forall k :: 0 <= k < |d.p1| ==> d.p1[k] <= U64Max
    ensures |Show(d)| == |d.p1| + |d.p2| + 3 && Show(d)[1 + |d.p1|] == ""
    ensures ParseCards(Show(d), 1, 1 + |d.p1|) == Ok(d.p1)
    ensures forall k :: 1 <= k < 1 + |d.p1| ==> Show(d)[k] != ""
  {
    ParseShowDeck(Show(d), 1, d.p1);
  }

  lemma ShowSecond(d: Decks)
    requires forall k :: 0 <= k < |d.p2| ==> d.p2[k] <= U64Max
    ensures |Show(d)| == |d.p1| + |d.p2| + 3
    ensures ParseCards(Show(d), |d.p1| + 3, |Show(d)|) == Ok(d.p2)
  {
    var lines := Show(d);
    var i := |d.p1| + 3;
    forall k | 0 <= k < |d.p2|
      ensures lines[i + k] == ShowNat(d.p2[k])
    {
    }
    ParseShowDeck(lines, i, d.p2);
  }

  lemma ReadDecksAt(lines: seq<string>, e: nat, p1: seq<nat>, p2: seq<nat>)
    requires 1 <= e && e + 2 <= |lines| && BlankFrom(lines, 1) == e
    requires ParseCards(lines, 1, e) == Ok(p1) && ParseCards(lines, e + 2, |lines|) == Ok(p2)
    ensures ReadDecks(lines) == Ok(Decks(p1, p2))
  {
  }

  lemma {:induction false} BlankAt(lines: seq<string>, i: nat, e: nat)
    requires i <= e < |lines| && lines[e] == ""
    requires forall k :: i <= k < e ==> lines[k] != ""
    ensures BlankFrom(lines, i) == e
    decreases e - i
  {
    if i < e {
      BlankAt(lines, i + 1, e);
    }
  }
}
