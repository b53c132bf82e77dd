/** Day 22, plain Combat as `play_game` plays it has no guard against a
    deck pair coming back, and on some decks it never ends. `GuardedCombat`
    adds the repeat rule of the recursive game to it: that game always
    ends, and wherever `play_game` ends it ends the same way. */
module Day22Loop {
  import opened Outcomes
  import opened Day22

  /** Decks on which `play_game` never ends, and the five deck pairs that
      follow them before they come back. */
  const Cycle := [
    Decks([43, 19], [2, 29, 14]),
    Decks([19, 43, 2], [29, 14]),
    Decks([43, 2], [14, 29, 19]),
    Decks([2, 43, 14], [29, 19]),
    Decks([43, 14], [19, 29, 2]),
    Decks([14, 43, 19], [29, 2])]

  const Looping := Cycle[0]

  /** A round of Combat from each pair of the cycle gives the next one, and
      the last gives the first. */
  lemma CycleRounds(i: nat)
    requires i < 6
    ensures !Over(Cycle[i]) && Next(Cycle[i]) == Some(if i + 1 < 6 then Cycle[i + 1] else Cycle[0])
  {
    if i == 0 {
      NextRound(43, [19], 2, [29, 14]);
      assert [43] + [19] == [43, 19] && [2] + [29, 14] == [2, 29, 14];
      assert [19] + [43, 2] == [19, 43, 2];
    } else if i == 1 {
      NextRound(19, [43, 2], 29, [14]);
      assert [19] + [43, 2] == [19, 43, 2] && [29] + [14] == [29, 14];
      assert [14] + [29, 19] == [14, 29, 19];
    } else if i == 2 {
      NextRound(43, [2], 14, [29, 19]);
      assert [43] + [2] == [43, 2] && [14] + [29, 19] == [14, 29, 19];
      assert [2] + [43, 14] == [2, 43, 14];
    } else if i == 3 {
      NextRound(2, [43, 14], 29, [19]);
      assert [2] + [43, 14] == [2, 43, 14] && [29] + [19] == [29, 19];
      assert [19] + [29, 2] == [19, 29, 2];
    } else if i == 4 {
      NextRound(43, [14], 19, [29, 2]);
      assert [43] + [14] == [43, 14] && [19] + [29, 2] == [19, 29, 2];
      assert [14] + [43, 19] == [14, 43, 19];
    } else {
      NextRound(14, [43, 19], 29, [2]);
      assert [14] + [43, 19] == [14, 43, 19] && [29] + [2] == [29, 2];
      assert [2] + [29, 14] == [2, 29, 14];
    }
  }

  /** A round played before the game is handed on leaves it where it was. */
  lemma CombatNext(d: Decks, e: Decks, fuel: nat)
    requires !Over(d) && Next(d) == Some(e) && fuel > 0
    ensures Combat(d, fuel) == Combat(e, fuel - 1)
  {
  }

  /** However many rounds are allowed, Combat from a pair of the cycle
      never ends. */
  lemma {:induction false} CycleNeverEnds(i: nat, fuel: nat)
    requires i < 6
    ensures Combat(Cycle[i], fuel) == Stuck
    decreases fuel
  {
    CycleRounds(i);
    if fuel > 0 {
      var j := if i + 1 < 6 then i + 1 else 0;
      CombatNext(Cycle[i], Cycle[j], fuel);
      CycleNeverEnds(j, fuel - 1);
    }
  }

  /** `play_game` never returns on `Looping`. */
  lemma LoopingNeverEnds(fuel: nat)
    ensures Combat(Looping, fuel) == Stuck
  {
    CycleNeverEnds(0, fuel);
  }

  // ------------------------------------------------ Combat with repeat rule

  /** Every sequence of n cards drawn from `cards`. */
  function Words(cards: set<nat>, n: nat): (ws: set<seq<nat>>)
    ensures forall w :: w in ws ==> |w| == n
  {
    if n == 0 then {[]}
    else set w, c | w in Words(cards, n - 1) && c in cards :: w + [c]
  }

  lemma {:induction false} InWords(cards: set<nat>, w: seq<nat>)
    requires forall k :: 0 <= k < |w| ==> w[k] in cards
    ensures w in Words(cards, |w|)
  {
    if w != [] {
      var u, c := w[..|w| - 1], w[|w| - 1];
      InWords(cards, u);
      assert u + [c] == w;
    }
  }

  /** The distinct card values among `all`. */
  function Values(all: multiset<nat>): set<nat>
  {
    set c | c in all
  }

  /** Every way to lay out the cards of `all` in two decks. */
  function Layouts(all: multiset<nat>): set<Decks>
  {
    set w, k | w in Words(Values(all), |all|) && 0 <= k <= |w| :: Decks(w[..k], w[k..])
  }

  lemma InLayouts(d: Decks)
    ensures d in Layouts(Cards(d))
  {
    var w := d.p1 + d.p2;
    assert multiset(w) == Cards(d);
    forall k | 0 <= k < |w|
      ensures w[k] in Values(Cards(d))
    {
      assert w[k] in multiset(w);
    }
    InWords(Values(Cards(d)), w);
    assert |w| == |Cards(d)|;
    assert w[..|d.p1|] == d.p1 && w[|d.p1|..] == d.p2;
  }

  /** The deck pairs seen hold the same cards as d. */
  predicate SameCards(seen: set<Decks>, d: Decks)
  {
    forall e :: e in seen ==> Cards(e) == Cards(d)
  }

  lemma SeenInLayouts(seen: set<Decks>, d: Decks)
    requires SameCards(seen, d)
    ensures seen + {d} <= Layouts(Cards(d))
  {
    forall e | e in seen + {d}
      ensures e in Layouts(Cards(d))
    {
      InLayouts(e);
    }
  }

  /** One more deck pair seen brings the game closer to running out of
      unseen layouts. */
  lemma FewerUnseen(u: set<Decks>, seen: set<Decks>, d: Decks)
    requires d in u && d !in seen
    ensures |u - (seen + {d})| < |u - seen|
  {
    assert u - seen == (u - (seen + {d})) + {d};
  }

  /** A round on a pair not seen before leaves fewer layouts unseen, and the
      cards as they were. */
  lemma UnseenShrinks(seen: set<Decks>, d: Decks, w: Player)
    requires SameCards(seen, d) && !Over(d) && d !in seen
    ensures SameCards(seen + {d}, Award(d, w))
    ensures |Layouts(Cards(Award(d, w))) - (seen + {d})| < |Layouts(Cards(d)) - seen|
  {
    AwardKeepsCards(d, w);
    SeenInLayouts(seen, d);
    FewerUnseen(Layouts(Cards(d)), seen, d);
  }

  /** Combat with the repeat rule of the recursive game: a deck pair seen
      before in the same game hands it to player 1. The cards in play are
      fixed, so the deck pairs they can form are finitely many and the game
      always ends, with no bound on its rounds. */
  function GuardedCombat(d: Decks, seen: set<Decks>): (g: Game)
    requires SameCards(seen, d)
    ensures g != Stuck
    decreases |Layouts(Cards(d)) - seen|
  {
    if Over(d) then Won(Survivor(d), d)
    else if d in seen then Won(P1, d)
    else match Higher(d)
      case None => Wat
      case Some(w) =>
        UnseenShrinks(seen, d, w);
        GuardedCombat(Award(d, w), seen + {d})
  }

  /** One round of the guarded game on a pair not seen before. */
  lemma GuardedStep(d: Decks, seen: set<Decks>, w: Player)
    requires SameCards(seen, d) && !Over(d) && d !in seen && Higher(d) == Some(w)
    ensures SameCards(seen + {d}, Award(d, w))
    ensures GuardedCombat(d, seen) == GuardedCombat(Award(d, w), seen + {d})
  {
    AwardKeepsCards(d, w);
  }

  /** The first i deck pairs of c. */
  function Prefix(c: seq<Decks>, i: nat): set<Decks>
    requires i <= |c|
  {
    set j | 0 <= j < i :: c[j]
  }

  /** Distinct deck pairs, each leading to the next by a round of Combat and
      the last back to the first. */
  predicate IsCycle(c: seq<Decks>)
  {
    && |c| > 0
    && (forall j :: 0 <= j < |c| ==> !Over(c[j]))
    && (forall j {:trigger Next(c[j])} :: 0 <= j < |c| ==> Next(c[j]) == Some(if j + 1 < |c| then c[j + 1] else c[0]))
    && (forall j, k :: 0 <= j < k < |c| ==> c[j] != c[k])
  }

  lemma {:induction false} CycleCards(c: seq<Decks>, i: nat)
    requires IsCycle(c) && i < |c|
    ensures Cards(c[i]) == Cards(c[0])
  {
    if i > 0 {
      CycleCards(c, i - 1);
      var d := c[i - 1];
      assert Next(d) == Some(c[i]);
      var w := Higher(d).value;
      assert c[i] == Award(d, w);
      AwardKeepsCards(d, w);
    }
  }

  /** From the i-th pair of a cycle, with the earlier ones seen, the guarded
      game goes round to the first pair and ends there. */
  lemma {:induction false} CycleGuarded(c: seq<Decks>, i: nat)
    requires IsCycle(c) && i <= |c|
    ensures SameCards(Prefix(c, i), if i < |c| then c[i] else c[0])
    ensures GuardedCombat(if i < |c| then c[i] else c[0], Prefix(c, i)) == Won(P1, c[0])
    decreases |c| - i
  {
    forall e | e in Prefix(c, i)
      ensures Cards(e) == Cards(c[0])
    {
      var j :| 0 <= j < i && e == c[j];
      CycleCards(c, j);
    }
    if i == |c| {
      assert c[0] in Prefix(c, i);
    } else {
      CycleCards(c, i);
      assert Next(c[i]) == Some(if i + 1 < |c| then c[i + 1] else c[0]);
      assert c[i] !in Prefix(c, i);
      GuardedStep(c[i], Prefix(c, i), Higher(c[i]).value);
      assert Prefix(c, i) + {c[i]} == Prefix(c, i + 1);
      CycleGuarded(c, i + 1);
    }
  }

  /** On `Looping` the guarded game ends after six rounds, player 1 winning
      on the repeat, where `play_game` runs forever. */
  lemma LoopingGuarded()
    ensures GuardedCombat(Looping, {}) == Won(P1, Looping)
  {
    forall j | 0 <= j < |Cycle|
      ensures Next(Cycle[j]) == Some(if j + 1 < |Cycle| then Cycle[j + 1] else Cycle[0])
    {
      CycleRounds(j);
    }
    forall j | 0 <= j < |Cycle|
      ensures !Over(Cycle[j])
    {
      CycleRounds(j);
    }
    assert Cycle[0].p1[0] == 43 && Cycle[1].p1[0] == 19 && Cycle[2].p1[0] == 43;
    assert Cycle[3].p1[0] == 2 && Cycle[4].p1[0] == 43 && Cycle[5].p1[0] == 14;
    assert |Cycle[0].p1| == 2 && |Cycle[2].p1| == 2 && |Cycle[4].p1| == 2;
    assert Cycle[0].p1[1] == 19 && Cycle[2].p1[1] == 2 && Cycle[4].p1[1] == 14;
    assert IsCycle(Cycle);
    assert Prefix(Cycle, 0) == {};
    CycleGuarded(Cycle, 0);
  }

  lemma CombatAward(d: Decks, w: Player, fuel: nat)
    requires !Over(d) && Higher(d) == Some(w) && fuel > 0
    ensures Combat(d, fuel) == Combat(Award(d, w), fuel - 1)
  {
  }

  /** Games that do not end within `fuel` rounds do not end within fewer. */
  lemma StuckBefore(seen: set<Decks>, fuel: nat)
    requires fuel > 0 && forall e :: e in seen ==> Combat(e, fuel) == Stuck
    ensures forall e :: e in seen ==> Combat(e, fuel - 1) == Stuck
  {
    forall e | e in seen
      ensures Combat(e, fuel - 1) == Stuck
    {
      if Combat(e, fuel - 1) != Stuck {
        CombatFuel(e, fuel - 1, fuel);
      }
    }
  }

  /** Where Combat ends, the repeat rule never fires: the guarded game
      gives the same result. Each deck pair seen needs more rounds to end
      than the current one, so the current one was not seen. */
  lemma {:induction false} GuardedAgrees(d: Decks, seen: set<Decks>, fuel: nat)
    requires SameCards(seen, d)
    requires Combat(d, fuel) != Stuck && (fuel == 0 || Combat(d, fuel - 1) == Stuck)
    requires forall e :: e in seen ==> Combat(e, fuel) == Stuck
    ensures GuardedCombat(d, seen) == Combat(d, fuel)
    decreases fuel
  {
    if !Over(d) && Higher(d).Some? {
      assert d !in seen;
      var w := Higher(d).value;
      var e := Award(d, w);
      GuardedStep(d, seen, w);
      CombatAward(d, w, fuel);
      if fuel > 1 {
        CombatAward(d, w, fuel - 1);
      }
      StuckBefore(seen, fuel);
      GuardedAgrees(e, seen + {d}, fuel - 1);
    }
  }

  /** The fewest rounds a game that ends needs. */
  lemma {:induction false} LeastFuel(d: Decks, fuel: nat) returns (least: nat)
    requires Combat(d, fuel) != Stuck
    ensures least <= fuel && Combat(d, least) == Combat(d, fuel)
    ensures least == 0 || Combat(d, least - 1) == Stuck
    decreases fuel
  {
    if fuel > 0 && Combat(d, fuel - 1) != Stuck {
      CombatFuel(d, fuel - 1, fuel);
      least := LeastFuel(d, fuel - 1);
    } else {
      least := fuel;
    }
  }

  /** Wherever `play_game` ends, the guarded game ends the same way. */
  lemma CombatGuarded(d: Decks, fuel: nat)
    requires Combat(d, fuel) != Stuck
    ensures GuardedCombat(d, {}) == Combat(d, fuel)
  {
    var least := LeastFuel(d, fuel);
    GuardedAgrees(d, {}, least);
  }
}
