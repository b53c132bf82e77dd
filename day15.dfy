/** Day 15: the memory game. Starting from some seed numbers, each turn
    speaks 0 if the number just spoken had never been spoken before it, and
    otherwise how many turns apart its last two utterances were.

    `play_until` keeps, in the map `foo`, the last turn on which each number
    was spoken. The game itself is specified by `Game`; what the code
    computes is `Played`, which differs on the first turn after the seeds:
    the seeding loop has already recorded the last seed, so that turn
    always speaks 0. */
module Day15 {
  import opened Outcomes
  import opened Text

  /** The last position of x in s. */
  function LastIndex(s: seq<nat>, x: nat): (i: nat)
    requires x in s
    ensures i < |s| && s[i] == x
    ensures forall j :: i < j < |s| ==> s[j] != x
  {
    if s[|s| - 1] == x then |s| - 1 else LastIndex(s[..|s| - 1], x)
  }

  /** The number spoken after s: the age of its last number. */
  function Next(s: seq<nat>): (n: nat)
    requires |s| > 0
    ensures n < |s|
  {
    var last, before := s[|s| - 1], s[..|s| - 1];
    if last in before then (|s| - 1) - LastIndex(before, last) else 0
  }

  /** The first n numbers of the game started from the seeds. */
  function Game(seeds: seq<nat>, n: nat): (s: seq<nat>)
    requires 0 < |seeds| <= n
    ensures |s| == n && s[..|seeds|] == seeds
    decreases n
  {
    if n == |seeds| then seeds
    else
      var prev := Game(seeds, n - 1);
      prev + [Next(prev)]
  }

  /** The first n numbers as `play_until` speaks them: the seeds, then 0,
      then the game's rule; that is, the game started from the seeds
      followed by 0. */
  function Played(seeds: seq<nat>, n: nat): (s: seq<nat>)
    requires 0 < |seeds| <= n
    ensures |s| == n && s[..|seeds|] == seeds
  {
    if n == |seeds| then seeds
    else
      var g := Game(seeds + [0], n);
      assert g[..|seeds|] == g[..|seeds| + 1][..|seeds|];
      g
  }

  /** Each turn after the seeds speaks a number smaller than its own
      (0-based) turn. */
  lemma {:induction false} GameBound(seeds: seq<nat>, n: nat)
    requires 0 < |seeds| <= n
    ensures forall i :: |seeds| <= i < n ==> Game(seeds, n)[i] < i
  {
    if n > |seeds| {
      GameBound(seeds, n - 1);
      assert Game(seeds, n)[..n - 1] == Game(seeds, n - 1);
    }
  }

  /** So every answer below `end` turns is below `end`. */
  lemma PlayedBound(seeds: seq<nat>, n: nat)
    requires 0 < |seeds| <= n
    ensures forall i :: |seeds| <= i < n ==> Played(seeds, n)[i] < i
  {
    if n > |seeds| {
      GameBound(seeds + [0], n);
    }
  }

  /** Appending the number the game speaks next to the seeds changes
      nothing after it. */
  lemma {:induction false} GameShift(seeds: seq<nat>, n: nat)
    requires 0 < |seeds| < n
    ensures Game(seeds + [Next(seeds)], n) == Game(seeds, n)
  {
    if n > |seeds| + 1 {
      GameShift(seeds, n - 1);
    }
  }

  /** When the last seed is new, the code speaks the game's numbers. */
  lemma PlayedIsGame(seeds: seq<nat>, n: nat)
    requires 0 < |seeds| <= n
    requires seeds[|seeds| - 1] !in seeds[..|seeds| - 1]
    ensures Played(seeds, n) == Game(seeds, n)
  {
    if n > |seeds| {
      assert Next(seeds) == 0;
      GameShift(seeds, n);
    }
  }

  /** When the last seed was already among the seeds, the two differ: with
      seeds 1, 1 the game's third number is 1 and the code's is 0. */
  lemma RepeatedSeed()
    ensures Game([1, 1], 3)[2] == 1
    ensures Played([1, 1], 3)[2] == 0
  {
    var s: seq<nat> := [1, 1];
    assert s[..1] == [1];
    assert Next(s) == 1;
  }

  // ---------------------------------------------------------------- the map

  /** The map `foo` should hold after the numbers s: each number spoken,
      with the last turn it was spoken on. */
  function Index(s: seq<nat>): map<nat, nat>
    decreases |s|
  {
    if s == [] then map[] else Index(s[..|s| - 1])[s[|s| - 1] := |s| - 1]
  }

  /** The index holds exactly the numbers of s, each at its last turn. */
  lemma {:induction false} IndexExact(s: seq<nat>)
    ensures forall x :: x in Index(s) ==> x in s
    ensures forall x :: x in s ==> x in Index(s) && Index(s)[x] == LastIndex(s, x)
    decreases |s|
  {
    if s != [] {
      var pre := s[..|s| - 1];
      IndexExact(pre);
      forall x | x in s ensures x in Index(s) && Index(s)[x] == LastIndex(s, x) {
        if x != s[|s| - 1] {
          var i :| 0 <= i < |s| && s[i] == x;
          assert pre[i] == x;
        }
      }
    }
  }

  /** One more number spoken at the next turn. */
  lemma Extend(s: seq<nat>, x: nat, s': seq<nat>)
    requires s' == s + [x]
    ensures Index(s') == Index(s)[x := |s|]
  {
    assert s'[..|s|] == s;
  }

  /** What `foo` says of the last number: its turn before, or the
      previous turn when it is new. */
  function Before(foo: map<nat, nat>, last: nat, t: nat): nat
    requires t > 0
  {
    if last in foo then foo[last] else t - 1
  }

  /** The age the map gives is the age of the last number. */
  lemma Age(s: seq<nat>)
    requires |s| > 0
    ensures Before(Index(s[..|s| - 1]), s[|s| - 1], |s|) <= |s| - 1
    ensures (|s| - 1) - Before(Index(s[..|s| - 1]), s[|s| - 1], |s|) == Next(s)
  {
    IndexExact(s[..|s| - 1]);
  }

  /** The first turn after the seeds: `foo` already holds the last seed
      at the previous turn, so the age is 0, and from then on the state is
      that of the game started from the seeds followed by 0. */
  lemma FirstTurn(input: seq<nat>, foo: map<nat, nat>, last: nat)
    requires 0 < |input| && foo == Index(input) && last == input[|input| - 1]
    ensures Before(foo, last, |input|) == |input| - 1
    ensures GameHolds(input + [0], |input| + 1, foo[last := |input| - 1], 0)
  {
    IndexExact(input);
    assert foo[last := |input| - 1] == foo;
    assert (input + [0])[..|input|] == input;
  }

  /** What the intended game holds after turn t: `foo` indexes every
      number but the last, and `last` is turn t's number. */
  predicate GameHolds(input: seq<nat>, t: nat, foo: map<nat, nat>, last: nat)
    requires 0 < |input| <= t
  {
    foo == Index(Game(input, t)[..t - 1]) && last == Game(input, t)[t - 1]
  }

  /** One turn of the game, with `foo` holding every number but the last. */
  lemma GameTurn(input: seq<nat>, t: nat, foo: map<nat, nat>, last: nat)
    requires 0 < |input| <= t && GameHolds(input, t, foo, last)
    ensures Before(foo, last, t) <= t - 1
    ensures GameHolds(input, t + 1, foo[last := t - 1], (t - 1) - Before(foo, last, t))
  {
    var spoken := Game(input, t);
    Age(spoken);
    var next := Game(input, t + 1)[..t];
    assert next == spoken[..t - 1] + [last];
    Extend(spoken[..t - 1], last, next);
  }

  /** The answer of `play_until(end, input)`: turn `end`'s number, counting
      from 1. With no seeds the first `t - 1` underflows; with `end` at most
      the number of seeds the answer is the last seed. */
  function Answer(end: nat, input: seq<nat>): Result<nat>
  {
    if |input| == 0 then (if end == 0 then Ok(0) else Panic("attempt to subtract with overflow"))
    else if end <= |input| then Ok(input[|input| - 1])
    else Ok(Played(input, end)[end - 1])
  }

  /** `play_until`'s first loop: every seed recorded at its turn. */
  method Seed(input: seq<nat>) returns (foo: map<nat, nat>, last: nat, t: nat)
    ensures foo == Index(input) && t == |input|
    ensures last == if |input| == 0 then 0 else input[|input| - 1]
  {
    t := 0;
    last := 0;
    foo := map[];
    for k := 0 to |input|
      invariant t == k && foo == Index(input[..k])
      invariant last == if k == 0 then 0 else input[k - 1]
    {
      assert input[..k] + [input[k]] == input[..k + 1];
      Extend(input[..k], input[k], input[..k + 1]);
      foo := foo[input[k] := t];
      last := input[k];
      t := t + 1;
    }
    assert input[..|input|] == input;
  }

  /** `play_until`'s second loop as a recursion: from turn t, with `foo`
      and `last` as the turns so far left them, the number spoken at turn
      `end`. The age is a `usize` subtraction, which would panic if `foo`
      held a later turn than the previous one. */
  function SpeakFrom(foo: map<nat, nat>, last: nat, t: nat, end: nat): Result<nat>
    requires t > 0
    decreases end - t
  {
    if t >= end then Ok(last)
    else
      var bar := Before(foo, last, t);
      if bar > t - 1 then Panic("attempt to subtract with overflow")
      else SpeakFrom(foo[last := t - 1], (t - 1) - bar, t + 1, end)
  }

  /** `play_until`'s second loop. */
  method Speak(end: nat, t0: nat, foo0: map<nat, nat>, last0: nat) returns (r: Result<nat>)
    requires t0 > 0
    ensures r == SpeakFrom(foo0, last0, t0, end)
  {
    var t: nat, foo: map<nat, nat>, last: nat := t0, foo0, last0;
    while t < end
      invariant 0 < t && (t0 <= end ==> t <= end)
      invariant SpeakFrom(foo, last, t, end) == SpeakFrom(foo0, last0, t0, end)
      decreases end - t
    {
      var bar := Before(foo, last, t);
      if bar > t - 1 {
        return Panic("attempt to subtract with overflow");
      }
      var age := (t - 1) - bar;
      foo := foo[last := t - 1];
      last := age;
      t := t + 1;
    }
    return Ok(last);
  }

  /** `play_until`. */
  method PlayUntil(end: nat, input: seq<nat>) returns (r: Result<nat>)
    ensures r == Answer(end, input)
  {
    var foo, last, t := Seed(input);
    if t < end && t == 0 {
      return Panic("attempt to subtract with overflow");
    }
    if t >= end {
      return Ok(last);
    }
    r := Speak(end, t, foo, last);
    FirstTurn(input, foo, last);
    assert SpeakFrom(foo, last, t, end) == SpeakFrom(foo[last := t - 1], 0, t + 1, end);
    SpeakGame(input + [0], t + 1, foo[last := t - 1], 0, end);
  }

  /** The answer the game intends. */
  function GameAnswer(end: nat, input: seq<nat>): Result<nat>
  {
    if |input| == 0 then (if end == 0 then Ok(0) else Panic("attempt to subtract with overflow"))
    else if end <= |input| then Ok(input[|input| - 1])
    else Ok(Game(input, end)[end - 1])
  }

  /** The two answers agree when the last seed is new. */
  lemma AnswerIsGame(end: nat, input: seq<nat>)
    requires |input| > 0 ==> input[|input| - 1] !in input[..|input| - 1]
    ensures Answer(end, input) == GameAnswer(end, input)
  {
    if 0 < |input| < end {
      PlayedIsGame(input, end);
    }
  }

  /** The game as intended: the seeding loop records every seed but the
      last, so the first turn after the seeds follows the rule too. */
  method PlayGame(end: nat, input: seq<nat>) returns (r: Result<nat>)
    ensures r == GameAnswer(end, input)
  {
    if |input| == 0 {
      return if end == 0 then Ok(0) else Panic("attempt to subtract with overflow");
    }
    var foo: map<nat, nat>, _, _ := Seed(input[..|input| - 1]);
    var t: nat := |input|;
    var last: nat := input[t - 1];
    if t >= end {
      return Ok(last);
    }
    assert Game(input, t) == input;
    r := Speak(end, t, foo, last);
    SpeakGame(input, t, foo, last, end);
  }

  /** From a state the game's turns so far explain, the loop ends on turn
      `end`'s number of the game. */
  lemma {:induction false} SpeakGame(input: seq<nat>, t: nat, foo: map<nat, nat>, last: nat, end: nat)
    requires 0 < |input| <= t <= end && GameHolds(input, t, foo, last)
    ensures SpeakFrom(foo, last, t, end) == Ok(Game(input, end)[end - 1])
    decreases end - t
  {
    if t < end {
      GameTurn(input, t, foo, last);
      var bar := Before(foo, last, t);
      var foo', age := foo[last := t - 1], (t - 1) - bar;
      assert SpeakFrom(foo, last, t, end) == SpeakFrom(foo', age, t + 1, end);
      SpeakGame(input, t + 1, foo', age, end);
    }
  }

  /** `part1`: the 2020th number. */
  method Part1(input: seq<nat>) returns (r: Result<nat>)
    ensures r == Answer(2020, input)
  {
    r := PlayUntil(2020, input);
  }

  /** `part2`: the 30000000th number. */
  method Part2(input: seq<nat>) returns (r: Result<nat>)
    ensures r == Answer(30000000, input)
  {
    r := PlayUntil(30000000, input);
  }

  // ---------------------------------------------------------------- reading

  /** Each comma-separated piece, trimmed, as a `u64`; the first bad piece
      is the error. */
  function ParseAll(pieces: seq<string>): (r: Result<seq<nat>>)
    ensures r.Ok? ==> |r.value| == |pieces| && forall i :: 0 <= i < |r.value| ==> r.value[i] <= U64Max
    ensures r.Ok? || r == Err("invalid digit found in string")
  {
    if pieces == [] then Ok([])
    else match ParseNat(Trim(pieces[0]), U64Max)
      case None => Err("invalid digit found in string")
      case Some(n) =>
        var rest := ParseAll(pieces[1..]);
        if rest.Ok? then Ok([n] + rest.value) else rest
  }

  /** `read`: the starting numbers, separated by commas. */
  function Read(s: string): (r: Result<seq<nat>>)
    ensures r.Ok? ==> |r.value| == |Split(s, ',')| && forall i :: 0 <= i < |r.value| ==> r.value[i] <= U64Max
    ensures r.Ok? || r.Err?
  {
    ParseAll(Split(s, ','))
  }

  function Show(ns: seq<nat>): string
  {
    Join(seq(|ns|, i requires 0 <= i < |ns| => ShowNat(ns[i])), ',')
  }

  /** Reading back the written numbers gives them again. */
  lemma ReadShow(ns: seq<nat>)
    requires |ns| > 0 && forall i :: 0 <= i < |ns| ==> ns[i] <= U64Max
    ensures Read(Show(ns)) == Ok(ns)
  {
    var ws := seq(|ns|, i requires 0 <= i < |ns| => ShowNat(ns[i]));
    forall i | 0 <= i < |ws| ensures ',' !in ws[i] {
      assert forall j :: 0 <= j < |ws[i]| ==> IsDigit(ws[i][j]);
    }
    SplitJoin(ws, ',');
    ParseShows(ns, ws);
  }

  /** A written number has no whitespace to trim. */
  lemma Plain(n: nat)
    ensures Trim(ShowNat(n)) == ShowNat(n)
  {
    var w := ShowNat(n);
    assert forall j :: 0 <= j < |w| ==> IsDigit(w[j]);
    TrimPlain(w);
  }

  lemma {:induction false} ParseShows(ns: seq<nat>, ws: seq<string>)
    requires |ws| == |ns| && forall i :: 0 <= i < |ns| ==> ns[i] <= U64Max && ws[i] == ShowNat(ns[i])
    ensures ParseAll(ws) == Ok(ns)
  {
    if ns != [] {
      ParseShows(ns[1..], ws[1..]);
      Plain(ns[0]);
      ParseShowNat(ns[0], U64Max);
      assert ns == [ns[0]] + ns[1..];
    }
  }

  /** The example's seeds and the first ten numbers the puzzle lists. */
  const SampleSeeds: seq<nat> := [0, 3, 6]
  const SampleSpoken: seq<nat> := [0, 3, 6, 0, 3, 3, 1, 0, 4, 0]

  /** The number after a run that repeats x with only `mid` between. */
  lemma NextAt(pre: seq<nat>, mid: seq<nat>, x: nat)
    requires x !in mid
    ensures Next(pre + [x] + mid + [x]) == |mid| + 1
  {
    var s := pre + [x] + mid + [x];
    var before := s[..|s| - 1];
    var j := |pre|;
    assert before == pre + [x] + mid;
    assert before[j] == x;
    var i := LastIndex(before, x);
  }

  /** The number after a run whose last number is new. */
  lemma NextNew(before: seq<nat>, x: nat)
    requires x !in before
    ensures Next(before + [x]) == 0
  {
    assert (before + [x])[..|before|] == before;
  }

  /** The first ten numbers spoken from 0, 3, 6, as the puzzle lists them. */
  lemma SampleTurns()
    ensures Played(SampleSeeds, 10) == SampleSpoken
    ensures Answer(10, SampleSeeds) == Ok(0)
  {
    var seeds := SampleSeeds;
    assert Played(seeds, 4) == [0, 3, 6, 0];
    SampleTurn5(seeds, 4);
    SampleTurn6(seeds, 5);
    SampleTurn7(seeds, 6);
    SampleTurn8(seeds, 7);
    SampleTurn9(seeds, 8);
    SampleTurn10(seeds, 9);
  }

  /** Turns 5 to 10, one lemma each; the turn number is a parameter so
      that the game is unrolled one step at a time. */
  lemma SampleTurn5(seeds: seq<nat>, n: nat)
    requires n == 4 && |seeds| == 3 && Played(seeds, n) == [0, 3, 6, 0]
    ensures Played(seeds, n + 1) == [0, 3, 6, 0, 3]
  {
    SampleNext4();
    SampleStep(seeds, n, [0, 3, 6, 0], 3);
  }

  lemma SampleTurn6(seeds: seq<nat>, n: nat)
    requires n == 5 && |seeds| == 3 && Played(seeds, n) == [0, 3, 6, 0, 3]
    ensures Played(seeds, n + 1) == [0, 3, 6, 0, 3, 3]
  {
    SampleNext5();
    SampleStep(seeds, n, [0, 3, 6, 0, 3], 3);
  }

  lemma SampleTurn7(seeds: seq<nat>, n: nat)
    requires n == 6 && |seeds| == 3 && Played(seeds, n) == [0, 3, 6, 0, 3, 3]
    ensures Played(seeds, n + 1) == [0, 3, 6, 0, 3, 3, 1]
  {
    SampleNext6();
    SampleStep(seeds, n, [0, 3, 6, 0, 3, 3], 1);
  }

  lemma SampleTurn8(seeds: seq<nat>, n: nat)
    requires n == 7 && |seeds| == 3 && Played(seeds, n) == [0, 3, 6, 0, 3, 3, 1]
    ensures Played(seeds, n + 1) == [0, 3, 6, 0, 3, 3, 1, 0]
  {
    SampleNext7();
    SampleStep(seeds, n, [0, 3, 6, 0, 3, 3, 1], 0);
  }

  lemma SampleTurn9(seeds: seq<nat>, n: nat)
    requires n == 8 && |seeds| == 3 && Played(seeds, n) == [0, 3, 6, 0, 3, 3, 1, 0]
    ensures Played(seeds, n + 1) == [0, 3, 6, 0, 3, 3, 1, 0, 4]
  {
    SampleNext8();
    SampleStep(seeds, n, [0, 3, 6, 0, 3, 3, 1, 0], 4);
  }

  lemma SampleTurn10(seeds: seq<nat>, n: nat)
    requires n == 9 && |seeds| == 3 && Played(seeds, n) == [0, 3, 6, 0, 3, 3, 1, 0, 4]
    ensures Played(seeds, n + 1) == [0, 3, 6, 0, 3, 3, 1, 0, 4, 0]
  {
    SampleNext9();
    SampleStep(seeds, n, [0, 3, 6, 0, 3, 3, 1, 0, 4], 0);
  }

  /** The number after each prefix of the example, one lemma each. */
  lemma SampleNext4()
    ensures Next([0, 3, 6, 0]) == 3
  {
    NextAt([], [3, 6], 0);
    assert [] + [0] + [3, 6] + [0] == [0, 3, 6, 0];
  }

  lemma SampleNext5()
    ensures Next([0, 3, 6, 0, 3]) == 3
  {
    NextAt([0], [6, 0], 3);
    assert [0] + [3] + [6, 0] + [3] == [0, 3, 6, 0, 3];
  }

  lemma SampleNext6()
    ensures Next([0, 3, 6, 0, 3, 3]) == 1
  {
    NextAt([0, 3, 6, 0], [], 3);
    assert [0, 3, 6, 0] + [3] + [] + [3] == [0, 3, 6, 0, 3, 3];
  }

  lemma SampleNext7()
    ensures Next([0, 3, 6, 0, 3, 3, 1]) == 0
  {
    NextNew([0, 3, 6, 0, 3, 3], 1);
    assert [0, 3, 6, 0, 3, 3] + [1] == [0, 3, 6, 0, 3, 3, 1];
  }

  lemma SampleNext8()
    ensures Next([0, 3, 6, 0, 3, 3, 1, 0]) == 4
  {
    NextAt([0, 3, 6], [3, 3, 1], 0);
    assert [0, 3, 6] + [0] + [3, 3, 1] + [0] == [0, 3, 6, 0, 3, 3, 1, 0];
  }

  lemma SampleNext9()
    ensures Next([0, 3, 6, 0, 3, 3, 1, 0, 4]) == 0
  {
    NextNew([0, 3, 6, 0, 3, 3, 1, 0], 4);
    assert [0, 3, 6, 0, 3, 3, 1, 0] + [4] == [0, 3, 6, 0, 3, 3, 1, 0, 4];
  }

  /** One turn of a worked example. */
  lemma SampleStep(seeds: seq<nat>, n: nat, s: seq<nat>, x: nat)
    requires 0 < |seeds| < n && Played(seeds, n) == s && Next(s) == x
    ensures Played(seeds, n + 1) == s + [x]
  {
  }
}
