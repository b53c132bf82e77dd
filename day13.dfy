/** Day 13: shuttle search. The notes give the earliest departure time and
    the bus ids in service ('x' for the others); bus `id` departs at every
    multiple of `id`. Part 1 finds the first bus to catch; part 2 the
    earliest time t at which every listed bus departs t + its position. */
module Day13 {
  import opened Outcomes
  import opened Text

  type Bus = Option<nat>

  // ---------------------------------------------------------------- parsing

  /** One comma-separated field: `b.parse().ok()`, so 'x' and anything else
      that is not a u64 is out of service. */
  function ParseBus(field: string): Bus
  {
    ParseNat(field, U64Max)
  }

  function ParseBuses(line: string): (bs: seq<Bus>)
    ensures |bs| == |Split(line, ',')|
  {
    var fields := Split(line, ',');
    seq(|fields|, k requires 0 <= k < |fields| => ParseBus(fields[k]))
  }

  /** The two lines of the notes: a missing line panics, a bad departure
      time is an error, bad bus fields are not. */
  function ParseNotes(lines: seq<string>): (r: Result<(nat, seq<Bus>)>)
    ensures r.Ok? ==> |lines| >= 2 && Some(r.value.0) == ParseNat(lines[0], U64Max)
    ensures r.Ok? ==> r.value.1 == ParseBuses(lines[1])
    ensures r.Err? <==> |lines| >= 1 && ParseNat(lines[0], U64Max).None?
  {
    if |lines| == 0 then Panic("called `Option::unwrap()` on a `None` value")
    else match ParseNat(lines[0], U64Max)
      case None => Err("invalid digit found in string")
      case Some(start) =>
        if |lines| < 2 then Panic("called `Option::unwrap()` on a `None` value")
        else Ok((start, ParseBuses(lines[1])))
  }

  function ShowBus(b: Bus): string
  {
    if b.Some? then ShowNat(b.value) else "x"
  }

  function ShowBuses(bs: seq<Bus>): string
  {
    Join(seq(|bs|, k requires 0 <= k < |bs| => ShowBus(bs[k])), ',')
  }

  /** Reading a written bus list gives it back. */
  lemma ReadShowBuses(bs: seq<Bus>)
    requires |bs| >= 1
    requires forall k :: 0 <= k < |bs| && bs[k].Some? ==> bs[k].value <= U64Max
    ensures ParseBuses(ShowBuses(bs)) == bs
  {
    var ws := seq(|bs|, k requires 0 <= k < |bs| => ShowBus(bs[k]));
    forall k | 0 <= k < |ws| ensures ',' !in ws[k] && ParseBus(ws[k]) == bs[k] {
      if bs[k].Some? {
        ParseShowNat(bs[k].value, U64Max);
        ShowNatValue(bs[k].value);
        assert forall i :: 0 <= i < |ws[k]| ==> IsDigit(ws[k][i]);
      }
    }
    SplitJoin(ws, ',');
  }

  // ---------------------------------------------------------------- part 1

  /** The ids in service, in list order. */
  function Ids(bs: seq<Bus>): seq<nat>
  {
    if bs == [] then []
    else Ids(bs[..|bs| - 1]) + (if bs[|bs| - 1].Some? then [bs[|bs| - 1].value] else [])
  }

  /** The ids are those of the buses in service. */
  lemma {:induction false} IdsExact(bs: seq<Bus>)
    ensures forall i :: i in Ids(bs) <==> Some(i) in bs
  {
    if bs != [] {
      IdsExact(bs[..|bs| - 1]);
      assert bs == bs[..|bs| - 1] + [bs[|bs| - 1]];
    }
  }

  /** No id is in service exactly when every field is 'x'. */
  lemma {:induction false} NoIds(bs: seq<Bus>)
    ensures |Ids(bs)| == 0 <==> forall k :: 0 <= k < |bs| ==> bs[k].None?
  {
    if bs != [] {
      NoIds(bs[..|bs| - 1]);
      assert forall k :: 0 <= k < |bs| - 1 ==> bs[..|bs| - 1][k] == bs[k];
    }
  }

  datatype Check = Found(id: nat) | Missed | Crash

  /** The inner loop of `part1` at time t: the first id dividing t, or a
      crash at an id of 0 (`t % 0` panics). */
  function Scan(ids: seq<nat>, t: nat): Check
  {
    if ids == [] then Missed
    else if ids[0] == 0 then Crash
    else if t % ids[0] == 0 then Found(ids[0])
    else Scan(ids[1..], t)
  }

  /** The id found is the first listed one that divides t. */
  lemma {:induction false} ScanFirst(ids: seq<nat>, t: nat)
    ensures Scan(ids, t).Found? <==>
      exists k :: 0 <= k < |ids| && ids[k] > 0 && t % ids[k] == 0 &&
        forall j :: 0 <= j < k ==> ids[j] > 0 && t % ids[j] != 0
    ensures Scan(ids, t).Found? ==> Scan(ids, t).id in ids && Scan(ids, t).id > 0 && t % Scan(ids, t).id == 0
    ensures Scan(ids, t) == Missed <==> forall k :: 0 <= k < |ids| ==> ids[k] > 0 && t % ids[k] != 0
  {
    if ids != [] {
      ScanFirst(ids[1..], t);
      if ids[0] > 0 && t % ids[0] != 0 && Scan(ids, t).Found? {
        var k :| 1 <= k + 1 <= |ids[1..]| + 0 + 1 && 0 <= k < |ids[1..]| && ids[1..][k] > 0 && t % ids[1..][k] == 0 &&
          forall j :: 0 <= j < k ==> ids[1..][j] > 0 && t % ids[1..][j] != 0;
        assert forall j :: 0 <= j < k + 1 ==> ids[j] > 0 && t % ids[j] != 0 by {
          forall j | 0 <= j < k + 1 ensures ids[j] > 0 && t % ids[j] != 0 {
            if j > 0 {
              assert ids[j] == ids[1..][j - 1];
            }
          }
        }
      }
      if Scan(ids, t) == Missed {
        forall k | 0 <= k < |ids| ensures ids[k] > 0 && t % ids[k] != 0 {
          if k > 0 {
            assert ids[k] == ids[1..][k - 1];
          }
        }
      }
    }
  }

  /** What `part1` answers: at the first time t from `start` on at which
      the scan stops, the id found times the wait, or the crash. */
  ghost predicate Part1Outcome(ids: seq<nat>, start: nat, r: Result<nat>)
  {
    exists t :: start <= t && (forall t' :: start <= t' < t ==> Scan(ids, t') == Missed) &&
      match Scan(ids, t)
      case Found(id) => r == Ok(id * (t - start))
      case Crash => r.Panic?
      case Missed => false
  }

  /** The first multiple of m from `start` on: among m consecutive times
      one is a multiple of m. */
  function FirstMultiple(start: nat, m: nat): (b: nat)
    requires m > 0
    ensures start <= b < start + m && b % m == 0
  {
    var a := start + m - 1;
    assert a - a % m == m * (a / m);
    MulMod(m, a / m);
    a - a % m
  }

  /** The inner loop of `part1`. */
  method ScanAt(ids: seq<nat>, t: nat) returns (c: Check)
    ensures c == Scan(ids, t)
  {
    for i := 0 to |ids|
      invariant Scan(ids, t) == Scan(ids[i..], t)
    {
      assert ids[i..][1..] == ids[i + 1..];
      if ids[i] == 0 {
        return Crash;
      }
      if t % ids[i] == 0 {
        return Found(ids[i]);
      }
    }
    return Missed;
  }

  /** The first multiple of the first id from `start` on: the scan stops
      there at the latest. */
  function Bound(ids: seq<nat>, start: nat): nat
    requires |ids| > 0
  {
    if ids[0] > 0 then FirstMultiple(start, ids[0]) else start
  }

  /** A time at which every id is missed is not a multiple of the first
      one, so it lies before `Bound`. */
  lemma MissedBefore(ids: seq<nat>, t: nat, start: nat)
    requires |ids| > 0 && t <= Bound(ids, start)
    requires Scan(ids, t) == Missed
    ensures t < Bound(ids, start)
  {
    ScanFirst(ids, t);
    assert ids[0] > 0 && t % ids[0] != 0;
  }

  /** The scan stopping at t, after misses from `start` on, decides `part1`. */
  lemma StopsAt(ids: seq<nat>, start: nat, t: nat, r: Result<nat>)
    requires start <= t && forall t' :: start <= t' < t ==> Scan(ids, t') == Missed
    requires Scan(ids, t).Crash? ==> r.Panic?
    requires Scan(ids, t).Found? ==> r == Ok(Scan(ids, t).id * (t - start))
    requires !Scan(ids, t).Missed?
    ensures Part1Outcome(ids, start, r)
  {
  }

  /** The search of `part1` over the ids in service, of which there is at
      least one. */
  method Search(start: nat, ids: seq<nat>) returns (r: Result<nat>)
    requires |ids| > 0
    ensures Part1Outcome(ids, start, r)
  {
    var t := start;
    while true
      invariant start <= t <= Bound(ids, start)
      invariant forall t' :: start <= t' < t ==> Scan(ids, t') == Missed
      decreases Bound(ids, start) - t
    {
      var c := ScanAt(ids, t);
      if c.Crash? {
        r := Panic("attempt to calculate the remainder with a divisor of zero");
        StopsAt(ids, start, t, r);
        return;
      }
      if c.Found? {
        r := Ok(c.id * (t - start));
        StopsAt(ids, start, t, r);
        return;
      }
      MissedBefore(ids, t, start);
      t := t + 1;
    }
  }

  /** `part1`: times from `start` on, and for each the ids in list order.
      With no bus in service the search never ends (`None`). */
  method Part1(start: nat, buses: seq<Bus>) returns (r: Option<Result<nat>>)
    ensures r.None? <==> forall k :: 0 <= k < |buses| ==> buses[k].None?
    ensures r.Some? ==> Part1Outcome(Ids(buses), start, r.value)
  {
    var ids := Ids(buses);
    NoIds(buses);
    if |ids| == 0 {
      return None;
    }
    var found := Search(start, ids);
    return Some(found);
  }

  // ---------------------------------------------------------------- arithmetic

  /** m times a non-zero factor is at least m away from 0. */
  lemma {:induction false} MulBounds(m: nat, j: int)
    requires m > 0
    ensures j >= 1 ==> m * j >= m
    ensures j <= -1 ==> m * j + m <= 0
    decreases if j < 0 then -j else j
  {
    if j > 1 {
      MulBounds(m, j - 1);
      assert m * j == m * (j - 1) + m;
    } else if j < -1 {
      MulBounds(m, j + 1);
      assert m * j == m * (j + 1) - m;
    }
  }

  /** Division with a remainder in [0, m) is unique. */
  lemma ModUnique(n: int, m: nat, q: int, r: int)
    requires m > 0 && n == m * q + r && 0 <= r < m
    ensures n % m == r && n / m == q
  {
    assert n == m * (n / m) + n % m;
    assert r - n % m == m * (n / m - q);
    MulBounds(m, n / m - q);
  }

  /** A multiple of m leaves no remainder, whatever the sign of the factor. */
  lemma MulMod(m: nat, k: int)
    requires m > 0
    ensures (m * k) % m == 0
  {
    ModUnique(m * k, m, k, 0);
  }

  /** Adding a multiple of m does not change the remainder. */
  lemma AddMultipleMod(x: nat, m: nat, c: nat)
    requires m > 0
    ensures (x + m * c) % m == x % m
  {
    assert x == m * (x / m) + x % m;
    assert x + m * c == m * (x / m + c) + x % m;
    ModUnique(x + m * c, m, x / m + c, x % m);
  }

  /** The remainder of a non-negative multiple of m. */
  lemma MultipleMod(m: nat, n: nat, k: int)
    requires m > 0 && n == m * k
    ensures n % m == 0
  {
    MulMod(m, k);
  }

  function Gcd(a: nat, b: nat): nat
    decreases b
  {
    if b == 0 then a else Gcd(b, a % b)
  }

  /** Bezout: the gcd is an integer combination of the two numbers. */
  lemma {:induction false} Bezout(a: nat, b: nat) returns (x: int, y: int)
    ensures a * x + b * y == Gcd(a, b)
    decreases b
  {
    if b == 0 {
      x, y := 1, 0;
    } else {
      var q, r := a / b, a % b;
      var x', y' := Bezout(b, r);
      assert b * x' + r * y' == Gcd(a, b);
      assert a == b * q + r;
      x, y := y', x' - q * y';
      assert a * y' == (b * q) * y' + r * y';
      assert b * (x' - q * y') == b * x' - (b * q) * y';
    }
  }

  /** a has an inverse modulo m. */
  ghost predicate Invertible(a: nat, m: nat)
  {
    exists x: int, y: int :: a * x + m * y == 1
  }

  lemma CoprimeInvertible(a: nat, m: nat)
    requires Gcd(a, m) == 1
    ensures Invertible(a, m)
  {
    var x, y := Bezout(a, m);
  }

  /** The product of two numbers invertible modulo m is invertible. */
  lemma ProductInvertible(a: nat, b: nat, m: nat)
    requires Invertible(a, m) && Invertible(b, m)
    ensures Invertible(a * b, m)
  {
    var x1: int, y1: int :| a * x1 + m * y1 == 1;
    var x2: int, y2: int :| b * x2 + m * y2 == 1;
    var ax, bx := a * x1, b * x2;
    assert ax == 1 - m * y1 && bx == 1 - m * y2;
    assert ax * bx == (1 - m * y1) * (1 - m * y2);
    assert (1 - m * y1) * (1 - m * y2) == 1 - m * (y1 + y2 - m * y1 * y2);
    assert (a * b) * (x1 * x2) == ax * bx;
    assert (a * b) * (x1 * x2) + m * (y1 + y2 - m * y1 * y2) == 1;
  }

  /** With `a` invertible modulo m, some k below m makes c + k * a a
      multiple of m. */
  lemma Solvable(c: nat, a: nat, m: nat) returns (k: nat)
    requires m > 0 && Invertible(a, m)
    ensures k < m && (c + k * a) % m == 0
  {
    var x: int, y: int :| a * x + m * y == 1;
    var e := m - c % m;
    k := (e * x) % m;
    var q := (e * x) / m;
    SolvableStep(c, a, m, x, y, e, k, q);
    MultipleMod(m, c + k * a, c / m + 1 - e * y - q * a);
  }

  /** The algebra of `Solvable`: with x the inverse of a, k = e * x mod m
      and e = m - c mod m, c + k * a is a multiple of m. */
  lemma SolvableStep(c: nat, a: nat, m: nat, x: int, y: int, e: int, k: int, q: int)
    requires m > 0 && a * x + m * y == 1 && e == m - c % m && e * x == m * q + k
    ensures c + k * a == m * (c / m + 1 - e * y - q * a)
  {
    assert c == m * (c / m) + c % m;
    assert k * a == (e * x) * a - (m * q) * a;
    assert (e * x) * a == e * (a * x);
    assert e * (a * x) == e * (1 - m * y);
  }

  /** Two multiples of m differ by a multiple of m. */
  lemma DiffMod(a: nat, b: nat, m: nat)
    requires m > 0 && a % m == 0 && b % m == 0 && a >= b
    ensures (a - b) % m == 0
  {
    assert a - b == m * (a / m - b / m);
    MultipleMod(m, a - b, a / m - b / m);
  }

  /** A multiple of m plus a multiple of m. */
  lemma AddMod(a: nat, b: nat, m: nat)
    requires m > 0 && a % m == 0 && b % m == 0
    ensures (a + b) % m == 0
  {
    assert a + b == m * (a / m + b / m);
    MultipleMod(m, a + b, a / m + b / m);
  }

  /** A multiple of m scaled. */
  lemma ScaleMod(a: nat, i: nat, m: nat)
    requires m > 0 && a % m == 0
    ensures (i * a) % m == 0
  {
    assert i * a == m * (i * (a / m));
    MultipleMod(m, i * a, i * (a / m));
  }

  /** A number that both a and b divide is divided by a * b when a is
      invertible modulo b. */
  lemma ProductDivides(n: nat, a: nat, b: nat)
    requires a > 0 && b > 0 && n % a == 0 && n % b == 0 && Invertible(a, b)
    ensures n % (a * b) == 0
  {
    var x: int, y: int :| a * x + b * y == 1;
    var p, q := n / a, n / b;
    assert n == a * p;
    assert n == b * q;
    Combine(n, a, b, p, q, x, y);
    MultipleMod(a * b, n, q * x + p * y);
  }

  lemma Combine(n: int, a: int, b: int, p: int, q: int, x: int, y: int)
    requires n == a * p && n == b * q && a * x + b * y == 1
    ensures n == (a * b) * (q * x + p * y)
  {
    calc {
      n;
      == n * (a * x + b * y);
      == n * (a * x) + n * (b * y);
      == { assert n * (a * x) == (b * q) * (a * x); assert n * (b * y) == (a * p) * (b * y); }
      (b * q) * (a * x) + (a * p) * (b * y);
      == (a * b) * (q * x) + (a * b) * (p * y);
      == (a * b) * (q * x + p * y);
    }
  }

  // ---------------------------------------------------------------- part 2

  /** A bus in service with its offset: the position in the list and the id. */
  type Slot = (nat, nat)

  /** The buses in service with their positions, in list order (the
      `enumerate().filter_map(..)` of `part2`). */
  function Schedule(bs: seq<Bus>): seq<Slot>
  {
    if bs == [] then []
    else
      var last := |bs| - 1;
      Schedule(bs[..last]) + if bs[last].Some? then [(last, bs[last].value)] else []
  }

  /** The schedule holds exactly the buses in service, with their
      positions, in list order. */
  lemma {:induction false} ScheduleExact(bs: seq<Bus>)
    ensures forall j :: 0 <= j < |Schedule(bs)| ==>
      Schedule(bs)[j].0 < |bs| && bs[Schedule(bs)[j].0] == Some(Schedule(bs)[j].1)
    ensures forall j, k :: 0 <= j < k < |Schedule(bs)| ==> Schedule(bs)[j].0 < Schedule(bs)[k].0
    ensures forall i :: 0 <= i < |bs| && bs[i].Some? ==>
      exists j :: 0 <= j < |Schedule(bs)| && Schedule(bs)[j].0 == i
  {
    if bs != [] {
      var last := |bs| - 1;
      var s0 := Schedule(bs[..last]);
      ScheduleExact(bs[..last]);
      assert forall i :: 0 <= i < last ==> bs[..last][i] == bs[i];
      var s := Schedule(bs);
      assert forall j :: 0 <= j < |s0| ==> s[j] == s0[j];
      if bs[last].Some? {
        assert s[|s0|] == (last, bs[last].value);
      }
    }
  }

  /** Every bus leaves at t plus its offset. */
  predicate Meets(s: seq<Slot>, t: nat)
  {
    MeetsFirst(s, |s|, t)
  }

  predicate AllPositive(s: seq<Slot>)
  {
    forall j :: 0 <= j < |s| ==> s[j].1 > 0
  }

  /** The ids have no common factor, pair by pair. */
  predicate Coprime(s: seq<Slot>)
  {
    forall j, k :: 0 <= j < k < |s| ==> Gcd(s[j].1, s[k].1) == 1
  }

  /** The product of the ids. */
  function Product(s: seq<Slot>): (p: nat)
    ensures AllPositive(s) ==> p > 0
  {
    if s == [] then 1
    else
      assert AllPositive(s) ==> AllPositive(s[..|s| - 1]);
      Product(s[..|s| - 1]) * s[|s| - 1].1
  }

  /** The inner loop of `part2`: the fewest steps n from the n-th on after
      which `t + n * step + dt` is a multiple of `id`, if there is one below
      `id`. */
  function Lift(t: nat, step: nat, dt: nat, id: nat, n: nat): (k: Option<nat>)
    requires id > 0
    ensures k.Some? ==> n <= k.value < id && (t + k.value * step + dt) % id == 0
    ensures k.Some? ==> forall j :: n <= j < k.value ==> (t + j * step + dt) % id != 0
    ensures k.None? ==> forall j :: n <= j < id ==> (t + j * step + dt) % id != 0
    decreases id - n
  {
    if n >= id then None
    else if (t + n * step + dt) % id == 0 then Some(n)
    else Lift(t, step, dt, id, n + 1)
  }

  /** Steps repeat with period `id`: when none of the first `id` works, none
      ever does, and the inner loop of `part2` runs forever. */
  lemma NeverAligns(t: nat, step: nat, dt: nat, id: nat, j: nat)
    requires id > 0 && Lift(t, step, dt, id, 0).None?
    ensures (t + j * step + dt) % id != 0
  {
    var q, r := j / id, j % id;
    assert 0 <= r < id && j == id * q + r;
    var base := t + r * step + dt;
    assert base % id != 0;
    PeriodStep(j, id, q, r, step);
    AddMultipleMod(base, id, q * step);
    assert t + j * step + dt == base + id * (q * step);
  }

  lemma PeriodStep(j: nat, id: nat, q: nat, r: nat, step: nat)
    requires j == id * q + r
    ensures j * step == r * step + id * (q * step)
  {
  }

  /** The outer loop of `part2` from the slot at `i` on, with the time `t`
      and the stride `step` reached so far: `None` when an inner loop never
      ends, a panic at an id of 0. */
  function Sieve(s: seq<Slot>, i: nat, t: nat, step: nat): Option<Result<nat>>
    requires i <= |s|
    decreases |s| - i
  {
    if i == |s| then Some(Ok(t))
    else if s[i].1 == 0 then Some(Panic("attempt to calculate the remainder with a divisor of zero"))
    else match Lift(t, step, s[i].0, s[i].1, 0)
      case None => None
      case Some(n) => Sieve(s, i + 1, t + n * step, step * s[i].1)
  }

  /** What `part2` computes as written: the stride starts at the first id
      and the time at 0, and the loop starts at the second bus, so the first
      bus's own offset is never checked. */
  function Part2Result(buses: seq<Bus>): Option<Result<nat>>
  {
    var s := Schedule(buses);
    if |s| == 0 then Some(Panic("called `Option::unwrap()` on a `None` value"))
    else Sieve(s, 1, 0, s[0].1)
  }

  /** The intended answer: the loop run over every bus, from time 0 and a
      stride of 1. */
  function Departure(buses: seq<Bus>): Option<Result<nat>>
  {
    var s := Schedule(buses);
    if |s| == 0 then Some(Panic("called `Option::unwrap()` on a `None` value"))
    else Sieve(s, 0, 0, 1)
  }

  /** The inner loop of `part2`: `t` advances by `step` until `t + dt` is a
      multiple of `id`. It counts its steps only to tell when it would
      never end (`None`). */
  method Wait(t: nat, step: nat, dt: nat, id: nat) returns (r: Option<nat>)
    requires id > 0
    ensures r.None? <==> Lift(t, step, dt, id, 0).None?
    ensures r.Some? ==> r.value == t + Lift(t, step, dt, id, 0).value * step
  {
    var u := t;
    var n := 0;
    while (u + dt) % id != 0
      invariant n < id && u == t + n * step
      invariant Lift(t, step, dt, id, 0) == Lift(t, step, dt, id, n)
      decreases id - n
    {
      if n + 1 == id {
        return None;
      }
      u := u + step;
      n := n + 1;
    }
    return Some(u);
  }

  /** The outer loop of `part2`, from the slot at `from` on. */
  method Align(s: seq<Slot>, from: nat, start: nat, stride: nat) returns (r: Option<Result<nat>>)
    requires from <= |s|
    ensures r == Sieve(s, from, start, stride)
  {
    var i, t, step := from, start, stride;
    while i < |s|
      invariant i <= |s|
      invariant Sieve(s, from, start, stride) == Sieve(s, i, t, step)
      decreases |s| - i
    {
      var (dt, id) := s[i];
      if id == 0 {
        return Some(Panic("attempt to calculate the remainder with a divisor of zero"));
      }
      var next := Wait(t, step, dt, id);
      if next.None? {
        return None;
      }
      t := next.value;
      step := step * id;
      i := i + 1;
    }
    return Some(Ok(t));
  }

  /** `part2` as written. */
  method Part2(buses: seq<Bus>) returns (r: Option<Result<nat>>)
    ensures r == Part2Result(buses)
  {
    var s := Schedule(buses);
    if |s| == 0 {
      return Some(Panic("called `Option::unwrap()` on a `None` value"));
    }
    r := Align(s, 1, 0, s[0].1);
  }

  /** `part2` with the first bus's offset taken into account. */
  method Part2Corrected(buses: seq<Bus>) returns (r: Option<Result<nat>>)
    ensures r == Departure(buses)
  {
    var s := Schedule(buses);
    if |s| == 0 {
      return Some(Panic("called `Option::unwrap()` on a `None` value"));
    }
    r := Align(s, 0, 0, 1);
  }

  // ---------------------------------------------------------------- the chinese remainder argument

  /** Every id divides the product. */
  lemma {:induction false} ProductMultiple(s: seq<Slot>, j: nat)
    requires AllPositive(s) && j < |s|
    ensures Product(s) % s[j].1 == 0
  {
    var init, last := s[..|s| - 1], s[|s| - 1].1;
    assert AllPositive(init);
    assert Product(s) == last * Product(init);
    if j == |s| - 1 {
      MultipleMod(last, Product(s), Product(init));
    } else {
      ProductMultiple(init, j);
      assert init[j] == s[j];
      ScaleMod(Product(init), last, s[j].1);
    }
  }

  /** A product of ids each coprime to m is invertible modulo m. */
  lemma {:induction false} ProductInvertibleAll(s: seq<Slot>, m: nat)
    requires forall j :: 0 <= j < |s| ==> Gcd(s[j].1, m) == 1
    ensures Invertible(Product(s), m)
  {
    if s == [] {
      assert 1 * 1 + m * 0 == 1;
    } else {
      var init := s[..|s| - 1];
      assert forall j :: 0 <= j < |init| ==> init[j] == s[j];
      ProductInvertibleAll(init, m);
      CoprimeInvertible(s[|s| - 1].1, m);
      ProductInvertible(Product(init), s[|s| - 1].1, m);
    }
  }

  /** A number every id divides is a multiple of the product, since the
      ids are coprime. */
  lemma {:induction false} DividesProduct(s: seq<Slot>, n: nat)
    requires AllPositive(s) && Coprime(s)
    requires forall j :: 0 <= j < |s| ==> n % s[j].1 == 0
    ensures n % Product(s) == 0
  {
    if s == [] {
      assert n % 1 == 0;
    } else {
      var init, last := s[..|s| - 1], s[|s| - 1].1;
      assert forall j :: 0 <= j < |init| ==> init[j] == s[j];
      assert AllPositive(init) && Coprime(init);
      DividesProduct(init, n);
      ProductInvertibleAll(init, last);
      ProductDivides(n, Product(init), last);
    }
  }

  /** Two times that both meet every bus and lie below the product of the
      ids are the same time. */
  lemma Unique(s: seq<Slot>, a: nat, b: nat)
    requires AllPositive(s) && Coprime(s)
    requires Meets(s, a) && Meets(s, b) && a <= b < Product(s)
    ensures a == b
  {
    forall j | 0 <= j < |s| ensures (b - a) % s[j].1 == 0 {
      DiffMod(b + s[j].0, a + s[j].0, s[j].1);
      assert b + s[j].0 - (a + s[j].0) == b - a;
    }
    DividesProduct(s, b - a);
    ModUnique(b - a, Product(s), 0, b - a);
  }

  /** Every bus before the slot at `i` leaves at t plus its offset. */
  predicate MeetsFirst(s: seq<Slot>, i: nat, t: nat)
    requires i <= |s|
  {
    forall j :: 0 <= j < i ==> s[j].1 > 0 && (t + s[j].0) % s[j].1 == 0
  }

  /** The product of the ids before the slot at `i` is invertible modulo
      the id at `i`, so the inner loop finds a time for that bus. */
  lemma Finds(s: seq<Slot>, i: nat, t: nat, step: nat) returns (n: nat)
    requires i < |s| && AllPositive(s) && Coprime(s) && step == Product(s[..i])
    ensures Lift(t, step, s[i].0, s[i].1, 0) == Some(n)
  {
    var prefix := s[..i];
    assert forall j :: 0 <= j < i ==> prefix[j] == s[j];
    ProductInvertibleAll(prefix, s[i].1);
    var k := Solvable(t + s[i].0, step, s[i].1);
    assert (t + k * step + s[i].0) % s[i].1 == 0;
    n := Lift(t, step, s[i].0, s[i].1, 0).value;
  }

  /** Stepping by the product of the ids before the slot at `i` keeps
      those buses on time. */
  lemma KeepsMet(s: seq<Slot>, i: nat, t: nat, step: nat, n: nat)
    requires i < |s| && AllPositive(s) && step == Product(s[..i]) && MeetsFirst(s, i, t)
    ensures MeetsFirst(s, i, t + n * step)
  {
    var prefix := s[..i];
    forall j | 0 <= j < i ensures (t + n * step + s[j].0) % s[j].1 == 0 {
      assert prefix[j] == s[j];
      ProductMultiple(prefix, j);
      ScaleMod(step, n, s[j].1);
      AddMod(t + s[j].0, n * step, s[j].1);
      assert t + n * step + s[j].0 == t + s[j].0 + n * step;
    }
  }

  lemma Below(t: nat, n: nat, step: nat, id: nat)
    requires t < step && n < id
    ensures t + n * step < step * id
  {
    assert n * step <= (id - 1) * step;
    assert (id - 1) * step == step * id - step;
  }

  /** One round of the outer loop of `part2` keeps its invariant. */
  lemma Round(s: seq<Slot>, i: nat, t: nat, step: nat) returns (n: nat)
    requires i < |s| && AllPositive(s) && Coprime(s)
    requires step == Product(s[..i]) && t < step && MeetsFirst(s, i, t)
    ensures Lift(t, step, s[i].0, s[i].1, 0) == Some(n)
    ensures step * s[i].1 == Product(s[..i + 1])
    ensures t + n * step < step * s[i].1
    ensures MeetsFirst(s, i + 1, t + n * step)
  {
    n := Finds(s, i, t, step);
    assert s[..i + 1][..i] == s[..i];
    Below(t, n, step, s[i].1);
    KeepsMet(s, i, t, step, n);
  }

  /** The loop invariant of `part2`: after the slots before `i`, the stride
      is their product and the time, below it, meets them all; then the
      loop ends with a time that meets every bus, below the product of all
      the ids. */
  lemma {:induction false} SieveMeets(s: seq<Slot>, i: nat, t: nat, step: nat)
    requires i <= |s| && AllPositive(s) && Coprime(s)
    requires step == Product(s[..i]) && t < step && MeetsFirst(s, i, t)
    ensures Sieve(s, i, t, step).Some? && Sieve(s, i, t, step).value.Ok?
    ensures Meets(s, Sieve(s, i, t, step).value.value)
    ensures Sieve(s, i, t, step).value.value < Product(s)
    decreases |s| - i
  {
    if i == |s| {
      assert s[..i] == s;
    } else {
      var n := Round(s, i, t, step);
      assert Sieve(s, i, t, step) == Sieve(s, i + 1, t + n * step, step * s[i].1);
      SieveMeets(s, i + 1, t + n * step, step * s[i].1);
    }
  }

  /** The intended answer, for ids that are positive and pairwise coprime:
      the earliest time at which every bus leaves at its offset. */
  lemma Earliest(buses: seq<Bus>)
    requires |Schedule(buses)| > 0
    requires AllPositive(Schedule(buses)) && Coprime(Schedule(buses))
    ensures Departure(buses).Some? && Departure(buses).value.Ok?
    ensures Meets(Schedule(buses), Departure(buses).value.value)
    ensures Departure(buses).value.value < Product(Schedule(buses))
    ensures forall t :: 0 <= t < Departure(buses).value.value ==> !Meets(Schedule(buses), t)
  {
    var s := Schedule(buses);
    assert s[..0] == [];
    SieveMeets(s, 0, 0, 1);
    var r := Departure(buses).value.value;
    forall t | 0 <= t < r ensures !Meets(s, t) {
      if Meets(s, t) {
        Unique(s, t, r);
      }
    }
  }

  /** The loop as written and as intended agree when the first bus's
      offset is a multiple of its id, as it is when the list starts with a
      bus. */
  lemma Agree(buses: seq<Bus>)
    requires |Schedule(buses)| > 0 && Schedule(buses)[0].1 > 0
    requires Schedule(buses)[0].0 % Schedule(buses)[0].1 == 0
    ensures Part2Result(buses) == Departure(buses)
  {
    var s := Schedule(buses);
    assert Lift(0, 1, s[0].0, s[0].1, 0) == Some(0);
  }

  /** The buses of "x,2,3": ids 2 and 3 at offsets 1 and 2. */
  lemma ScheduleX23()
    ensures Schedule([None, Some(2), Some(3)]) == [(1, 2), (2, 3)]
  {
    var bs: seq<Bus> := [None, Some(2), Some(3)];
    var b2: seq<Bus> := [None, Some(2)];
    var b1: seq<Bus> := [None];
    assert bs[..2] == b2 && b2[..1] == b1 && b1[..0] == [];
    assert Schedule(b1) == [];
    assert Schedule(b2) == [(1, 2)];
  }

  /** As written, `part2` can answer a time at which the first bus does not
      leave at its offset: for "x,2,3" it answers 4, and bus 2 does not
      leave at 5; the earliest time is 1. */
  lemma FirstOffsetIgnored()
    ensures Part2Result([None, Some(2), Some(3)]) == Some(Ok(4))
    ensures !Meets(Schedule([None, Some(2), Some(3)]), 4)
    ensures Departure([None, Some(2), Some(3)]) == Some(Ok(1))
  {
    ScheduleX23();
    var s := [(1, 2), (2, 3)];
    assert Sieve(s, 1, 0, 2) == Some(Ok(4)) by {
      assert Lift(0, 2, 2, 3, 0) == Some(2);
    }
    assert Sieve(s, 0, 0, 1) == Some(Ok(1)) by {
      assert Lift(0, 1, 1, 2, 0) == Some(1);
      assert Lift(1, 2, 2, 3, 0) == Some(0);
    }
  }

  // ---------------------------------------------------------------- the sample notes

  const SampleBuses: seq<Bus> := [Some(7), Some(13), None, None, Some(59), None, Some(31), Some(19)]

  lemma SampleIds()
    ensures Ids(SampleBuses) == [7, 13, 59, 31, 19]
  {
    var b: seq<Bus> := SampleBuses;
    assert Ids(b[..1]) == [7] by { assert |b[..1][..0]| == 0; }
    assert Ids(b[..2]) == [7, 13] by { assert b[..2][..1] == b[..1]; }
    assert Ids(b[..3]) == [7, 13] by { assert b[..3][..2] == b[..2]; }
    assert Ids(b[..4]) == [7, 13] by { assert b[..4][..3] == b[..3]; }
    assert Ids(b[..5]) == [7, 13, 59] by { assert b[..5][..4] == b[..4]; }
    assert Ids(b[..6]) == [7, 13, 59] by { assert b[..6][..5] == b[..5]; }
    assert Ids(b[..7]) == [7, 13, 59, 31] by { assert b[..7][..6] == b[..6]; }
    assert b[..8][..7] == b[..7] && b[..8] == b;
  }

  /** The first part's sample: from 939, bus 59 leaves first, at 944. */
  lemma SamplePart1()
    ensures Part1Outcome(Ids(SampleBuses), 939, Ok(295))
  {
    SampleIds();
    var ids: seq<nat> := [7, 13, 59, 31, 19];
    forall t' | 939 <= t' < 944 ensures Scan(ids, t') == Missed {
      if t' == 939 {
        assert Scan(ids, 939) == Missed;
      } else if t' == 940 {
        assert Scan(ids, 940) == Missed;
      } else if t' == 941 {
        assert Scan(ids, 941) == Missed;
      } else if t' == 942 {
        assert Scan(ids, 942) == Missed;
      } else {
        assert Scan(ids, 943) == Missed;
      }
    }
    assert Scan(ids, 944) == Found(59);
    StopsAt(ids, 939, 944, Ok(295));
  }

  lemma SampleSchedule()
    ensures Schedule(SampleBuses) == [(0, 7), (1, 13), (4, 59), (6, 31), (7, 19)]
  {
    var b: seq<Bus> := SampleBuses;
    assert Schedule(b[..1]) == [(0, 7)] by { assert |b[..1][..0]| == 0; }
    assert Schedule(b[..2]) == [(0, 7), (1, 13)] by { assert b[..2][..1] == b[..1]; }
    assert Schedule(b[..3]) == [(0, 7), (1, 13)] by { assert b[..3][..2] == b[..2]; }
    assert Schedule(b[..4]) == [(0, 7), (1, 13)] by { assert b[..4][..3] == b[..3]; }
    assert Schedule(b[..5]) == [(0, 7), (1, 13), (4, 59)] by { assert b[..5][..4] == b[..4]; }
    assert Schedule(b[..6]) == [(0, 7), (1, 13), (4, 59)] by { assert b[..6][..5] == b[..5]; }
    assert Schedule(b[..7]) == [(0, 7), (1, 13), (4, 59), (6, 31)] by { assert b[..7][..6] == b[..6]; }
    assert b[..8][..7] == b[..7] && b[..8] == b;
  }

  /** A first id coprime to every later one, in front of pairwise coprime ids. */
  lemma CoprimeCons(s: seq<Slot>)
    requires s != [] && Coprime(s[1..])
    requires forall k :: 1 <= k < |s| ==> Gcd(s[0].1, s[k].1) == 1
    ensures Coprime(s)
  {
    forall j, k | 0 <= j < k < |s|
      ensures Gcd(s[j].1, s[k].1) == 1
    {
      if j > 0 {
        assert s[1..][j - 1] == s[j] && s[1..][k - 1] == s[k];
      }
    }
  }

  // gcd of each pair of the sample's ids, step by step
  lemma LastIdsCoprime()
    ensures Gcd(31, 19) == 1
  {
    assert Gcd(31, 19) == Gcd(19, 12) == Gcd(12, 7) == Gcd(7, 5) == Gcd(5, 2) == Gcd(2, 1) == Gcd(1, 0);
  }

  lemma ThirdIdCoprime()
    ensures Gcd(59, 31) == 1 && Gcd(59, 19) == 1
  {
    assert Gcd(59, 31) == Gcd(31, 28) == Gcd(28, 3) == Gcd(3, 1) == Gcd(1, 0);
    assert Gcd(59, 19) == Gcd(19, 2) == Gcd(2, 1) == Gcd(1, 0);
  }

  lemma SecondIdCoprime()
    ensures Gcd(13, 59) == 1 && Gcd(13, 31) == 1 && Gcd(13, 19) == 1
  {
    assert Gcd(13, 59) == Gcd(59, 13) == Gcd(13, 7) == Gcd(7, 6) == Gcd(6, 1) == Gcd(1, 0);
    assert Gcd(13, 31) == Gcd(31, 13) == Gcd(13, 5) == Gcd(5, 3) == Gcd(3, 2) == Gcd(2, 1) == Gcd(1, 0);
    assert Gcd(13, 19) == Gcd(19, 13) == Gcd(13, 6) == Gcd(6, 1) == Gcd(1, 0);
  }

  lemma FirstIdCoprime()
    ensures Gcd(7, 13) == 1 && Gcd(7, 59) == 1 && Gcd(7, 31) == 1 && Gcd(7, 19) == 1
  {
    assert Gcd(7, 13) == Gcd(13, 7) == Gcd(7, 6) == Gcd(6, 1) == Gcd(1, 0);
    assert Gcd(7, 59) == Gcd(59, 7) == Gcd(7, 3) == Gcd(3, 1) == Gcd(1, 0);
    assert Gcd(7, 31) == Gcd(31, 7) == Gcd(7, 3) == Gcd(3, 1) == Gcd(1, 0);
    assert Gcd(7, 19) == Gcd(19, 7) == Gcd(7, 5) == Gcd(5, 2) == Gcd(2, 1) == Gcd(1, 0);
  }

  /** The sample's ids are primes, so pairwise coprime. */
  lemma SampleCoprime()
    ensures Coprime([(0, 7), (1, 13), (4, 59), (6, 31), (7, 19)])
  {
    var s: seq<Slot> := [(0, 7), (1, 13), (4, 59), (6, 31), (7, 19)];
    var s1, s2, s3, s4 := s[1..], s[2..], s[3..], s[4..];
    assert s1[1..] == s2 && s2[1..] == s3 && s3[1..] == s4 && s4[1..] == [];
    CoprimeCons(s4);
    LastIdsCoprime();
    CoprimeCons(s3);
    ThirdIdCoprime();
    CoprimeCons(s2);
    SecondIdCoprime();
    CoprimeCons(s1);
    FirstIdCoprime();
    CoprimeCons(s);
  }

  lemma SampleProduct()
    ensures Product([(0, 7), (1, 13), (4, 59), (6, 31), (7, 19)]) == 3162341
  {
    var s: seq<Slot> := [(0, 7), (1, 13), (4, 59), (6, 31), (7, 19)];
    assert Product(s[..1]) == 7 by { assert |s[..1][..0]| == 0; }
    assert Product(s[..2]) == 91 by { assert s[..2][..1] == s[..1]; }
    assert Product(s[..3]) == 5369 by { assert s[..3][..2] == s[..2]; }
    assert Product(s[..4]) == 166439 by { assert s[..4][..3] == s[..3]; }
    assert s[..5][..4] == s[..4] && s[..5] == s;
  }

  /** 1068781 meets the sample's buses. */
  lemma SampleMeets()
    ensures Meets([(0, 7), (1, 13), (4, 59), (6, 31), (7, 19)], 1068781)
  {
    var s: seq<Slot> := [(0, 7), (1, 13), (4, 59), (6, 31), (7, 19)];
    assert 1068781 == 7 * 152683;
    assert 1068782 == 13 * 82214;
    assert 1068785 == 59 * 18115;
    assert 1068787 == 31 * 34477;
    assert 1068788 == 19 * 56252;
    forall j | 0 <= j < 5 ensures (1068781 + s[j].0) % s[j].1 == 0 {
      if j == 0 {
        MultipleMod(7, 1068781, 152683);
      } else if j == 1 {
        MultipleMod(13, 1068782, 82214);
      } else if j == 2 {
        MultipleMod(59, 1068785, 18115);
      } else if j == 3 {
        MultipleMod(31, 1068787, 34477);
      } else {
        MultipleMod(19, 1068788, 56252);
      }
    }
  }

  /** The second part's sample: 1068781, both as intended and as written,
      since the list starts with a bus. */
  lemma SamplePart2()
    ensures Departure(SampleBuses) == Some(Ok(1068781))
    ensures Part2Result(SampleBuses) == Some(Ok(1068781))
  {
    var s: seq<Slot> := [(0, 7), (1, 13), (4, 59), (6, 31), (7, 19)];
    SampleSchedule();
    SampleCoprime();
    SampleProduct();
    SampleMeets();
    Earliest(SampleBuses);
    var r := Departure(SampleBuses).value.value;
    if r <= 1068781 {
      Unique(s, r, 1068781);
    }
    Agree(SampleBuses);
  }
}
