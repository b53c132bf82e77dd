/** Day 16: ticket translation. Each field has a rule of two inclusive
    ranges; a nearby ticket value that no rule accepts is invalid. Part 1
    sums the invalid values. Part 2 works out which ticket position holds
    which field: every field starts with every position as a candidate,
    each ticket free of invalid values strikes the positions whose value
    the field's rule rejects, and then a field left with a single position
    takes that position away from all the others, until nothing changes.

    The fields live in a `HashMap`, whose iteration order is unspecified;
    the methods below take the next name with `:|`, so what they promise
    holds for every order. */
module Day16 {
  import opened Outcomes
  import opened Text

  /** `a..=b`: the numbers from lo to hi, both included (none when lo > hi). */
  datatype Span = Span(lo: nat, hi: nat)

  /** A field's rule, `Range(r1, r2)`. */
  datatype Range = Range(first: Span, second: Span)

  type Ticket = seq<nat>

  type Fields = map<string, Range>

  predicate InSpan(s: Span, n: nat)
  {
    s.lo <= n <= s.hi
  }

  /** `Range::contains`: either range holds n. */
  predicate Contains(r: Range, n: nat)
    ensures Contains(r, n) ==> (r.first.lo <= n || r.second.lo <= n) && (n <= r.first.hi || n <= r.second.hi)
    ensures r.first.lo <= r.second.lo <= r.first.hi + 1 && r.first.hi <= r.second.hi ==>
      (Contains(r, n) <==> r.first.lo <= n <= r.second.hi)
  {
    InSpan(r.first, n) || InSpan(r.second, n)
  }

  /** `invalid`: no field's rule accepts the value. */
  predicate Invalid(v: nat, fields: Fields)
    ensures fields == map[] ==> Invalid(v, fields)
  {
    forall k :: k in fields ==> !Contains(fields[k], v)
  }

  /** Adding a rule makes a value invalid exactly when it was invalid for
      the other rules and the new rule rejects it too. */
  lemma InvalidInsert(v: nat, fields: Fields, k: string, r: Range)
    ensures Invalid(v, fields[k := r]) <==> Invalid(v, fields - {k}) && !Contains(r, v)
  {
    var more := fields[k := r];
    assert k in more && more[k] == r;
    assert forall j :: j in fields - {k} ==> j in more && more[j] == fields[j];
  }

  // ---------------------------------------------------------------- part 1

  /** `tickets.iter().flatten()`. */
  function Flatten(ts: seq<Ticket>): (vs: seq<nat>)
    ensures |ts| > 0 ==> vs == Flatten(ts[..|ts| - 1]) + ts[|ts| - 1]
  {
    if ts == [] then [] else Flatten(ts[..|ts| - 1]) + ts[|ts| - 1]
  }

  /** The sum of the values no rule accepts. */
  function InvalidSum(vs: seq<nat>, fields: Fields): nat
  {
    if vs == [] then 0
    else InvalidSum(vs[..|vs| - 1], fields) + (if Invalid(vs[|vs| - 1], fields) then vs[|vs| - 1] else 0)
  }

  function Sum(vs: seq<nat>): nat
  {
    if vs == [] then 0 else Sum(vs[..|vs| - 1]) + vs[|vs| - 1]
  }

  /** `part1`: the ticket scanning error rate. */
  function Part1(fields: Fields, tickets: seq<Ticket>): (rate: nat)
    ensures rate <= Sum(Flatten(tickets))
    ensures fields == map[] ==> rate == Sum(Flatten(tickets))
  {
    InvalidSumBounds(Flatten(tickets), fields);
    InvalidSum(Flatten(tickets), fields)
  }

  /** The error rate adds up over the values: a list's rate is the rates of
      its two halves together. */
  lemma {:induction false} InvalidSumAppend(a: seq<nat>, b: seq<nat>, fields: Fields)
    ensures InvalidSum(a + b, fields) == InvalidSum(a, fields) + InvalidSum(b, fields)
    decreases |b|
  {
    if b != [] {
      InvalidSumAppend(a, b[..|b| - 1], fields);
      assert (a + b)[..|a + b| - 1] == a + b[..|b| - 1];
    } else {
      assert a + b == a;
    }
  }

  /** The rate counts every invalid value, each once, and nothing else: it
      is at most the sum of all values, equal to it when every value is
      invalid, and 0 when none is. */
  lemma {:induction false} InvalidSumBounds(vs: seq<nat>, fields: Fields)
    ensures InvalidSum(vs, fields) <= Sum(vs)
    ensures (forall i :: 0 <= i < |vs| ==> Invalid(vs[i], fields)) ==> InvalidSum(vs, fields) == Sum(vs)
    ensures (forall i :: 0 <= i < |vs| ==> !Invalid(vs[i], fields)) ==> InvalidSum(vs, fields) == 0
  {
    if vs != [] {
      var pre := vs[..|vs| - 1];
      InvalidSumBounds(pre, fields);
      assert forall i :: 0 <= i < |pre| ==> pre[i] == vs[i];
    }
  }

  // ---------------------------------------------------------------- candidates

  /** Each field's candidate positions, `mappings`. */
  type Candidates = map<string, set<nat>>

  /** `(0..n).collect()`. */
  function Below(n: nat): set<nat>
  {
    if n == 0 then {} else Below(n - 1) + {n - 1}
  }

  lemma {:induction false} BelowExact(n: nat)
    ensures forall i: nat :: i in Below(n) <==> i < n
  {
    if n > 0 {
      BelowExact(n - 1);
    }
  }

  /** Every field with every position `0..n_fields`. */
  function Initial(fields: Fields): (c: Candidates)
    ensures c.Keys == fields.Keys
  {
    map k | k in fields :: Below(|fields|)
  }

  /** A ticket the first loop does not skip: all its values are valid. */
  predicate Clean(t: Ticket, fields: Fields)
  {
    forall j :: 0 <= j < |t| ==> !Invalid(t[j], fields)
  }

  /** The positions below i whose value in t the rule rejects. */
  function Outside(r: Range, t: Ticket, i: nat): set<nat>
    requires i <= |t|
  {
    set p: nat | p < i && !Contains(r, t[p])
  }

  /** The candidates after the positions below i of t are struck. */
  function Strike(fields: Fields, c: Candidates, t: Ticket, i: nat): (c': Candidates)
    requires c.Keys == fields.Keys && i <= |t|
    ensures c'.Keys == fields.Keys
  {
    map k | k in c :: c[k] - Outside(fields[k], t, i)
  }

  /** The candidates once the tickets ts have been seen. */
  function Sift(fields: Fields, ts: seq<Ticket>): (c: Candidates)
    ensures c.Keys == fields.Keys
  {
    if ts == [] then Initial(fields)
    else
      var c := Sift(fields, ts[..|ts| - 1]);
      var t := ts[|ts| - 1];
      if Clean(t, fields) then Strike(fields, c, t, |t|) else c
  }

  /** Every clean ticket of ts that reaches position i has there a value
      the rule accepts. */
  predicate Agrees(r: Range, fields: Fields, ts: seq<Ticket>, i: nat)
  {
    forall j :: 0 <= j < |ts| && Clean(ts[j], fields) && i < |ts[j]| ==> Contains(r, ts[j][i])
  }

  /** The positions the tickets leave a field: those below the number of
      fields where no clean ticket has a value the field's rule rejects. */
  function Allowed(fields: Fields, ts: seq<Ticket>, k: string): set<nat>
    requires k in fields
  {
    set i: nat | i < |fields| && Agrees(fields[k], fields, ts, i)
  }

  /** Position i is struck from field k exactly when some clean ticket's
      value at i lies outside k's rule. */
  lemma {:induction false} SiftExact(fields: Fields, ts: seq<Ticket>)
    ensures forall k :: k in fields ==> Sift(fields, ts)[k] == Allowed(fields, ts, k)
  {
    if ts == [] {
      BelowExact(|fields|);
    } else {
      var pre, t := ts[..|ts| - 1], ts[|ts| - 1];
      SiftExact(fields, pre);
      forall k | k in fields
        ensures Sift(fields, ts)[k] == Allowed(fields, ts, k)
      {
        forall i: nat | i < |fields|
          ensures Agrees(fields[k], fields, ts, i) <==>
            Agrees(fields[k], fields, pre, i) && !(Clean(t, fields) && i < |t| && !Contains(fields[k], t[i]))
        {
          assert forall j :: 0 <= j < |pre| ==> pre[j] == ts[j];
        }
      }
    }
  }

  /** Striking never adds a candidate. */
  lemma {:induction false} SiftShrinks(fields: Fields, ts: seq<Ticket>)
    ensures forall k :: k in fields ==> Sift(fields, ts)[k] <= Below(|fields|)
  {
    SiftExact(fields, ts);
    BelowExact(|fields|);
  }

  // ---------------------------------------------------------------- the first loop

  /** One position of one ticket: every field whose rule rejects val loses
      position i (`map.remove(&i)` for each name in turn). */
  method StrikeAt(fields: Fields, c0: Candidates, i: nat, val: nat) returns (c: Candidates)
    requires c0.Keys == fields.Keys
    ensures c.Keys == fields.Keys
    ensures forall k :: k in c ==> c[k] == if Contains(fields[k], val) then c0[k] else c0[k] - {i}
  {
    c := c0;
    var todo := c0.Keys;
    while todo != {}
      invariant todo <= c0.Keys && c.Keys == c0.Keys
      invariant forall k :: k in c ==> c[k] == if k in todo || Contains(fields[k], val) then c0[k] else c0[k] - {i}
      decreases todo
    {
      var name :| name in todo;
      if !Contains(fields[name], val) {
        c := c[name := c[name] - {i}];
      }
      todo := todo - {name};
    }
  }

  /** Striking position i adds i to the struck set when the rule rejects
      the value there. */
  lemma OutsideNext(r: Range, t: Ticket, i: nat)
    requires i < |t|
    ensures Outside(r, t, i + 1) == Outside(r, t, i) + (if Contains(r, t[i]) then {} else {i})
  {
  }

  /** The inner loops over one clean ticket. */
  method StrikeTicket(fields: Fields, c0: Candidates, t: Ticket) returns (c: Candidates)
    requires c0.Keys == fields.Keys
    ensures c == Strike(fields, c0, t, |t|)
  {
    c := c0;
    forall k | k in fields
      ensures Strike(fields, c0, t, 0)[k] == c0[k]
    {
      assert Outside(fields[k], t, 0) == {};
    }
    for i := 0 to |t|
      invariant c == Strike(fields, c0, t, i)
    {
      var c' := StrikeAt(fields, c, i, t[i]);
      forall k | k in fields
        ensures c'[k] == Strike(fields, c0, t, i + 1)[k]
      {
        OutsideNext(fields[k], t, i);
      }
      c := c';
    }
  }

  /** `determine_fields`' first loop: skip every ticket with an invalid
      value and strike with the others. */
  method Sieve(fields: Fields, tickets: seq<Ticket>) returns (c: Candidates)
    ensures c == Sift(fields, tickets)
  {
    c := map k | k in fields :: Below(|fields|);
    for j := 0 to |tickets|
      invariant c == Sift(fields, tickets[..j])
    {
      assert tickets[..j + 1][..j] == tickets[..j];
      var t := tickets[j];
      if Clean(t, fields) {
        c := StrikeTicket(fields, c, t);
      }
    }
    assert tickets[..|tickets|] == tickets;
  }

  // ---------------------------------------------------------------- the second loop

  /** An answer to part 2: a position for each field. */
  type Assignment = map<string, nat>

  /** No two fields share a position. */
  predicate Injective(a: Assignment)
  {
    forall k, n :: k in a && n in a && k != n ==> a[k] != a[n]
  }

  /** The assignment gives every field one of its candidates, and no two
      fields the same position. */
  predicate Fits(a: Assignment, c: Candidates)
  {
    a.Keys == c.Keys && Injective(a) && forall k :: k in a ==> a[k] in c[k]
  }

  /** The candidates of c are among those of c0, field by field. */
  predicate Within(c: Candidates, c0: Candidates)
  {
    c.Keys == c0.Keys && forall k :: k in c ==> c[k] <= c0[k]
  }

  /** Every assignment that fits c0 still fits c: nothing that could be
      the answer has been thrown away. */
  ghost predicate Keeps(c0: Candidates, c: Candidates)
  {
    forall a :: Fits(a, c0) ==> Fits(a, c)
  }

  /** A field with a single candidate shares it with no other field. */
  predicate Alone(c: Candidates, k: string)
    requires k in c
  {
    |c[k]| == 1 ==> forall n :: n in c && n != k ==> c[k] !! c[n]
  }

  /** The state in which a pass of the second loop changes nothing. */
  predicate Settled(c: Candidates)
  {
    forall k :: k in c ==> Alone(c, k)
  }

  /** Every (field, position) candidate pair: the loop's measure. */
  function Pairs(c: Candidates): set<(string, nat)>
  {
    set k, i | k in c && i in c[k] :: (k, i)
  }

  /** The candidates once position i is taken from every field but k. */
  function Without(c: Candidates, k: string, i: nat): (c': Candidates)
    ensures Within(c', c)
  {
    map n | n in c :: if n == k then c[n] else c[n] - {i}
  }

  /** Taking a field's only candidate from the others keeps every
      assignment: a fitting one gives that field that position, so no
      other field has it. */
  lemma WithoutKeeps(c: Candidates, k: string, i: nat)
    requires k in c && c[k] == {i}
    ensures Keeps(c, Without(c, k, i))
  {
    forall a | Fits(a, c)
      ensures Fits(a, Without(c, k, i))
    {
      assert a[k] == i;
    }
  }

  /** Taking a position nobody else has changes nothing. */
  lemma WithoutNothing(c: Candidates, k: string, i: nat)
    requires forall n :: n in c && n != k ==> i !in c[n]
    ensures Without(c, k, i) == c
  {
    forall n | n in c
      ensures Without(c, k, i)[n] == c[n]
    {
      if n != k {
        assert c[n] - {i} == c[n];
      }
    }
  }

  /** Removing a pair that is there shrinks the pairs strictly. */
  lemma WithoutPairs(c: Candidates, k: string, i: nat, n: string)
    requires n in c && n != k && i in c[n]
    ensures Pairs(Without(c, k, i)) < Pairs(c)
  {
    assert (n, i) in Pairs(c) - Pairs(Without(c, k, i));
  }

  /** A field's candidates that shrink shrink the pairs too. */
  lemma WithinPairs(c: Candidates, c0: Candidates)
    requires Within(c, c0)
    ensures Pairs(c) <= Pairs(c0)
  {
  }

  /** `for (n, map) in &mut mappings { if n != &name { changed |= map.remove(&i); } }`:
      position i leaves every field but k; `removed` says whether any had it. */
  method RemoveElsewhere(c0: Candidates, k: string, i: nat) returns (c: Candidates, removed: bool)
    ensures c == Without(c0, k, i)
    ensures removed <==> exists n :: n in c0 && n != k && i in c0[n]
  {
    c := c0;
    removed := false;
    var todo := c0.Keys;
    while todo != {}
      invariant todo <= c0.Keys && c.Keys == c0.Keys
      invariant forall n :: n in c ==> c[n] == if n in todo || n == k then c0[n] else c0[n] - {i}
      invariant removed <==> exists n :: n in c0 && n !in todo && n != k && i in c0[n]
      decreases todo
    {
      var n :| n in todo;
      if n != k {
        var had := i in c[n];
        c := c[n := c[n] - {i}];
        removed := removed || had;
      }
      todo := todo - {n};
    }
  }

  /** One pass of the second loop, over the fields in some order: a field
      with exactly one candidate takes it from all the others. */
  method Pass(names: set<string>, c0: Candidates) returns (c: Candidates, changed: bool)
    requires c0.Keys == names
    ensures Within(c, c0) && Keeps(c0, c)
    ensures changed ==> Pairs(c) < Pairs(c0)
    ensures !changed ==> c == c0 && Settled(c)
  {
    c := c0;
    changed := false;
    var todo := names;
    while todo != {}
      invariant todo <= names
      invariant Within(c, c0) && Keeps(c0, c)
      invariant changed ==> Pairs(c) < Pairs(c0)
      invariant !changed ==> c == c0 && forall k :: k in names - todo ==> Alone(c, k)
      decreases todo
    {
      var name :| name in todo;
      if |c[name]| == 1 {
        var i :| i in c[name];
        assert c[name] == {i} by {
          SingleIs(c[name], i);
        }
        var c', removed := RemoveElsewhere(c, name, i);
        WithoutKeeps(c, name, i);
        WithinPairs(c, c0);
        if removed {
          var n :| n in c && n != name && i in c[n];
          WithoutPairs(c, name, i, n);
        } else {
          WithoutNothing(c, name, i);
          assert Alone(c, name);
        }
        c := c';
        changed := changed || removed;
      }
      todo := todo - {name};
    }
  }

  /** A one-element set holds only its one element. */
  lemma SingleIs(s: set<nat>, i: nat)
    requires |s| == 1 && i in s
    ensures s == {i}
  {
    assert |s - {i}| == 0;
  }

  /** `determine_fields`' second loop: passes until one changes nothing. */
  method Eliminate(names: set<string>, c0: Candidates) returns (c: Candidates)
    requires c0.Keys == names
    ensures Within(c, c0) && Keeps(c0, c) && Settled(c)
  {
    c := c0;
    var changed := true;
    while changed
      invariant Within(c, c0) && Keeps(c0, c)
      invariant !changed ==> Settled(c)
      decreases Pairs(c), changed
    {
      var c', more := Pass(names, c);
      c, changed := c', more;
    }
  }

  // ---------------------------------------------------------------- the answer

  /** Every position a fitting assignment may use is one of the candidates
      the tickets leave: below the number of fields and accepted by the
      field's rule on every clean ticket. */
  lemma FitsAllowed(fields: Fields, ts: seq<Ticket>, a: Assignment)
    ensures Fits(a, Sift(fields, ts)) <==>
      a.Keys == fields.Keys && Injective(a) &&
      forall k :: k in a ==> a[k] < |fields| && Agrees(fields[k], fields, ts, a[k])
  {
    SiftExact(fields, ts);
  }

  /** The elimination from c0 reached c, in some order of the fields. */
  ghost predicate Resolved(c0: Candidates, c: Candidates)
  {
    Within(c, c0) && Keeps(c0, c) && Settled(c)
  }

  /** Any two elements of a one-element set are the same. */
  lemma SingleUnique(s: set<nat>)
    requires |s| == 1
    ensures forall i, j :: i in s && j in s ==> i == j
  {
    forall i, j | i in s && j in s
      ensures i == j
    {
      SingleIs(s, i);
    }
  }

  /** `exactly_one().unwrap()` on a one-element set. */
  function Only(s: set<nat>): (i: nat)
    requires |s| == 1
    ensures s == {i}
  {
    SingleUnique(s);
    var i :| i in s;
    SingleIs(s, i);
    i
  }

  /** The assertion that every field is down to one position, then each
      field with that position. */
  function Extract(c: Candidates): (r: Result<Assignment>)
    ensures r.Ok? || r.Panic?
  {
    if forall k :: k in c ==> |c[k]| == 1 then Ok(map k | k in c :: Only(c[k]))
    else Panic("assertion failed: mappings.values().all(|m| m.len() == 1)")
  }

  /** When the elimination ends with one position per field, that answer
      fits the tickets, and it is the only assignment that does. */
  lemma ExtractAnswer(c0: Candidates, c: Candidates)
    requires Resolved(c0, c)
    ensures Extract(c).Ok? <==> forall k :: k in c ==> |c[k]| == 1
    ensures Extract(c).Ok? ==> Fits(Extract(c).value, c0)
    ensures Extract(c).Ok? ==> forall a :: Fits(a, c0) ==> a == Extract(c).value
  {
    if Extract(c).Ok? {
      var v := Extract(c).value;
      forall k, n | k in v && n in v && k != n
        ensures v[k] != v[n]
      {
        assert Alone(c, k);
        assert v[k] in c[k] && v[n] in c[n];
      }
      forall a | Fits(a, c0)
        ensures a == v
      {
        assert Fits(a, c);
        forall k | k in a
          ensures a[k] == v[k]
        {
          assert a[k] in c[k];
        }
      }
    }
  }

  /** `determine_fields`: the candidates, the elimination, the answer. It
      panics when some field is left with more than one position; an answer
      it returns is the one assignment of positions that fits the tickets. */
  method DetermineFields(fields: Fields, tickets: seq<Ticket>) returns (r: Result<Assignment>)
    ensures exists c :: Resolved(Sift(fields, tickets), c) && r == Extract(c)
    ensures r.Ok? ==> Fits(r.value, Sift(fields, tickets))
    ensures r.Ok? ==> forall a :: Fits(a, Sift(fields, tickets)) ==> a == r.value
  {
    var c0 := Sieve(fields, tickets);
    var c := Eliminate(fields.Keys, c0);
    ExtractAnswer(c0, c);
    r := Extract(c);
  }

  // ---------------------------------------------------------------- part 2

  /** The fields part 2 multiplies. */
  predicate Departure(k: string)
  {
    StartsWith(k, "departure")
  }

  /** A departure field whose position is past the end of my ticket. */
  predicate OutOfBounds(a: Assignment, my: Ticket)
  {
    exists k :: k in a && Departure(k) && a[k] >= |my|
  }

  /** What field k at position v puts into the product. */
  function Factor(k: string, v: nat, my: Ticket): nat
  {
    if Departure(k) && v < |my| then my[v] else 1
  }

  /** The product of my ticket's values at the departure fields' positions,
      in any order. */
  ghost function Product(a: Assignment, my: Ticket): nat
    decreases a.Keys
  {
    if a.Keys == {} then 1
    else
      var k :| k in a.Keys;
      Factor(k, a[k], my) * Product(a - {k}, my)
  }

  lemma Swap(x: nat, y: nat, z: nat)
    ensures x * (y * z) == y * (x * z)
  {
  }

  lemma Regroup(x: nat, y: nat, z: nat)
    ensures (x * y) * z == x * (y * z)
  {
  }

  /** The product does not depend on which field is taken first. */
  lemma {:induction false} ProductPick(a: Assignment, my: Ticket, k: string)
    requires k in a.Keys
    ensures Product(a, my) == Factor(k, a[k], my) * Product(a - {k}, my)
    decreases a.Keys
  {
    var k' :| k' in a.Keys && Product(a, my) == Factor(k', a[k'], my) * Product(a - {k'}, my);
    if k' != k {
      var x, y := a - {k'}, a - {k};
      assert x.Keys < a.Keys && y.Keys < a.Keys;
      ProductPick(x, my, k);
      ProductPick(y, my, k');
      assert x - {k} == y - {k'};
      assert x[k] == a[k] && y[k'] == a[k'];
      Swap(Factor(k', a[k'], my), Factor(k, a[k], my), Product(x - {k}, my));
    }
  }

  /** What `part2` gives for an answer a: a panic when a departure position
      is past the end of my ticket, the product otherwise. */
  ghost function Departures(a: Assignment, my: Ticket): Result<nat>
  {
    if OutOfBounds(a, my) then Panic("index out of bounds") else Ok(Product(a, my))
  }

  /** `.filter(..).map(|(_, v)| my_ticket[v]).product()`. */
  method ProductOf(a: Assignment, my: Ticket) returns (r: Result<nat>)
    ensures r == Departures(a, my)
  {
    var p: nat := 1;
    var rest := a;
    while rest.Keys != {}
      invariant rest.Keys <= a.Keys && forall k :: k in rest ==> rest[k] == a[k]
      invariant forall k :: k in a && k !in rest && Departure(k) ==> a[k] < |my|
      invariant p * Product(rest, my) == Product(a, my)
      decreases rest.Keys
    {
      var k :| k in rest.Keys;
      ProductPick(rest, my, k);
      if Departure(k) {
        if rest[k] >= |my| {
          return Panic("index out of bounds");
        }
        Regroup(p, my[rest[k]], Product(rest - {k}, my));
        p := p * my[rest[k]];
      }
      rest := rest - {k};
    }
    assert Product(rest, my) == 1;
    r := Ok(p);
  }

  /** What `part2` gives for what `determine_fields` returned. */
  ghost function Part2Of(e: Result<Assignment>, my: Ticket): Result<nat>
  {
    match e
    case Ok(a) => Departures(a, my)
    case Err(m) => Err(m)
    case Panic(m) => Panic(m)
  }

  /** `part2`. */
  method Part2(fields: Fields, my: Ticket, tickets: seq<Ticket>) returns (r: Result<nat>)
    ensures exists c :: Resolved(Sift(fields, tickets), c) && r == Part2Of(Extract(c), my)
    ensures r.Ok? ==> exists a :: Fits(a, Sift(fields, tickets)) && r == Departures(a, my)
  {
    var e := DetermineFields(fields, tickets);
    if !e.Ok? {
      return Panic(e.msg);
    }
    r := ProductOf(e.value, my);
  }

  // ---------------------------------------------------------------- the example

  const SampleFields: Fields := map[
    "class" := Range(Span(1, 3), Span(5, 7)),
    "row" := Range(Span(6, 11), Span(33, 44)),
    "seat" := Range(Span(13, 40), Span(45, 50))]

  const SampleTickets: seq<Ticket> := [[7, 3, 47], [40, 4, 50], [55, 2, 20], [38, 6, 12]]

  /** A value some rule accepts. */
  lemma Accepts(v: nat, k: string)
    requires k in SampleFields && Contains(SampleFields[k], v)
    ensures !Invalid(v, SampleFields)
  {
  }

  /** A value no rule accepts. */
  lemma Rejects(v: nat)
    requires v == 4 || v == 55 || v == 12
    ensures Invalid(v, SampleFields)
  {
    assert SampleFields.Keys == {"class", "row", "seat"};
  }

  /** The error rate of a ticket of three values. */
  lemma RateOfThree(x: nat, y: nat, z: nat, fields: Fields)
    ensures InvalidSum([x, y, z], fields) ==
      (if Invalid(x, fields) then x else 0) + (if Invalid(y, fields) then y else 0) + (if Invalid(z, fields) then z else 0)
  {
    var s: seq<nat> := [x, y, z];
    assert s[..2] == [x, y] && s[..2][..1] == [x] && s[..1][..0] == [];
    assert InvalidSum([x], fields) == (if Invalid(x, fields) then x else 0);
    assert InvalidSum([x, y], fields) == InvalidSum([x], fields) + (if Invalid(y, fields) then y else 0);
  }

  /** The first ticket is clean; each of the others has one invalid value. */
  lemma SampleRates()
    ensures InvalidSum([7, 3, 47], SampleFields) == 0
    ensures InvalidSum([40, 4, 50], SampleFields) == 4
    ensures InvalidSum([55, 2, 20], SampleFields) == 55
    ensures InvalidSum([38, 6, 12], SampleFields) == 12
  {
    Accepts(7, "class");
    Accepts(3, "class");
    Accepts(47, "seat");
    Accepts(40, "seat");
    Accepts(50, "seat");
    Accepts(2, "class");
    Accepts(20, "seat");
    Accepts(38, "seat");
    Accepts(6, "class");
    Rejects(4);
    Rejects(55);
    Rejects(12);
    RateOfThree(7, 3, 47, SampleFields);
    RateOfThree(40, 4, 50, SampleFields);
    RateOfThree(55, 2, 20, SampleFields);
    RateOfThree(38, 6, 12, SampleFields);
  }

  /** The example's error rate is 4 + 55 + 12 = 71. */
  lemma SamplePart1()
    ensures Part1(SampleFields, SampleTickets) == 71
  {
    var t := SampleTickets;
    assert t[..3][..2] == t[..2] && t[..2][..1] == t[..1] && t[..1][..0] == t[..0];
    assert Flatten(t) == t[0] + t[1] + t[2] + t[3];
    SampleRates();
    InvalidSumAppend(t[0], t[1], SampleFields);
    InvalidSumAppend(t[0] + t[1], t[2], SampleFields);
    InvalidSumAppend(t[0] + t[1] + t[2], t[3], SampleFields);
  }

  /** Which sample tickets the first loop keeps: only the first. */
  lemma SampleClean()
    ensures Clean(SampleTickets[0], SampleFields)
    ensures !Clean(SampleTickets[1], SampleFields) && !Clean(SampleTickets[2], SampleFields)
    ensures !Clean(SampleTickets[3], SampleFields)
  {
    Accepts(7, "class");
    Accepts(3, "class");
    Accepts(47, "seat");
    Rejects(4);
    Rejects(55);
    Rejects(12);
    assert SampleTickets[1][1] == 4 && SampleTickets[2][0] == 55 && SampleTickets[3][2] == 12;
  }

  /** Only the first ticket constrains the fields: a position is left to
      a field when the first ticket's value there fits its rule. */
  lemma SampleAgrees(k: string, i: nat)
    requires k in SampleFields && i < 3
    ensures Agrees(SampleFields[k], SampleFields, SampleTickets, i) <==> Contains(SampleFields[k], SampleTickets[0][i])
  {
    SampleClean();
  }

  lemma SampleKeys()
    ensures SampleFields.Keys == {"class", "row", "seat"} && |SampleFields| == 3
  {
    assert SampleFields.Keys == {"class", "row", "seat"};
  }

  /** The positions of a three-value ticket whose values the rule accepts. */
  function Fitting(r: Range, t: Ticket): set<nat>
    requires |t| == 3
  {
    (if Contains(r, t[0]) then {0} else {}) + (if Contains(r, t[1]) then {1} else {}) +
    (if Contains(r, t[2]) then {2} else {})
  }

  /** A field's positions after the first loop, read off the first ticket. */
  lemma SampleAllowed(k: string)
    requires k in SampleFields
    ensures Allowed(SampleFields, SampleTickets, k) == Fitting(SampleFields[k], SampleTickets[0])
  {
    SampleKeys();
    forall i: nat | i < 3
      ensures Agrees(SampleFields[k], SampleFields, SampleTickets, i) <==> Contains(SampleFields[k], SampleTickets[0][i])
    {
      SampleAgrees(k, i);
    }
    AllowedFirst(SampleFields, SampleTickets, k);
  }

  /** With three fields, when only the first ticket matters, a field keeps
      the positions where that ticket fits its rule. */
  lemma AllowedFirst(fields: Fields, ts: seq<Ticket>, k: string)
    requires k in fields && |fields| == 3 && |ts| > 0 && |ts[0]| == 3
    requires forall i: nat :: i < 3 ==> (Agrees(fields[k], fields, ts, i) <==> Contains(fields[k], ts[0][i]))
    ensures Allowed(fields, ts, k) == Fitting(fields[k], ts[0])
  {
  }

  lemma SampleClass()
    ensures Allowed(SampleFields, SampleTickets, "class") == {0, 1}
  {
    SampleAllowed("class");
    assert Fitting(SampleFields["class"], SampleTickets[0]) == {0, 1};
  }

  lemma SampleRow()
    ensures Allowed(SampleFields, SampleTickets, "row") == {0}
  {
    SampleAllowed("row");
    assert Fitting(SampleFields["row"], SampleTickets[0]) == {0};
  }

  lemma SampleSeat()
    ensures Allowed(SampleFields, SampleTickets, "seat") == {2}
  {
    SampleAllowed("seat");
    assert Fitting(SampleFields["seat"], SampleTickets[0]) == {2};
  }

  /** After the first loop: class may be at 0 or 1, row only at 0, seat only at 2. */
  lemma SampleSift()
    ensures Sift(SampleFields, SampleTickets) == map["class" := {0, 1}, "row" := {0}, "seat" := {2}]
  {
    SampleKeys();
    SampleClass();
    SampleRow();
    SampleSeat();
    SiftIs(SampleFields, SampleTickets, map["class" := {0, 1}, "row" := {0}, "seat" := {2}]);
  }

  /** The candidates are the allowed positions, field by field. */
  lemma SiftIs(fields: Fields, ts: seq<Ticket>, expected: Candidates)
    requires expected.Keys == fields.Keys
    requires forall k :: k in fields ==> Allowed(fields, ts, k) == expected[k]
    ensures Sift(fields, ts) == expected
  {
    SiftExact(fields, ts);
  }

  /** The example's answer: row, class, seat at positions 0, 1, 2. */
  const SampleAnswer: Assignment := map["row" := 0, "class" := 1, "seat" := 2]

  /** Whatever order the second loop takes the fields in, it ends with one
      position per field. */
  lemma SampleSettles(c: Candidates)
    requires Resolved(Sift(SampleFields, SampleTickets), c)
    ensures c == map["class" := {1}, "row" := {0}, "seat" := {2}]
  {
    SampleSift();
    SettleSample(Sift(SampleFields, SampleTickets), c);
  }

  /** The elimination from the example's candidates. */
  lemma SettleSample(c0: Candidates, c: Candidates)
    requires c0 == map["class" := {0, 1}, "row" := {0}, "seat" := {2}] && Resolved(c0, c)
    ensures c == map["class" := {1}, "row" := {0}, "seat" := {2}]
  {
    assert Fits(SampleAnswer, c0);
    assert Fits(SampleAnswer, c);
    assert c["row"] == {0} && c["seat"] == {2};
    assert Alone(c, "row");
    assert c["class"] == {1};
  }

  /** Fields down to one position each give those positions. */
  lemma ExtractSingles(c: Candidates, a: Assignment)
    requires c.Keys == a.Keys && forall k :: k in c ==> c[k] == {a[k]}
    ensures Extract(c) == Ok(a)
  {
    assert forall k :: k in c ==> |c[k]| == 1;
    forall k | k in c
      ensures Only(c[k]) == a[k]
    {
      assert {Only(c[k])} == {a[k]};
    }
    assert (map k | k in c :: Only(c[k])) == a;
  }

  /** `determine_fields` on the example gives row 0, class 1, seat 2. */
  lemma SampleDetermined(c: Candidates)
    requires Resolved(Sift(SampleFields, SampleTickets), c)
    ensures Extract(c) == Ok(SampleAnswer)
  {
    SampleSettles(c);
    ExtractSingles(c, SampleAnswer);
  }

  // ---------------------------------------------------------------- reading

  /** `parse_range`: two `usize` values around the first dash. */
  function ParseRange(s: string): (r: Result<Span>)
    ensures r.Ok? || r == Err("no dash") || r == Err("invalid digit found in string")
  {
    match Find(s, '-')
    case None => Err("no dash")
    case Some(d) =>
      match (ParseNat(s[..d], U64Max), ParseNat(s[d + 1..], U64Max))
      case (Some(a), Some(b)) => Ok(Span(a, b))
      case _ => Err("invalid digit found in string")
  }

  function ShowSpan(sp: Span): string
  {
    ShowNat(sp.lo) + "-" + ShowNat(sp.hi)
  }

  /** Digits hold no separator. */
  lemma NoSeparator(n: nat, c: char)
    requires !IsDigit(c)
    ensures c !in ShowNat(n)
  {
    var w := ShowNat(n);
    assert forall j :: 0 <= j < |w| ==> IsDigit(w[j]);
  }

  /** A written range reads back as itself. */
  lemma ParseShowSpan(sp: Span)
    requires sp.lo <= U64Max && sp.hi <= U64Max
    ensures ParseRange(ShowSpan(sp)) == Ok(sp)
  {
    var a, b := ShowNat(sp.lo), ShowNat(sp.hi);
    var s := ShowSpan(sp);
    NoSeparator(sp.lo, '-');
    assert s[..|a|] == a && s[|a| + 1..] == b;
    FindFirst(s, '-', |a|);
    ParseShowNat(sp.lo, U64Max);
    ParseShowNat(sp.hi, U64Max);
  }

  /** The values of a ticket line's pieces, each a `usize`. */
  function ParseValues(pieces: seq<string>): (r: Result<Ticket>)
    ensures r.Ok? ==> |r.value| == |pieces| && forall i :: 0 <= i < |r.value| ==> r.value[i] <= U64Max
    ensures r.Ok? || r == Err("invalid digit found in string")
  {
    if pieces == [] then Ok([])
    else match ParseNat(pieces[0], U64Max)
      case None => Err("invalid digit found in string")
      case Some(n) =>
        match ParseValues(pieces[1..])
        case Ok(rest) => Ok([n] + rest)
        case Err(e) => Err(e)
        case Panic(e) => Panic(e)
  }

  /** `parse_ticket`: comma-separated values. */
  function ParseTicket(s: string): (r: Result<Ticket>)
    ensures r.Ok? ==> |r.value| == |Split(s, ',')| && forall i :: 0 <= i < |r.value| ==> r.value[i] <= U64Max
    ensures r.Ok? || r.Err?
  {
    ParseValues(Split(s, ','))
  }

  function ShowTicket(t: Ticket): string
  {
    Join(seq(|t|, i requires 0 <= i < |t| => ShowNat(t[i])), ',')
  }

  lemma {:induction false} ParseShows(t: Ticket, ws: seq<string>)
    requires |ws| == |t| && forall i :: 0 <= i < |t| ==> t[i] <= U64Max && ws[i] == ShowNat(t[i])
    ensures ParseValues(ws) == Ok(t)
  {
    if t != [] {
      ParseShows(t[1..], ws[1..]);
      ParseShowNat(t[0], U64Max);
      assert t == [t[0]] + t[1..];
    }
  }

  /** A written ticket reads back as itself. */
  lemma ParseShowTicket(t: Ticket)
    requires |t| > 0 && forall i :: 0 <= i < |t| ==> t[i] <= U64Max
    ensures ParseTicket(ShowTicket(t)) == Ok(t)
  {
    var ws := seq(|t|, i requires 0 <= i < |t| => ShowNat(t[i]));
    forall i | 0 <= i < |ws|
      ensures ',' !in ws[i]
    {
      NoSeparator(t[i], ',');
    }
    SplitJoin(ws, ',');
    ParseShows(t, ws);
  }

  /** A rule line, `name: a-b or c-d`: the name runs to the first colon;
      after the colon and one more character come three words, the first
      and last of them ranges. */
  function ParseField(line: string): (r: Result<(string, Range)>)
    ensures r.Ok? ==> ':' !in r.value.0
  {
    match Find(line, ':')
    case None => Err("no colon")
    case Some(c) =>
      if c + 2 > |line| then Panic("byte index out of range")
      else
        var words := Split(line[c + 2..], ' ');
        if |words| != 3 then Err("bad rule fmt")
        else match ParseRange(words[0])
          case Err(m) => Err(m)
          case Panic(m) => Panic(m)
          case Ok(r1) =>
            match ParseRange(words[2])
            case Err(m) => Err(m)
            case Panic(m) => Panic(m)
            case Ok(r2) => Ok((line[..c], Range(r1, r2)))
  }

  function ShowField(name: string, r: Range): string
  {
    name + ": " + ShowSpan(r.first) + " or " + ShowSpan(r.second)
  }

  /** A range bound a `usize` holds. */
  predicate Fit(r: Range)
  {
    r.first.lo <= U64Max && r.first.hi <= U64Max && r.second.lo <= U64Max && r.second.hi <= U64Max
  }

  /** The words after a rule's colon. */
  function ShowRule(r: Range): string
  {
    ShowSpan(r.first) + " or " + ShowSpan(r.second)
  }

  /** A written rule splits into its two ranges around "or". */
  lemma SplitRule(r: Range)
    ensures Split(ShowRule(r), ' ') == [ShowSpan(r.first), "or", ShowSpan(r.second)]
  {
    var a, b := ShowSpan(r.first), ShowSpan(r.second);
    NoSpace(r.first);
    NoSpace(r.second);
    SplitJoin([a, "or", b], ' ');
    assert Join([b], ' ') == b;
    assert Join(["or", b], ' ') == "or" + [' '] + b;
    assert Join([a, "or", b], ' ') == a + [' '] + Join(["or", b], ' ');
    assert ShowRule(r) == a + [' '] + ("or" + [' '] + b);
  }

  /** A written rule reads back as its name and rule. */
  lemma ParseShowField(name: string, r: Range)
    requires ':' !in name && Fit(r)
    ensures ParseField(ShowField(name, r)) == Ok((name, r))
  {
    var line := ShowField(name, r);
    assert line == name + ": " + ShowRule(r);
    assert line[..|name|] == name && line[|name|] == ':';
    FindFirst(line, ':', |name|);
    assert line[|name| + 2..] == ShowRule(r);
    SplitRule(r);
    ParseShowSpan(r.first);
    ParseShowSpan(r.second);
  }

  /** A written range holds no space. */
  lemma NoSpace(sp: Span)
    ensures ' ' !in ShowSpan(sp)
  {
    NoSeparator(sp.lo, ' ');
    NoSeparator(sp.hi, ' ');
  }

  /** The puzzle notes, `Input`. */
  datatype Notes = Notes(fields: Fields, myTicket: Ticket, tickets: seq<Ticket>)

  /** `read`'s first loop: rule lines until a blank one (which is
      consumed) or the end; a later rule of the same name replaces an
      earlier one. Returns the rules and the lines left. */
  function ReadRules(lines: seq<string>, acc: Fields): (r: Result<(Fields, seq<string>)>)
  {
    if lines == [] then Ok((acc, []))
    else if lines[0] == "" then Ok((acc, lines[1..]))
    else match ParseField(lines[0])
      case Ok((k, rule)) => ReadRules(lines[1..], acc[k := rule])
      case Err(m) => Err(m)
      case Panic(m) => Panic(m)
  }

  /** The nearby tickets, one per line; the first bad line is the error. */
  function ParseTickets(lines: seq<string>): (r: Result<seq<Ticket>>)
    ensures r.Ok? ==> |r.value| == |lines|
  {
    if lines == [] then Ok([])
    else match ParseTicket(lines[0])
      case Err(m) => Err(m)
      case Panic(m) => Panic(m)
      case Ok(t) =>
        match ParseTickets(lines[1..])
        case Ok(ts) => Ok([t] + ts)
        case Err(m) => Err(m)
        case Panic(m) => Panic(m)
  }

  /** `read`: the rules, a skipped header, my ticket, two skipped lines,
      then the nearby tickets. */
  function Read(lines: seq<string>): (r: Result<Notes>)
    ensures r.Ok? ==> ReadRules(lines, map[]).Ok? && ReadRules(lines, map[]).value.0 == r.value.fields
    ensures r.Ok? ==> var rest := ReadRules(lines, map[]).value.1;
      |rest| >= 2 && ParseTicket(rest[1]) == Ok(r.value.myTicket)
    ensures ReadRules(lines, map[]).Ok? && |ReadRules(lines, map[]).value.1| < 2 ==> r == Err("expected my ticket")
  {
    match ReadRules(lines, map[])
    case Err(m) => Err(m)
    case Panic(m) => Panic(m)
    case Ok((fields, rest)) =>
      if |rest| < 2 then Err("expected my ticket")
      else match ParseTicket(rest[1])
        case Err(m) => Err(m)
        case Panic(m) => Panic(m)
        case Ok(my) =>
          match ParseTickets(if |rest| >= 4 then rest[4..] else [])
          case Err(m) => Err(m)
          case Panic(m) => Panic(m)
          case Ok(ts) => Ok(Notes(fields, my, ts))
  }

  /** The rules inserted one after another into acc. */
  function Insert(acc: Fields, rules: seq<(string, Range)>): Fields
    decreases |rules|
  {
    if rules == [] then acc else Insert(acc[rules[0].0 := rules[0].1], rules[1..])
  }

  /** A rule that can be written and read back. */
  predicate Writable(rule: (string, Range))
  {
    ':' !in rule.0 && Fit(rule.1)
  }

  /** A ticket that can be written and read back. */
  predicate WritableTicket(t: Ticket)
  {
    |t| > 0 && forall i :: 0 <= i < |t| ==> t[i] <= U64Max
  }

  function ShowRules(rules: seq<(string, Range)>): (ls: seq<string>)
    ensures |ls| == |rules|
  {
    seq(|rules|, j requires 0 <= j < |rules| => ShowField(rules[j].0, rules[j].1))
  }

  function ShowTickets(ts: seq<Ticket>): (ls: seq<string>)
    ensures |ls| == |ts|
  {
    seq(|ts|, j requires 0 <= j < |ts| => ShowTicket(ts[j]))
  }

  /** The notes as the puzzle writes them. */
  function ShowNotes(rules: seq<(string, Range)>, my: Ticket, ts: seq<Ticket>): seq<string>
  {
    ShowRules(rules) + [""] + (["your ticket:", ShowTicket(my), "", "nearby tickets:"] + ShowTickets(ts))
  }

  lemma ReadRulesCons(lines: seq<string>, acc: Fields, k: string, rule: Range)
    requires lines != [] && lines[0] != "" && ParseField(lines[0]) == Ok((k, rule))
    ensures ReadRules(lines, acc) == ReadRules(lines[1..], acc[k := rule])
  {
  }

  /** Rule lines followed by a blank line read as the rules. */
  lemma {:induction false} ReadRulesShow(lines: seq<string>, rules: seq<(string, Range)>, acc: Fields)
    requires |rules| < |lines| && lines[|rules|] == ""
    requires forall j :: 0 <= j < |rules| ==> lines[j] != "" && ParseField(lines[j]) == Ok(rules[j])
    ensures ReadRules(lines, acc) == Ok((Insert(acc, rules), lines[|rules| + 1..]))
    decreases |rules|
  {
    if rules != [] {
      var next := acc[rules[0].0 := rules[0].1];
      ReadRulesCons(lines, acc, rules[0].0, rules[0].1);
      forall j | 0 <= j < |rules[1..]|
        ensures lines[1..][j] != "" && ParseField(lines[1..][j]) == Ok(rules[1..][j])
      {
        assert lines[1..][j] == lines[j + 1] && rules[1..][j] == rules[j + 1];
      }
      ReadRulesShow(lines[1..], rules[1..], next);
      assert lines[1..][|rules| - 1 + 1..] == lines[|rules| + 1..];
      assert Insert(acc, rules) == Insert(next, rules[1..]);
    } else {
      assert ReadRules(lines, acc) == Ok((acc, lines[1..]));
    }
  }

  lemma ParseTicketsCons(lines: seq<string>, t: Ticket, ts: seq<Ticket>)
    requires lines != [] && ParseTicket(lines[0]) == Ok(t) && ParseTickets(lines[1..]) == Ok(ts)
    ensures ParseTickets(lines) == Ok([t] + ts)
  {
  }

  lemma {:induction false} ParseShowTickets(ts: seq<Ticket>)
    requires forall j :: 0 <= j < |ts| ==> WritableTicket(ts[j])
    ensures ParseTickets(ShowTickets(ts)) == Ok(ts)
  {
    if ts != [] {
      var ls := ShowTickets(ts);
      assert ls[0] == ShowTicket(ts[0]);
      assert ls[1..] == ShowTickets(ts[1..]);
      ParseShowTicket(ts[0]);
      ParseShowTickets(ts[1..]);
      ParseTicketsCons(ls, ts[0], ts[1..]);
      assert ts == [ts[0]] + ts[1..];
    } else {
      assert ShowTickets(ts) == [];
    }
  }

  /** Written rule lines read back as their rules. */
  lemma ParseShowRules(rules: seq<(string, Range)>)
    requires forall j :: 0 <= j < |rules| ==> Writable(rules[j])
    ensures forall j :: 0 <= j < |rules| ==>
      ShowRules(rules)[j] != "" && ParseField(ShowRules(rules)[j]) == Ok(rules[j])
  {
    forall j | 0 <= j < |rules|
      ensures ShowRules(rules)[j] != "" && ParseField(ShowRules(rules)[j]) == Ok(rules[j])
    {
      var (k, rule) := rules[j];
      ParseShowField(k, rule);
      assert ShowField(k, rule)[|k|] == ':';
    }
  }

  /** `read` once its parts have been read. */
  lemma ReadParts(lines: seq<string>, fields: Fields, rest: seq<string>, my: Ticket, ts: seq<Ticket>)
    requires ReadRules(lines, map[]) == Ok((fields, rest))
    requires |rest| >= 4 && ParseTicket(rest[1]) == Ok(my) && ParseTickets(rest[4..]) == Ok(ts)
    ensures Read(lines) == Ok(Notes(fields, my, ts))
  {
  }

  /** The written rules, then a blank line, read as the rules. */
  lemma ReadShowRules(rules: seq<(string, Range)>, tail: seq<string>)
    requires forall j :: 0 <= j < |rules| ==> Writable(rules[j])
    ensures ReadRules(ShowRules(rules) + [""] + tail, map[]) == Ok((Insert(map[], rules), tail))
  {
    var lines := ShowRules(rules) + [""] + tail;
    ParseShowRules(rules);
    assert forall j :: 0 <= j < |rules| ==> lines[j] == ShowRules(rules)[j];
    ReadRulesShow(lines, rules, map[]);
    assert lines[|rules| + 1..] == tail;
  }

  /** The lines after the rules: my ticket and the nearby ones. */
  lemma ReadShowTail(my: Ticket, ts: seq<Ticket>, rest: seq<string>)
    requires WritableTicket(my) && forall j :: 0 <= j < |ts| ==> WritableTicket(ts[j])
    requires rest == ["your ticket:", ShowTicket(my), "", "nearby tickets:"] + ShowTickets(ts)
    ensures |rest| >= 4 && ParseTicket(rest[1]) == Ok(my) && ParseTickets(rest[4..]) == Ok(ts)
  {
    ParseShowTicket(my);
    assert rest[4..] == ShowTickets(ts);
    ParseShowTickets(ts);
  }

  /** Written notes read back as their rules, in order, my ticket and the
      nearby tickets. */
  lemma ReadShowNotes(rules: seq<(string, Range)>, my: Ticket, ts: seq<Ticket>)
    requires forall j :: 0 <= j < |rules| ==> Writable(rules[j])
    requires WritableTicket(my) && forall j :: 0 <= j < |ts| ==> WritableTicket(ts[j])
    ensures Read(ShowNotes(rules, my, ts)) == Ok(Notes(Insert(map[], rules), my, ts))
  {
    var rest := ["your ticket:", ShowTicket(my), "", "nearby tickets:"] + ShowTickets(ts);
    ReadShowRules(rules, rest);
    ReadShowTail(my, ts, rest);
    ReadParts(ShowNotes(rules, my, ts), Insert(map[], rules), rest, my, ts);
  }
}
