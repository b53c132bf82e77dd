/** Day 14: docking data. A program of mask and memory-write instructions
    for a 36-bit machine. In part 1 the mask forces value bits to 0 or 1;
    in part 2 it forces address bits to 1 and lets 'X' bits float, so one
    write lands on every address the floating bits can spell.

    A `u64` is modelled as its 64 bits (`Word`, least significant first):
    `val |= 1 << i` sets bit i, `val &= !(1 << i)` clears it. */
module Day14 {
  import opened Outcomes
  import opened Text

  /** The machine's word size and the mask's width. */
  const WordBits: nat := 64
  const Width: nat := 36

  type Word = w: seq<bool> | |w| == WordBits witness seq(64, _ => false)

  /** The mask as read, most significant bit first: `Some(b)` forces a bit,
      `None` is an 'X'. */
  type Mask = m: seq<Option<bool>> | |m| == Width witness seq(36, _ => None)

  /** The mask every program starts with. */
  const NoMask: Mask := Floats(Width)

  /** n floating bits. */
  function Floats(n: nat): (r: seq<Option<bool>>)
    ensures |r| == n && forall i :: 0 <= i < n ==> r[i].None?
  {
    if n == 0 then [] else [None] + Floats(n - 1)
  }

  datatype Instruction = SetMask(mask: Mask) | Write(addr: nat, val: nat)

  // ---------------------------------------------------------------- words

  /** The low k bits of n. */
  function Bits(n: nat, k: nat): (w: seq<bool>)
    ensures |w| == k
  {
    if k == 0 then [] else [n % 2 == 1] + Bits(n / 2, k - 1)
  }

  /** The number the bits spell. */
  function Value(w: seq<bool>): nat
  {
    if w == [] then 0 else (if w[0] then 1 else 0) + 2 * Value(w[1..])
  }

  /** A `u64` as its bits; values beyond 64 bits are cut to their low 64. */
  function ToWord(n: nat): Word
  {
    Bits(n, WordBits)
  }

  lemma {:induction false} ValueBound(w: seq<bool>)
    ensures Value(w) < Pow2(|w|)
  {
    if w != [] {
      ValueBound(w[1..]);
    }
  }

  /** Reading the bits of a value that fits gives the value back. */
  lemma {:induction false} ValueBits(n: nat, k: nat)
    requires n < Pow2(k)
    ensures Value(Bits(n, k)) == n
  {
    if k > 0 {
      ValueBits(n / 2, k - 1);
      assert Bits(n, k)[1..] == Bits(n / 2, k - 1);
    }
  }

  /** Writing the value of some bits gives the bits back, so two words with
      the same value are the same word. */
  lemma {:induction false} BitsValue(w: seq<bool>)
    ensures Bits(Value(w), |w|) == w
  {
    if w != [] {
      BitsValue(w[1..]);
      var n := Value(w);
      assert n / 2 == Value(w[1..]) && (n % 2 == 1 <==> w[0]);
      assert w == [w[0]] + w[1..];
    }
  }

  lemma ValueInjective(x: seq<bool>, y: seq<bool>)
    requires |x| == |y| && Value(x) == Value(y)
    ensures x == y
  {
    BitsValue(x);
    BitsValue(y);
  }

  // ---------------------------------------------------------------- part 1

  /** The mask entry for bit i (bit 0 is the last character). */
  function At(m: Mask, i: nat): Option<bool>
    requires i < Width
  {
    m[Width - 1 - i]
  }

  /** What `apply_mask` promises: bit i below 36 is the mask's where that is
      set, and every other bit is the value's own. */
  function Masked(w: Word, m: Mask): (r: Word)
  {
    seq(WordBits, i requires 0 <= i < WordBits =>
      if i < Width && At(m, i).Some? then At(m, i).value else w[i])
  }

  /** `apply_mask`: bit by bit from the least significant. */
  method ApplyMask(val: Word, mask: Mask) returns (r: Word)
    ensures r == Masked(val, mask)
  {
    r := val;
    for i := 0 to Width
      invariant forall j :: 0 <= j < WordBits ==>
        r[j] == if j < i && At(mask, j).Some? then At(mask, j).value else val[j]
    {
      match mask[Width - 1 - i]
      case Some(bit) =>
        if bit {
          r := r[i := true];
        } else {
          r := r[i := false];
        }
      case None =>
    }
  }

  /** Masking twice is masking once. */
  lemma MaskIdempotent(w: Word, m: Mask)
    ensures Masked(Masked(w, m), m) == Masked(w, m)
  {
  }

  /** The starting mask changes nothing. */
  lemma NoMaskKeeps(w: Word)
    ensures Masked(w, NoMask) == w
  {
  }

  // ---------------------------------------------------------------- memory

  /** Memory: address to value; a missing address holds 0. */
  type Memory = map<nat, nat>

  /** The sum of the values in memory, in any order. */
  ghost function Total(mem: Memory): nat
    decreases mem.Keys
  {
    if mem.Keys == {} then 0
    else
      var k :| k in mem.Keys;
      mem[k] + Total(mem - {k})
  }

  /** The sum does not depend on which address is taken first. */
  lemma {:induction false} TotalPick(mem: Memory, k: nat)
    requires k in mem.Keys
    ensures Total(mem) == mem[k] + Total(mem - {k})
    decreases mem.Keys
  {
    var k' :| k' in mem.Keys && Total(mem) == mem[k'] + Total(mem - {k'});
    if k' != k {
      var a, b := mem - {k'}, mem - {k};
      assert a.Keys < mem.Keys && b.Keys < mem.Keys;
      TotalPick(a, k);
      TotalPick(b, k');
      assert a - {k} == b - {k'};
    }
  }

  /** `memory.values().sum()`. */
  method Sum(mem: Memory) returns (r: nat)
    ensures r == Total(mem)
  {
    r := 0;
    var rest := mem;
    while rest.Keys != {}
      invariant r + Total(rest) == Total(mem)
      decreases rest.Keys
    {
      var k :| k in rest.Keys;
      TotalPick(rest, k);
      r := r + rest[k];
      rest := rest - {k};
    }
  }

  /** The memory after `part1` runs the program from `mask` and `mem`:
      a write stores the masked value, replacing what was there. */
  function Run1(prog: seq<Instruction>, mask: Mask, mem: Memory): Memory
    decreases |prog|
  {
    if prog == [] then mem
    else match prog[0]
      case SetMask(m) => Run1(prog[1..], m, mem)
      case Write(a, v) => Run1(prog[1..], mask, mem[a := Value(Masked(ToWord(v), mask))])
  }

  /** The mask in force after some instructions. */
  function MaskAfter(prog: seq<Instruction>, mask: Mask): Mask
    decreases |prog|
  {
    if prog == [] then mask
    else MaskAfter(prog[1..], if prog[0].SetMask? then prog[0].mask else mask)
  }

  /** Running two pieces of program in turn. */
  lemma {:induction false} Run1Append(p: seq<Instruction>, q: seq<Instruction>, mask: Mask, mem: Memory)
    ensures Run1(p + q, mask, mem) == Run1(q, MaskAfter(p, mask), Run1(p, mask, mem))
    decreases |p|
  {
    if p == [] {
      assert p + q == q;
    } else {
      assert (p + q)[1..] == p[1..] + q;
      match p[0]
      case SetMask(m) => Run1Append(p[1..], q, m, mem);
      case Write(a, v) => Run1Append(p[1..], q, mask, mem[a := Value(Masked(ToWord(v), mask))]);
    }
  }

  /** A write to an address makes an earlier write to it, with nothing in
      between, irrelevant. */
  lemma Overwrite(p: seq<Instruction>, a: nat, v1: nat, v2: nat, q: seq<Instruction>, mem: Memory)
    ensures Run1(p + [Write(a, v1), Write(a, v2)] + q, NoMask, mem) == Run1(p + [Write(a, v2)] + q, NoMask, mem)
  {
    var mask := MaskAfter(p, NoMask);
    var m0: Memory := Run1(p, NoMask, mem);
    Run1Append(p, [Write(a, v1), Write(a, v2)] + q, NoMask, mem);
    Run1Append(p, [Write(a, v2)] + q, NoMask, mem);
    assert p + [Write(a, v1), Write(a, v2)] + q == p + ([Write(a, v1), Write(a, v2)] + q);
    assert p + [Write(a, v2)] + q == p + ([Write(a, v2)] + q);
    assert ([Write(a, v1), Write(a, v2)] + q)[1..][1..] == q;
    assert ([Write(a, v2)] + q)[1..] == q;
    var x1: nat, x2: nat := Value(Masked(ToWord(v1), mask)), Value(Masked(ToWord(v2), mask));
    assert m0[a := x1][a := x2] == m0[a := x2];
  }

  /** The addresses in memory are those the program writes to. */
  lemma {:induction false} Run1Keys(prog: seq<Instruction>, mask: Mask, mem: Memory)
    ensures Run1(prog, mask, mem).Keys ==
      mem.Keys + set k | 0 <= k < |prog| && prog[k].Write? :: prog[k].addr
    decreases |prog|
  {
    if prog != [] {
      var next := if prog[0].SetMask? then prog[0].mask else mask;
      var mem' := if prog[0].Write? then mem[prog[0].addr := Value(Masked(ToWord(prog[0].val), mask))] else mem;
      Run1Keys(prog[1..], next, mem');
      var tail := set k | 0 <= k < |prog[1..]| && prog[1..][k].Write? :: prog[1..][k].addr;
      var all := set k | 0 <= k < |prog| && prog[k].Write? :: prog[k].addr;
      assert all == tail + (if prog[0].Write? then {prog[0].addr} else {}) by {
        forall x | x in all ensures x in tail + (if prog[0].Write? then {prog[0].addr} else {}) {
          var k :| 0 <= k < |prog| && prog[k].Write? && prog[k].addr == x;
          if k > 0 {
            assert prog[1..][k - 1] == prog[k];
          }
        }
        forall x | x in tail ensures x in all {
          var k :| 0 <= k < |prog[1..]| && prog[1..][k].Write? && prog[1..][k].addr == x;
          assert prog[k + 1] == prog[1..][k];
        }
      }
    }
  }

  /** `part1`: the program from the empty mask and memory, then the sum. */
  method Part1(prog: seq<Instruction>) returns (r: nat)
    ensures r == Total(Run1(prog, NoMask, map[]))
  {
    var memory: Memory := map[];
    var mask := NoMask;
    for k := 0 to |prog|
      invariant Run1(prog, NoMask, map[]) == Run1(prog[k..], mask, memory)
    {
      assert prog[k..][1..] == prog[k + 1..];
      match prog[k]
      case SetMask(m) =>
        mask := m;
      case Write(addr, val) =>
        var x := ApplyMask(ToWord(val), mask);
        memory := memory[addr := Value(x)];
    }
    assert prog[|prog|..] == [];
    r := Sum(memory);
  }

  // ---------------------------------------------------------------- part 2

  /** The address with the mask's 1 bits forced on. */
  function Forced(addr: Word, m: Mask): Word
  {
    seq(WordBits, i requires 0 <= i < WordBits =>
      if i < Width && At(m, i) == Some(true) then true else addr[i])
  }

  /** The floating bit positions below n, from the least significant. */
  function Floating(m: Mask, n: nat): (ps: seq<nat>)
    requires n <= Width
    ensures forall k :: 0 <= k < |ps| ==> ps[k] < n
  {
    if n == 0 then [] else Floating(m, n - 1) + if At(m, n - 1).None? then [n - 1] else []
  }

  /** The floating positions are exactly the 'X' bits, in increasing order. */
  lemma {:induction false} FloatingExact(m: Mask, n: nat)
    requires n <= Width
    ensures var ps := Floating(m, n);
      && (forall k :: 0 <= k < |ps| ==> At(m, ps[k]).None?)
      && (forall j, k :: 0 <= j < k < |ps| ==> ps[j] < ps[k])
      && (forall i :: 0 <= i < n && At(m, i).None? ==> i in ps)
  {
    if n > 0 {
      FloatingExact(m, n - 1);
    }
  }

  /** Word w with bit p set to b, in every word of ws. */
  function SetAll(ws: seq<Word>, p: nat, b: bool): (r: seq<Word>)
    requires p < WordBits
    ensures |r| == |ws|
  {
    seq(|ws|, j requires 0 <= j < |ws| => ws[j][p := b])
  }

  /** The address list of `what`: for each floating bit in turn, every
      address so far with that bit set, then all of them with it cleared. */
  function Expand(base: Word, ps: seq<nat>): seq<Word>
    requires forall k :: 0 <= k < |ps| ==> ps[k] < WordBits
  {
    if ps == [] then [base]
    else
      var ones := SetAll(Expand(base, ps[..|ps| - 1]), ps[|ps| - 1], true);
      ones + SetAll(ones, ps[|ps| - 1], false)
  }

  /** The first loop of `what`: force the 1 bits, collect the floating
      positions. */
  method ForceBits(addr: Word, mask: Mask) returns (a: Word, floating: seq<nat>)
    ensures a == Forced(addr, mask) && floating == Floating(mask, Width)
  {
    a := addr;
    floating := [];
    for i := 0 to Width
      invariant forall j :: 0 <= j < WordBits ==>
        a[j] == if j < i && At(mask, j) == Some(true) then true else addr[j]
      invariant floating == Floating(mask, i)
    {
      match mask[Width - 1 - i]
      case Some(true) => a := a[i := true];
      case Some(false) =>
      case None => floating := floating + [i];
    }
  }

  /** `for a in &mut addrs { *a |= b }` and `*a &= !b`, one word at a time. */
  method SetEach(ws: seq<Word>, p: nat, b: bool) returns (r: seq<Word>)
    requires p < WordBits
    ensures r == SetAll(ws, p, b)
  {
    r := ws;
    for j := 0 to |r|
      invariant |r| == |ws|
      invariant forall l :: 0 <= l < |r| ==> r[l] == if l < j then ws[l][p := b] else ws[l]
    {
      r := r[j := r[j][p := b]];
    }
  }

  /** `what`: the addresses a write lands on. */
  method What(addr: Word, mask: Mask) returns (addrs: seq<Word>)
    ensures addrs == Expand(Forced(addr, mask), Floating(mask, Width))
  {
    var a, floating := ForceBits(addr, mask);
    addrs := [a];
    for k := 0 to |floating|
      invariant addrs == Expand(a, floating[..k])
    {
      var b := floating[k];
      assert floating[..k + 1][..k] == floating[..k];
      addrs := SetEach(addrs, b, true);
      var zeroes := SetEach(addrs, b, false);
      addrs := addrs + zeroes;
    }
    assert floating[..|floating|] == floating;
  }

  /** Word x has base's bits everywhere but at the positions ps. */
  predicate Agrees(x: Word, base: Word, ps: seq<nat>)
  {
    forall i :: 0 <= i < WordBits && i !in ps ==> x[i] == base[i]
  }

  predicate Distinct(ws: seq<Word>)
  {
    forall j, k :: 0 <= j < k < |ws| ==> ws[j] != ws[k]
  }

  /** Each floating bit doubles the list. */
  lemma {:induction false} ExpandSize(base: Word, ps: seq<nat>)
    requires forall k :: 0 <= k < |ps| ==> ps[k] < WordBits
    ensures |Expand(base, ps)| == Pow2(|ps|)
  {
    if ps != [] {
      ExpandSize(base, ps[..|ps| - 1]);
    }
  }

  /** Every address keeps the base's bits outside the floating ones. */
  lemma {:induction false} ExpandAgree(base: Word, ps: seq<nat>)
    requires forall k :: 0 <= k < |ps| ==> ps[k] < WordBits
    ensures forall x :: x in Expand(base, ps) ==> Agrees(x, base, ps)
  {
    if ps != [] {
      var pre, p := ps[..|ps| - 1], ps[|ps| - 1];
      ExpandAgree(base, pre);
      var prev := Expand(base, pre);
      var ones := SetAll(prev, p, true);
      forall x | x in Expand(base, ps) ensures Agrees(x, base, ps) {
        var j :| 0 <= j < |Expand(base, ps)| && Expand(base, ps)[j] == x;
        var l := if j < |ones| then j else j - |ones|;
        assert prev[l] in prev;
        forall i | 0 <= i < WordBits && i !in ps ensures x[i] == base[i] {
          assert i !in pre && i != p;
        }
      }
    }
  }

  /** Setting a bit both words share keeps them apart. */
  lemma SetKeepsApart(x: Word, y: Word, p: nat, b: bool)
    requires p < WordBits && x[p] == y[p] && x != y
    ensures x[p := b] != y[p := b]
  {
    var i :| 0 <= i < WordBits && x[i] != y[i];
    assert x[p := b][i] != y[p := b][i];
  }

  /** One half of a doubling step keeps the list distinct. */
  lemma SetAllDistinct(ws: seq<Word>, p: nat, b: bool, base: Word, pre: seq<nat>)
    requires p < WordBits && p !in pre && Distinct(ws)
    requires forall x :: x in ws ==> Agrees(x, base, pre)
    ensures Distinct(SetAll(ws, p, b))
  {
    var r := SetAll(ws, p, b);
    forall j, k | 0 <= j < k < |r| ensures r[j] != r[k] {
      assert ws[j] in ws && ws[k] in ws;
      SetKeepsApart(ws[j], ws[k], p, b);
    }
  }

  /** The addresses differ pairwise. */
  lemma {:induction false} ExpandDistinct(base: Word, ps: seq<nat>)
    requires forall k :: 0 <= k < |ps| ==> ps[k] < WordBits
    requires forall j, k :: 0 <= j < k < |ps| ==> ps[j] != ps[k]
    ensures Distinct(Expand(base, ps))
  {
    if ps != [] {
      var pre, p := ps[..|ps| - 1], ps[|ps| - 1];
      ExpandDistinct(base, pre);
      ExpandAgree(base, pre);
      var prev := Expand(base, pre);
      assert p !in pre;
      var ones := SetAll(prev, p, true);
      var zeroes := SetAll(ones, p, false);
      SetAllDistinct(prev, p, true, base, pre);
      forall j | 0 <= j < |prev| ensures zeroes[j] == SetAll(prev, p, false)[j] {
        assert ones[j][p := false] == prev[j][p := false];
      }
      assert zeroes == SetAll(prev, p, false);
      SetAllDistinct(prev, p, false, base, pre);
      var all := ones + zeroes;
      assert all == Expand(base, ps);
      forall j, k | 0 <= j < k < |all| ensures all[j] != all[k] {
        if j < |ones| <= k {
          assert all[j][p] && !all[k][p];
        }
      }
    }
  }

  /** Every word that keeps the base's bits outside the floating ones is
      among the addresses. */
  lemma {:induction false} ExpandComplete(base: Word, ps: seq<nat>, x: Word)
    requires forall k :: 0 <= k < |ps| ==> ps[k] < WordBits
    requires forall j, k :: 0 <= j < k < |ps| ==> ps[j] != ps[k]
    requires Agrees(x, base, ps)
    ensures x in Expand(base, ps)
  {
    if ps == [] {
      assert x == base;
    } else {
      var pre, p := ps[..|ps| - 1], ps[|ps| - 1];
      assert p !in pre;
      var x' := x[p := base[p]];
      assert Agrees(x', base, pre);
      ExpandComplete(base, pre, x');
      var prev := Expand(base, pre);
      var ones := SetAll(prev, p, true);
      var j :| 0 <= j < |prev| && prev[j] == x';
      if x[p] {
        assert x == ones[j];
      } else {
        assert x == Expand(base, ps)[|ones| + j];
      }
    }
  }

  /** Word x is an address mask m lets a write to addr reach: it has the
      forced address bits everywhere the mask has no 'X'. */
  predicate Reaches(x: Word, addr: Word, m: Mask)
  {
    forall i :: 0 <= i < WordBits && !(i < Width && At(m, i).None?) ==> x[i] == Forced(addr, m)[i]
  }

  /** `what` lists each reachable address exactly once: two to the power of
      the number of 'X' bits, all distinct, and nothing else. */
  lemma Addresses(addr: Word, m: Mask)
    ensures var ps := Floating(m, Width);
      var xs := Expand(Forced(addr, m), ps);
      && |xs| == Pow2(|ps|)
      && Distinct(xs)
      && forall x: Word :: x in xs <==> Reaches(x, addr, m)
  {
    var ps := Floating(m, Width);
    FloatingExact(m, Width);
    var base := Forced(addr, m);
    var xs := Expand(base, ps);
    ExpandSize(base, ps);
    ExpandDistinct(base, ps);
    ExpandAgree(base, ps);
    forall x: Word ensures x in xs <==> Reaches(x, addr, m) {
      if x in xs {
        assert Agrees(x, base, ps);
      }
      if Reaches(x, addr, m) {
        assert Agrees(x, base, ps);
        ExpandComplete(base, ps, x);
      }
    }
  }

  /** The keys a list of addresses names. */
  function Keys(xs: seq<Word>): set<nat>
  {
    set x | x in xs :: Value(x)
  }

  /** Distinct addresses are distinct memory keys. */
  lemma {:induction false} KeysSize(xs: seq<Word>)
    requires Distinct(xs)
    ensures |Keys(xs)| == |xs|
  {
    if xs != [] {
      var rest := xs[1..];
      KeysSize(rest);
      assert Keys(xs) == {Value(xs[0])} + Keys(rest);
      forall x | x in rest ensures Value(x) != Value(xs[0]) {
        var k :| 0 <= k < |rest| && rest[k] == x;
        assert xs[0] != xs[k + 1];
        if Value(x) == Value(xs[0]) {
          ValueInjective(x, xs[0]);
        }
      }
    }
  }

  /** Stores v at every address of the list, in order. */
  function WriteAll(mem: Memory, xs: seq<Word>, v: nat): Memory
    decreases |xs|
  {
    if xs == [] then mem else WriteAll(mem[Value(xs[0]) := v], xs[1..], v)
  }

  /** After the writes, the listed keys hold v and every other key is as
      it was. */
  lemma {:induction false} WriteAllExact(mem: Memory, xs: seq<Word>, v: nat)
    ensures WriteAll(mem, xs, v).Keys == mem.Keys + Keys(xs)
    ensures forall k :: k in WriteAll(mem, xs, v) ==>
      WriteAll(mem, xs, v)[k] == if k in Keys(xs) then v else mem[k]
    decreases |xs|
  {
    if xs != [] {
      WriteAllExact(mem[Value(xs[0]) := v], xs[1..], v);
      assert Keys(xs) == {Value(xs[0])} + Keys(xs[1..]);
    }
  }

  /** Runs the program with the version 2 decoder. */
  function Run2(prog: seq<Instruction>, mask: Mask, mem: Memory): Memory
    decreases |prog|
  {
    if prog == [] then mem
    else match prog[0]
      case SetMask(m) => Run2(prog[1..], m, mem)
      case Write(a, v) =>
        Run2(prog[1..], mask, WriteAll(mem, Expand(Forced(ToWord(a), mask), Floating(mask, Width)), v))
  }

  /** One write under mask m stores v at exactly the keys of the addresses
      m lets it reach, 2^k distinct keys for k 'X' bits, and leaves every
      other key alone. */
  lemma WriteReaches(mem: Memory, a: nat, v: nat, m: Mask)
    ensures var xs := Expand(Forced(ToWord(a), m), Floating(m, Width));
      var after := Run2([Write(a, v)], m, mem);
      && (forall k :: k in Keys(xs) <==> exists x: Word :: Reaches(x, ToWord(a), m) && Value(x) == k)
      && |Keys(xs)| == Pow2(|Floating(m, Width)|)
      && after.Keys == mem.Keys + Keys(xs)
      && forall k :: k in after ==> after[k] == if k in Keys(xs) then v else mem[k]
  {
    var xs := Expand(Forced(ToWord(a), m), Floating(m, Width));
    Addresses(ToWord(a), m);
    KeysSize(xs);
    WriteAllExact(mem, xs, v);
    assert [Write(a, v)][1..] == [];
  }

  /** Stores v at every address of the list, in order. */
  method WriteEach(mem: Memory, xs: seq<Word>, v: nat) returns (r: Memory)
    ensures r == WriteAll(mem, xs, v)
  {
    r := mem;
    for k := 0 to |xs|
      invariant WriteAll(r, xs[k..], v) == WriteAll(mem, xs, v)
    {
      assert xs[k..][1..] == xs[k + 1..];
      r := r[Value(xs[k]) := v];
    }
    assert xs[|xs|..] == [];
  }

  /** `part2`: the sum of memory after running with the version 2 decoder. */
  method Part2(prog: seq<Instruction>) returns (r: nat)
    ensures r == Total(Run2(prog, NoMask, map[]))
  {
    var memory: Memory := map[];
    var mask := NoMask;
    for k := 0 to |prog|
      invariant Run2(prog, NoMask, map[]) == Run2(prog[k..], mask, memory)
    {
      assert prog[k..][1..] == prog[k + 1..];
      match prog[k]
      case SetMask(m) =>
        mask := m;
      case Write(addr, val) =>
        var addrs := What(ToWord(addr), mask);
        memory := WriteEach(memory, addrs, val);
    }
    assert prog[|prog|..] == [];
    r := Sum(memory);
  }

  // ---------------------------------------------------------------- parsing

  /** A mask character: '0' and '1' force a bit, 'X' leaves it floating. */
  function MaskBit(c: char): Option<Option<bool>>
  {
    match c
    case '0' => Some(Some(false))
    case '1' => Some(Some(true))
    case 'X' => Some(None)
    case _ => None
  }

  function BitChar(b: Option<bool>): (c: char)
    ensures MaskBit(c) == Some(b)
  {
    match b
    case Some(false) => '0'
    case Some(true) => '1'
    case None => 'X'
  }

  /** The mask loop from character i on: each character is read before its
      slot is indexed, so a bad character at index 36 is an error while a
      good one overruns the array. */
  function Fill(cs: string, i: nat, acc: Mask): Result<Mask>
    requires i <= |cs|
    decreases |cs| - i
  {
    if i == |cs| then Ok(acc)
    else match MaskBit(cs[i])
      case None => Err("bad mask bit")
      case Some(b) =>
        if i >= Width then Panic("index out of bounds: the len is 36")
        else Fill(cs, i + 1, acc[i := b])
  }

  /** Every character before index n is a mask character. */
  predicate GoodUpTo(cs: string, n: nat)
  {
    forall j :: 0 <= j < n && j < |cs| ==> MaskBit(cs[j]).Some?
  }

  /** The loop's outcome: a mask when the text is at most 36 mask
      characters (missing low bits stay 'X'), an error when a bad character
      comes at or before index 36, and a panic when 37 good characters
      come first. */
  lemma {:induction false} FillOutcome(cs: string, i: nat, acc: Mask)
    requires i <= |cs| && i <= Width
    requires GoodUpTo(cs, i)
    ensures Fill(cs, i, acc).Ok? <==> |cs| <= Width && GoodUpTo(cs, |cs|)
    ensures Fill(cs, i, acc).Panic? <==> |cs| > Width && GoodUpTo(cs, Width + 1)
    ensures Fill(cs, i, acc).Ok? ==> forall j :: 0 <= j < Width ==>
      Fill(cs, i, acc).value[j] == if j < i then acc[j] else if j < |cs| then MaskBit(cs[j]).value else acc[j]
    decreases |cs| - i
  {
    if i < |cs| && MaskBit(cs[i]).Some? && i < Width {
      FillOutcome(cs, i + 1, acc[i := MaskBit(cs[i]).value]);
    }
  }

  /** The mask loop over the text after "mask = ". */
  method ReadMask(cs: string) returns (r: Result<Mask>)
    ensures r == Fill(cs, 0, NoMask)
  {
    var mask := NoMask;
    for i := 0 to |cs|
      invariant Fill(cs, 0, NoMask) == Fill(cs, i, mask)
    {
      match MaskBit(cs[i])
      case None =>
        return Err("bad mask bit");
      case Some(b) =>
        if i >= Width {
          return Panic("index out of bounds: the len is 36");
        }
        mask := mask[i := b];
    }
    return Ok(mask);
  }

  /** `Instruction::from_str`, dispatching on the first three characters. */
  function ParseInstruction(s: string): Result<Instruction>
  {
    if |s| < 3 then Panic("byte index 3 is out of range")
    else if s[..3] == "mas" then
      if |s| < 7 then Panic("byte index 7 is out of range")
      else match Fill(s[7..], 0, NoMask)
        case Ok(m) => Ok(SetMask(m))
        case Err(e) => Err(e)
        case Panic(e) => Panic(e)
    else if s[..3] == "mem" then
      match Find(s, ']')
      case None => Err("bad write syntax")
      case Some(bracket) =>
        if bracket < 4 then Panic("slice index starts at 4 but ends before it")
        else match ParseNat(s[4..bracket], U64Max)
          case None => Err("invalid digit found in string")
          case Some(addr) =>
            if bracket + 4 > |s| then Panic("byte index out of range")
            else match ParseNat(s[bracket + 4..], U64Max)
              case None => Err("invalid digit found in string")
              case Some(val) => Ok(Write(addr, val))
    else Err("bad instr")
  }

  /** An instruction as the puzzle input writes it. */
  function ShowInstruction(i: Instruction): string
  {
    match i
    case SetMask(m) => "mask = " + seq(Width, j requires 0 <= j < Width => BitChar(m[j]))
    case Write(a, v) => "mem[" + ShowNat(a) + "] = " + ShowNat(v)
  }

  /** Reading back a written instruction gives it again. */
  lemma RoundTrip(i: Instruction)
    requires i.Write? ==> i.addr <= U64Max && i.val <= U64Max
    ensures ParseInstruction(ShowInstruction(i)) == Ok(i)
  {
    var s := ShowInstruction(i);
    match i
    case SetMask(m) =>
      var cs := s[7..];
      assert s[..3] == "mas";
      FillOutcome(cs, 0, NoMask);
      assert Fill(cs, 0, NoMask).value == m;
    case Write(a, v) =>
      var da, dv := ShowNat(a), ShowNat(v);
      var bracket := 4 + |da|;
      assert s[..3] == "mem";
      assert s[bracket] == ']';
      assert ']' !in s[..bracket] by {
        assert s[..bracket] == "mem[" + da;
      }
      assert Find(s, ']') == Some(bracket);
      assert s[4..bracket] == da;
      assert s[bracket + 4..] == dv;
      ParseShowNat(a, U64Max);
      ParseShowNat(v, U64Max);
  }

  /** Setting bit i to b moves the value by 2^i. */
  lemma {:induction false} ValueSet(w: seq<bool>, i: nat, b: bool)
    requires i < |w|
    ensures Value(w[i := b]) + (if w[i] then Pow2(i) else 0) == Value(w) + (if b then Pow2(i) else 0)
  {
    if i > 0 {
      ValueSet(w[1..], i - 1, b);
      assert w[i := b][1..] == w[1..][i - 1 := b];
    }
  }

  /** A small value fits a word unchanged. */
  lemma SmallWord(n: nat)
    requires n < 256
    ensures Value(ToWord(n)) == n
  {
    assert Pow2(8) == 256;
    Grow(8, 64);
    ValueBits(n, 64);
  }

  lemma {:induction false} Grow(j: nat, k: nat)
    requires j <= k
    ensures Pow2(j) <= Pow2(k)
  {
    if j < k { Grow(j, k - 1); }
  }

  /** The low j of k bits are the j-bit form. */
  lemma {:induction false} BitsPrefix(n: nat, k: nat, j: nat)
    requires j <= k
    ensures Bits(n, k)[..j] == Bits(n, j)
  {
    if j > 0 {
      BitsPrefix(n / 2, k - 1, j - 1);
    }
  }

  // ---------------------------------------------------------------- samples

  /** The part 1 sample mask, XXXXXXXXXXXXXXXXXXXXXXXXXXXXX1XXXX0X. */
  const SampleMask1: Mask := seq(Width, i requires 0 <= i < Width =>
    if i == 29 then Some(true) else if i == 34 then Some(false) else None)

  /** It forces bit 6 on and bit 1 off. */
  lemma Sample1Masks(w: Word)
    ensures Masked(w, SampleMask1) == w[6 := true][1 := false]
  {
    forall i | 0 <= i < WordBits ensures Masked(w, SampleMask1)[i] == w[6 := true][1 := false][i] {
      if i < Width {
        assert At(SampleMask1, i) == SampleMask1[35 - i];
      }
    }
  }

  /** Applies the sample mask to a value below 128. */
  lemma Sample1Value(v: nat, v': nat)
    requires v < 128
    requires v' + (if Bits(v, 7)[1] then 2 else 0) == v + (if Bits(v, 7)[6] then 0 else 64)
    ensures Value(Masked(ToWord(v), SampleMask1)) == v'
  {
    var w := ToWord(v);
    Sample1Masks(w);
    SmallWord(v);
    BitsPrefix(v, 64, 7);
    assert w[1] == Bits(v, 7)[1] && w[6] == Bits(v, 7)[6];
    assert Pow2(6) == 64 && Pow2(1) == 2;
    ValueSet(w, 6, true);
    ValueSet(w[6 := true], 1, false);
  }

  lemma Sample11()
    ensures Value(Masked(ToWord(11), SampleMask1)) == 73
  {
    assert Bits(11, 7) == [true, true, false, true, false, false, false];
    Sample1Value(11, 73);
  }

  lemma Sample101()
    ensures Value(Masked(ToWord(101), SampleMask1)) == 101
  {
    assert Bits(101, 7) == [true, false, true, false, false, true, true];
    Sample1Value(101, 101);
  }

  lemma Sample0()
    ensures Value(Masked(ToWord(0), SampleMask1)) == 64
  {
    assert Bits(0, 7) == [false, false, false, false, false, false, false];
    Sample1Value(0, 64);
  }

  lemma Run1SetMask(p: seq<Instruction>, m: Mask, mask: Mask, mem: Memory)
    requires p != [] && p[0] == SetMask(m)
    ensures Run1(p, mask, mem) == Run1(p[1..], m, mem)
  {
  }

  lemma Run1Write(p: seq<Instruction>, a: nat, v: nat, mask: Mask, mem: Memory)
    requires p != [] && p[0] == Write(a, v)
    ensures Run1(p, mask, mem) == Run1(p[1..], mask, mem[a := Value(Masked(ToWord(v), mask))])
  {
  }

  lemma SampleRun1()
    ensures Run1([SetMask(SampleMask1), Write(8, 11), Write(7, 101), Write(8, 0)], NoMask, map[]) == map[8 := 64, 7 := 101]
  {
    Sample11();
    Sample101();
    Sample0();
    var p := [SetMask(SampleMask1), Write(8, 11), Write(7, 101), Write(8, 0)];
    var m0: Memory := map[];
    var m1 := m0[8 := 73];
    var m2 := m1[7 := 101];
    var p1, p2, p3 := p[1..], p[2..], p[3..];
    assert p1[1..] == p2 && p2[1..] == p3 && p3[1..] == [];
    Run1SetMask(p, SampleMask1, NoMask, m0);
    Run1Write(p1, 8, 11, SampleMask1, m0);
    Run1Write(p2, 7, 101, SampleMask1, m1);
    Run1Write(p3, 8, 0, SampleMask1, m2);
    assert Run1([], SampleMask1, m2[8 := 64]) == m2[8 := 64];
    assert m2[8 := 64] == map[8 := 64, 7 := 101];
  }

  /** The part 1 sample: memory sums to 165. */
  lemma SamplePart1()
    ensures Total(Run1([SetMask(SampleMask1), Write(8, 11), Write(7, 101), Write(8, 0)], NoMask, map[])) == 165
  {
    SampleRun1();
    var m: Memory := map[8 := 64, 7 := 101];
    TotalPick(m, 8);
    var m': Memory := m - {8};
    assert m' == map[7 := 101];
    TotalPick(m', 7);
    assert m' - {7} == map[];
  }

  /** The part 2 sample masks, 000000000000000000000000000000X1001X and
      00000000000000000000000000000000X0XX. */
  const SampleMask2a: Mask := seq(Width, i requires 0 <= i < Width =>
    if i == 30 || i == 35 then None else Some(i == 31 || i == 34))
  const SampleMask2b: Mask := seq(Width, i requires 0 <= i < Width =>
    if i == 32 || i == 34 || i == 35 then None else Some(false))

  lemma Sample2Forced(w: Word)
    ensures Forced(w, SampleMask2a) == w[4 := true][1 := true]
    ensures Forced(w, SampleMask2b) == w
  {
    forall i | 0 <= i < WordBits ensures Forced(w, SampleMask2a)[i] == w[4 := true][1 := true][i] {
      if i < Width {
        assert At(SampleMask2a, i) == SampleMask2a[35 - i];
      }
    }
    forall i | 0 <= i < WordBits ensures Forced(w, SampleMask2b)[i] == w[i] {
      if i < Width {
        assert At(SampleMask2b, i) == SampleMask2b[35 - i];
      }
    }
  }

  /** Positions without an 'X' add no floating bits. */
  lemma {:induction false} FloatingFixed(m: Mask, n: nat, n': nat)
    requires n <= n' <= Width
    requires forall i :: n <= i < n' ==> At(m, i).Some?
    ensures Floating(m, n') == Floating(m, n)
    decreases n' - n
  {
    if n < n' {
      FloatingFixed(m, n, n' - 1);
    }
  }

  lemma Sample2aHigh()
    ensures forall i :: 6 <= i < Width ==> At(SampleMask2a, i).Some?
  {
    forall i | 6 <= i < Width ensures At(SampleMask2a, i).Some? {
      assert At(SampleMask2a, i) == SampleMask2a[35 - i];
    }
  }

  lemma Sample2aLow()
    ensures Floating(SampleMask2a, 6) == [0, 5]
  {
    assert At(SampleMask2a, 0) == None && At(SampleMask2a, 5) == None;
    assert At(SampleMask2a, 1) == Some(true) && At(SampleMask2a, 2) == Some(false);
    assert At(SampleMask2a, 3) == Some(false) && At(SampleMask2a, 4) == Some(true);
    assert Floating(SampleMask2a, 1) == [0];
    FloatingFixed(SampleMask2a, 1, 5);
  }

  lemma Sample2aFloating()
    ensures Floating(SampleMask2a, Width) == [0, 5]
  {
    Sample2aHigh();
    FloatingFixed(SampleMask2a, 6, Width);
    Sample2aLow();
  }

  lemma Sample2bHigh()
    ensures forall i :: 4 <= i < Width ==> At(SampleMask2b, i).Some?
  {
    forall i | 4 <= i < Width ensures At(SampleMask2b, i).Some? {
      assert At(SampleMask2b, i) == SampleMask2b[35 - i];
    }
  }

  lemma Sample2bFloating()
    ensures Floating(SampleMask2b, Width) == [0, 1, 3]
  {
    Sample2bHigh();
    FloatingFixed(SampleMask2b, 4, Width);
    assert At(SampleMask2b, 0) == None && At(SampleMask2b, 1) == None;
    assert At(SampleMask2b, 2) == Some(false) && At(SampleMask2b, 3) == None;
    assert Floating(SampleMask2b, 2) == [0, 1];
  }

  /** One more floating bit: the list so far with it set, then with it clear. */
  lemma ExpandSnoc(base: Word, ps: seq<nat>, p: nat)
    requires p < WordBits && forall k :: 0 <= k < |ps| ==> ps[k] < WordBits
    ensures Expand(base, ps + [p]) == SetAll(Expand(base, ps), p, true) + SetAll(Expand(base, ps), p, false)
  {
    var prev := Expand(base, ps);
    var ones := SetAll(prev, p, true);
    assert (ps + [p])[..|ps|] == ps;
    forall j | 0 <= j < |prev| ensures SetAll(ones, p, false)[j] == SetAll(prev, p, false)[j] {
      assert ones[j][p := false] == prev[j][p := false];
    }
  }

  /** Value and two bits of word w after setting bits i and j. */
  lemma Flip2(w: Word, v: nat, i: nat, j: nat, bi: bool, bj: bool, v': nat)
    requires i < WordBits && j < WordBits && i != j && Value(w) == v
    requires v' + (if w[i] then Pow2(i) else 0) + (if w[j] then Pow2(j) else 0)
      == v + (if bi then Pow2(i) else 0) + (if bj then Pow2(j) else 0)
    ensures Value(w[i := bi][j := bj]) == v'
  {
    ValueSet(w, i, bi);
    ValueSet(w[i := bi], j, bj);
  }

  /** A value below 128 as a word: its value and its low seven bits. */
  lemma LowBits(v: nat)
    requires v < 128
    ensures Value(ToWord(v)) == v
    ensures forall i :: 0 <= i < 7 ==> ToWord(v)[i] == Bits(v, 7)[i]
  {
    SmallWord(v);
    BitsPrefix(v, 64, 7);
  }

  /** The first sample mask applied to an address below 128. */
  lemma Sample2Base(v: nat, v': nat)
    requires v < 128
    requires v' + (if Bits(v, 7)[4] then 16 else 0) + (if Bits(v, 7)[1] then 2 else 0) == v + 18
    ensures var f := Forced(ToWord(v), SampleMask2a);
      Value(f) == v' && f[0] == Bits(v, 7)[0] && f[5] == Bits(v, 7)[5]
  {
    var w := ToWord(v);
    LowBits(v);
    Sample2Forced(w);
    assert Pow2(1) == 2 && Pow2(4) == 16;
    Flip2(w, v, 4, 1, true, true, v');
  }

  lemma ExpandTwo(f: Word, u: nat)
    requires Value(f) == u && !f[0] && f[5]
    ensures var xs := Expand(f, [0, 5]);
      |xs| == 4 && Value(xs[0]) == u + 1 && Value(xs[1]) == u && Value(xs[2]) + 31 == u && Value(xs[3]) + 32 == u
  {
    assert [0] + [5] == [0, 5];
    ExpandSnoc(f, [], 0);
    ExpandSnoc(f, [0], 5);
    assert Pow2(0) == 1 && Pow2(5) == 32;
    ValueSet(f, 5, false);
    Flip2(f, u, 0, 5, true, true, u + 1);
    Flip2(f, u, 0, 5, false, true, u);
    Flip2(f, u, 0, 5, true, false, u - 31);
    Flip2(f, u, 0, 5, false, false, u - 32);
  }

  lemma Sample2Addresses(v: nat, v': nat)
    requires v < 128 && !Bits(v, 7)[0] && Bits(v, 7)[5]
    requires v' + (if Bits(v, 7)[4] then 16 else 0) + (if Bits(v, 7)[1] then 2 else 0) == v + 18
    ensures var xs := Expand(Forced(ToWord(v), SampleMask2a), Floating(SampleMask2a, Width));
      |xs| == 4 && Value(xs[0]) == v' + 1 && Value(xs[1]) == v' && Value(xs[2]) + 31 == v' && Value(xs[3]) + 32 == v'
  {
    Sample2Base(v, v');
    Sample2aFloating();
    ExpandTwo(Forced(ToWord(v), SampleMask2a), v');
  }

  lemma Flip3(w: Word, v: nat, bi: bool, bj: bool, bk: bool, v': nat)
    requires Value(w) == v && !w[0] && w[1] && w[3]
    requires v' + 10 == v + (if bi then 1 else 0) + (if bj then 2 else 0) + (if bk then 8 else 0)
    ensures Value(w[0 := bi][1 := bj][3 := bk]) == v'
  {
    assert Pow2(0) == 1 && Pow2(1) == 2 && Pow2(3) == 8;
    ValueSet(w, 0, bi);
    ValueSet(w[0 := bi], 1, bj);
    ValueSet(w[0 := bi][1 := bj], 3, bk);
  }

  lemma ExpandThree(f: Word, u: nat)
    requires Value(f) == u && u >= 10 && !f[0] && f[1] && f[3]
    ensures var xs := Expand(f, [0, 1, 3]);
      && |xs| == 8
      && Value(xs[0]) == u + 1 && Value(xs[1]) == u && Value(xs[2]) + 1 == u && Value(xs[3]) + 2 == u
      && Value(xs[4]) + 7 == u && Value(xs[5]) + 8 == u && Value(xs[6]) + 9 == u && Value(xs[7]) + 10 == u
  {
    assert [0] + [1] == [0, 1] && [0, 1] + [3] == [0, 1, 3];
    ExpandSnoc(f, [], 0);
    ExpandSnoc(f, [0], 1);
    ExpandSnoc(f, [0, 1], 3);
    Flip3(f, u, false, false, false, u - 10);
    Flip3(f, u, true, true, true, u + 1);
    Flip3(f, u, false, true, true, u);
    Flip3(f, u, true, false, true, u - 1);
    Flip3(f, u, false, false, true, u - 2);
    Flip3(f, u, true, true, false, u - 7);
    Flip3(f, u, false, true, false, u - 8);
    Flip3(f, u, true, false, false, u - 9);
  }

  lemma Sample2Second(v: nat)
    requires 10 <= v < 128 && !Bits(v, 7)[0] && Bits(v, 7)[1] && Bits(v, 7)[3]
    ensures var xs := Expand(Forced(ToWord(v), SampleMask2b), Floating(SampleMask2b, Width));
      && |xs| == 8
      && Value(xs[0]) == v + 1 && Value(xs[1]) == v && Value(xs[2]) + 1 == v && Value(xs[3]) + 2 == v
      && Value(xs[4]) + 7 == v && Value(xs[5]) + 8 == v && Value(xs[6]) + 9 == v && Value(xs[7]) + 10 == v
  {
    LowBits(v);
    Sample2Forced(ToWord(v));
    Sample2bFloating();
    ExpandThree(ToWord(v), v);
  }

  /** A fresh key adds its value to the sum. */
  lemma TotalInsert(m: Memory, k: nat, v: nat)
    requires k !in m
    ensures Total(m[k := v]) == v + Total(m)
  {
    TotalPick(m[k := v], k);
    assert m[k := v] - {k} == m;
  }

  lemma Keys4(xs: seq<Word>, v: nat)
    requires |xs| == 4 && v >= 32
    requires Value(xs[0]) == v + 1 && Value(xs[1]) == v && Value(xs[2]) + 31 == v && Value(xs[3]) + 32 == v
    ensures Keys(xs) == {v + 1, v, v - 31, v - 32}
  {
    assert xs == [xs[0], xs[1], xs[2], xs[3]];
  }

  lemma SampleKeys1()
    ensures Keys(Expand(Forced(ToWord(42), SampleMask2a), Floating(SampleMask2a, Width))) == {59, 58, 27, 26}
  {
    assert Bits(42, 7) == [false, true, false, true, false, true, false];
    Sample2Addresses(42, 58);
    Keys4(Expand(Forced(ToWord(42), SampleMask2a), Floating(SampleMask2a, Width)), 58);
  }

  lemma Keys8(ys: seq<Word>, v: nat)
    requires |ys| == 8 && v >= 10
    requires Value(ys[0]) == v + 1 && Value(ys[1]) == v && Value(ys[2]) + 1 == v && Value(ys[3]) + 2 == v
    requires Value(ys[4]) + 7 == v && Value(ys[5]) + 8 == v && Value(ys[6]) + 9 == v && Value(ys[7]) + 10 == v
    ensures Keys(ys) == {v + 1, v, v - 1, v - 2, v - 7, v - 8, v - 9, v - 10}
  {
    assert ys == [ys[0], ys[1], ys[2], ys[3], ys[4], ys[5], ys[6], ys[7]];
  }

  lemma SampleKeys2()
    ensures Keys(Expand(Forced(ToWord(26), SampleMask2b), Floating(SampleMask2b, Width))) == {27, 26, 25, 24, 19, 18, 17, 16}
  {
    assert Bits(26, 7) == [false, true, false, true, true, false, false];
    Sample2Second(26);
    Keys8(Expand(Forced(ToWord(26), SampleMask2b), Floating(SampleMask2b, Width)), 26);
  }

  lemma Run2SetMask(p: seq<Instruction>, m: Mask, mask: Mask, mem: Memory)
    requires p != [] && p[0] == SetMask(m)
    ensures Run2(p, mask, mem) == Run2(p[1..], m, mem)
  {
  }

  lemma Run2Write(p: seq<Instruction>, a: nat, v: nat, mask: Mask, mem: Memory)
    requires p != [] && p[0] == Write(a, v)
    ensures Run2(p, mask, mem) == Run2(p[1..], mask, WriteAll(mem, Expand(Forced(ToWord(a), mask), Floating(mask, Width)), v))
  {
  }

  /** Two masked writes, each under its own mask. */
  lemma TwoWrites(m1: Mask, a1: nat, v1: nat, m2: Mask, a2: nat, v2: nat)
    ensures Run2([SetMask(m1), Write(a1, v1), SetMask(m2), Write(a2, v2)], NoMask, map[])
      == WriteAll(WriteAll(map[], Expand(Forced(ToWord(a1), m1), Floating(m1, Width)), v1),
                  Expand(Forced(ToWord(a2), m2), Floating(m2, Width)), v2)
  {
    var p := [SetMask(m1), Write(a1, v1), SetMask(m2), Write(a2, v2)];
    var mem0: Memory := map[];
    var mem1 := WriteAll(mem0, Expand(Forced(ToWord(a1), m1), Floating(m1, Width)), v1);
    var mem2 := WriteAll(mem1, Expand(Forced(ToWord(a2), m2), Floating(m2, Width)), v2);
    var p1, p2, p3 := p[1..], p[2..], p[3..];
    assert p1[1..] == p2 && p2[1..] == p3 && p3[1..] == [];
    Run2SetMask(p, m1, NoMask, mem0);
    Run2Write(p1, a1, v1, m1, mem0);
    Run2SetMask(p2, m2, m1, mem1);
    Run2Write(p3, a2, v2, m2, mem1);
    assert Run2([], m2, mem2) == mem2;
  }

  lemma WriteAllCons(mem: Memory, xs: seq<Word>, v: nat)
    requires xs != []
    ensures WriteAll(mem, xs, v) == WriteAll(mem[Value(xs[0]) := v], xs[1..], v)
  {
  }

  /** Four writes of v, in order. */
  lemma WriteAll4(mem: Memory, xs: seq<Word>, v: nat)
    requires |xs| == 4
    ensures WriteAll(mem, xs, v)
      == mem[Value(xs[0]) := v][Value(xs[1]) := v][Value(xs[2]) := v][Value(xs[3]) := v]
  {
    var x1, x2, x3 := xs[1..], xs[2..], xs[3..];
    assert x1[1..] == x2 && x2[1..] == x3 && x3[1..] == [];
    assert x1[0] == xs[1] && x2[0] == xs[2] && x3[0] == xs[3];
    WriteAllCons(mem, xs, v);
    WriteAllCons(mem[Value(xs[0]) := v], x1, v);
    WriteAllCons(mem[Value(xs[0]) := v][Value(xs[1]) := v], x2, v);
    WriteAllCons(mem[Value(xs[0]) := v][Value(xs[1]) := v][Value(xs[2]) := v], x3, v);
  }

  lemma SampleWrites(xs: seq<Word>, ys: seq<Word>)
    requires |xs| == 4 && Value(xs[0]) == 59 && Value(xs[1]) == 58 && Value(xs[2]) == 27 && Value(xs[3]) == 26
    requires |ys| == 8 && Value(ys[0]) == 27 && Value(ys[1]) == 26 && Value(ys[2]) == 25 && Value(ys[3]) == 24
    requires Value(ys[4]) == 19 && Value(ys[5]) == 18 && Value(ys[6]) == 17 && Value(ys[7]) == 16
    ensures WriteAll(WriteAll(map[], xs, 100), ys, 1)
      == map[16 := 1, 17 := 1, 18 := 1, 19 := 1, 24 := 1, 25 := 1, 26 := 1, 27 := 1, 58 := 100, 59 := 100]
  {
    var m0: Memory := map[];
    var m1 := m0[59 := 100][58 := 100][27 := 100][26 := 100];
    WriteAll4(m0, xs, 100);
    var m2 := m1[27 := 1][26 := 1][25 := 1][24 := 1];
    WriteAll4(m1, ys[..4], 1);
    WriteAll4(m2, ys[4..], 1);
    assert ys[..4][1..] == ys[1..4];
    WriteAllSplit(m1, ys[..4], ys[4..], 1);
    assert ys[..4] + ys[4..] == ys;
  }

  lemma {:induction false} WriteAllSplit(mem: Memory, xs: seq<Word>, ys: seq<Word>, v: nat)
    ensures WriteAll(mem, xs + ys, v) == WriteAll(WriteAll(mem, xs, v), ys, v)
    decreases |xs|
  {
    if xs != [] {
      assert (xs + ys)[1..] == xs[1..] + ys;
      WriteAllSplit(mem[Value(xs[0]) := v], xs[1..], ys, v);
    } else {
      assert xs + ys == ys;
    }
  }

  /** The addresses of the first sample write, in the order they are written. */
  lemma FirstAddresses()
    ensures var xs := Expand(Forced(ToWord(42), SampleMask2a), Floating(SampleMask2a, Width));
      |xs| == 4 && Value(xs[0]) == 59 && Value(xs[1]) == 58 && Value(xs[2]) == 27 && Value(xs[3]) == 26
  {
    assert Bits(42, 7) == [false, true, false, true, false, true, false];
    Sample2Addresses(42, 58);
  }

  /** The addresses of the second sample write. */
  lemma SecondAddresses()
    ensures var ys := Expand(Forced(ToWord(26), SampleMask2b), Floating(SampleMask2b, Width));
      && |ys| == 8 && Value(ys[0]) == 27 && Value(ys[1]) == 26 && Value(ys[2]) == 25 && Value(ys[3]) == 24
      && Value(ys[4]) == 19 && Value(ys[5]) == 18 && Value(ys[6]) == 17 && Value(ys[7]) == 16
  {
    assert Bits(26, 7) == [false, true, false, true, true, false, false];
    Sample2Second(26);
  }

  lemma SampleMemory2()
    ensures Run2([SetMask(SampleMask2a), Write(42, 100), SetMask(SampleMask2b), Write(26, 1)], NoMask, map[])
      == map[16 := 1, 17 := 1, 18 := 1, 19 := 1, 24 := 1, 25 := 1, 26 := 1, 27 := 1, 58 := 100, 59 := 100]
  {
    TwoWrites(SampleMask2a, 42, 100, SampleMask2b, 26, 1);
    FirstAddresses();
    SecondAddresses();
    SampleWrites(Expand(Forced(ToWord(42), SampleMask2a), Floating(SampleMask2a, Width)),
                 Expand(Forced(ToWord(26), SampleMask2b), Floating(SampleMask2b, Width)));
  }

  lemma SampleTotalLow()
    ensures Total(map[16 := 1, 17 := 1, 18 := 1, 19 := 1, 24 := 1]) == 5
  {
    var e: Memory := map[];
    TotalInsert(e, 16, 1);
    TotalInsert(e[16 := 1], 17, 1);
    TotalInsert(e[16 := 1][17 := 1], 18, 1);
    TotalInsert(e[16 := 1][17 := 1][18 := 1], 19, 1);
    TotalInsert(e[16 := 1][17 := 1][18 := 1][19 := 1], 24, 1);
  }

  lemma SampleTotal2()
    ensures Total(map[16 := 1, 17 := 1, 18 := 1, 19 := 1, 24 := 1, 25 := 1, 26 := 1, 27 := 1, 58 := 100, 59 := 100]) == 208
  {
    var low: Memory := map[16 := 1, 17 := 1, 18 := 1, 19 := 1, 24 := 1];
    SampleTotalLow();
    TotalInsert(low, 25, 1);
    TotalInsert(low[25 := 1], 26, 1);
    TotalInsert(low[25 := 1][26 := 1], 27, 1);
    TotalInsert(low[25 := 1][26 := 1][27 := 1], 58, 100);
    TotalInsert(low[25 := 1][26 := 1][27 := 1][58 := 100], 59, 100);
  }

  /** The part 2 sample: memory sums to 208. */
  lemma SamplePart2()
    ensures Total(Run2([SetMask(SampleMask2a), Write(42, 100), SetMask(SampleMask2b), Write(26, 1)], NoMask, map[])) == 208
  {
    SampleMemory2();
    SampleTotal2();
  }

  /** A line "mask = " and 36 mask characters reads as that mask. */
  lemma ParseMask(cs: string, m: Mask)
    requires |cs| == Width && forall j :: 0 <= j < Width ==> MaskBit(cs[j]) == Some(m[j])
    ensures ParseInstruction("mask = " + cs) == Ok(SetMask(m))
  {
    var s := "mask = " + cs;
    assert s[..3] == "mas" && s[7..] == cs;
    FillOutcome(cs, 0, NoMask);
    assert Fill(cs, 0, NoMask).value == m;
  }
}
