/** Day 8: the handheld console. A program is a list of `acc`, `jmp` and
    `nop` instructions with a signed argument; `run` interprets it until it
    steps exactly past the end, jumps beyond it, or is about to execute an
    instruction a second time. */
module Day08 {
  import opened Sets
  import opened Outcomes
  import opened Text

  datatype Op = Acc | Jmp | Nop

  datatype Instr = Instr(op: Op, arg: int)

  datatype Exit = Loop(acc: int) | Terminate(acc: int) | Segfault

  function OpName(op: Op): string
  {
    match op
    case Nop => "nop"
    case Acc => "acc"
    case Jmp => "jmp"
  }

  // ---------------------------------------------------------------- from_str

  /** `Instruction::from_str`: the opcode is the first three chars (slicing
      panics on a shorter line), the argument an `i32` parsed from the fifth
      char on (slicing panics on a line of three chars). */
  function ParseInstr(s: string): (r: Result<Instr>)
    ensures r.Ok? ==> |s| >= 4 && OpName(r.value.op) == s[..3] && ParseInt(s[4..], I32Min, I32Max) == Some(r.value.arg)
    ensures r.Err? <==> |s| >= 3 && (s[..3] !in {"nop", "acc", "jmp"} || (|s| >= 4 && ParseInt(s[4..], I32Min, I32Max).None?))
  {
    if |s| < 3 then Panic("byte index 3 is out of range")
    else
      var op := if s[..3] == "nop" then Some(Nop)
                else if s[..3] == "acc" then Some(Acc)
                else if s[..3] == "jmp" then Some(Jmp)
                else None;
      if op.None? then Err("bad opcode")
      else if |s| < 4 then Panic("byte index 4 is out of range")
      else match ParseInt(s[4..], I32Min, I32Max)
        case None => Err("invalid digit found in string")
        case Some(v) => Ok(Instr(op.value, v))
  }

  /** An instruction as the puzzle writes it: "jmp -3", "acc +1". */
  function Render(i: Instr): string
  {
    OpName(i.op) + " " + ShowSigned(i.arg)
  }

  /** Parsing a rendered instruction gives it back. */
  lemma RoundTrip(i: Instr)
    requires I32Min <= i.arg <= I32Max
    ensures ParseInstr(Render(i)) == Ok(i)
  {
    var s := Render(i);
    assert s[..3] == OpName(i.op);
    assert s[4..] == ShowSigned(i.arg);
    ParseShowSigned(i.arg, I32Min, I32Max);
  }

  /** The char between opcode and argument is never looked at. */
  lemma SeparatorIgnored(s: string, c: char)
    requires |s| >= 4
    ensures ParseInstr(s[..3] + [c] + s[4..]) == ParseInstr(s)
  {
    var t := s[..3] + [c] + s[4..];
    assert t[..3] == s[..3] && t[4..] == s[4..];
  }

  // ---------------------------------------------------------------- run

  /** Every place in `visited` is an instruction of a program of n. */
  predicate InProg(visited: set<int>, n: nat)
  {
    forall i :: i in visited ==> 0 <= i < n
  }

  /** The indices of a program of n instructions. */
  function Indices(n: nat): (r: set<int>)
    ensures |r| == n && InProg(r, n)
  {
    if n == 0 then {} else Indices(n - 1) + {n - 1}
  }

  /** So at most n places can have been visited. */
  lemma VisitedBound(visited: set<int>, n: nat)
    requires InProg(visited, n)
    ensures |visited| <= n
  {
    var all := Indices(n);
    forall i | i in visited ensures i in all {
      IndicesHas(n, i);
    }
    SubsetCard(visited, all);
  }

  lemma {:induction false} IndicesHas(n: nat, i: int)
    requires 0 <= i < n
    ensures i in Indices(n)
  {
    if i < n - 1 {
      IndicesHas(n - 1, i);
    }
  }

  const OutOfBounds := "index out of bounds"

  /** The next instruction pointer and accumulator after `ins`. */
  function NextIp(ins: Instr, ip: int): int
  {
    ip + (if ins.op == Jmp then ins.arg else 1)
  }

  function NextAcc(ins: Instr, acc: int): int
  {
    acc + (if ins.op == Acc then ins.arg else 0)
  }

  /** What `run` does from instruction `ip` with accumulator `acc`, once the
      instructions in `visited` have executed. A negative `ip` passes both
      bound checks and then indexes out of range: a panic. */
  function RunFrom(prog: seq<Instr>, visited: set<int>, ip: int, acc: int): (r: Result<Exit>)
    requires InProg(visited, |prog|)
    ensures r.Ok? || r == Panic(OutOfBounds)
    decreases |prog| - |visited|
  {
    if ip == |prog| then Ok(Terminate(acc))
    else if ip > |prog| then Ok(Segfault)
    else if ip < 0 then Panic(OutOfBounds)
    else if ip in visited then Ok(Loop(acc))
    else
      var ins := prog[ip];
      VisitedBound(visited + {ip}, |prog|);
      RunFrom(prog, visited + {ip}, NextIp(ins, ip), NextAcc(ins, acc))
  }

  /** Executing one fresh instruction. */
  lemma RunFromStep(prog: seq<Instr>, visited: set<int>, ip: int, acc: int)
    requires InProg(visited, |prog|) && 0 <= ip < |prog| && ip !in visited
    ensures InProg(visited + {ip}, |prog|)
    ensures RunFrom(prog, visited, ip, acc) == RunFrom(prog, visited + {ip}, NextIp(prog[ip], ip), NextAcc(prog[ip], acc))
  {
  }

  /** What `run` returns for a whole program. */
  function RunSpec(prog: seq<Instr>): Result<Exit>
  {
    RunFrom(prog, {}, 0, 0)
  }

  /** `run`: marks each instruction in `executed_instrs` as it executes it.
      No instruction runs twice, so at most `prog.len()` instructions run. */
  method Run(prog: seq<Instr>) returns (r: Result<Exit>, ghost steps: nat)
    ensures r == RunSpec(prog)
    ensures steps <= |prog|
  {
    var acc := 0;
    var executed := new nat[|prog|](_ => 0);
    var ip := 0;
    ghost var visited: set<int> := {};
    steps := 0;
    while true
      invariant InProg(visited, |prog|)
      invariant forall i :: 0 <= i < |prog| ==> (executed[i] != 0 <==> i in visited) && executed[i] <= 1
      invariant steps == |visited|
      invariant RunSpec(prog) == RunFrom(prog, visited, ip, acc)
      decreases |prog| - |visited|
    {
      VisitedBound(visited, |prog|);
      if ip == |prog| {
        return Ok(Terminate(acc)), steps;
      } else if ip > |prog| {
        return Ok(Segfault), steps;
      } else if ip < 0 {
        return Panic(OutOfBounds), steps;
      } else if executed[ip] != 0 {
        return Ok(Loop(acc)), steps;
      }
      RunFromStep(prog, visited, ip, acc);
      executed[ip] := executed[ip] + 1;
      visited := visited + {ip};
      steps := steps + 1;
      var instr := prog[ip];
      if instr.op == Acc {
        acc := acc + instr.arg;
      }
      ip := ip + if instr.op == Jmp then instr.arg else 1;
    }
  }

  // ---------------------------------------------------------------- traces

  datatype State = State(ip: int, acc: int)

  /** One instruction: `acc` adds to the accumulator, `jmp` moves by its
      argument, the others move by one. Outside the program nothing moves. */
  function Step(prog: seq<Instr>, s: State): State
  {
    if 0 <= s.ip < |prog| then
      State(NextIp(prog[s.ip], s.ip), NextAcc(prog[s.ip], s.acc))
    else s
  }

  /** The state after n instructions from the start. */
  function Iter(prog: seq<Instr>, n: nat): State
  {
    if n == 0 then State(0, 0) else Step(prog, Iter(prog, n - 1))
  }

  /** The places of the first k instructions executed. */
  function IpsBefore(prog: seq<Instr>, k: nat): set<int>
  {
    if k == 0 then {} else IpsBefore(prog, k - 1) + {Iter(prog, k - 1).ip}
  }

  lemma {:induction false} IpsBeforeSound(prog: seq<Instr>, k: nat, x: int)
    requires x in IpsBefore(prog, k)
    ensures exists m :: 0 <= m < k && Iter(prog, m).ip == x
  {
    if x in IpsBefore(prog, k - 1) {
      IpsBeforeSound(prog, k - 1, x);
    } else {
      assert Iter(prog, k - 1).ip == x;
    }
  }

  lemma {:induction false} IpsBeforeComplete(prog: seq<Instr>, k: nat, m: nat)
    requires m < k
    ensures Iter(prog, m).ip in IpsBefore(prog, k)
  {
    if m < k - 1 {
      IpsBeforeComplete(prog, k - 1, m);
    }
  }

  /** The first n instructions executed were all inside the program and at
      distinct places. */
  ghost predicate Clean(prog: seq<Instr>, n: nat)
  {
    (forall m :: 0 <= m < n ==> 0 <= Iter(prog, m).ip < |prog|) &&
    (forall m1, m2 :: 0 <= m1 < m2 < n ==> Iter(prog, m1).ip != Iter(prog, m2).ip)
  }

  /** What the state after n clean steps means for the result. */
  ghost predicate Ends(prog: seq<Instr>, n: nat, r: Result<Exit>)
  {
    var s := Iter(prog, n);
    match r
    case Ok(Terminate(a)) => s == State(|prog|, a)
    case Ok(Segfault) => s.ip > |prog|
    case Ok(Loop(a)) => s.acc == a && exists m :: 0 <= m < n && Iter(prog, m).ip == s.ip
    case Panic(_) => s.ip < 0
    case Err(_) => false
  }

  /** The instruction trace explains the result: after some number of
      steps, none of them repeated, the program sits exactly at its end
      (`Terminate`), beyond it (`Segfault`), before its start (a panic), or
      at an instruction it has already executed (`Loop`). */
  ghost predicate Explains(prog: seq<Instr>, r: Result<Exit>)
  {
    exists n :: Clean(prog, n) && Ends(prog, n, r)
  }

  lemma {:induction false} RunFromTrace(prog: seq<Instr>, visited: set<int>, k: nat)
    requires InProg(visited, |prog|)
    requires Clean(prog, k)
    requires visited == IpsBefore(prog, k)
    ensures Explains(prog, RunFrom(prog, visited, Iter(prog, k).ip, Iter(prog, k).acc))
    decreases |prog| - |visited|
  {
    var s := Iter(prog, k);
    var r := RunFrom(prog, visited, s.ip, s.acc);
    if s.ip == |prog| || s.ip > |prog| || s.ip < 0 {
      assert Ends(prog, k, r);
    } else if s.ip in visited {
      IpsBeforeSound(prog, k, s.ip);
      var m :| 0 <= m < k && Iter(prog, m).ip == s.ip;
      assert Ends(prog, k, r);
    } else {
      var next := visited + {s.ip};
      CleanExtend(prog, k);
      RunFromStep(prog, visited, s.ip, s.acc);
      VisitedBound(next, |prog|);
      RunFromTrace(prog, next, k + 1);
    }
  }

  /** A fresh place in range extends a clean prefix by one step. */
  lemma CleanExtend(prog: seq<Instr>, k: nat)
    requires Clean(prog, k)
    requires 0 <= Iter(prog, k).ip < |prog| && Iter(prog, k).ip !in IpsBefore(prog, k)
    ensures Clean(prog, k + 1)
  {
    forall m | 0 <= m < k ensures Iter(prog, m).ip != Iter(prog, k).ip {
      IpsBeforeComplete(prog, k, m);
    }
  }

  /** `run`'s result is explained by the trace of the program. */
  lemma RunExplained(prog: seq<Instr>)
    ensures Explains(prog, RunSpec(prog))
  {
    RunFromTrace(prog, {}, 0);
  }

  // ---------------------------------------------------------------- parts

  /** `part1`: the accumulator when the program loops; any other exit panics. */
  method Part1(prog: seq<Instr>) returns (r: Result<int>)
    ensures r.Ok? || r.Panic?
    ensures r.Ok? <==> RunSpec(prog).Ok? && RunSpec(prog).value.Loop?
    ensures r.Ok? ==> r.value == RunSpec(prog).value.acc
  {
    var exit, _ := Run(prog);
    match exit {
      case Ok(Loop(acc)) => return Ok(acc);
      case Panic(m) => return Panic(m);
      case _ => return Panic("Program should have looped");
    }
  }

  function Flip(op: Op): Op
  {
    match op
    case Nop => Jmp
    case Jmp => Nop
    case Acc => Acc
  }

  /** The program with the op at i swapped between `nop` and `jmp`. */
  function Patched(prog: seq<Instr>, i: nat): seq<Instr>
    requires i < |prog|
  {
    prog[i := prog[i].(op := Flip(prog[i].op))]
  }

  const NoFix := "No modified versions terminated"

  /** The search `part2` makes from index i on: skip `acc`, try each flip,
      stop at the first terminating run (or at a panicking one). */
  function Search(prog: seq<Instr>, i: nat): Result<int>
    requires i <= |prog|
    decreases |prog| - i
  {
    if i == |prog| then Panic(NoFix)
    else if prog[i].op == Acc then Search(prog, i + 1)
    else match RunSpec(Patched(prog, i))
      case Ok(Terminate(a)) => Ok(a)
      case Panic(m) => Panic(m)
      case _ => Search(prog, i + 1)
  }

  /** The flip at i neither terminates nor crashes. */
  predicate Fails(prog: seq<Instr>, i: nat)
    requires i < |prog|
  {
    prog[i].op == Acc || (RunSpec(Patched(prog, i)).Ok? && !RunSpec(Patched(prog, i)).value.Terminate?)
  }

  /** A successful search names the first flip whose run terminates; the
      "no fix" panic means no flip terminates. */
  lemma {:induction false} SearchFinds(prog: seq<Instr>, i: nat)
    requires i <= |prog|
    ensures Search(prog, i).Ok? ==>
      exists j :: i <= j < |prog| && prog[j].op != Acc &&
        RunSpec(Patched(prog, j)) == Ok(Terminate(Search(prog, i).value)) &&
        forall l :: i <= l < j ==> Fails(prog, l)
    ensures Search(prog, i) == Panic(NoFix) ==> forall l :: i <= l < |prog| ==> Fails(prog, l)
    decreases |prog| - i
  {
    if i < |prog| {
      SearchFinds(prog, i + 1);
      if prog[i].op == Acc || (RunSpec(Patched(prog, i)).Ok? && !RunSpec(Patched(prog, i)).value.Terminate?) {
        assert Fails(prog, i);
        assert Search(prog, i) == Search(prog, i + 1);
      } else if RunSpec(Patched(prog, i)).Ok? {
        assert Search(prog, i) == Ok(RunSpec(Patched(prog, i)).value.acc);
      } else {
        assert Search(prog, i) == Panic(OutOfBounds);
      }
    }
  }

  /** `part2`: flips one `nop`/`jmp` at a time in place and restores it when
      the run does not terminate, so every attempt sees the original program
      but for one op; the terminating one is left flipped. */
  method Part2(prog: array<Instr>) returns (r: Result<int>)
    modifies prog
    ensures r == Search(old(prog[..]), 0)
    ensures r == Panic(NoFix) ==> prog[..] == old(prog[..])
    ensures r != Panic(NoFix) ==> exists i :: 0 <= i < prog.Length && prog[..] == Patched(old(prog[..]), i)
  {
    ghost var orig := prog[..];
    for i := 0 to prog.Length
      invariant prog[..] == orig
      invariant Search(orig, 0) == Search(orig, i)
    {
      var swapped := match prog[i].op
        case Nop => Some(Jmp)
        case Jmp => Some(Nop)
        case Acc => None;
      if swapped.None? {
        continue;
      }
      var original := prog[i].op;
      prog[i] := prog[i].(op := swapped.value);
      assert prog[..] == Patched(orig, i);
      var exit, _ := Run(prog[..]);
      if exit.Ok? && exit.value.Terminate? {
        return Ok(exit.value.acc);
      }
      if exit.Panic? {
        return Panic(OutOfBounds);
      }
      prog[i] := prog[i].(op := original);
      assert prog[..] == orig;
    }
    return Panic(NoFix);
  }

  // ---------------------------------------------------------------- example

  const Sample: seq<Instr> := [
    Instr(Nop, 0), Instr(Acc, 1), Instr(Jmp, 4), Instr(Acc, 3), Instr(Jmp, -3),
    Instr(Acc, -99), Instr(Acc, 1), Instr(Jmp, -4), Instr(Acc, 6)
  ]

  /** The example loops with 5 in the accumulator: it runs 0, 1, 2, 6, 7,
      3, 4 and comes back to 1. */
  lemma SamplePart1()
    ensures RunSpec(Sample) == Ok(Loop(5))
  {
    var p := Sample;
    RunFromStep(p, {}, 0, 0);
    assert {} + {0} == {0};
    RunFromStep(p, {0}, 1, 0);
    assert {0} + {1} == {0, 1};
    RunFromStep(p, {0, 1}, 2, 1);
    assert {0, 1} + {2} == {0, 1, 2};
    RunFromStep(p, {0, 1, 2}, 6, 1);
    assert {0, 1, 2} + {6} == {0, 1, 2, 6};
    RunFromStep(p, {0, 1, 2, 6}, 7, 2);
    assert {0, 1, 2, 6} + {7} == {0, 1, 2, 6, 7};
    RunFromStep(p, {0, 1, 2, 6, 7}, 3, 2);
    assert {0, 1, 2, 6, 7} + {3} == {0, 1, 2, 6, 7, 3};
    RunFromStep(p, {0, 1, 2, 6, 7, 3}, 4, 5);
    assert {0, 1, 2, 6, 7, 3} + {4} == {0, 1, 2, 6, 7, 3, 4};
    assert RunFrom(p, {0, 1, 2, 6, 7, 3, 4}, 1, 5) == Ok(Loop(5));
  }

  /** The four flips of the example: three loop, the last terminates. */
  lemma SampleFlip0()
    ensures RunSpec(Patched(Sample, 0)) == Ok(Loop(0))
  {
    var p := Patched(Sample, 0);
    RunFromStep(p, {}, 0, 0);
    assert {} + {0} == {0};
    assert RunFrom(p, {0}, 0, 0) == Ok(Loop(0));
  }

  lemma SampleFlip2()
    ensures RunSpec(Patched(Sample, 2)) == Ok(Loop(4))
  {
    var p := Patched(Sample, 2);
    RunFromStep(p, {}, 0, 0);
    assert {} + {0} == {0};
    RunFromStep(p, {0}, 1, 0);
    assert {0} + {1} == {0, 1};
    RunFromStep(p, {0, 1}, 2, 1);
    assert {0, 1} + {2} == {0, 1, 2};
    RunFromStep(p, {0, 1, 2}, 3, 1);
    assert {0, 1, 2} + {3} == {0, 1, 2, 3};
    RunFromStep(p, {0, 1, 2, 3}, 4, 4);
    assert {0, 1, 2, 3} + {4} == {0, 1, 2, 3, 4};
    assert RunFrom(p, {0, 1, 2, 3, 4}, 1, 4) == Ok(Loop(4));
  }

  lemma SampleFlip4()
    ensures RunSpec(Patched(Sample, 4)) == Ok(Loop(-94))
  {
    var p := Patched(Sample, 4);
    RunFromStep(p, {}, 0, 0);
    assert {} + {0} == {0};
    RunFromStep(p, {0}, 1, 0);
    assert {0} + {1} == {0, 1};
    RunFromStep(p, {0, 1}, 2, 1);
    assert {0, 1} + {2} == {0, 1, 2};
    RunFromStep(p, {0, 1, 2}, 6, 1);
    assert {0, 1, 2} + {6} == {0, 1, 2, 6};
    RunFromStep(p, {0, 1, 2, 6}, 7, 2);
    assert {0, 1, 2, 6} + {7} == {0, 1, 2, 6, 7};
    RunFromStep(p, {0, 1, 2, 6, 7}, 3, 2);
    assert {0, 1, 2, 6, 7} + {3} == {0, 1, 2, 6, 7, 3};
    RunFromStep(p, {0, 1, 2, 6, 7, 3}, 4, 5);
    assert {0, 1, 2, 6, 7, 3} + {4} == {0, 1, 2, 6, 7, 3, 4};
    RunFromStep(p, {0, 1, 2, 6, 7, 3, 4}, 5, 5);
    assert {0, 1, 2, 6, 7, 3, 4} + {5} == {0, 1, 2, 6, 7, 3, 4, 5};
    assert RunFrom(p, {0, 1, 2, 6, 7, 3, 4, 5}, 6, -94) == Ok(Loop(-94));
  }

  lemma SampleFlip7()
    ensures RunSpec(Patched(Sample, 7)) == Ok(Terminate(8))
  {
    var p := Patched(Sample, 7);
    RunFromStep(p, {}, 0, 0);
    assert {} + {0} == {0};
    RunFromStep(p, {0}, 1, 0);
    assert {0} + {1} == {0, 1};
    RunFromStep(p, {0, 1}, 2, 1);
    assert {0, 1} + {2} == {0, 1, 2};
    RunFromStep(p, {0, 1, 2}, 6, 1);
    assert {0, 1, 2} + {6} == {0, 1, 2, 6};
    RunFromStep(p, {0, 1, 2, 6}, 7, 2);
    assert {0, 1, 2, 6} + {7} == {0, 1, 2, 6, 7};
    RunFromStep(p, {0, 1, 2, 6, 7}, 8, 2);
    assert {0, 1, 2, 6, 7} + {8} == {0, 1, 2, 6, 7, 8};
    assert RunFrom(p, {0, 1, 2, 6, 7, 8}, 9, 8) == Ok(Terminate(8));
  }

  /** Flipping the `jmp` at 7 is the first fix; the fixed program ends
      with 8 in the accumulator. */
  lemma SamplePart2()
    ensures Search(Sample, 0) == Ok(8)
  {
    SampleFlip0();
    SampleFlip2();
    SampleFlip4();
    SampleFlip7();
    assert Search(Sample, 7) == Ok(8);
    assert Search(Sample, 4) == Search(Sample, 7);
    assert Search(Sample, 2) == Search(Sample, 4);
  }
}
