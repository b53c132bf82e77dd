/** Day 18: operator precedence. Each line is an expression of single-digit
    numbers, '+', '*' and parentheses. `eval` converts it to reverse Polish
    notation with a shunting yard (in which '+' and '*' either share one
    precedence level or, in advanced mode, '+' binds tighter) and then runs
    the notation on a value stack.

    The model proves the evaluator against a grammar: an expression tree
    written out as tokens evaluates to the tree's value, where the trees of
    the plain mode are left-nested chains of operands and those of the
    advanced mode are products of sums. */
module Day18 {
  import opened Outcomes
  import opened Text

  datatype Token = Add | Mul | Open | Close | Num(n: nat)

  predicate IsOp(t: Token)
  {
    t == Add || t == Mul
  }

  // ---------------------------------------------------------------------
  // Tokenizing

  /** The token a character stands for, if it stands for one. */
  function TokenOf(c: char): Option<Token>
  {
    if IsDigit(c) then Some(Num(DigitValue(c)))
    else if c == '*' then Some(Mul)
    else if c == '+' then Some(Add)
    else if c == '(' then Some(Open)
    else if c == ')' then Some(Close)
    else None
  }

  /** The tokens of a line, spaces dropped; any other character panics. */
  function Tokenize(s: string): (r: Result<seq<Token>>)
    ensures r.Ok? ==> |r.value| <= |s|
  {
    if s == [] then Ok([])
    else if s[0] == ' ' then Tokenize(s[1..])
    else match TokenOf(s[0])
      case None => Panic("unexpected char: " + ShowNat(s[0] as nat))
      case Some(t) =>
        match Tokenize(s[1..])
        case Ok(ts) => Ok([t] + ts)
        case Err(m) => Err(m)
        case Panic(m) => Panic(m)
  }

  /** A line tokenizes exactly when each of its characters is a space or
      stands for a token, and otherwise panics. */
  lemma {:induction false} TokenizeAccepts(s: string)
    ensures !Tokenize(s).Err?
    ensures Tokenize(s).Ok? <==> forall i :: 0 <= i < |s| ==> s[i] == ' ' || TokenOf(s[i]).Some?
  {
    if s != [] {
      TokenizeAccepts(s[1..]);
      assert forall i :: 0 < i < |s| ==> s[i] == s[1..][i - 1];
    }
  }

  /** s without its spaces. */
  function NoSpaces(s: string): (r: string)
    ensures ' ' !in r
  {
    if s == [] then []
    else (if s[0] == ' ' then [] else [s[0]]) + NoSpaces(s[1..])
  }

  /** Spaces make no difference to the tokens. */
  lemma {:induction false} TokenizeSpaces(s: string)
    ensures Tokenize(s) == Tokenize(NoSpaces(s))
  {
    if s != [] {
      TokenizeSpaces(s[1..]);
      var r := NoSpaces(s);
      if s[0] != ' ' {
        assert r == [s[0]] + NoSpaces(s[1..]);
        assert r != [] && r[0] == s[0] && r[1..] == NoSpaces(s[1..]);
      } else {
        assert r == NoSpaces(s[1..]);
      }
    }
  }

  /** The character of a token whose number is a single digit. */
  function CharOf(t: Token): (c: char)
    requires !t.Num? || t.n < 10
    ensures TokenOf(c) == Some(t)
  {
    match t
    case Add => '+'
    case Mul => '*'
    case Open => '('
    case Close => ')'
    case Num(n) => DigitChar(n)
  }

  predicate Digits(ts: seq<Token>)
  {
    forall i :: 0 <= i < |ts| ==> !ts[i].Num? || ts[i].n < 10
  }

  /** Tokens written one character each. */
  function Show(ts: seq<Token>): (s: string)
    requires Digits(ts)
    ensures |s| == |ts|
  {
    if ts == [] then [] else [CharOf(ts[0])] + Show(ts[1..])
  }

  /** Written tokens read back as themselves. */
  lemma {:induction false} TokenizeShow(ts: seq<Token>)
    requires Digits(ts)
    ensures Tokenize(Show(ts)) == Ok(ts)
  {
    if ts != [] {
      TokenizeShow(ts[1..]);
      var s := Show(ts);
      assert s[0] == CharOf(ts[0]) && s[1..] == Show(ts[1..]);
      assert TokenOf(s[0]) == Some(ts[0]) && s[0] != ' ';
      assert ts == [ts[0]] + ts[1..];
    }
  }

  // ---------------------------------------------------------------------
  // The shunting yard

  /** The output queue and the operator stack (top last). */
  datatype Yard = Yard(output: seq<Token>, ops: seq<Token>)

  /** An operator t pops operators to the output until it meets '(' or, in
      advanced mode when t is '+', a '*'; then t goes on the stack. */
  function PopFor(t: Token, advanced: bool, output: seq<Token>, ops: seq<Token>): Yard
    decreases |ops|
  {
    if ops == [] then Yard(output, [t])
    else
      var op := ops[|ops| - 1];
      if op == Open || (advanced && t == Add && op == Mul) then Yard(output, ops + [t])
      else PopFor(t, advanced, output + [op], ops[..|ops| - 1])
  }

  /** A ')' pops operators to the output down to the matching '(', which
      it discards. */
  function PopToOpen(output: seq<Token>, ops: seq<Token>): Yard
    decreases |ops|
  {
    if ops == [] then Yard(output, [])
    else
      var op := ops[|ops| - 1];
      if op == Open then Yard(output, ops[..|ops| - 1])
      else PopToOpen(output + [op], ops[..|ops| - 1])
  }

  function Step(t: Token, advanced: bool, y: Yard): Yard
  {
    match t
    case Num(_) => Yard(y.output + [t], y.ops)
    case Add => PopFor(t, advanced, y.output, y.ops)
    case Mul => PopFor(t, advanced, y.output, y.ops)
    case Open => Yard(y.output, y.ops + [Open])
    case Close => PopToOpen(y.output, y.ops)
  }

  /** The yard after the tokens ts. */
  function Run(ts: seq<Token>, advanced: bool, y: Yard): Yard
    decreases |ts|
  {
    if ts == [] then y else Run(ts[1..], advanced, Step(ts[0], advanced, y))
  }

  /** The remaining operators, popped onto the output. */
  function Flush(output: seq<Token>, ops: seq<Token>): seq<Token>
    decreases |ops|
  {
    if ops == [] then output else Flush(output + [ops[|ops| - 1]], ops[..|ops| - 1])
  }

  /** The reverse Polish form of a line. */
  function Output(ts: seq<Token>, advanced: bool): seq<Token>
  {
    var y := Run(ts, advanced, Yard([], []));
    Flush(y.output, y.ops)
  }

  const NoneUnwrap := "called `Option::unwrap()` on a `None` value"

  /** What an operator token makes of its two operands. */
  function Combine(t: Token, a: nat, b: nat): nat
  {
    if t == Add then a + b else a * b
  }

  /** The value stack after running a reverse Polish queue: each operator
      pops two values and pushes their sum or product; a parenthesis in the
      queue panics. */
  function Rpn(output: seq<Token>, stack: seq<nat>): Result<seq<nat>>
    decreases |output|
  {
    if output == [] then Ok(stack)
    else match output[0]
      case Num(n) => Rpn(output[1..], stack + [n])
      case Open => Panic("wut")
      case Close => Panic("wut")
      case _ =>
        if |stack| < 2 then Panic(NoneUnwrap)
        else
          var a, b := stack[|stack| - 1], stack[|stack| - 2];
          Rpn(output[1..], stack[..|stack| - 2] + [Combine(output[0], a, b)])
  }

  /** The value of a line, which must leave exactly one value. */
  function Evaluate(ts: seq<Token>, advanced: bool): Result<nat>
  {
    match Rpn(Output(ts, advanced), [])
    case Ok(stack) => if |stack| == 1 then Ok(stack[0]) else Panic("wat")
    case Err(m) => Err(m)
    case Panic(m) => Panic(m)
  }

  /** The shunting yard followed by the stack machine. */
  method Eval(tokens: seq<Token>, advanced: bool) returns (r: Result<nat>)
    ensures r == Evaluate(tokens, advanced)
  {
    var output: seq<Token> := [];
    var ops: seq<Token> := [];
    for k := 0 to |tokens|
      invariant Run(tokens[k..], advanced, Yard(output, ops)) == Run(tokens, advanced, Yard([], []))
    {
      var t := tokens[k];
      ghost var goal := Step(t, advanced, Yard(output, ops));
      if t.Num? {
        output := output + [t];
      } else if IsOp(t) {
        while ops != []
          invariant PopFor(t, advanced, output, ops) == goal
          decreases |ops|
        {
          var op := ops[|ops| - 1];
          ops := ops[..|ops| - 1];
          if op == Open || (advanced && t == Add && op == Mul) {
            ops := ops + [op];
            break;
          }
          output := output + [op];
        }
        ops := ops + [t];
      } else if t == Open {
        ops := ops + [Open];
      } else {
        while ops != []
          invariant PopToOpen(output, ops) == goal
          decreases |ops|
        {
          var op := ops[|ops| - 1];
          ops := ops[..|ops| - 1];
          if op == Open {
            break;
          }
          output := output + [op];
        }
      }
      assert Yard(output, ops) == goal;
      assert tokens[k..][1..] == tokens[k + 1..];
    }
    ghost var final := Output(tokens, advanced);
    while ops != []
      invariant Flush(output, ops) == final
      decreases |ops|
    {
      var op := ops[|ops| - 1];
      ops := ops[..|ops| - 1];
      output := output + [op];
    }
    var stack: seq<nat> := [];
    for k := 0 to |output|
      invariant Rpn(output[k..], stack) == Rpn(final, [])
    {
      var x := output[k];
      assert output[k..][1..] == output[k + 1..];
      ghost var s0 := stack;
      if x.Num? {
        stack := stack + [x.n];
      } else if IsOp(x) {
        if stack == [] {
          return Panic(NoneUnwrap);
        }
        var a := stack[|stack| - 1];
        stack := stack[..|stack| - 1];
        if stack == [] {
          return Panic(NoneUnwrap);
        }
        var b := stack[|stack| - 1];
        stack := stack[..|stack| - 1];
        var c := Combine(x, a, b);
        stack := stack + [c];
        assert stack == s0[..|s0| - 2] + [Combine(x, s0[|s0| - 1], s0[|s0| - 2])];
        assert Rpn(output[k..], s0) == Rpn(output[k + 1..], stack);
      } else {
        return Panic("wut");
      }
    }
    if |stack| == 1 {
      r := Ok(stack[0]);
    } else {
      r := Panic("wat");
    }
  }

  // ---------------------------------------------------------------------
  // Facts about the yard

  lemma {:induction false} RunAppend(a: seq<Token>, b: seq<Token>, advanced: bool, y: Yard)
    ensures Run(a + b, advanced, y) == Run(b, advanced, Run(a, advanced, y))
    decreases |a|
  {
    if a != [] {
      var y1 := Step(a[0], advanced, y);
      assert a + b != [] && (a + b)[0] == a[0] && (a + b)[1..] == a[1..] + b;
      assert Run(a + b, advanced, y) == Run(a[1..] + b, advanced, y1);
      RunAppend(a[1..], b, advanced, y1);
    } else {
      assert a + b == b;
    }
  }

  predicate NoClose(y: Yard)
  {
    Close !in y.output && Close !in y.ops
  }

  lemma {:induction false} PopForNoClose(t: Token, advanced: bool, output: seq<Token>, ops: seq<Token>)
    requires t != Close && NoClose(Yard(output, ops))
    ensures NoClose(PopFor(t, advanced, output, ops))
    decreases |ops|
  {
    if ops != [] {
      assert ops[|ops| - 1] in ops;
      PopForNoClose(t, advanced, output + [ops[|ops| - 1]], ops[..|ops| - 1]);
    }
  }

  lemma {:induction false} PopToOpenNoClose(output: seq<Token>, ops: seq<Token>)
    requires NoClose(Yard(output, ops))
    ensures NoClose(PopToOpen(output, ops))
    decreases |ops|
  {
    if ops != [] {
      assert ops[|ops| - 1] in ops;
      PopToOpenNoClose(output + [ops[|ops| - 1]], ops[..|ops| - 1]);
    }
  }

  lemma {:induction false} RunNoClose(ts: seq<Token>, advanced: bool, y: Yard)
    requires NoClose(y)
    ensures NoClose(Run(ts, advanced, y))
    decreases |ts|
  {
    if ts != [] {
      var t := ts[0];
      if t == Add || t == Mul {
        PopForNoClose(t, advanced, y.output, y.ops);
      } else if t == Close {
        PopToOpenNoClose(y.output, y.ops);
      }
      RunNoClose(ts[1..], advanced, Step(t, advanced, y));
    }
  }

  lemma {:induction false} FlushNoClose(output: seq<Token>, ops: seq<Token>)
    requires NoClose(Yard(output, ops))
    ensures Close !in Flush(output, ops)
    decreases |ops|
  {
    if ops != [] {
      assert ops[|ops| - 1] in ops;
      FlushNoClose(output + [ops[|ops| - 1]], ops[..|ops| - 1]);
    }
  }

  /** A ')' never reaches the reverse Polish queue, whatever the line. */
  lemma CloseNeverOutput(ts: seq<Token>, advanced: bool)
    ensures Close !in Output(ts, advanced)
  {
    RunNoClose(ts, advanced, Yard([], []));
    var y := Run(ts, advanced, Yard([], []));
    FlushNoClose(y.output, y.ops);
  }

  function Rev(s: seq<Token>): (r: seq<Token>)
    ensures |r| == |s|
  {
    if s == [] then [] else [s[|s| - 1]] + Rev(s[..|s| - 1])
  }

  lemma {:induction false} RevCons(x: Token, s: seq<Token>)
    ensures Rev([x] + s) == Rev(s) + [x]
    decreases |s|
  {
    if s != [] {
      var s' := s[..|s| - 1];
      RevCons(x, s');
      assert ([x] + s)[..|s|] == [x] + s';
    }
  }

  lemma {:induction false} FlushRev(output: seq<Token>, ops: seq<Token>)
    ensures Flush(output, ops) == output + Rev(ops)
    decreases |ops|
  {
    if ops != [] {
      FlushRev(output + [ops[|ops| - 1]], ops[..|ops| - 1]);
    }
  }

  /** t stops popping at the top of ops. */
  predicate Stops(t: Token, advanced: bool, ops: seq<Token>)
  {
    ops == [] || ops[|ops| - 1] == Open || (advanced && t == Add && ops[|ops| - 1] == Mul)
  }

  /** An operator pops the pending operators above a point where it stops. */
  lemma {:induction false} PopPending(t: Token, advanced: bool, output: seq<Token>, ops: seq<Token>, pend: seq<Token>)
    requires Stops(t, advanced, ops)
    requires forall i :: 0 <= i < |pend| ==> pend[i] != Open && !(advanced && t == Add && pend[i] == Mul)
    ensures PopFor(t, advanced, output, ops + pend) == Yard(output + Rev(pend), ops + [t])
    decreases |pend|
  {
    if pend != [] {
      var init := pend[..|pend| - 1];
      assert (ops + pend)[..|ops + pend| - 1] == ops + init;
      PopPending(t, advanced, output + [pend[|pend| - 1]], ops, init);
    } else {
      assert ops + pend == ops;
    }
  }

  /** A ')' pops the pending operators above its '('. */
  lemma {:induction false} CloseOpen(output: seq<Token>, ops: seq<Token>, pend: seq<Token>)
    requires Open !in pend
    ensures PopToOpen(output, ops + [Open] + pend) == Yard(output + Rev(pend), ops)
    decreases |pend|
  {
    if pend != [] {
      var init := pend[..|pend| - 1];
      assert (ops + [Open] + pend)[..|ops + [Open] + pend| - 1] == ops + [Open] + init;
      assert pend[|pend| - 1] in pend;
      CloseOpen(output + [pend[|pend| - 1]], ops, init);
    } else {
      assert (ops + [Open] + pend)[..|ops| + 1 - 1] == ops;
    }
  }

  // ---------------------------------------------------------------------
  // Expressions

  /** An expression tree; `Group` is a parenthesised expression. */
  datatype Expr = Lit(n: nat) | Group(inner: Expr) | Bin(op: Token, l: Expr, r: Expr)

  /** The value of a tree: '+' adds and anything else multiplies. */
  function Value(e: Expr): nat
  {
    match e
    case Lit(n) => n
    case Group(x) => Value(x)
    case Bin(op, l, r) => Combine(op, Value(l), Value(r))
  }

  /** Every operator of the tree is '+' or '*'. */
  predicate Ops(e: Expr)
  {
    match e
    case Lit(_) => true
    case Group(x) => Ops(x)
    case Bin(op, l, r) => IsOp(op) && Ops(l) && Ops(r)
  }

  /** The tree written as tokens. */
  function Print(e: Expr): seq<Token>
  {
    match e
    case Lit(n) => [Num(n)]
    case Group(x) => [Open] + Print(x) + [Close]
    case Bin(op, l, r) => Print(l) + [op] + Print(r)
  }

  /** The tree in reverse Polish notation. */
  function Postfix(e: Expr): seq<Token>
  {
    match e
    case Lit(n) => [Num(n)]
    case Group(x) => Postfix(x)
    case Bin(op, l, r) => Postfix(l) + Postfix(r) + [op]
  }

  /** What has reached the output once a tree's tokens are in... */
  function Done(e: Expr): seq<Token>
  {
    if e.Bin? then Postfix(e.l) + Done(e.r) else Postfix(e)
  }

  /** ... and the operators of its right spine still on the stack. */
  function Pend(e: Expr): seq<Token>
  {
    if e.Bin? then [e.op] + Pend(e.r) else []
  }

  lemma {:induction false} DonePend(e: Expr)
    ensures Postfix(e) == Done(e) + Rev(Pend(e))
  {
    if e.Bin? {
      DonePend(e.r);
      RevCons(e.op, Pend(e.r));
    }
  }

  lemma {:induction false} PendOps(e: Expr)
    requires Ops(e)
    ensures forall i :: 0 <= i < |Pend(e)| ==> IsOp(Pend(e)[i])
  {
    if e.Bin? {
      PendOps(e.r);
    }
  }

  /** Running a tree's reverse Polish form pushes its value. */
  lemma {:induction false} RpnPostfix(e: Expr, rest: seq<Token>, stack: seq<nat>)
    requires Ops(e)
    ensures Rpn(Postfix(e) + rest, stack) == Rpn(rest, stack + [Value(e)])
  {
    match e
    case Lit(n) =>
      assert ([Num(n)] + rest)[1..] == rest;
    case Group(x) =>
      RpnPostfix(x, rest, stack);
    case Bin(op, l, r) =>
      assert Postfix(e) + rest == Postfix(l) + (Postfix(r) + ([op] + rest));
      RpnPostfix(l, Postfix(r) + ([op] + rest), stack);
      RpnPostfix(r, [op] + rest, stack + [Value(l)]);
      var s := stack + [Value(l)] + [Value(r)];
      assert s[..|s| - 2] == stack;
      assert ([op] + rest)[1..] == rest;
  }

  /** A queue that is a tree's reverse Polish form evaluates to its value. */
  lemma PostfixValue(e: Expr)
    requires Ops(e)
    ensures Rpn(Postfix(e), []) == Ok([Value(e)])
  {
    RpnPostfix(e, [], []);
    assert Postfix(e) + [] == Postfix(e);
    assert [] + [Value(e)] == [Value(e)];
  }

  /** The tokens of a binary node: the left operand, the operator, then the
      right operand. */
  lemma BinRun(e: Expr, advanced: bool, y: Yard)
    requires e.Bin?
    ensures Run(Print(e), advanced, y)
         == Run(Print(e.r), advanced, Step(e.op, advanced, Run(Print(e.l), advanced, y)))
  {
    RunAppend(Print(e.l) + [e.op], Print(e.r), advanced, y);
    RunAppend(Print(e.l), [e.op], advanced, y);
    var y1 := Run(Print(e.l), advanced, y);
    assert Run([e.op], advanced, y1) == Run([], advanced, Step(e.op, advanced, y1));
  }

  /** The tokens of a group: '(' , the inner expression, then ')'. */
  lemma GroupRun(e: Expr, advanced: bool, output: seq<Token>, ops: seq<Token>)
    requires e.Group?
    ensures Run(Print(e), advanced, Yard(output, ops))
         == Step(Close, advanced, Run(Print(e.inner), advanced, Yard(output, ops + [Open])))
  {
    var y := Yard(output, ops);
    RunAppend([Open] + Print(e.inner), [Close], advanced, y);
    RunAppend([Open], Print(e.inner), advanced, y);
    assert Run([Open], advanced, y) == Run([], advanced, Step(Open, advanced, y));
    var y1 := Run(Print(e.inner), advanced, Yard(output, ops + [Open]));
    assert Run([Close], advanced, y1) == Run([], advanced, Step(Close, advanced, y1));
  }

  /** An operator after a finished left operand moves the operand's pending
      operators to the output and goes on the stack itself. */
  lemma OperatorAfter(l: Expr, op: Token, advanced: bool, output: seq<Token>, ops: seq<Token>)
    requires IsOp(op) && Stops(op, advanced, ops)
    requires forall i :: 0 <= i < |Pend(l)| ==> Pend(l)[i] != Open && !(advanced && op == Add && Pend(l)[i] == Mul)
    ensures Step(op, advanced, Yard(output + Done(l), ops + Pend(l))) == Yard(output + Postfix(l), ops + [op])
  {
    DonePend(l);
    OperatorPending(op, advanced, output, Done(l), Pend(l), Postfix(l), ops);
  }

  lemma OperatorPending(op: Token, advanced: bool, output: seq<Token>, done: seq<Token>, pend: seq<Token>, post: seq<Token>, ops: seq<Token>)
    requires IsOp(op) && Stops(op, advanced, ops)
    requires forall i :: 0 <= i < |pend| ==> pend[i] != Open && !(advanced && op == Add && pend[i] == Mul)
    requires post == done + Rev(pend)
    ensures Step(op, advanced, Yard(output + done, ops + pend)) == Yard(output + post, ops + [op])
  {
    PopPending(op, advanced, output + done, ops, pend);
    assert output + done + Rev(pend) == output + post;
  }

  lemma PendNoOpen(x: Expr)
    requires Ops(x)
    ensures Open !in Pend(x)
  {
    PendOps(x);
  }

  /** A ')' after a finished inner expression moves its pending operators
      to the output and drops the '('. */
  lemma CloseAfter(x: Expr, advanced: bool, output: seq<Token>, ops: seq<Token>)
    requires Ops(x)
    ensures Step(Close, advanced, Yard(output + Done(x), ops + [Open] + Pend(x))) == Yard(output + Postfix(x), ops)
  {
    PendNoOpen(x);
    DonePend(x);
    ClosePending(advanced, output, Done(x), Pend(x), Postfix(x), ops);
  }

  lemma ClosePending(advanced: bool, output: seq<Token>, done: seq<Token>, pend: seq<Token>, post: seq<Token>, ops: seq<Token>)
    requires Open !in pend && post == done + Rev(pend)
    ensures Step(Close, advanced, Yard(output + done, ops + [Open] + pend)) == Yard(output + post, ops)
  {
    CloseOpen(output + done, ops, pend);
    assert output + done + Rev(pend) == output + post;
  }

  // ---------------------------------------------------------------------
  // Plain mode: a chain of operands, evaluated left to right

  /** A chain: operands joined by '+' or '*', nested to the left. */
  predicate Chain(e: Expr)
    decreases e, 1
  {
    match e
    case Bin(op, l, r) => IsOp(op) && Chain(l) && Operand(r)
    case _ => Operand(e)
  }

  /** An operand: a number or a parenthesised chain. */
  predicate Operand(e: Expr)
    decreases e, 0
  {
    e.Lit? || (e.Group? && Chain(e.inner))
  }

  lemma {:induction false} ChainOps(e: Expr)
    requires Chain(e) || Operand(e)
    ensures Ops(e)
    decreases e
  {
    match e
    case Lit(_) =>
    case Group(x) => ChainOps(x);
    case Bin(_, l, r) => ChainOps(l); ChainOps(r);
  }

  /** An operand goes to the output whole, whatever is on the stack. */
  lemma {:induction false} OperandRun(e: Expr, output: seq<Token>, ops: seq<Token>)
    requires Operand(e)
    ensures Run(Print(e), false, Yard(output, ops)) == Yard(output + Postfix(e), ops)
    decreases e, 0
  {
    if e.Lit? {
      assert Print(e)[1..] == [];
    } else {
      var x := e.inner;
      GroupRun(e, false, output, ops);
      ChainRun(x, output, ops + [Open]);
      ChainOps(x);
      CloseAfter(x, false, output, ops);
    }
  }

  /** A chain leaves its last operator on the stack above a '(' or the
      bottom. */
  lemma {:induction false} ChainRun(e: Expr, output: seq<Token>, ops: seq<Token>)
    requires Chain(e) && Stops(Mul, false, ops)
    ensures Run(Print(e), false, Yard(output, ops)) == Yard(output + Done(e), ops + Pend(e))
    decreases e, 1
  {
    if e.Bin? {
      var op, l, r := e.op, e.l, e.r;
      calc {
        Run(Print(e), false, Yard(output, ops));
        { BinRun(e, false, Yard(output, ops)); }
        Run(Print(r), false, Step(op, false, Run(Print(l), false, Yard(output, ops))));
        { ChainRun(l, output, ops); }
        Run(Print(r), false, Step(op, false, Yard(output + Done(l), ops + Pend(l))));
        { ChainOps(l); PendOps(l); OperatorAfter(l, op, false, output, ops); }
        Run(Print(r), false, Yard(output + Postfix(l), ops + [op]));
        { OperandRun(r, output + Postfix(l), ops + [op]); }
        Yard(output + Postfix(l) + Postfix(r), ops + [op]);
        { assert Pend(e) == [op] && Done(e) == Postfix(l) + Postfix(r); }
        Yard(output + Done(e), ops + Pend(e));
      }
    } else {
      OperandRun(e, output, ops);
    }
  }

  /** In plain mode a chain evaluates to its value: '+' and '*' share one
      precedence and apply left to right. */
  lemma LeftToRight(e: Expr)
    requires Chain(e)
    ensures Evaluate(Print(e), false) == Ok(Value(e))
  {
    ChainRun(e, [], []);
    assert Run(Print(e), false, Yard([], [])) == Yard(Done(e), Pend(e));
    FlushRev(Done(e), Pend(e));
    DonePend(e);
    assert Output(Print(e), false) == Postfix(e);
    ChainOps(e);
    PostfixValue(e);
  }

  // ---------------------------------------------------------------------
  // Advanced mode: a product of sums

  /** A product: sums joined by '*', nested to the left. */
  predicate Product(e: Expr)
    decreases e, 2
  {
    Sum(e) || (e.Bin? && e.op == Mul && Product(e.l) && Sum(e.r))
  }

  /** A sum: factors joined by '+', nested to the left. */
  predicate Sum(e: Expr)
    decreases e, 1
  {
    Factor(e) || (e.Bin? && e.op == Add && Sum(e.l) && Factor(e.r))
  }

  /** A factor: a number or a parenthesised product. */
  predicate Factor(e: Expr)
    decreases e, 0
  {
    e.Lit? || (e.Group? && Product(e.inner))
  }

  lemma {:induction false} ProductOps(e: Expr)
    requires Product(e) || Sum(e) || Factor(e)
    ensures Ops(e)
    decreases e
  {
    match e
    case Lit(_) =>
    case Group(x) =>
      assert Factor(e);
      ProductOps(x);
    case Bin(op, l, r) =>
      assert !Factor(e);
      if Sum(e) {
        assert op == Add && Sum(l) && Factor(r);
      } else {
        assert op == Mul && Product(l) && Sum(r);
      }
      ProductOps(l);
      ProductOps(r);
  }

  lemma {:induction false} FactorRun(e: Expr, output: seq<Token>, ops: seq<Token>)
    requires Factor(e)
    ensures Run(Print(e), true, Yard(output, ops)) == Yard(output + Postfix(e), ops)
    decreases e, 0
  {
    if e.Lit? {
      assert Print(e)[1..] == [];
    } else {
      var x := e.inner;
      GroupRun(e, true, output, ops);
      ProductRun(x, output, ops + [Open]);
      ProductOps(x);
      CloseAfter(x, true, output, ops);
    }
  }

  /** A sum leaves its '+' on the stack above a '(', a '*' or the bottom. */
  lemma {:induction false} SumRun(e: Expr, output: seq<Token>, ops: seq<Token>)
    requires Sum(e) && Stops(Add, true, ops)
    ensures Run(Print(e), true, Yard(output, ops)) == Yard(output + Done(e), ops + Pend(e))
    ensures forall i :: 0 <= i < |Pend(e)| ==> Pend(e)[i] == Add
    decreases e, 1
  {
    if e.Bin? {
      var l, r := e.l, e.r;
      assert e.op == Add && Sum(l) && Factor(r);
      SumRun(l, output, ops);
      calc {
        Run(Print(e), true, Yard(output, ops));
        { BinRun(e, true, Yard(output, ops)); }
        Run(Print(r), true, Step(Add, true, Run(Print(l), true, Yard(output, ops))));
        Run(Print(r), true, Step(Add, true, Yard(output + Done(l), ops + Pend(l))));
        { OperatorAfter(l, Add, true, output, ops); }
        Run(Print(r), true, Yard(output + Postfix(l), ops + [Add]));
        { FactorRun(r, output + Postfix(l), ops + [Add]); }
        Yard(output + Postfix(l) + Postfix(r), ops + [Add]);
        { assert Pend(e) == [Add] && Done(e) == Postfix(l) + Postfix(r); }
        Yard(output + Done(e), ops + Pend(e));
      }
    } else {
      FactorRun(e, output, ops);
    }
  }

  /** A product leaves its '*' and its last sum's '+' on the stack above a
      '(' or the bottom. */
  lemma {:induction false} ProductRun(e: Expr, output: seq<Token>, ops: seq<Token>)
    requires Product(e) && Stops(Mul, true, ops)
    ensures Run(Print(e), true, Yard(output, ops)) == Yard(output + Done(e), ops + Pend(e))
    decreases e, 2
  {
    if Sum(e) {
      SumRun(e, output, ops);
    } else {
      var l, r := e.l, e.r;
      calc {
        Run(Print(e), true, Yard(output, ops));
        { BinRun(e, true, Yard(output, ops)); }
        Run(Print(r), true, Step(Mul, true, Run(Print(l), true, Yard(output, ops))));
        { ProductRun(l, output, ops); }
        Run(Print(r), true, Step(Mul, true, Yard(output + Done(l), ops + Pend(l))));
        { ProductOps(l); PendOps(l); OperatorAfter(l, Mul, true, output, ops); }
        Run(Print(r), true, Yard(output + Postfix(l), ops + [Mul]));
        { SumRun(r, output + Postfix(l), ops + [Mul]); }
        Yard(output + Postfix(l) + Done(r), ops + [Mul] + Pend(r));
        { assert Pend(e) == [Mul] + Pend(r) && Done(e) == Postfix(l) + Done(r); }
        Yard(output + Done(e), ops + Pend(e));
      }
    }
  }

  /** In advanced mode a product of sums evaluates to its value: '+' binds
      tighter than '*'. */
  lemma AdditionFirst(e: Expr)
    requires Product(e)
    ensures Evaluate(Print(e), true) == Ok(Value(e))
  {
    ProductRun(e, [], []);
    assert Run(Print(e), true, Yard([], [])) == Yard(Done(e), Pend(e));
    FlushRev(Done(e), Pend(e));
    DonePend(e);
    assert Output(Print(e), true) == Postfix(e);
    ProductOps(e);
    PostfixValue(e);
  }

  // ---------------------------------------------------------------------
  // The stack machine's arity

  function Count(output: seq<Token>, num: bool): nat
  {
    if output == [] then 0
    else (if output[0].Num? == num && output[0] !in {Open, Close} then 1 else 0) + Count(output[1..], num)
  }

  /** Each operator pops two values and pushes one, so a run that succeeds
      ends with the numbers less the operators on top of the stack it
      started with. */
  lemma {:induction false} RpnArity(output: seq<Token>, stack: seq<nat>)
    requires Rpn(output, stack).Ok?
    ensures |Rpn(output, stack).value| == |stack| + Count(output, true) - Count(output, false)
    decreases |output|
  {
    if output != [] {
      var t := output[0];
      if t.Num? {
        RpnArity(output[1..], stack + [t.n]);
      } else {
        var a, b := stack[|stack| - 1], stack[|stack| - 2];
        RpnArity(output[1..], stack[..|stack| - 2] + [Combine(t, a, b)]);
      }
    }
  }

  // ---------------------------------------------------------------------
  // The puzzle

  /** The sum of the lines' values, or the first line's panic. */
  function Total(lines: seq<seq<Token>>, advanced: bool): Result<nat>
  {
    if lines == [] then Ok(0)
    else match Evaluate(lines[0], advanced)
      case Ok(v) =>
        (match Total(lines[1..], advanced)
         case Ok(t) => Ok(v + t)
         case Err(m) => Err(m)
         case Panic(m) => Panic(m))
      case Err(m) => Err(m)
      case Panic(m) => Panic(m)
  }

  /** total added to the value of r, or r's failure. */
  function Plus(total: nat, r: Result<nat>): Result<nat>
  {
    match r
    case Ok(t) => Ok(total + t)
    case Err(m) => Err(m)
    case Panic(m) => Panic(m)
  }

  method SumLines(lines: seq<seq<Token>>, advanced: bool) returns (r: Result<nat>)
    ensures r == Total(lines, advanced)
  {
    var total := 0;
    for k := 0 to |lines|
      invariant Total(lines, advanced) == Plus(total, Total(lines[k..], advanced))
    {
      var v := Eval(lines[k], advanced);
      assert lines[k..][1..] == lines[k + 1..];
      if !v.Ok? {
        return v;
      }
      total := total + v.value;
    }
    r := Ok(total);
  }

  method Part1(lines: seq<seq<Token>>) returns (r: Result<nat>)
    ensures r == Total(lines, false)
  {
    r := SumLines(lines, false);
  }

  method Part2(lines: seq<seq<Token>>) returns (r: Result<nat>)
    ensures r == Total(lines, true)
  {
    r := SumLines(lines, true);
  }

  /** The lines' tokens, or the first line's panic. */
  function Read(lines: seq<string>): (r: Result<seq<seq<Token>>>)
    ensures r.Ok? ==> |r.value| == |lines| && forall i :: 0 <= i < |lines| ==> Tokenize(lines[i]) == Ok(r.value[i])
  {
    if lines == [] then Ok([])
    else match Tokenize(lines[0])
      case Ok(ts) =>
        (match Read(lines[1..])
         case Ok(rest) => Ok([ts] + rest)
         case Err(m) => Err(m)
         case Panic(m) => Panic(m))
      case Err(m) => Err(m)
      case Panic(m) => Panic(m)
  }
}
