/** Day 12: rain risk. A ferry follows navigation instructions: part 1
    moves the ship and turns its bearing, part 2 moves a waypoint that
    circles the ship. Both answer with the Manhattan distance from the start.
    The y axis grows southwards. */
module Day12 {
  import opened Outcomes
  import opened Text

  datatype Direction = North | South | East | West

  /** A quarter turn to port. */
  function Left(d: Direction): Direction
  {
    match d
    case North => West
    case West => South
    case South => East
    case East => North
  }

  /** A quarter turn to starboard. */
  function Right(d: Direction): Direction
  {
    match d
    case North => East
    case East => South
    case South => West
    case West => North
  }

  /** The unit step of a bearing. */
  function Vec(d: Direction): (v: (int, int))
  {
    match d
    case North => (0, -1)
    case East => (1, 0)
    case South => (0, 1)
    case West => (-1, 0)
  }

  /** The turns undo each other and four of either come full circle. */
  lemma TurnsInverse(d: Direction)
    ensures Left(Right(d)) == d && Right(Left(d)) == d
    ensures Left(Left(Left(Left(d)))) == d && Right(Right(Right(Right(d)))) == d
  {
  }

  /** The waypoint's quarter turns. */
  function RotL(w: (int, int)): (int, int)
  {
    (w.1, -w.0)
  }

  function RotR(w: (int, int)): (int, int)
  {
    (-w.1, w.0)
  }

  function Abs(n: int): nat
  {
    if n < 0 then -n else n
  }

  /** The waypoint turns undo each other, come full circle in four and keep
      the waypoint's distance from the ship. */
  lemma RotationsInverse(w: (int, int))
    ensures RotL(RotR(w)) == w && RotR(RotL(w)) == w
    ensures RotL(RotL(RotL(RotL(w)))) == w && RotR(RotR(RotR(RotR(w)))) == w
    ensures Abs(RotL(w).0) + Abs(RotL(w).1) == Abs(w.0) + Abs(w.1)
    ensures Abs(RotR(w).0) + Abs(RotR(w).1) == Abs(w.0) + Abs(w.1)
  {
  }

  /** The bearings' unit steps are unit vectors, with North pointing to
      negative y, and they turn exactly as the waypoint does. */
  lemma VecTurns(d: Direction)
    ensures Abs(Vec(d).0) + Abs(Vec(d).1) == 1
    ensures Vec(North) == (0, -1)
    ensures Vec(Left(d)) == RotL(Vec(d)) && Vec(Right(d)) == RotR(Vec(d))
  {
  }

  /** n quarter turns, as the `for_each` over `0..n` does them. */
  function LeftTimes(d: Direction, n: nat): Direction
  {
    if n == 0 then d else Left(LeftTimes(d, n - 1))
  }

  function RightTimes(d: Direction, n: nat): Direction
  {
    if n == 0 then d else Right(RightTimes(d, n - 1))
  }

  /** Only the number of turns modulo 4 matters. */
  lemma {:induction false} TurnsPeriodic(d: Direction, n: nat)
    ensures LeftTimes(d, n) == LeftTimes(d, n % 4)
    ensures RightTimes(d, n) == RightTimes(d, n % 4)
  {
    if n >= 4 {
      TurnsPeriodic(d, n - 4);
      assert LeftTimes(d, n - 2) == Left(Left(LeftTimes(d, n - 4)));
      assert LeftTimes(d, n) == Left(Left(LeftTimes(d, n - 2)));
      assert RightTimes(d, n - 2) == Right(Right(RightTimes(d, n - 4)));
      assert RightTimes(d, n) == Right(Right(RightTimes(d, n - 2)));
      TurnsInverse(LeftTimes(d, n - 4));
      TurnsInverse(RightTimes(d, n - 4));
    }
  }

  // ---------------------------------------------------------------- instructions

  datatype Action = MoveNorth | MoveSouth | MoveEast | MoveWest | TurnLeft | TurnRight | Forward

  /** For turns the amount is in quarter turns. */
  datatype Instruction = Instruction(action: Action, amount: int)

  function ActionChar(a: Action): char
  {
    match a
    case MoveNorth => 'N'
    case MoveSouth => 'S'
    case MoveEast => 'E'
    case MoveWest => 'W'
    case TurnLeft => 'L'
    case TurnRight => 'R'
    case Forward => 'F'
  }

  function ActionOf(c: char): (r: Option<Action>)
    ensures r.Some? ==> ActionChar(r.value) == c
    ensures r.None? <==> c !in "NSEWLRF"
  {
    match c
    case 'N' => Some(MoveNorth)
    case 'S' => Some(MoveSouth)
    case 'E' => Some(MoveEast)
    case 'W' => Some(MoveWest)
    case 'L' => Some(TurnLeft)
    case 'R' => Some(TurnRight)
    case 'F' => Some(Forward)
    case _ => None
  }

  /** Rust's `/` on integers rounds toward zero. */
  function TruncDiv(a: int, b: nat): int
    requires b > 0
  {
    if a >= 0 then a / b else -((-a) / b)
  }

  /** `Instruction::from_str`: the action letter (an empty line panics in
      `nth_char`), then an i64; turn amounts become quarter turns. */
  function ParseInstruction(s: string): (r: Result<Instruction>)
    ensures |s| == 0 <==> r.Panic?
    ensures |s| > 0 && ActionOf(s[0]).None? ==> r == Err("bad action")
    ensures r.Ok? ==> ActionOf(s[0]) == Some(r.value.action) && ParseInt(s[1..], I64Min, I64Max).Some?
    ensures r.Ok? && r.value.action in {TurnLeft, TurnRight} ==>
              r.value.amount == TruncDiv(ParseInt(s[1..], I64Min, I64Max).value, 90)
    ensures r.Ok? && r.value.action !in {TurnLeft, TurnRight} ==>
              r.value.amount == ParseInt(s[1..], I64Min, I64Max).value
  {
    if |s| == 0 then Panic("called `Option::unwrap()` on a `None` value")
    else match ActionOf(s[0])
      case None => Err("bad action")
      case Some(action) =>
        match ParseInt(s[1..], I64Min, I64Max)
        case None => Err("invalid digit found in string")
        case Some(v) =>
          var amount := if action == TurnLeft || action == TurnRight then TruncDiv(v, 90) else v;
          Ok(Instruction(action, amount))
  }

  /** The line an instruction is written as; turns in degrees. */
  function Render(i: Instruction): string
  {
    var degrees := if i.action == TurnLeft || i.action == TurnRight then i.amount * 90 else i.amount;
    [ActionChar(i.action)] + ShowSigned(degrees)
  }

  lemma ActionRoundTrip(a: Action)
    ensures ActionOf(ActionChar(a)) == Some(a)
  {
  }

  /** Whole quarter turns survive the division by 90. */
  lemma QuarterTurns(n: int)
    ensures TruncDiv(n * 90, 90) == n
  {
    if n < 0 {
      assert -(n * 90) == (-n) * 90;
    }
  }

  /** Parsing a rendered instruction gives it back. */
  lemma RoundTrip(i: Instruction)
    requires I64Min <= i.amount * 90 <= I64Max
    requires I64Min <= i.amount <= I64Max
    ensures ParseInstruction(Render(i)) == Ok(i)
  {
    var s := Render(i);
    var turn := i.action == TurnLeft || i.action == TurnRight;
    var degrees := if turn then i.amount * 90 else i.amount;
    assert s[0] == ActionChar(i.action) && s[1..] == ShowSigned(degrees);
    ParseShowSigned(degrees, I64Min, I64Max);
    ActionRoundTrip(i.action);
    if turn {
      QuarterTurns(i.amount);
    }
  }

  /** The turn amount is cut toward zero: -45 degrees is no turn at all. */
  lemma TurnTruncates()
    ensures TruncDiv(-45, 90) == 0 && TruncDiv(-90, 90) == -1 && TruncDiv(135, 90) == 1
  {
  }

  // ---------------------------------------------------------------- part 1

  datatype Ship = Ship(x: int, y: int, bearing: Direction)

  /** One instruction of `part1`. A non-positive turn count turns nothing;
      a negative forward amount moves backwards. */
  function Sail(s: Ship, i: Instruction): Ship
  {
    var amt := i.amount;
    match i.action
    case MoveNorth => s.(y := s.y - amt)
    case MoveSouth => s.(y := s.y + amt)
    case MoveEast => s.(x := s.x + amt)
    case MoveWest => s.(x := s.x - amt)
    case TurnLeft => s.(bearing := LeftTimes(s.bearing, if amt > 0 then amt else 0))
    case TurnRight => s.(bearing := RightTimes(s.bearing, if amt > 0 then amt else 0))
    case Forward => s.(x := s.x + Vec(s.bearing).0 * amt, y := s.y + Vec(s.bearing).1 * amt)
  }

  function SailAll(s: Ship, input: seq<Instruction>): Ship
  {
    if input == [] then s else Sail(SailAll(s, input[..|input| - 1]), input[|input| - 1])
  }

  const Start: Ship := Ship(0, 0, East)

  /** Moves never turn, turns never move, and going forward moves along
      the bearing. */
  lemma SailEffects(s: Ship, i: Instruction)
    ensures i.action in {MoveNorth, MoveSouth, MoveEast, MoveWest} ==> Sail(s, i).bearing == s.bearing
    ensures i.action in {TurnLeft, TurnRight} ==> Sail(s, i).x == s.x && Sail(s, i).y == s.y
    ensures i.action == Forward ==>
              Sail(s, i).bearing == s.bearing &&
              (Sail(s, i).x - s.x, Sail(s, i).y - s.y) == (Vec(s.bearing).0 * i.amount, Vec(s.bearing).1 * i.amount)
  {
  }

  /** `part1`: the ship starts at the origin facing East. */
  method Part1(input: seq<Instruction>) returns (r: nat)
    ensures r == Abs(SailAll(Start, input).x) + Abs(SailAll(Start, input).y)
  {
    var bearing := East;
    var x, y := 0, 0;
    for k := 0 to |input|
      invariant Ship(x, y, bearing) == SailAll(Start, input[..k])
    {
      assert input[..k + 1][..k] == input[..k];
      var amt := input[k].amount;
      match input[k].action {
        case MoveNorth => y := y - amt;
        case MoveSouth => y := y + amt;
        case MoveEast => x := x + amt;
        case MoveWest => x := x - amt;
        case TurnLeft =>
          var b0 := bearing;
          for t := 0 to if amt > 0 then amt else 0
            invariant bearing == LeftTimes(b0, t)
          {
            bearing := Left(bearing);
          }
        case TurnRight =>
          var b0 := bearing;
          for t := 0 to if amt > 0 then amt else 0
            invariant bearing == RightTimes(b0, t)
          {
            bearing := Right(bearing);
          }
        case Forward =>
          var (dx, dy) := Vec(bearing);
          x := x + dx * amt;
          y := y + dy * amt;
      }
    }
    assert input[..|input|] == input;
    r := Abs(x) + Abs(y);
  }

  // ---------------------------------------------------------------- part 2

  /** The ship and its waypoint, relative to the ship. */
  datatype Nav = Nav(x: int, y: int, waypoint: (int, int))

  function RotLTimes(w: (int, int), n: nat): (int, int)
  {
    if n == 0 then w else RotL(RotLTimes(w, n - 1))
  }

  function RotRTimes(w: (int, int), n: nat): (int, int)
  {
    if n == 0 then w else RotR(RotRTimes(w, n - 1))
  }

  /** One instruction of `part2`. Moves shift the waypoint, turns rotate it
      about the ship, and going forward moves the ship to the waypoint
      `amount` times, so a negative amount does nothing. */
  function Steer(n: Nav, i: Instruction): Nav
  {
    var amt := i.amount;
    var times: nat := if amt > 0 then amt else 0;
    match i.action
    case MoveNorth => n.(waypoint := (n.waypoint.0, n.waypoint.1 - amt))
    case MoveSouth => n.(waypoint := (n.waypoint.0, n.waypoint.1 + amt))
    case MoveEast => n.(waypoint := (n.waypoint.0 + amt, n.waypoint.1))
    case MoveWest => n.(waypoint := (n.waypoint.0 - amt, n.waypoint.1))
    case TurnLeft => n.(waypoint := RotLTimes(n.waypoint, times))
    case TurnRight => n.(waypoint := RotRTimes(n.waypoint, times))
    case Forward => n.(x := n.x + times * n.waypoint.0, y := n.y + times * n.waypoint.1)
  }

  function SteerAll(n: Nav, input: seq<Instruction>): Nav
  {
    if input == [] then n else Steer(SteerAll(n, input[..|input| - 1]), input[|input| - 1])
  }

  const Start2: Nav := Nav(0, 0, (10, -1))

  /** Turning the waypoint left and then right by the same amount puts it
      back, and the waypoint's distance from the ship never changes by
      turning. */
  lemma {:induction false} TurnBack(w: (int, int), n: nat)
    ensures RotRTimes(RotLTimes(w, n), n) == w
    ensures Abs(RotLTimes(w, n).0) + Abs(RotLTimes(w, n).1) == Abs(w.0) + Abs(w.1)
  {
    if n > 0 {
      TurnBack(w, n - 1);
      RotRPeel(RotLTimes(w, n - 1), n - 1);
      RotationsInverse(RotLTimes(w, n - 1));
    }
  }

  /** n right turns after one left turn: the left turn is undone first. */
  lemma {:induction false} RotRPeel(w: (int, int), n: nat)
    ensures RotRTimes(RotL(w), n + 1) == RotRTimes(w, n)
  {
    if n == 0 {
      RotationsInverse(w);
    } else {
      RotRPeel(w, n - 1);
    }
  }

  /** `part2`: the waypoint starts 10 East and 1 North of the ship. */
  method Part2(input: seq<Instruction>) returns (r: nat)
    ensures r == Abs(SteerAll(Start2, input).x) + Abs(SteerAll(Start2, input).y)
  {
    var waypoint := (10, -1);
    var x, y := 0, 0;
    for k := 0 to |input|
      invariant Nav(x, y, waypoint) == SteerAll(Start2, input[..k])
    {
      assert input[..k + 1][..k] == input[..k];
      var amt := input[k].amount;
      var times := if amt > 0 then amt else 0;
      match input[k].action {
        case MoveNorth => waypoint := (waypoint.0, waypoint.1 - amt);
        case MoveSouth => waypoint := (waypoint.0, waypoint.1 + amt);
        case MoveEast => waypoint := (waypoint.0 + amt, waypoint.1);
        case MoveWest => waypoint := (waypoint.0 - amt, waypoint.1);
        case TurnLeft =>
          var w0 := waypoint;
          for t := 0 to times
            invariant waypoint == RotLTimes(w0, t)
          {
            waypoint := (waypoint.1, -waypoint.0);
          }
        case TurnRight =>
          var w0 := waypoint;
          for t := 0 to times
            invariant waypoint == RotRTimes(w0, t)
          {
            waypoint := (-waypoint.1, waypoint.0);
          }
        case Forward =>
          var x0, y0 := x, y;
          for t := 0 to times
            invariant x == x0 + t * waypoint.0 && y == y0 + t * waypoint.1
          {
            x := x + waypoint.0;
            y := y + waypoint.1;
          }
      }
    }
    assert input[..|input|] == input;
    r := Abs(x) + Abs(y);
  }

  // ---------------------------------------------------------------- example

  const Sample: seq<Instruction> := [
    Instruction(Forward, 10), Instruction(MoveNorth, 3), Instruction(Forward, 7),
    Instruction(TurnRight, 1), Instruction(Forward, 11)
  ]

  /** A line of an action letter and unsigned digits. */
  lemma ParseLine(s: string, action: Action, v: nat)
    requires |s| >= 2 && ActionOf(s[0]) == Some(action)
    requires AllDigits(s[1..]) && DecimalValue(s[1..]) == v && v <= I64Max
    ensures ParseInstruction(s) == Ok(Instruction(action, if action in {TurnLeft, TurnRight} then TruncDiv(v, 90) else v))
  {
    assert ParseInt(s[1..], I64Min, I64Max) == Some(v);
  }

  /** A line of an action letter and one digit. */
  lemma ParseShort(s: string, action: Action)
    requires |s| == 2 && ActionOf(s[0]) == Some(action) && IsDigit(s[1])
    ensures ParseInstruction(s) == Ok(Instruction(action, if action in {TurnLeft, TurnRight} then TruncDiv(DigitValue(s[1]), 90) else DigitValue(s[1])))
  {
    OneDigit(s[1..]);
    ParseLine(s, action, DigitValue(s[1]));
  }

  /** A line of an action letter and two digits. */
  lemma ParseLong(s: string, action: Action)
    requires |s| == 3 && ActionOf(s[0]) == Some(action) && IsDigit(s[1]) && IsDigit(s[2])
    ensures var v := 10 * DigitValue(s[1]) + DigitValue(s[2]);
            ParseInstruction(s) == Ok(Instruction(action, if action in {TurnLeft, TurnRight} then TruncDiv(v, 90) else v))
  {
    TwoDigits(s[1..]);
    ParseLine(s, action, 10 * DigitValue(s[1]) + DigitValue(s[2]));
  }

  /** The example's lines parse to the instructions above. */
  lemma SampleForwards()
    ensures ParseInstruction("F10") == Ok(Instruction(Forward, 10))
    ensures ParseInstruction("F7") == Ok(Instruction(Forward, 7))
    ensures ParseInstruction("F11") == Ok(Instruction(Forward, 11))
  {
    ParseLong("F10", Forward);
    ParseShort("F7", Forward);
    ParseLong("F11", Forward);
  }

  /** The example's move, parsed. */
  lemma SampleNorth()
    ensures ParseInstruction("N3") == Ok(Instruction(MoveNorth, 3))
  {
    ParseShort("N3", MoveNorth);
  }

  /** The example's turn: 90 degrees is one quarter turn. */
  lemma SampleRight()
    ensures ParseInstruction("R90") == Ok(Instruction(TurnRight, 1))
  {
    ParseLong("R90", TurnRight);
  }

  /** Sailing one more instruction, from where the earlier ones left the ship. */
  lemma {:induction false} SailStep(s: Ship, input: seq<Instruction>, i: Instruction, at: Ship, next: Ship)
    requires SailAll(s, input) == at && Sail(at, i) == next
    ensures SailAll(s, input + [i]) == next
  {
    assert (input + [i])[..|input|] == input;
  }

  /** Steering by one more instruction, from where the earlier ones left the ship. */
  lemma {:induction false} SteerStep(n: Nav, input: seq<Instruction>, i: Instruction, at: Nav, next: Nav)
    requires SteerAll(n, input) == at && Steer(at, i) == next
    ensures SteerAll(n, input + [i]) == next
  {
    assert (input + [i])[..|input|] == input;
  }

  /** The example's instructions, one prefix after another. */
  lemma SamplePrefixes() returns (p0: seq<Instruction>, p1: seq<Instruction>, p2: seq<Instruction>,
                                  p3: seq<Instruction>, p4: seq<Instruction>)
    ensures p0 == [] && p1 == p0 + [Instruction(Forward, 10)] && p2 == p1 + [Instruction(MoveNorth, 3)]
    ensures p3 == p2 + [Instruction(Forward, 7)] && p4 == p3 + [Instruction(TurnRight, 1)]
    ensures Sample == p4 + [Instruction(Forward, 11)]
  {
    p0 := [];
    p1 := p0 + [Instruction(Forward, 10)];
    p2 := p1 + [Instruction(MoveNorth, 3)];
    p3 := p2 + [Instruction(Forward, 7)];
    p4 := p3 + [Instruction(TurnRight, 1)];
  }

  /** The example ends 17 East, 8 South of the start (part 1). */
  lemma SampleSail()
    ensures SailAll(Start, Sample) == Ship(17, 8, South)
  {
    var p0, p1, p2, p3, p4 := SamplePrefixes();
    SailStep(Start, p0, Instruction(Forward, 10), Start, Ship(10, 0, East));
    SailStep(Start, p1, Instruction(MoveNorth, 3), Ship(10, 0, East), Ship(10, -3, East));
    SailStep(Start, p2, Instruction(Forward, 7), Ship(10, -3, East), Ship(17, -3, East));
    assert RightTimes(East, 1) == South;
    SailStep(Start, p3, Instruction(TurnRight, 1), Ship(17, -3, East), Ship(17, -3, South));
    SailStep(Start, p4, Instruction(Forward, 11), Ship(17, -3, South), Ship(17, 8, South));
  }

  /** The example ends 214 East, 72 South of the start (part 2). */
  lemma SampleSteer()
    ensures SteerAll(Start2, Sample) == Nav(214, 72, (4, 10))
  {
    var p0, p1, p2, p3, p4 := SamplePrefixes();
    SteerStep(Start2, p0, Instruction(Forward, 10), Start2, Nav(100, -10, (10, -1)));
    SteerStep(Start2, p1, Instruction(MoveNorth, 3), Nav(100, -10, (10, -1)), Nav(100, -10, (10, -4)));
    SteerStep(Start2, p2, Instruction(Forward, 7), Nav(100, -10, (10, -4)), Nav(170, -38, (10, -4)));
    assert RotRTimes((10, -4), 1) == (4, 10);
    SteerStep(Start2, p3, Instruction(TurnRight, 1), Nav(170, -38, (10, -4)), Nav(170, -38, (4, 10)));
    SteerStep(Start2, p4, Instruction(Forward, 11), Nav(170, -38, (4, 10)), Nav(214, 72, (4, 10)));
  }

  /** So the Manhattan distances are 25 and 286. */
  lemma SampleDistances()
    ensures Abs(SailAll(Start, Sample).x) + Abs(SailAll(Start, Sample).y) == 25
    ensures Abs(SteerAll(Start2, Sample).x) + Abs(SteerAll(Start2, Sample).y) == 286
  {
    SampleSail();
    SampleSteer();
  }
}
