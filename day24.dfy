/** Day 24: a hexagonal floor. Each line of the input is a path of the six
    hex directions from a reference tile, written without separators; the
    tile at the end of each path is flipped. Then, day by day, a black tile
    stays black with 1 or 2 black neighbours and a white tile turns black
    with exactly 2.

    Tiles are addressed in doubled coordinates: east and west move by 2 on
    x, the diagonal directions by 1 on x and 2 on y. The floor is a map from
    tile to colour (true for black) holding only the tiles ever touched. */
module Day24 {
  import opened Outcomes

  datatype Direction = East | Southeast | Southwest | West | Northwest | Northeast

  type Pos = (int, int)

  /** `to_offset`. */
  function Offset(d: Direction): (p: Pos)
    ensures p.1 == 0 ==> p.0 == 2 || p.0 == -2
    ensures p.1 != 0 ==> (p.0 == 1 || p.0 == -1) && (p.1 == 2 || p.1 == -2)
  {
    match d
    case East => (2, 0)
    case Southeast => (1, 2)
    case Southwest => (-1, 2)
    case West => (-2, 0)
    case Northwest => (-1, -2)
    case Northeast => (1, -2)
  }

  function Add(p: Pos, q: Pos): Pos
  {
    (p.0 + q.0, p.1 + q.1)
  }

  function Opposite(d: Direction): Direction
  {
    match d
    case East => West
    case Southeast => Northwest
    case Southwest => Northeast
    case West => East
    case Northwest => Southeast
    case Northeast => Southwest
  }

  /** The six directions in the order "eseswwnwne" lists them. */
  const Dirs: seq<Direction> := [East, Southeast, Southwest, West, Northwest, Northeast]

  /** Opposite directions have opposite offsets. */
  lemma OppositeOffsets(d: Direction)
    ensures Offset(Opposite(d)) == (-Offset(d).0, -Offset(d).1)
    ensures Opposite(Opposite(d)) == d
  {
  }

  /** No two directions share an offset. */
  lemma OffsetInjective(d: Direction, e: Direction)
    ensures Offset(d) == Offset(e) ==> d == e
  {
  }

  /** Walking the six directions in turn comes back to the start. */
  lemma SumZero()
    ensures Travel(Dirs) == (0, 0)
  {
    assert Travel(Dirs[..1]) == (2, 0) by { assert Dirs[..1][..0] == []; }
    assert Travel(Dirs[..2]) == (3, 2) by { assert Dirs[..2][..1] == Dirs[..1]; }
    assert Travel(Dirs[..3]) == (2, 4) by { assert Dirs[..3][..2] == Dirs[..2]; }
    assert Travel(Dirs[..4]) == (0, 4) by { assert Dirs[..4][..3] == Dirs[..3]; }
    assert Travel(Dirs[..5]) == (-1, 2) by { assert Dirs[..5][..4] == Dirs[..4]; }
    assert Dirs[..6] == Dirs;
  }

  /** q is one of the six tiles next to p. */
  predicate Adjacent(p: Pos, q: Pos)
  {
    var d := (q.0 - p.0, q.1 - p.1);
    d == (2, 0) || d == (1, 2) || d == (-1, 2) || d == (-2, 0) || d == (-1, -2) || d == (1, -2)
  }

  /** The neighbours are exactly the tiles one step away, and being
      neighbours is symmetric. */
  lemma AdjacentSteps(p: Pos, q: Pos)
    ensures Adjacent(p, q) <==> exists d :: q == Add(p, Offset(d))
    ensures Adjacent(p, q) <==> Adjacent(q, p)
  {
    if Adjacent(p, q) {
      var d :=
        if q == Add(p, (2, 0)) then East else if q == Add(p, (1, 2)) then Southeast
        else if q == Add(p, (-1, 2)) then Southwest else if q == Add(p, (-2, 0)) then West
        else if q == Add(p, (-1, -2)) then Northwest else Northeast;
      assert q == Add(p, Offset(d));
    }
  }

  // ---------------------------------------------------------------- parsing

  /** The letters of one direction. */
  function Code(d: Direction): string
  {
    match d
    case East => "e"
    case Southeast => "se"
    case Southwest => "sw"
    case West => "w"
    case Northwest => "nw"
    case Northeast => "ne"
  }

  function Show(ds: seq<Direction>): string
  {
    if ds == [] then [] else Code(ds[0]) + Show(ds[1..])
  }

  /** Prefix a direction to a parse that went well. */
  function Cons(d: Direction, r: Result<seq<Direction>>): Result<seq<Direction>>
  {
    if r.Ok? then Ok([d] + r.value) else r
  }

  /** `from_bytes` as a recursion: 'e' and 'w' are one byte, the others two;
      `take_byte` on an empty slice is an out-of-range index, and a pair
      that is no direction panics with "wat". */
  function Parse(b: string): Result<seq<Direction>>
    decreases |b|
  {
    if b == [] then Ok([])
    else if b[0] == 'e' then Cons(East, Parse(b[1..]))
    else if b[0] == 'w' then Cons(West, Parse(b[1..]))
    else if |b| == 1 then Panic("index out of bounds: the len is 0 but the index is 0")
    else if b[0] == 's' && b[1] == 'e' then Cons(Southeast, Parse(b[2..]))
    else if b[0] == 's' && b[1] == 'w' then Cons(Southwest, Parse(b[2..]))
    else if b[0] == 'n' && b[1] == 'w' then Cons(Northwest, Parse(b[2..]))
    else if b[0] == 'n' && b[1] == 'e' then Cons(Northeast, Parse(b[2..]))
    else Panic("wat")
  }

  /** Reading a written path gives it back. */
  lemma {:induction false} ParseShow(ds: seq<Direction>)
    ensures Parse(Show(ds)) == Ok(ds)
  {
    if ds != [] {
      ParseShow(ds[1..]);
      ParseCode(ds[0], Show(ds[1..]));
      assert [ds[0]] + ds[1..] == ds;
    }
  }

  /** A direction's letters in front of the rest parse to it. */
  lemma ParseCode(d: Direction, rest: string)
    ensures Parse(Code(d) + rest) == Cons(d, Parse(rest))
  {
    var s := Code(d) + rest;
    assert s[|Code(d)|..] == rest;
  }

  /** And a line that parses is the written form of its path. */
  lemma {:induction false} ShowParse(b: string)
    requires Parse(b).Ok?
    ensures Show(Parse(b).value) == b
    decreases |b|
  {
    if b != [] {
      var k := if b[0] == 'e' || b[0] == 'w' then 1 else 2;
      ShowParse(b[k..]);
      var ds := Parse(b).value;
      assert ds[1..] == Parse(b[k..]).value;
      assert b == b[..k] + b[k..];
    }
  }

  /** The six neighbour offsets `next_gen` walks: each direction once. */
  lemma SixDirections()
    ensures Parse("eseswwnwne") == Ok(Dirs)
  {
    ParseShow(Dirs);
    assert Show(Dirs[5..]) == "ne";
    assert Show(Dirs[4..]) == "nwne";
    assert Show(Dirs[3..]) == "wnwne";
    assert Show(Dirs[2..]) == "swwnwne";
    assert Show(Dirs[1..]) == "seswwnwne";
  }

  /** `from_bytes`. */
  method FromBytes(b: string) returns (r: Result<seq<Direction>>)
    ensures r == Parse(b)
  {
    var v: seq<Direction> := [];
    var rest := b;
    PrependNone(Parse(b));
    while rest != []
      invariant Parse(b) == Prepend(v, Parse(rest))
      decreases |rest|
    {
      var d: Direction;
      var c := rest[0];
      rest := rest[1..];
      if c == 'e' {
        d := East;
      } else if c == 'w' {
        d := West;
      } else {
        if rest == [] {
          return Panic("index out of bounds: the len is 0 but the index is 0");
        }
        var c2 := rest[0];
        rest := rest[1..];
        if c == 's' && c2 == 'e' {
          d := Southeast;
        } else if c == 's' && c2 == 'w' {
          d := Southwest;
        } else if c == 'n' && c2 == 'w' {
          d := Northwest;
        } else if c == 'n' && c2 == 'e' {
          d := Northeast;
        } else {
          return Panic("wat");
        }
      }
      PrependCons(v, d, Parse(rest));
      v := v + [d];
    }
    assert v + [] == v;
    return Ok(v);
  }

  function Prepend(v: seq<Direction>, r: Result<seq<Direction>>): Result<seq<Direction>>
  {
    if r.Ok? then Ok(v + r.value) else r
  }

  lemma PrependNone(r: Result<seq<Direction>>)
    ensures Prepend([], r) == r
  {
    if r.Ok? {
      assert [] + r.value == r.value;
    }
  }

  lemma PrependCons(v: seq<Direction>, d: Direction, r: Result<seq<Direction>>)
    ensures Prepend(v, Cons(d, r)) == Prepend(v + [d], r)
  {
    if r.Ok? {
      assert v + ([d] + r.value) == (v + [d]) + r.value;
    }
  }

  /** The lines of the input, each parsed; the first bad line panics. */
  function ParseLines(lines: seq<string>): Result<seq<seq<Direction>>>
  {
    if lines == [] then Ok([])
    else match ParseLines(lines[..|lines| - 1])
      case Ok(ps) =>
        var p := Parse(lines[|lines| - 1]);
        if p.Ok? then Ok(ps + [p.value]) else Failed(p)
      case Err(e) => Err(e)
      case Panic(e) => Panic(e)
  }

  /** The failure of a line as the failure of the whole input. */
  function Failed(r: Result<seq<Direction>>): Result<seq<seq<Direction>>>
    requires !r.Ok?
  {
    if r.Err? then Err(r.msg) else Panic(r.msg)
  }

  /** `read`. */
  method Read(lines: seq<string>) returns (r: Result<seq<seq<Direction>>>)
    ensures r == ParseLines(lines)
  {
    var v: seq<seq<Direction>> := [];
    for i := 0 to |lines|
      invariant ParseLines(lines[..i]) == Ok(v)
    {
      assert lines[..i + 1][..i] == lines[..i];
      var p := FromBytes(lines[i]);
      if !p.Ok? {
        PanicStays(lines, i + 1);
        return Failed(p);
      }
      v := v + [p.value];
    }
    assert lines[..|lines|] == lines;
    return Ok(v);
  }

  /** A bad line decides the outcome whatever follows. */
  lemma {:induction false} PanicStays(lines: seq<string>, i: nat)
    requires 0 < i <= |lines| && ParseLines(lines[..i - 1]).Ok? && !Parse(lines[i - 1]).Ok?
    ensures ParseLines(lines) == Failed(Parse(lines[i - 1]))
    decreases |lines| - i
  {
    if i < |lines| {
      var p := lines[..|lines| - 1];
      assert p[..i] == lines[..i] && p[..i - 1] == lines[..i - 1] && p[i - 1] == lines[i - 1];
      PanicStays(p, i);
    } else {
      assert lines[..i - 1] == lines[..|lines| - 1];
    }
  }

  /** Reading back written paths gives them again. */
  lemma {:induction false} ReadShow(paths: seq<seq<Direction>>)
    ensures ParseLines(seq(|paths|, i requires 0 <= i < |paths| => Show(paths[i]))) == Ok(paths)
  {
    if paths != [] {
      var lines := seq(|paths|, i requires 0 <= i < |paths| => Show(paths[i]));
      var front := paths[..|paths| - 1];
      ReadShow(front);
      assert lines[..|lines| - 1] == seq(|front|, i requires 0 <= i < |front| => Show(front[i]));
      ParseShow(paths[|paths| - 1]);
      assert front + [paths[|paths| - 1]] == paths;
    }
  }

  // ------------------------------------------------------------- flipping

  /** The tile a path ends on, starting from the reference tile (0, 0). */
  function Travel(path: seq<Direction>): Pos
  {
    if path == [] then (0, 0) else Add(Travel(path[..|path| - 1]), Offset(path[|path| - 1]))
  }

  /** The floor after the paths: each path's tile toggled, absent tiles
      counting as white. */
  function Flipped(paths: seq<seq<Direction>>): map<Pos, bool>
  {
    if paths == [] then map[]
    else
      var m := Flipped(paths[..|paths| - 1]);
      var p := Travel(paths[|paths| - 1]);
      m[p := !(p in m && m[p])]
  }

  /** How many paths end on p. */
  function Count(paths: seq<seq<Direction>>, p: Pos): nat
  {
    if paths == [] then 0
    else Count(paths[..|paths| - 1], p) + (if Travel(paths[|paths| - 1]) == p then 1 else 0)
  }

  /** The floor holds exactly the tiles some path ends on, and a tile is
      black exactly when an odd number of paths end on it. */
  lemma {:induction false} FlippedParity(paths: seq<seq<Direction>>, p: Pos)
    ensures p in Flipped(paths) <==> Count(paths, p) > 0
    ensures p in Flipped(paths) ==> (Flipped(paths)[p] <==> Count(paths, p) % 2 == 1)
  {
    if paths != [] {
      FlippedParity(paths[..|paths| - 1], p);
    }
  }

  /** `flipped_tiles`. */
  method FlippedTiles(paths: seq<seq<Direction>>) returns (tiles: map<Pos, bool>)
    ensures tiles == Flipped(paths)
  {
    tiles := map[];
    for i := 0 to |paths|
      invariant tiles == Flipped(paths[..i])
    {
      var path := paths[i];
      var x, y := 0, 0;
      for k := 0 to |path|
        invariant (x, y) == Travel(path[..k])
      {
        assert path[..k + 1][..k] == path[..k];
        var (dx, dy) := Offset(path[k]);
        x := x + dx;
        y := y + dy;
      }
      assert path[..|path|] == path;
      assert paths[..i + 1][..i] == paths[..i];
      var entry := (x, y) in tiles && tiles[(x, y)];
      tiles := tiles[(x, y) := !entry];
    }
    assert paths[..|paths|] == paths;
  }

  /** The black tiles of a floor. */
  function Black(m: map<Pos, bool>): set<Pos>
  {
    set p | p in m && m[p]
  }

  /** The tiles an odd number of paths end on. */
  function OddTiles(paths: seq<seq<Direction>>): set<Pos>
  {
    set i | 0 <= i < |paths| && Count(paths, Travel(paths[i])) % 2 == 1 :: Travel(paths[i])
  }

  /** `part1`: the number of black tiles, which are the tiles an odd number
      of paths end on. */
  method Part1(paths: seq<seq<Direction>>) returns (r: nat)
    ensures r == |OddTiles(paths)|
  {
    var tiles := FlippedTiles(paths);
    var odd := OddTiles(paths);
    forall p ensures p in Black(tiles) <==> p in odd {
      FlippedParity(paths, p);
      if p in odd {
        var i :| 0 <= i < |paths| && Count(paths, Travel(paths[i])) % 2 == 1 && Travel(paths[i]) == p;
      }
      if p in Black(tiles) {
        var i := Reached(paths, p);
        assert Travel(paths[i]) == p;
      }
    }
    assert Black(tiles) == odd;
    r := |Black(tiles)|;
  }

  /** A tile some path ends on is the end of a particular path. */
  lemma {:induction false} Reached(paths: seq<seq<Direction>>, p: Pos) returns (i: nat)
    requires Count(paths, p) > 0
    ensures i < |paths| && Travel(paths[i]) == p
  {
    var front := paths[..|paths| - 1];
    if Travel(paths[|paths| - 1]) == p {
      i := |paths| - 1;
    } else {
      i := Reached(front, p);
      assert paths[i] == front[i];
    }
  }

  // --------------------------------------------------------- the days

  /** 1 for true, 0 for false. */
  function Ind(b: bool): nat
  {
    if b then 1 else 0
  }

  /** The number of the first k directions that lead from pos to a tile of
      s. */
  function CountDirs(s: set<Pos>, pos: Pos, k: nat): nat
    requires k <= |Dirs|
  {
    if k == 0 then 0 else CountDirs(s, pos, k - 1) + Ind(Add(pos, Offset(Dirs[k - 1])) in s)
  }

  /** The neighbours of pos in s. */
  function Neighbours(s: set<Pos>, pos: Pos): nat
  {
    CountDirs(s, pos, |Dirs|)
  }

  lemma CountSix(s: set<Pos>, pos: Pos)
    ensures Neighbours(s, pos) ==
      Ind(Add(pos, (2, 0)) in s) + Ind(Add(pos, (1, 2)) in s) + Ind(Add(pos, (-1, 2)) in s) +
      Ind(Add(pos, (-2, 0)) in s) + Ind(Add(pos, (-1, -2)) in s) + Ind(Add(pos, (1, -2)) in s)
  {
    assert Dirs[0] == East && Dirs[1] == Southeast && Dirs[2] == Southwest;
    assert Dirs[3] == West && Dirs[4] == Northwest && Dirs[5] == Northeast;
    assert CountDirs(s, pos, 1) == Ind(Add(pos, (2, 0)) in s);
    assert CountDirs(s, pos, 2) == CountDirs(s, pos, 1) + Ind(Add(pos, (1, 2)) in s);
    assert CountDirs(s, pos, 3) == CountDirs(s, pos, 2) + Ind(Add(pos, (-1, 2)) in s);
    assert CountDirs(s, pos, 4) == CountDirs(s, pos, 3) + Ind(Add(pos, (-2, 0)) in s);
    assert CountDirs(s, pos, 5) == CountDirs(s, pos, 4) + Ind(Add(pos, (-1, -2)) in s);
  }

  /** The tiles next to a tile of s. */
  function Around(s: set<Pos>): set<Pos>
  {
    set q, k | q in s && 0 <= k < |Dirs| :: Add(q, Offset(Dirs[k]))
  }

  /** The day's rule. */
  predicate Lives(prev: map<Pos, bool>, pos: Pos)
  {
    var n := Neighbours(Black(prev), pos);
    n == 2 || (n == 1 && pos in prev && prev[pos])
  }

  /** The floor after one day: the tiles it already held and those next to
      a black tile, each coloured by the rule. */
  function NextGen(prev: map<Pos, bool>): map<Pos, bool>
  {
    map pos | pos in prev.Keys + Around(Black(prev)) :: Lives(prev, pos)
  }

  /** One more black tile adds one to the count of each of its
      neighbours. */
  lemma MoreBlack(s: set<Pos>, q: Pos, pos: Pos)
    requires q !in s
    ensures Neighbours(s + {q}, pos) == Neighbours(s, pos) + Ind(Adjacent(pos, q))
  {
    CountSix(s, pos);
    CountSix(s + {q}, pos);
  }

  /** A tile has a black neighbour exactly when it is next to a black
      tile. */
  lemma AroundExact(s: set<Pos>, pos: Pos)
    ensures pos in Around(s) <==> Neighbours(s, pos) > 0
  {
    CountSix(s, pos);
    if pos in Around(s) {
      var q, k :| q in s && 0 <= k < |Dirs| && pos == Add(q, Offset(Dirs[k]));
      AdjacentSteps(q, pos);
      assert Adjacent(pos, q);
    }
    if Neighbours(s, pos) > 0 {
      var q := if Add(pos, (2, 0)) in s then Add(pos, (2, 0))
        else if Add(pos, (1, 2)) in s then Add(pos, (1, 2))
        else if Add(pos, (-1, 2)) in s then Add(pos, (-1, 2))
        else if Add(pos, (-2, 0)) in s then Add(pos, (-2, 0))
        else if Add(pos, (-1, -2)) in s then Add(pos, (-1, -2))
        else Add(pos, (1, -2));
      assert q in s && Adjacent(pos, q);
      AdjacentSteps(q, pos);
      var d :| pos == Add(q, Offset(d));
      var k := match d
        case East => 0 case Southeast => 1 case Southwest => 2
        case West => 3 case Northwest => 4 case Northeast => 5;
      assert pos == Add(q, Offset(Dirs[k]));
    }
  }

  /** The map keeps every tile that could matter: a tile it leaves out has
      no black neighbour and is white, so the rule leaves it white. */
  lemma {:induction false} NextGenRule(prev: map<Pos, bool>, pos: Pos)
    ensures pos in Black(NextGen(prev)) <==> Lives(prev, pos)
  {
    if pos !in prev.Keys + Around(Black(prev)) {
      AroundExact(Black(prev), pos);
    }
  }

  /** `next_gen`: the neighbour counts, then the rule applied to each
      counted tile. */
  method NextGenStep(prev: map<Pos, bool>) returns (next: map<Pos, bool>)
    ensures next == NextGen(prev)
  {
    var counts := CountNeighbours(prev);
    next := map pos | pos in counts :: counts[pos] == 2 || (counts[pos] == 1 && pos in prev && prev[pos]);
    RuleOnCounts(prev, counts);
  }

  /** Colouring the counted tiles by the rule is the day's floor. */
  lemma RuleOnCounts(prev: map<Pos, bool>, counts: map<Pos, nat>)
    requires Counted(prev, counts, Black(prev))
    ensures (map pos | pos in counts :: counts[pos] == 2 || (counts[pos] == 1 && pos in prev && prev[pos])) == NextGen(prev)
  {
    var next := map pos | pos in counts :: counts[pos] == 2 || (counts[pos] == 1 && pos in prev && prev[pos]);
    forall pos ensures pos in next <==> pos in NextGen(prev) {
      AroundExact(Black(prev), pos);
    }
    assert next.Keys == NextGen(prev).Keys;
  }

  /** The counting loop of `next_gen`: each black tile adds one to the
      count of each of its neighbours, in the map's order, which the model
      leaves open. */
  method CountNeighbours(prev: map<Pos, bool>) returns (counts: map<Pos, nat>)
    ensures Counted(prev, counts, Black(prev))
  {
    counts := map k | k in prev.Keys :: 0;
    var todo := prev.Keys;
    var done: set<Pos> := {};
    forall pos ensures Neighbours({}, pos) == 0 {
      CountSix({}, pos);
    }
    assert Black(prev) * done == {};
    while todo != {}
      invariant done <= prev.Keys && todo == prev.Keys - done
      invariant Counted(prev, counts, Black(prev) * done)
      decreases todo
    {
      var q :| q in todo;
      if prev[q] {
        var dirs := FromBytes("eseswwnwne");
        SixDirections();
        counts := Scatter(prev, counts, Black(prev) * done, q, dirs.value);
        assert Black(prev) * (done + {q}) == Black(prev) * done + {q};
      } else {
        assert Black(prev) * (done + {q}) == Black(prev) * done;
      }
      done := done + {q};
      todo := todo - {q};
    }
    assert Black(prev) * done == Black(prev);
  }

  /** What the counts hold once the black tiles of s are scattered: every
      tile of the floor and every tile with a neighbour in s, with its count
      of neighbours in s. */
  ghost predicate Counted(prev: map<Pos, bool>, counts: map<Pos, nat>, s: set<Pos>)
  {
    (forall pos :: pos in counts <==> pos in prev || Neighbours(s, pos) > 0) &&
    (forall pos :: pos in counts ==> counts[pos] == Neighbours(s, pos))
  }

  /** pos is one of the first k steps from q. */
  predicate NearIn(q: Pos, pos: Pos, k: nat)
    requires k <= |Dirs|
  {
    k > 0 && (NearIn(q, pos, k - 1) || pos == Add(q, Offset(Dirs[k - 1])))
  }

  /** The inner loop: one black tile q adds one to each neighbour's count. */
  method Scatter(prev: map<Pos, bool>, counts0: map<Pos, nat>, s: set<Pos>, q: Pos, dirs: seq<Direction>)
    returns (counts: map<Pos, nat>)
    requires dirs == Dirs && q !in s && Counted(prev, counts0, s)
    ensures Counted(prev, counts, s + {q})
  {
    counts := counts0;
    for k := 0 to |dirs|
      invariant Scattered(prev, counts, s, q, k)
    {
      var (dx, dy) := Offset(dirs[k]);
      var pos2 := (q.0 + dx, q.1 + dy);
      var n := if pos2 in counts then counts[pos2] else 0;
      ghost var before := counts;
      counts := counts[pos2 := n + 1];
      ScatterOne(prev, before, counts, s, q, k);
    }
    ScatterDone(prev, counts, s, q);
  }

  /** The counts once the first k steps from q are counted. */
  ghost predicate Scattered(prev: map<Pos, bool>, counts: map<Pos, nat>, s: set<Pos>, q: Pos, k: nat)
    requires k <= |Dirs|
  {
    (forall pos :: pos in counts <==> pos in prev || Neighbours(s, pos) > 0 || NearIn(q, pos, k)) &&
    (forall pos :: pos in counts ==> counts[pos] == Neighbours(s, pos) + Ind(NearIn(q, pos, k)))
  }

  lemma ScatterOne(prev: map<Pos, bool>, counts: map<Pos, nat>, counts': map<Pos, nat>, s: set<Pos>, q: Pos, k: nat)
    requires k < |Dirs| && Scattered(prev, counts, s, q, k)
    requires var pos2 := Add(q, Offset(Dirs[k]));
      counts' == counts[pos2 := (if pos2 in counts then counts[pos2] else 0) + 1]
    ensures Scattered(prev, counts', s, q, k + 1)
  {
    NearFresh(q, k);
  }

  lemma ScatterDone(prev: map<Pos, bool>, counts: map<Pos, nat>, s: set<Pos>, q: Pos)
    requires q !in s && Scattered(prev, counts, s, q, |Dirs|)
    ensures Counted(prev, counts, s + {q})
  {
    forall pos ensures Neighbours(s + {q}, pos) == Neighbours(s, pos) + Ind(NearIn(q, pos, |Dirs|)) {
      MoreBlack(s, q, pos);
      NearSix(q, pos);
      AdjacentSteps(pos, q);
    }
  }

  /** The steps from q, one direction at a time. */
  lemma NearSteps(q: Pos, pos: Pos)
    ensures NearIn(q, pos, 1) <==> pos == Add(q, (2, 0))
    ensures NearIn(q, pos, 2) <==> NearIn(q, pos, 1) || pos == Add(q, (1, 2))
    ensures NearIn(q, pos, 3) <==> NearIn(q, pos, 2) || pos == Add(q, (-1, 2))
    ensures NearIn(q, pos, 4) <==> NearIn(q, pos, 3) || pos == Add(q, (-2, 0))
    ensures NearIn(q, pos, 5) <==> NearIn(q, pos, 4) || pos == Add(q, (-1, -2))
    ensures NearIn(q, pos, 6) <==> NearIn(q, pos, 5) || pos == Add(q, (1, -2))
  {
    assert Dirs[0] == East && Dirs[1] == Southeast && Dirs[2] == Southwest;
    assert Dirs[3] == West && Dirs[4] == Northwest && Dirs[5] == Northeast;
  }

  /** The k-th step is not among the earlier ones. */
  lemma NearFresh(q: Pos, k: nat)
    requires k < |Dirs|
    ensures !NearIn(q, Add(q, Offset(Dirs[k])), k)
  {
    var p := Add(q, Offset(Dirs[k]));
    NearSteps(q, p);
    assert Dirs[0] == East && Dirs[1] == Southeast && Dirs[2] == Southwest;
    assert Dirs[3] == West && Dirs[4] == Northwest && Dirs[5] == Northeast;
  }

  /** The six steps from q reach exactly its neighbours. */
  lemma NearSix(q: Pos, pos: Pos)
    ensures NearIn(q, pos, |Dirs|) <==> Adjacent(q, pos)
  {
    NearSteps(q, pos);
  }

  /** The floor after n days. */
  function Days(m: map<Pos, bool>, n: nat): map<Pos, bool>
  {
    if n == 0 then m else NextGen(Days(m, n - 1))
  }

  /** `part2`: the black tiles after 100 days. */
  method Part2(paths: seq<seq<Direction>>) returns (r: nat)
    ensures r == |Black(Days(Flipped(paths), 100))|
  {
    var tiles := FlippedTiles(paths);
    for i := 0 to 100
      invariant tiles == Days(Flipped(paths), i)
    {
      tiles := NextGenStep(tiles);
    }
    r := |Black(tiles)|;
  }
}
