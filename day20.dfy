/** Day 20: jurassic jigsaw. Square tiles of pixels are rotated and flipped
    until their edges line up, assembled into one image, and the image is
    searched for sea monsters. A tile is a square grid, row by row
    (`pixels[y][x]`); tiles read from the input are 10 by 10 and the
    stitched image 24 or 96 pixels wide. */
module Day20 {
  import opened Outcomes
  import opened Text

  type Grid = seq<seq<bool>>

  /** The size of every tile read from the input. */
  const Size: nat := 10

  /** n rows of n pixels each. */
  predicate Square(g: Grid, n: nat)
  {
    |g| == n && forall y :: 0 <= y < n ==> |g[y]| == n
  }

  // ------------------------------------------------------- rot_r / flip_v

  /** `rot_r`: a quarter turn clockwise, new[y][x] = old[n-1-x][y]. */
  function Rotated(g: Grid): (r: Grid)
    requires Square(g, |g|)
    ensures Square(r, |g|)
  {
    var n := |g|;
    seq(n, y requires 0 <= y < n => seq(n, x requires 0 <= x < n => g[n - 1 - x][y]))
  }

  /** `flip_v`: the rows in reverse order. */
  function Flipped(g: Grid): (r: Grid)
    requires Square(g, |g|)
    ensures Square(r, |g|)
  {
    var n := |g|;
    seq(n, y requires 0 <= y < n => g[n - 1 - y])
  }

  /** `rot_r`: a fresh n-by-n array filled column by column. */
  method RotR(g: Grid) returns (r: Grid)
    requires Square(g, |g|)
    ensures r == Rotated(g)
  {
    var n := |g|;
    var pixels := new bool[n, n];
    for x := 0 to n
      invariant forall x', y' :: 0 <= x' < x && 0 <= y' < n ==> pixels[y', x'] == g[n - 1 - x'][y']
    {
      for y := 0 to n
        invariant forall x', y' :: 0 <= x' < x && 0 <= y' < n ==> pixels[y', x'] == g[n - 1 - x'][y']
        invariant forall y' :: 0 <= y' < y ==> pixels[y', x] == g[n - 1 - x][y']
      {
        pixels[y, x] := g[n - 1 - x][y];
      }
    }
    r := seq(n, y requires 0 <= y < n reads pixels => seq(n, x requires 0 <= x < n reads pixels => pixels[y, x]));
    forall y | 0 <= y < n
      ensures r[y] == Rotated(g)[y]
    {
    }
  }

  /** `flip_v`: a fresh array of rows, each the mirror row. */
  method FlipV(g: Grid) returns (r: Grid)
    requires Square(g, |g|)
    ensures r == Flipped(g)
  {
    var n := |g|;
    var pixels := new seq<bool>[n](_ => seq(n, _ => false));
    for y := 0 to n
      invariant forall y' :: 0 <= y' < y ==> pixels[y'] == g[n - 1 - y']
    {
      pixels[y] := g[n - 1 - y];
    }
    r := pixels[..];
  }

  /** Two quarter turns send each pixel to the opposite corner. */
  lemma HalfTurn(g: Grid)
    requires Square(g, |g|)
    ensures var n := |g|; forall y, x :: 0 <= y < n && 0 <= x < n ==>
      Rotated(Rotated(g))[y][x] == g[n - 1 - y][n - 1 - x]
  {
  }

  /** Four quarter turns give the tile back. */
  lemma FourTurns(g: Grid)
    requires Square(g, |g|)
    ensures Rotated(Rotated(Rotated(Rotated(g)))) == g
  {
    var n := |g|;
    var h := Rotated(Rotated(g));
    HalfTurn(g);
    HalfTurn(h);
    var f := Rotated(Rotated(h));
    forall y | 0 <= y < n
      ensures f[y] == g[y]
    {
      assert forall x :: 0 <= x < n ==> f[y][x] == g[y][x];
    }
  }

  /** Flipping twice gives the tile back. */
  lemma FlipTwice(g: Grid)
    requires Square(g, |g|)
    ensures Flipped(Flipped(g)) == g
  {
  }

  // ---------------------------------------------------------- orientations

  /** The tile turned k quarter turns. */
  function Turned(g: Grid, k: nat): (r: Grid)
    requires Square(g, |g|)
    ensures Square(r, |g|)
  {
    if k == 0 then g else Rotated(Turned(g, k - 1))
  }

  /** The first k quarter turns of the tile, the tile itself first. */
  function Spins(g: Grid, k: nat): (os: seq<Grid>)
    requires Square(g, |g|)
    ensures |os| == k
  {
    if k == 0 then [] else Spins(g, k - 1) + [Turned(g, k - 1)]
  }

  /** `orientations`: the four turns of the tile, then the four turns of
      its flip. */
  function Orientations(g: Grid): (os: seq<Grid>)
    requires Square(g, |g|)
  {
    Spins(g, 4) + Spins(Flipped(Turned(g, 4)), 4)
  }

  lemma {:induction false} SpinsAre(g: Grid, k: nat)
    requires Square(g, |g|)
    ensures forall j :: 0 <= j < k ==> Spins(g, k)[j] == Turned(g, j)
  {
    if k > 0 {
      SpinsAre(g, k - 1);
    }
  }

  /** The eight orientations are the tile's turns and its flip's turns,
      all of the tile's size, starting with the tile itself. */
  lemma OrientationsOf(g: Grid)
    requires Square(g, |g|)
    ensures |Orientations(g)| == 8 && Orientations(g)[0] == g
    ensures forall k :: 0 <= k < 4 ==> Orientations(g)[k] == Turned(g, k)
    ensures forall k :: 4 <= k < 8 ==> Orientations(g)[k] == Turned(Flipped(g), k - 4)
    ensures forall t :: t in Orientations(g) ==> Square(t, |g|)
  {
    TurnedFour(g);
    SpinsAre(g, 4);
    SpinsAre(Flipped(g), 4);
    assert Turned(g, 0) == g;
  }

  lemma TurnedFour(g: Grid)
    requires Square(g, |g|)
    ensures Turned(g, 4) == g
  {
    assert Turned(g, 0) == g;
    var t1 := Turned(g, 1);
    assert t1 == Rotated(g);
    var t2 := Turned(g, 2);
    assert t2 == Rotated(t1);
    var t3 := Turned(g, 3);
    assert t3 == Rotated(t2);
    assert Turned(g, 4) == Rotated(t3);
    FourTurns(g);
  }

  /** `orientations`: push, turn, four times; flip; push, turn, four times. */
  method Orient(g: Grid) returns (os: seq<Grid>)
    requires Square(g, |g|)
    ensures os == Orientations(g)
  {
    var t := g;
    os := [];
    for k := 0 to 4
      invariant t == Turned(g, k) && os == Spins(g, k)
    {
      os := os + [t];
      t := RotR(t);
    }
    t := FlipV(t);
    ghost var f := t;
    for k := 0 to 4
      invariant f == Flipped(Turned(g, 4))
      invariant t == Turned(f, k) && os == Spins(g, 4) + Spins(f, k)
    {
      os := os + [t];
      t := RotR(t);
    }
  }

  // ----------------------------------------------------------------- fits

  /** `fits_above`: the last row of a is the first row of b. */
  predicate FitsAbove(a: Grid, b: Grid)
  {
    |a| > 0 && |b| > 0 && a[|a| - 1] == b[0]
  }

  /** `fits_below`: b fits above a. */
  predicate FitsBelow(a: Grid, b: Grid)
    ensures Square(a, |a|) && Square(b, |a|) && |a| > 0 ==>
      (FitsBelow(a, b) <==> FitsAbove(Flipped(a), Flipped(b)))
  {
    FitsAbove(b, a)
  }

  /** `fits_left`: the last column of a is the first column of b. */
  predicate FitsLeft(a: Grid, b: Grid)
  {
    |a| == |b| && forall y :: 0 <= y < |a| ==> |a[y]| > 0 && |b[y]| > 0 && a[y][|a[y]| - 1] == b[y][0]
  }

  /** `fits_right`: b fits left of a. */
  predicate FitsRight(a: Grid, b: Grid)
  {
    FitsLeft(b, a)
  }

  /** Turning both tiles a quarter clockwise turns "a left of b" into
      "a above b". */
  lemma LeftTurnsAbove(a: Grid, b: Grid, n: nat)
    requires Square(a, n) && Square(b, n) && n > 0
    ensures FitsLeft(a, b) <==> FitsAbove(Rotated(a), Rotated(b))
  {
    var ra, rb := Rotated(a), Rotated(b);
    if FitsAbove(ra, rb) {
      forall y | 0 <= y < n
        ensures a[y][n - 1] == b[y][0]
      {
        assert ra[n - 1][n - 1 - y] == rb[0][n - 1 - y];
      }
    }
    if FitsLeft(a, b) {
      assert ra[n - 1] == rb[0];
    }
  }

  /** And "a above b" into "a right of b". */
  lemma AboveTurnsRight(a: Grid, b: Grid, n: nat)
    requires Square(a, n) && Square(b, n) && n > 0
    ensures FitsAbove(a, b) <==> FitsRight(Rotated(a), Rotated(b))
  {
    var ra, rb := Rotated(a), Rotated(b);
    if FitsRight(ra, rb) {
      forall x | 0 <= x < n
        ensures a[n - 1][x] == b[0][x]
      {
        assert rb[x][n - 1] == ra[x][0];
      }
      assert a[n - 1] == b[0];
    }
  }

  // -------------------------------------------------------------- try_from

  /** `Tile::try_from`: every row must hold n pixels ("bad width"), then
      there must be n rows ("bad height"). */
  function TryTile(rows: seq<seq<bool>>, n: nat): (r: Result<Grid>)
  {
    if exists y :: 0 <= y < |rows| && |rows[y]| != n then Err("bad width")
    else if |rows| != n then Err("bad height")
    else Ok(rows)
  }

  /** A tile is made exactly from a square of pixels, and otherwise the
      width is blamed before the height. */
  lemma TryTileSquare(rows: seq<seq<bool>>, n: nat)
    ensures TryTile(rows, n) == Ok(rows) <==> Square(rows, n)
    ensures !Square(rows, n) ==>
      TryTile(rows, n) == Err(if forall y :: 0 <= y < |rows| ==> |rows[y]| == n then "bad height" else "bad width")
  {
  }

  // ----------------------------------------------------------------- parse

  const ParseError := "invalid digit found in string"
  const SliceError := "byte index out of range"

  /** A picture row: `#` is a set pixel, anything else is not. */
  function Pixels(line: string): (r: seq<bool>)
    ensures |r| == |line|
  {
    seq(|line|, k requires 0 <= k < |line| => line[k] == '#')
  }

  /** The lines of a tile block after the id line: at most ten, and none
      past the block's twelve lines. */
  function Rows(lines: seq<string>, i: nat): (rows: seq<seq<bool>>)
    requires i < |lines|
  {
    var end := if i + 11 <= |lines| then i + 11 else |lines|;
    seq(end - i - 1, k requires 0 <= k < end - i - 1 => Pixels(lines[i + 1 + k]))
  }

  /** The id of a "Tile <id>:" line: the text between the fifth and the
      last character, which must exist and be a `usize`. */
  function Header(line: string): (r: Result<nat>)
    ensures r.Ok? ==> r.value <= U64Max
  {
    if |line| < 6 then Panic(SliceError)
    else match ParseNat(line[5..|line| - 1], U64Max)
      case None => Err(ParseError)
      case Some(id) => Ok(id)
  }

  /** `parse` from the block starting at line i on, with the tiles read so
      far: blocks are twelve lines, the first "Tile <id>:", then ten rows;
      an empty id line or the end of the lines stops. */
  function ParseFrom(lines: seq<string>, i: nat, tiles: map<nat, Grid>): (r: Result<map<nat, Grid>>)
    decreases |lines| - i
  {
    if i >= |lines| || lines[i] == [] then Ok(tiles)
    else
      var id := Header(lines[i]);
      if id.Panic? then Panic(id.msg)
      else if id.Err? then Err(id.msg)
      else
        var tile := TryTile(Rows(lines, i), Size);
        if !tile.Ok? then Err(tile.msg)
        else ParseFrom(lines, i + 12, tiles[id.value := tile.value])
  }

  /** `parse`: the tiles of the text by id, a later tile replacing an
      earlier one with the same id. */
  method Parse(s: string) returns (r: Result<map<nat, Grid>>)
    ensures r == ParseFrom(Split(s, '\n'), 0, map[])
  {
    var lines := Split(s, '\n');
    var tiles: map<nat, Grid> := map[];
    var i := 0;
    while i < |lines|
      invariant ParseFrom(lines, i, tiles) == ParseFrom(lines, 0, map[])
      decreases |lines| - i
    {
      var idLine := lines[i];
      if idLine == [] {
        break;
      }
      if |idLine| < 6 {
        return Panic(SliceError);
      }
      var id := ParseNat(idLine[5..|idLine| - 1], U64Max);
      if id.None? {
        return Err(ParseError);
      }
      var tile := TryTile(Rows(lines, i), Size);
      if !tile.Ok? {
        return Err(tile.msg);
      }
      tiles := tiles[id.value := tile.value];
      i := i + 12;
    }
    return Ok(tiles);
  }

  /** Only tiles of the input size come out of parsing. */
  lemma {:induction false} ParsedSquare(lines: seq<string>, i: nat, tiles: map<nat, Grid>)
    requires forall id :: id in tiles ==> Square(tiles[id], Size)
    ensures var r := ParseFrom(lines, i, tiles);
      r.Ok? ==> tiles.Keys <= r.value.Keys && forall id :: id in r.value ==> Square(r.value[id], Size)
    decreases |lines| - i
  {
    if i < |lines| && lines[i] != [] {
      var id := Header(lines[i]);
      var tile := TryTile(Rows(lines, i), Size);
      if id.Ok? && tile.Ok? {
        TryTileSquare(Rows(lines, i), Size);
        ParsedSquare(lines, i + 12, tiles[id.value := tile.value]);
      }
    }
  }

  /** A picture row written with `#` and `.`. */
  function Line(row: seq<bool>): (s: string)
    ensures |s| == |row|
  {
    seq(|row|, k requires 0 <= k < |row| => if row[k] then '#' else '.')
  }

  /** A tile block as the puzzle writes it: the id line, the rows, and the
      blank line after it. */
  function Block(id: nat, t: Grid): (b: seq<string>)
    ensures |b| == |t| + 2
  {
    ["Tile " + ShowNat(id) + ":"] + seq(|t|, y requires 0 <= y < |t| => Line(t[y])) + [""]
  }

  /** The blocks of several tiles one after the other. */
  function Blocks(ids: seq<nat>, ts: seq<Grid>): seq<string>
    requires |ids| == |ts|
  {
    if ids == [] then [] else Block(ids[0], ts[0]) + Blocks(ids[1..], ts[1..])
  }

  /** The map the tiles make, later ones replacing earlier ones. */
  function Collect(tiles: map<nat, Grid>, ids: seq<nat>, ts: seq<Grid>): map<nat, Grid>
    requires |ids| == |ts|
    decreases |ids|
  {
    if ids == [] then tiles else Collect(tiles[ids[0] := ts[0]], ids[1..], ts[1..])
  }

  /** Reading a written row gives it back. */
  lemma PixelsLine(row: seq<bool>)
    ensures Pixels(Line(row)) == row
  {
  }

  /** Reading a block returns its tile and moves on twelve lines. */
  lemma ReadBlock(id: nat, t: Grid, rest: seq<string>, tiles: map<nat, Grid>)
    requires Square(t, Size) && id <= U64Max
    ensures ParseFrom(Block(id, t) + rest, 0, tiles) == ParseFrom(Block(id, t) + rest, 12, tiles[id := t])
  {
    var lines := Block(id, t) + rest;
    var idLine := "Tile " + ShowNat(id) + ":";
    assert lines[0] == idLine;
    assert idLine[5..|idLine| - 1] == ShowNat(id);
    ParseShowNat(id, U64Max);
    var rows := Rows(lines, 0);
    assert |rows| == 10;
    forall y | 0 <= y < 10
      ensures rows[y] == t[y]
    {
      assert lines[1 + y] == Line(t[y]);
      PixelsLine(t[y]);
    }
    assert rows == t;
  }

  /** Dropping lines before a block boundary does not change what is read
      after it. */
  lemma {:induction false} ParseShift(pre: seq<string>, rest: seq<string>, j: nat, tiles: map<nat, Grid>)
    ensures ParseFrom(pre + rest, |pre| + j, tiles) == ParseFrom(rest, j, tiles)
    decreases |rest| - j
  {
    var lines := pre + rest;
    var i := |pre| + j;
    if j < |rest| {
      var line := rest[j];
      assert lines[i] == line;
      if line != [] && Header(line).Ok? {
        RowsShift(pre, rest, j);
        var tile := TryTile(Rows(rest, j), Size);
        if tile.Ok? {
          ParseShift(pre, rest, j + 12, tiles[Header(line).value := tile.value]);
        }
      }
    }
  }

  lemma RowsShift(pre: seq<string>, rest: seq<string>, j: nat)
    requires j < |rest|
    ensures Rows(pre + rest, |pre| + j) == Rows(rest, j)
  {
    var lines := pre + rest;
    var a, b := Rows(lines, |pre| + j), Rows(rest, j);
    assert |a| == |b|;
    forall k | 0 <= k < |a|
      ensures a[k] == b[k]
    {
      assert lines[|pre| + j + 1 + k] == rest[j + 1 + k];
    }
  }

  /** Reading the written tiles gives them back, then stops at the blank
      line that ends the text. */
  lemma {:induction false} ReadBlocks(ids: seq<nat>, ts: seq<Grid>, tiles: map<nat, Grid>)
    requires |ids| == |ts|
    requires forall k :: 0 <= k < |ids| ==> ids[k] <= U64Max && Square(ts[k], Size)
    ensures ParseFrom(Blocks(ids, ts) + [""], 0, tiles) == Ok(Collect(tiles, ids, ts))
  {
    if ids == [] {
      assert Blocks(ids, ts) + [""] == [""];
    } else {
      var rest := Blocks(ids[1..], ts[1..]) + [""];
      assert Blocks(ids, ts) + [""] == Block(ids[0], ts[0]) + rest;
      ReadThenRest(ids[0], ts[0], rest, tiles);
      ReadBlocks(ids[1..], ts[1..], tiles[ids[0] := ts[0]]);
    }
  }

  /** A block read, parsing goes on with the text after it. */
  lemma ReadThenRest(id: nat, t: Grid, rest: seq<string>, tiles: map<nat, Grid>)
    requires Square(t, Size) && id <= U64Max
    ensures ParseFrom(Block(id, t) + rest, 0, tiles) == ParseFrom(rest, 0, tiles[id := t])
  {
    ReadBlock(id, t, rest, tiles);
    ParseShift(Block(id, t), rest, 0, tiles[id := t]);
  }

  // -------------------------------------------------------------- assemble

  /** A place in the image, in tiles; y grows downwards. */
  type Pos = (int, int)

  const Origin: Pos := (0, 0)

  function Above(p: Pos): Pos { (p.0, p.1 - 1) }
  function Below(p: Pos): Pos { (p.0, p.1 + 1) }
  function LeftOf(p: Pos): Pos { (p.0 - 1, p.1) }
  function RightOf(p: Pos): Pos { (p.0 + 1, p.1) }

  /** Piece may go on free place p: it lines up with a placed neighbour
      there. */
  predicate Attaches(img: map<Pos, Grid>, piece: Grid, p: Pos)
  {
    p !in img &&
    ((Below(p) in img && FitsAbove(piece, img[Below(p)])) ||
     (Above(p) in img && FitsBelow(piece, img[Above(p)])) ||
     (RightOf(p) in img && FitsLeft(piece, img[RightOf(p)])) ||
     (LeftOf(p) in img && FitsRight(piece, img[LeftOf(p)])))
  }

  /** The tile at p lines up with one of its placed neighbours. */
  predicate Anchored(img: map<Pos, Grid>, p: Pos)
    requires p in img
  {
    (Below(p) in img && FitsAbove(img[p], img[Below(p)])) ||
    (Above(p) in img && FitsBelow(img[p], img[Above(p)])) ||
    (RightOf(p) in img && FitsLeft(img[p], img[RightOf(p)])) ||
    (LeftOf(p) in img && FitsRight(img[p], img[LeftOf(p)]))
  }

  /** The four tests `assemble` makes of a piece against the placed tile
      at q, in its order. */
  predicate Tries(img: map<Pos, Grid>, piece: Grid, q: Pos)
    requires q in img
  {
    (Above(q) !in img && FitsAbove(piece, img[q])) ||
    (Below(q) !in img && FitsBelow(piece, img[q])) ||
    (LeftOf(q) !in img && FitsLeft(piece, img[q])) ||
    (RightOf(q) !in img && FitsRight(piece, img[q]))
  }

  /** A piece that passes no test against any placed tile attaches
      nowhere. */
  lemma NothingTried(img: map<Pos, Grid>, piece: Grid)
    requires forall q {:trigger Tries(img, piece, q)} :: q in img ==> !Tries(img, piece, q)
    ensures forall p :: !Attaches(img, piece, p)
  {
    forall p | p !in img
      ensures !Attaches(img, piece, p)
    {
      if Below(p) in img {
        assert Above(Below(p)) == p;
        assert !Tries(img, piece, Below(p));
      }
      if Above(p) in img {
        assert Below(Above(p)) == p;
        assert !Tries(img, piece, Above(p));
      }
      if RightOf(p) in img {
        assert LeftOf(RightOf(p)) == p;
        assert !Tries(img, piece, RightOf(p));
      }
      if LeftOf(p) in img {
        assert RightOf(LeftOf(p)) == p;
        assert !Tries(img, piece, LeftOf(p));
      }
    }
  }

  /** No orientation of the tile attaches anywhere. */
  ghost predicate Unplaceable(img: map<Pos, Grid>, tile: Grid)
    requires Square(tile, |tile|)
  {
    forall piece, p {:trigger Attaches(img, piece, p)} :: piece in Orientations(tile) ==> !Attaches(img, piece, p)
  }

  /** The search for one tile: its orientations in order, and for each the
      tiles placed so far in some order, each tried above, below, left and
      right. */
  method Place(img: map<Pos, Grid>, tile: Grid) returns (r: Option<(Pos, Grid)>)
    requires Square(tile, |tile|)
    ensures r.Some? ==> r.value.1 in Orientations(tile) && Attaches(img, r.value.1, r.value.0)
    ensures r.None? ==> Unplaceable(img, tile)
  {
    var os := Orient(tile);
    OrientationsOf(tile);
    for k := 0 to 8
      invariant forall j, p :: 0 <= j < k ==> !Attaches(img, os[j], p)
    {
      var piece := os[k];
      var r := Try(img, piece);
      if r.Some? {
        return Some((r.value, piece));
      }
    }
    return None;
  }

  /** One orientation against a snapshot of the placed tiles. */
  method Try(img: map<Pos, Grid>, piece: Grid) returns (r: Option<Pos>)
    ensures r.Some? ==> Attaches(img, piece, r.value)
    ensures r.None? ==> forall p :: !Attaches(img, piece, p)
  {
    var keys := img.Keys;
    while keys != {}
      invariant keys <= img.Keys
      invariant forall q {:trigger Tries(img, piece, q)} :: q in img && q !in keys ==> !Tries(img, piece, q)
      decreases keys
    {
      var pos :| pos in keys;
      if Above(pos) !in img && FitsAbove(piece, img[pos]) {
        assert Below(Above(pos)) == pos;
        return Some(Above(pos));
      } else if Below(pos) !in img && FitsBelow(piece, img[pos]) {
        assert Above(Below(pos)) == pos;
        return Some(Below(pos));
      } else if LeftOf(pos) !in img && FitsLeft(piece, img[pos]) {
        assert RightOf(LeftOf(pos)) == pos;
        return Some(LeftOf(pos));
      } else if RightOf(pos) !in img && FitsRight(piece, img[pos]) {
        assert LeftOf(RightOf(pos)) == pos;
        return Some(RightOf(pos));
      }
      keys := keys - {pos};
    }
    NothingTried(img, piece);
    return None;
  }

  /** Every tile of the input is square and of the input size. */
  predicate Tiles(input: map<nat, Grid>)
  {
    forall id :: id in input ==> Square(input[id], Size)
  }

  /** The image and the ids share their places, which hold the origin. */
  predicate Shape(img: map<Pos, Grid>, ids: map<Pos, nat>)
  {
    img.Keys == ids.Keys && Origin in img
  }

  /** Place p holds an orientation of the input tile whose id it records. */
  ghost predicate OrientedAt(input: map<nat, Grid>, img: map<Pos, Grid>, ids: map<Pos, nat>, p: Pos)
    requires Tiles(input)
  {
    p in ids && p in img && ids[p] in input && img[p] in Orientations(input[ids[p]])
  }

  /** Each place holds an orientation of the input tile whose id it records. */
  ghost predicate Oriented(input: map<nat, Grid>, img: map<Pos, Grid>, ids: map<Pos, nat>)
    requires Tiles(input)
  {
    forall p {:trigger OrientedAt(input, img, ids, p)} :: p in ids ==> OrientedAt(input, img, ids, p)
  }

  lemma OrientedKeeps(input: map<nat, Grid>, img: map<Pos, Grid>, ids: map<Pos, nat>, p: Pos, id: nat, piece: Grid)
    requires Tiles(input) && Oriented(input, img, ids) && id in input && piece in Orientations(input[id])
    ensures Oriented(input, img[p := piece], ids[p := id])
  {
    var img', ids' := img[p := piece], ids[p := id];
    forall q | q in ids'
      ensures OrientedAt(input, img', ids', q)
    {
      if q != p {
        assert OrientedAt(input, img, ids, q);
      }
    }
  }

  /** No id is placed twice. */
  predicate Distinct(ids: map<Pos, nat>)
  {
    forall p, q :: p in ids && q in ids && ids[p] == ids[q] ==> p == q
  }

  /** The ids still to place are the input's others, with their tiles. */
  predicate Accounted(input: map<nat, Grid>, ids: map<Pos, nat>, rest: map<nat, Grid>)
  {
    (forall id :: id in rest ==> id in input && rest[id] == input[id]) &&
    rest.Keys !! ids.Values && rest.Keys + ids.Values == input.Keys
  }

  /** Every tile but the first lines up with a placed neighbour. */
  predicate Connected(img: map<Pos, Grid>)
  {
    forall p {:trigger Anchored(img, p)} :: p in img && p != Origin ==> Anchored(img, p)
  }

  /** What `assemble` keeps true. */
  ghost predicate Partial(input: map<nat, Grid>, img: map<Pos, Grid>, ids: map<Pos, nat>, rest: map<nat, Grid>)
  {
    Tiles(input) && Shape(img, ids) && Oriented(input, img, ids) &&
    Distinct(ids) && Accounted(input, ids, rest) && Connected(img)
  }

  /** A stuck pass: no remaining tile can go anywhere. */
  ghost predicate Stuck(img: map<Pos, Grid>, rest: map<nat, Grid>)
  {
    forall id :: id in rest ==> Square(rest[id], Size) && Unplaceable(img, rest[id])
  }

  /** A new place adds its id to the placed ones. */
  lemma ValuesAdd(ids: map<Pos, nat>, p: Pos, id: nat)
    requires p !in ids
    ensures ids[p := id].Values == ids.Values + {id}
  {
    var ids' := ids[p := id];
    forall v | v in ids'.Values
      ensures v in ids.Values + {id}
    {
      var q :| q in ids' && ids'[q] == v;
      if q != p {
        assert ids[q] == v;
      }
    }
    forall v | v in ids.Values + {id}
      ensures v in ids'.Values
    {
      if v != id {
        var q :| q in ids && ids[q] == v;
        assert ids'[q] == v;
      } else {
        assert ids'[p] == id;
      }
    }
  }

  lemma DistinctKeeps(ids: map<Pos, nat>, p: Pos, id: nat)
    requires Distinct(ids) && p !in ids && id !in ids.Values
    ensures Distinct(ids[p := id])
  {
    forall q | q in ids
      ensures ids[q] != id
    {
      assert ids[q] in ids.Values;
    }
  }

  lemma ConnectedKeeps(img: map<Pos, Grid>, p: Pos, piece: Grid)
    requires Connected(img) && Attaches(img, piece, p)
    ensures Connected(img[p := piece])
  {
    var img' := img[p := piece];
    forall q | q in img' && q != Origin
      ensures Anchored(img', q)
    {
      if q != p {
        assert Anchored(img, q);
      }
    }
  }

  /** Placing one remaining tile where it attaches keeps `Partial`. */
  lemma PlaceKeeps(input: map<nat, Grid>, img: map<Pos, Grid>, ids: map<Pos, nat>, rest: map<nat, Grid>,
                   id: nat, p: Pos, piece: Grid)
    requires Partial(input, img, ids, rest) && id in rest
    requires piece in Orientations(input[id]) && Attaches(img, piece, p)
    ensures Partial(input, img[p := piece], ids[p := id], rest - {id})
  {
    assert p !in ids;
    OrientedKeeps(input, img, ids, p, id, piece);
    ValuesAdd(ids, p, id);
    DistinctKeeps(ids, p, id);
    ConnectedKeeps(img, p, piece);
  }

  /** What a pass keeps true: the tiles not yet visited and those that
      failed are what remains to place, and until a tile is placed nothing
      has changed and every failed tile was stuck. */
  ghost predicate Passing(input: map<nat, Grid>, img0: map<Pos, Grid>, ids0: map<Pos, nat>, tiles: map<nat, Grid>,
                          todo: set<nat>, img: map<Pos, Grid>, ids: map<Pos, nat>, rest: map<nat, Grid>,
                          failed: map<nat, Grid>, placed: bool)
  {
    todo <= tiles.Keys && failed.Keys <= tiles.Keys - todo &&
    rest.Keys == todo + failed.Keys && Partial(input, img, ids, rest) &&
    (forall id :: id in failed ==> failed[id] == tiles[id]) &&
    (placed ==> failed.Keys != tiles.Keys - todo) &&
    (!placed ==> img == img0 && ids == ids0 && failed.Keys == tiles.Keys - todo && Stuck(img0, failed))
  }

  /** One pass of the outer loop: every remaining tile, in some order, is
      placed if it can be and kept for the next pass otherwise. */
  method Pass(ghost input: map<nat, Grid>, img0: map<Pos, Grid>, ids0: map<Pos, nat>, tiles: map<nat, Grid>)
    returns (img: map<Pos, Grid>, ids: map<Pos, nat>, failed: map<nat, Grid>)
    requires Partial(input, img0, ids0, tiles)
    ensures Partial(input, img, ids, failed) && failed.Keys <= tiles.Keys
    ensures failed.Keys == tiles.Keys ==> img == img0 && ids == ids0 && failed == tiles && Stuck(img0, tiles)
  {
    img, ids, failed := img0, ids0, map[];
    ghost var rest := tiles;
    ghost var placed := false;
    var todo := tiles.Keys;
    while todo != {}
      invariant Passing(input, img0, ids0, tiles, todo, img, ids, rest, failed, placed)
      decreases todo
    {
      var id :| id in todo;
      ghost var img1, ids1, rest1, failed1, placed1 := img, ids, rest, failed, placed;
      ghost var taken: bool;
      img, ids, rest, failed, taken := Visit(input, img, ids, rest, failed, id, tiles[id]);
      placed := placed || taken;
      PassStep(input, img0, ids0, tiles, todo, img1, ids1, rest1, failed1, placed1, id, img, ids, rest, failed, taken);
      todo := todo - {id};
    }
    PassEnd(input, img0, ids0, tiles, img, ids, rest, failed, placed);
  }

  lemma PassStep(input: map<nat, Grid>, img0: map<Pos, Grid>, ids0: map<Pos, nat>, tiles: map<nat, Grid>,
                 todo: set<nat>, img: map<Pos, Grid>, ids: map<Pos, nat>, rest: map<nat, Grid>,
                 failed: map<nat, Grid>, placed: bool, id: nat,
                 img': map<Pos, Grid>, ids': map<Pos, nat>, rest': map<nat, Grid>, failed': map<nat, Grid>, taken: bool)
    requires Passing(input, img0, ids0, tiles, todo, img, ids, rest, failed, placed) && id in todo
    requires Partial(input, img', ids', rest')
    requires taken ==> rest' == rest - {id} && failed' == failed
    requires !taken ==> img' == img && ids' == ids && rest' == rest && failed' == failed[id := tiles[id]]
    requires !taken ==> Square(tiles[id], Size) && Unplaceable(img, tiles[id])
    ensures Passing(input, img0, ids0, tiles, todo - {id}, img', ids', rest', failed', placed || taken)
  {
    if !taken && !placed {
      StuckAdd(img0, failed, id, tiles[id]);
    }
  }

  lemma PassEnd(input: map<nat, Grid>, img0: map<Pos, Grid>, ids0: map<Pos, nat>, tiles: map<nat, Grid>,
                img: map<Pos, Grid>, ids: map<Pos, nat>, rest: map<nat, Grid>, failed: map<nat, Grid>, placed: bool)
    requires Partial(input, img0, ids0, tiles)
    requires Passing(input, img0, ids0, tiles, {}, img, ids, rest, failed, placed)
    ensures Partial(input, img, ids, failed) && failed.Keys <= tiles.Keys
    ensures failed.Keys == tiles.Keys ==> img == img0 && ids == ids0 && failed == tiles && Stuck(img0, tiles)
  {
    forall id | id in rest
      ensures rest[id] == failed[id]
    {
      assert rest[id] == input[id] == tiles[id];
    }
    assert rest == failed;
  }

  lemma StuckAdd(img: map<Pos, Grid>, rest: map<nat, Grid>, id: nat, tile: Grid)
    requires Stuck(img, rest) && Square(tile, Size) && Unplaceable(img, tile)
    ensures Stuck(img, rest[id := tile])
  {
  }

  /** One tile of a pass: placed and struck off, or kept in `failed`
      when no orientation of it attaches anywhere. */
  method Visit(ghost input: map<nat, Grid>, img0: map<Pos, Grid>, ids0: map<Pos, nat>, ghost rest0: map<nat, Grid>,
               failed0: map<nat, Grid>, id: nat, tile: Grid)
    returns (img: map<Pos, Grid>, ids: map<Pos, nat>, ghost rest: map<nat, Grid>, failed: map<nat, Grid>, ghost taken: bool)
    requires Partial(input, img0, ids0, rest0) && id in rest0 && tile == input[id]
    ensures Partial(input, img, ids, rest)
    ensures taken ==> rest == rest0 - {id} && failed == failed0
    ensures !taken ==> img == img0 && ids == ids0 && rest == rest0 && failed == failed0[id := tile]
    ensures !taken ==> Square(tile, Size) && Unplaceable(img0, tile)
  {
    var r := Place(img0, tile);
    if r.Some? {
      PlaceKeeps(input, img0, ids0, rest0, id, r.value.0, r.value.1);
      return img0[r.value.0 := r.value.1], ids0[r.value.0 := id], rest0 - {id}, failed0, true;
    }
    return img0, ids0, rest0, failed0[id := tile], false;
  }

  /** How `assemble` ends: with the image and the ids, by panicking on an
      empty input, or never, when a whole pass places nothing (the state it
      is stuck in is kept). */
  datatype Assembly =
    | Assembled(img: map<Pos, Grid>, ids: map<Pos, nat>)
    | NoTiles
    | Stalled(img: map<Pos, Grid>, ids: map<Pos, nat>, rest: map<nat, Grid>)

  /** `assemble`: some tile seeds the image at the origin, then passes
      place the others until none is left. */
  method Assemble(input: map<nat, Grid>) returns (a: Assembly)
    requires Tiles(input)
    ensures a == NoTiles <==> input == map[]
    ensures a.Assembled? ==> Partial(input, a.img, a.ids, map[])
    ensures a.Stalled? ==> Partial(input, a.img, a.ids, a.rest) && a.rest != map[] && Stuck(a.img, a.rest)
  {
    if input == map[] {
      return NoTiles;
    }
    var first :| first in input;
    var img := map[Origin := input[first]];
    var ids := map[Origin := first];
    var tiles := input - {first};
    Seeded(input, first);
    while tiles != map[]
      invariant Partial(input, img, ids, tiles)
      decreases |tiles.Keys|
    {
      var img', ids', failed := Pass(input, img, ids, tiles);
      if failed.Keys == tiles.Keys {
        return Stalled(img, ids, tiles);
      }
      SubsetSmaller(failed.Keys, tiles.Keys);
      img, ids, tiles := img', ids', failed;
    }
    return Assembled(img, ids);
  }

  /** The first tile, as read, at the origin starts a partial image. */
  lemma Seeded(input: map<nat, Grid>, first: nat)
    requires Tiles(input) && first in input
    ensures Partial(input, map[Origin := input[first]], map[Origin := first], input - {first})
  {
    var img, ids := map[Origin := input[first]], map[Origin := first];
    OrientationsOf(input[first]);
    ValuesAdd(map[], Origin, first);
    assert map[][Origin := first] == ids;
    assert OrientedAt(input, img, ids, Origin);
  }

  lemma SubsetSmaller<T>(s: set<T>, t: set<T>)
    requires s <= t && s != t
    ensures |s| < |t|
  {
    assert t == s + (t - s);
  }

  /** Once assembled, every input id sits at exactly one place. */
  lemma PlacedOnce(input: map<nat, Grid>, img: map<Pos, Grid>, ids: map<Pos, nat>)
    requires Partial(input, img, ids, map[])
    ensures forall id :: id in input ==> exists p :: p in ids && ids[p] == id
    ensures forall p, q :: p in ids && q in ids && ids[p] == ids[q] ==> p == q
  {
    forall id | id in input
      ensures exists p :: p in ids && ids[p] == id
    {
      assert id in ids.Values;
    }
  }

  // ---------------------------------------------------------------- part1

  const NoneUnwrap := "called `Option::unwrap()` on a `None` value"
  const MissingKey := "no entry found for key"
  const MulOverflow := "attempt to multiply with overflow"

  /** The x of a place, or its y when `vertical`. */
  function Coord(p: Pos, vertical: bool): int
  {
    if vertical then p.1 else p.0
  }

  /** `minmax` over one coordinate of the places, taken in some order:
      both ends are coordinates of places and every place lies between
      them. */
  method MinMax(keys: set<Pos>, vertical: bool) returns (lo: int, hi: int)
    requires keys != {}
    ensures exists p :: p in keys && Coord(p, vertical) == lo
    ensures exists p :: p in keys && Coord(p, vertical) == hi
    ensures forall p :: p in keys ==> lo <= Coord(p, vertical) <= hi
  {
    var first :| first in keys;
    ghost var low, high := first, first;
    lo, hi := Coord(first, vertical), Coord(first, vertical);
    var todo := keys - {first};
    while todo != {}
      invariant todo <= keys && low in keys && high in keys
      invariant Coord(low, vertical) == lo && Coord(high, vertical) == hi
      invariant forall p :: p in keys && p !in todo ==> lo <= Coord(p, vertical) <= hi
      decreases todo
    {
      var p :| p in todo;
      if Coord(p, vertical) < lo {
        lo, low := Coord(p, vertical), p;
      }
      if Coord(p, vertical) > hi {
        hi, high := Coord(p, vertical), p;
      }
      todo := todo - {p};
    }
  }

  /** The smallest box around the placed tiles. */
  datatype Box = Box(minX: int, maxX: int, minY: int, maxY: int)

  /** The box's sides are the least and greatest x and y of the places. */
  predicate Spans(box: Box, keys: set<Pos>)
  {
    (exists p :: p in keys && p.0 == box.minX) && (exists p :: p in keys && p.0 == box.maxX) &&
    (exists p :: p in keys && p.1 == box.minY) && (exists p :: p in keys && p.1 == box.maxY) &&
    forall p :: p in keys ==> box.minX <= p.0 <= box.maxX && box.minY <= p.1 <= box.maxY
  }

  /** Two `minmax` runs, over the x and then the y of the places. */
  method Bounds(keys: set<Pos>) returns (box: Box)
    requires keys != {}
    ensures Spans(box, keys)
  {
    var minX, maxX := MinMax(keys, false);
    var minY, maxY := MinMax(keys, true);
    box := Box(minX, maxX, minY, maxY);
  }

  /** The box a set of places spans is the only one. */
  lemma SpansUnique(a: Box, b: Box, keys: set<Pos>)
    requires Spans(a, keys) && Spans(b, keys)
    ensures a == b
  {
    var p1 :| p1 in keys && p1.0 == a.minX;
    var p2 :| p2 in keys && p2.0 == b.minX;
    var p3 :| p3 in keys && p3.0 == a.maxX;
    var p4 :| p4 in keys && p4.0 == b.maxX;
    var p5 :| p5 in keys && p5.1 == a.minY;
    var p6 :| p6 in keys && p6.1 == b.minY;
    var p7 :| p7 in keys && p7.1 == a.maxY;
    var p8 :| p8 in keys && p8.1 == b.maxY;
  }

  /** The four corners in the order part 1 multiplies them. */
  function Corners(box: Box): seq<Pos>
  {
    [(box.minX, box.minY), (box.minX, box.maxY), (box.maxX, box.minY), (box.maxX, box.maxY)]
  }

  /** The ids at the places, multiplied left to right: a missing place
      panics when it is looked up, a product above the `usize` range when
      it is formed. */
  function Product(ids: map<Pos, nat>, cs: seq<Pos>): (r: Result<nat>)
    requires |cs| >= 1
    ensures !r.Ok? ==> r.Panic?
  {
    if |cs| == 1 then (if cs[0] in ids then Ok(ids[cs[0]]) else Panic(MissingKey))
    else
      var r0 := Product(ids, cs[..|cs| - 1]);
      var c := cs[|cs| - 1];
      if !r0.Ok? then r0
      else if c !in ids then Panic(MissingKey)
      else if r0.value * ids[c] > U64Max then Panic(MulOverflow)
      else Ok(r0.value * ids[c])
  }

  /** The plain product of the ids at the places. */
  function Mul(ids: map<Pos, nat>, cs: seq<Pos>): nat
    requires forall c :: c in cs ==> c in ids
  {
    if |cs| == 0 then 1 else Mul(ids, cs[..|cs| - 1]) * ids[cs[|cs| - 1]]
  }

  /** Every place is there. */
  predicate Present(ids: map<Pos, nat>, cs: seq<Pos>)
  {
    forall c :: c in cs ==> c in ids
  }

  /** Every partial product of two or more of the ids stays in the `usize`
      range. */
  predicate InRange(ids: map<Pos, nat>, cs: seq<Pos>)
    requires Present(ids, cs)
  {
    forall k :: 2 <= k <= |cs| ==> Mul(ids, cs[..k]) <= U64Max
  }

  lemma PrefixStep(ids: map<Pos, nat>, cs: seq<Pos>)
    requires |cs| >= 2 && Present(ids, cs)
    ensures Present(ids, cs[..|cs| - 1])
    ensures InRange(ids, cs) <==> InRange(ids, cs[..|cs| - 1]) && Mul(ids, cs) <= U64Max
  {
    var n := |cs|;
    var pre := cs[..n - 1];
    assert forall k :: 2 <= k <= n - 1 ==> pre[..k] == cs[..k];
    assert cs[..n] == cs;
  }

  /** The product succeeds exactly when every place is there and no
      partial product leaves the `usize` range, and then it is the plain
      product. */
  lemma {:induction false} ProductOk(ids: map<Pos, nat>, cs: seq<Pos>)
    requires |cs| >= 1
    ensures Product(ids, cs).Ok? <==> Present(ids, cs) && InRange(ids, cs)
    ensures Product(ids, cs).Ok? ==> Present(ids, cs) && Product(ids, cs).value == Mul(ids, cs)
  {
    var n := |cs|;
    if n == 1 {
      assert cs[..1] == cs;
      assert Mul(ids, []) == 1;
    } else {
      var pre := cs[..n - 1];
      ProductOk(ids, pre);
      assert forall c :: c in cs ==> c in pre || c == cs[n - 1];
      if Present(ids, cs) {
        PrefixStep(ids, cs);
      }
    }
  }

  /** How part 1 and part 2 end: with a result, or never, when `assemble`
      is stuck. */
  datatype Answer = Finished(result: Result<nat>) | Forever

  /** The corner product of assembled ids, and the box it was taken over. */
  method CornerProduct(ids: map<Pos, nat>) returns (r: Result<nat>, ghost box: Box)
    requires ids != map[]
    ensures Spans(box, ids.Keys) && r == Product(ids, Corners(box))
  {
    var b := Bounds(ids.Keys);
    r, box := Product(ids, Corners(b)), b;
  }

  /** `part1`: assemble, find the box of the placed ids and multiply the
      ids at its corners. The ghost outputs are the assembled image and
      ids, the box, and the tiles left when `assemble` is stuck. */
  method Part1(input: map<nat, Grid>)
    returns (a: Answer, ghost img: map<Pos, Grid>, ghost ids: map<Pos, nat>, ghost box: Box, ghost rest: map<nat, Grid>)
    requires Tiles(input)
    ensures input == map[] ==> a == Finished(Panic(NoneUnwrap))
    ensures a.Finished? && input != map[] ==>
      Partial(input, img, ids, map[]) && Spans(box, ids.Keys) && a.result == Product(ids, Corners(box))
    ensures a.Forever? ==> Partial(input, img, ids, rest) && rest != map[] && Stuck(img, rest)
  {
    var asm := Assemble(input);
    if asm.NoTiles? {
      return Finished(Panic(NoneUnwrap)), map[], map[], Box(0, 0, 0, 0), map[];
    } else if asm.Stalled? {
      return Forever, asm.img, asm.ids, Box(0, 0, 0, 0), asm.rest;
    }
    assert Origin in asm.ids;
    var r;
    r, box := CornerProduct(asm.ids);
    return Finished(r), asm.img, asm.ids, box, map[];
  }

  // ---------------------------------------------------------------- part2

  const Unsupported := "unsupported dimensions"

  /** Every placed tile is 10 by 10. */
  predicate Pictures(img: map<Pos, Grid>)
  {
    forall p :: p in img ==> Square(img[p], Size)
  }

  /** A partial image holds input tiles, turned or flipped. */
  lemma PartialPictures(input: map<nat, Grid>, img: map<Pos, Grid>, ids: map<Pos, nat>, rest: map<nat, Grid>)
    requires Partial(input, img, ids, rest)
    ensures Pictures(img)
  {
    forall p | p in img
      ensures Square(img[p], Size)
    {
      assert OrientedAt(input, img, ids, p);
      OrientationsOf(input[ids[p]]);
    }
  }

  /** Row y of a tile's inside, its border dropped. */
  function Inner(t: Grid, y: nat): (r: seq<bool>)
    requires Square(t, Size) && y < 8
    ensures |r| == 8
  {
    t[y + 1][1..9]
  }

  /** Tiles across and down the box. */
  function Width(box: Box): nat
  {
    if box.minX <= box.maxX then box.maxX - box.minX + 1 else 0
  }

  function Height(box: Box): nat
  {
    if box.minY <= box.maxY then box.maxY - box.minY + 1 else 0
  }

  /** The first k places of the box's row at ty hold tiles. */
  predicate BandFilled(img: map<Pos, Grid>, box: Box, ty: int, k: nat)
  {
    forall tx :: box.minX <= tx < box.minX + k ==> (tx, ty) in img
  }

  /** The first j rows of places of the box hold tiles. */
  predicate FilledUpTo(img: map<Pos, Grid>, box: Box, j: nat)
  {
    forall ty :: box.minY <= ty < box.minY + j ==> BandFilled(img, box, ty, Width(box))
  }

  /** Every place of the box holds a tile. */
  predicate Filled(img: map<Pos, Grid>, box: Box)
  {
    FilledUpTo(img, box, Height(box))
  }

  /** Pixel row y of the band of tiles at ty, from its first k tiles. */
  function Band(img: map<Pos, Grid>, box: Box, ty: int, y: nat, k: nat): (r: seq<bool>)
    requires Pictures(img) && BandFilled(img, box, ty, k) && y < 8
    ensures |r| == 8 * k
  {
    if k == 0 then [] else Band(img, box, ty, y, k - 1) + Inner(img[(box.minX + k - 1, ty)], y)
  }

  /** The pixel rows of the first j bands, eight to a band. */
  function Bands(img: map<Pos, Grid>, box: Box, j: nat): (rows: Grid)
    requires Pictures(img) && FilledUpTo(img, box, j)
    ensures |rows| == 8 * j
  {
    if j == 0 then []
    else
      assert FilledUpTo(img, box, j - 1);
      assert BandFilled(img, box, box.minY + j - 1, Width(box));
      Bands(img, box, j - 1) + seq(8, y requires 0 <= y < 8 => Band(img, box, box.minY + j - 1, y, Width(box)))
  }

  /** The stitched image. */
  function Stitched(img: map<Pos, Grid>, box: Box): (rows: Grid)
    requires Pictures(img) && Filled(img, box)
  {
    Bands(img, box, Height(box))
  }

  /** Pixel c of a band row is pixel c % 8 + 1 of row y + 1 of tile c / 8. */
  lemma {:induction false} BandPixel(img: map<Pos, Grid>, box: Box, ty: int, y: nat, k: nat, c: nat)
    requires Pictures(img) && BandFilled(img, box, ty, k) && y < 8 && c < 8 * k
    ensures (box.minX + c / 8, ty) in img
    ensures Band(img, box, ty, y, k)[c] == img[(box.minX + c / 8, ty)][y + 1][c % 8 + 1]
  {
    if c < 8 * (k - 1) {
      BandPixel(img, box, ty, y, k - 1, c);
    } else {
      assert c / 8 == k - 1 && c % 8 == c - 8 * (k - 1);
    }
  }

  /** The stitched pixel at row r, column c is the inner pixel of the tile
      r / 8 bands down and c / 8 tiles across, one in from its border. */
  lemma {:induction false} BandsPixel(img: map<Pos, Grid>, box: Box, j: nat, r: nat, c: nat)
    requires Pictures(img) && FilledUpTo(img, box, j) && r < 8 * j && c < 8 * Width(box)
    ensures (box.minX + c / 8, box.minY + r / 8) in img
    ensures |Bands(img, box, j)[r]| == 8 * Width(box)
    ensures Bands(img, box, j)[r][c] == img[(box.minX + c / 8, box.minY + r / 8)][r % 8 + 1][c % 8 + 1]
  {
    if r < 8 * (j - 1) {
      assert FilledUpTo(img, box, j - 1);
      BandsPixel(img, box, j - 1, r, c);
    } else {
      assert r / 8 == j - 1 && r % 8 == r - 8 * (j - 1);
      assert BandFilled(img, box, box.minY + j - 1, Width(box));
      BandPixel(img, box, box.minY + j - 1, r % 8, Width(box), c);
    }
  }

  /** Row y of band ty after one more tile: the rows already extended and
      the rows still to extend. */
  method Extend(img: map<Pos, Grid>, box: Box, ty: int, k: nat, rows0: seq<seq<bool>>) returns (rows: seq<seq<bool>>)
    requires Pictures(img) && BandFilled(img, box, ty, k + 1)
    requires |rows0| == 8 && forall y :: 0 <= y < 8 ==> rows0[y] == Band(img, box, ty, y, k)
    ensures |rows| == 8 && forall y :: 0 <= y < 8 ==> rows[y] == Band(img, box, ty, y, k + 1)
  {
    var tile := img[(box.minX + k, ty)];
    rows := rows0;
    for y := 1 to 9
      invariant |rows| == 8
      invariant forall y' :: 0 <= y' < y - 1 ==> rows[y'] == Band(img, box, ty, y', k + 1)
      invariant forall y' :: y - 1 <= y' < 8 ==> rows[y'] == Band(img, box, ty, y', k)
    {
      rows := rows[y - 1 := rows[y - 1] + tile[y][1..9]];
    }
  }

  /** The stitching loops of `part2`: band by band, tile by tile, the inner
      rows of each tile appended to the band's eight rows; a missing place
      panics when it is looked up. */
  method Stitch(img: map<Pos, Grid>, box: Box) returns (r: Result<Grid>)
    requires Pictures(img)
    ensures r.Ok? <==> Filled(img, box)
    ensures r.Ok? ==> r.value == Stitched(img, box)
    ensures !r.Ok? ==> r == Panic(MissingKey)
  {
    var stitched: Grid := [];
    for j := 0 to Height(box)
      invariant FilledUpTo(img, box, j) && stitched == Bands(img, box, j)
    {
      var ty := box.minY + j;
      var rows: seq<seq<bool>> := seq(8, _ => []);
      for k := 0 to Width(box)
        invariant BandFilled(img, box, ty, k)
        invariant |rows| == 8 && forall y :: 0 <= y < 8 ==> rows[y] == Band(img, box, ty, y, k)
      {
        if (box.minX + k, ty) !in img {
          assert !BandFilled(img, box, ty, Width(box));
          return Panic(MissingKey);
        }
        rows := Extend(img, box, ty, k, rows);
      }
      assert rows == seq(8, y requires 0 <= y < 8 => Band(img, box, ty, y, Width(box)));
      stitched := stitched + rows;
    }
    return Ok(stitched);
  }

  // -------------------------------------------------------------- do_part2

  const Underflow := "attempt to subtract with overflow"

  /** The sea monster, three rows of twenty; a `#` must lie on a set pixel. */
  const Monster: seq<string> := ["                  # ", "#    ##    ##    ###", " #  #  #  #  #  #   "]

  /** `row_match`: every non-blank of the pattern lies on a set pixel, as
      far as the shorter of the two goes. */
  predicate RowMatch(pixels: seq<bool>, pattern: string)
  {
    forall i :: 0 <= i < |pixels| && i < |pattern| ==> pattern[i] == ' ' || pixels[i]
  }

  /** A row of set pixels takes any pattern, and a blank pattern any row. */
  lemma RowMatchAccepts(pixels: seq<bool>, pattern: string)
    ensures (forall i :: 0 <= i < |pixels| ==> pixels[i]) ==> RowMatch(pixels, pattern)
    ensures (forall i :: 0 <= i < |pattern| ==> pattern[i] == ' ') ==> RowMatch(pixels, pattern)
  {
  }

  /** How many windows of width w fit in len. */
  function Windows(len: nat, w: nat): nat
  {
    if len >= w then len - w + 1 else 0
  }

  /** A monster has its top-left corner at (x, y). */
  predicate MonsterAt(g: Grid, y: nat, x: nat)
    requires Square(g, |g|) && y < Windows(|g|, 3) && x < Windows(|g|, 20)
  {
    RowMatch(g[y][x..x + 20], Monster[0]) &&
    RowMatch(g[y + 1][x..x + 20], Monster[1]) &&
    RowMatch(g[y + 2][x..x + 20], Monster[2])
  }

  /** Monsters in the window of rows from y, with corners left of k. */
  function RowMonsters(g: Grid, y: nat, k: nat): (n: nat)
    requires Square(g, |g|) && y < Windows(|g|, 3) && k <= Windows(|g|, 20)
    ensures n <= k
  {
    if k == 0 then 0 else RowMonsters(g, y, k - 1) + (if MonsterAt(g, y, k - 1) then 1 else 0)
  }

  /** Monsters in the first j windows of rows. */
  function MonstersUpTo(g: Grid, j: nat): (n: nat)
    requires Square(g, |g|) && j <= Windows(|g|, 3)
    ensures n > 0 ==> j > 0 && |g| >= 20
  {
    if j == 0 then 0 else MonstersUpTo(g, j - 1) + RowMonsters(g, j - 1, Windows(|g|, 20))
  }

  /** `monster_count` for one orientation. */
  function Monsters(g: Grid): (n: nat)
    requires Square(g, |g|)
    ensures n > 0 ==> |g| >= 20
  {
    MonstersUpTo(g, Windows(|g|, 3))
  }

  /** A window of rows counts no monster exactly when no corner in it shows one. */
  lemma {:induction false} RowMonstersZero(g: Grid, y: nat, k: nat)
    requires Square(g, |g|) && y < Windows(|g|, 3) && k <= Windows(|g|, 20)
    ensures RowMonsters(g, y, k) == 0 <==> forall x :: 0 <= x < k ==> !MonsterAt(g, y, x)
  {
    if k > 0 {
      RowMonstersZero(g, y, k - 1);
    }
  }

  /** The first j windows of rows count no monster exactly when no window in them shows one. */
  lemma {:induction false} MonstersUpToZero(g: Grid, j: nat)
    requires Square(g, |g|) && j <= Windows(|g|, 3)
    ensures MonstersUpTo(g, j) == 0 <==>
      forall y, x :: 0 <= y < j && 0 <= x < Windows(|g|, 20) ==> !MonsterAt(g, y, x)
  {
    if j > 0 {
      var w, last := Windows(|g|, 20), j - 1;
      MonstersUpToZero(g, last);
      RowMonstersZero(g, last, w);
      assert MonstersUpTo(g, j) == MonstersUpTo(g, last) + RowMonsters(g, last, w);
      assert (forall y, x :: 0 <= y < j && 0 <= x < w ==> !MonsterAt(g, y, x)) <==>
        (forall y, x :: 0 <= y < last && 0 <= x < w ==> !MonsterAt(g, y, x)) &&
        (forall x :: 0 <= x < w ==> !MonsterAt(g, last, x));
    }
  }

  /** An orientation counts no monster exactly when no window shows one. */
  lemma MonstersZero(g: Grid)
    requires Square(g, |g|)
    ensures Monsters(g) == 0 <==>
      forall y, x :: 0 <= y < Windows(|g|, 3) && 0 <= x < Windows(|g|, 20) ==> !MonsterAt(g, y, x)
  {
    MonstersUpToZero(g, Windows(|g|, 3));
  }

  /** The counting loops of `do_part2`: each window of three rows, and in
      it each window of twenty columns. */
  method CountMonsters(g: Grid) returns (count: nat)
    requires Square(g, |g|)
    ensures count == Monsters(g)
  {
    count := 0;
    for y := 0 to Windows(|g|, 3)
      invariant count == MonstersUpTo(g, y)
    {
      ghost var before := count;
      for x := 0 to Windows(|g|, 20)
        invariant count == before + RowMonsters(g, y, x)
      {
        if RowMatch(g[y][x..x + 20], Monster[0]) && RowMatch(g[y + 1][x..x + 20], Monster[1]) &&
           RowMatch(g[y + 2][x..x + 20], Monster[2]) {
          count := count + 1;
        }
      }
    }
  }

  /** Set pixels of a row, and of a grid: `num_hash`. */
  function RowHashes(row: seq<bool>): (n: nat)
    ensures n <= |row|
  {
    if |row| == 0 then 0
    else
      RowHashes(row[..|row| - 1]) + (if row[|row| - 1] then 1 else 0)
  }

  function Hashes(g: Grid): nat
  {
    if |g| == 0 then 0 else Hashes(g[..|g| - 1]) + RowHashes(g[|g| - 1])
  }

  /** The places of the set pixels. */
  function Cells(g: Grid): set<(nat, nat)>
  {
    set y: nat, x: nat | y < |g| && x < |g[y]| && g[y][x] :: (y, x)
  }

  function RowCells(y: nat, row: seq<bool>): set<(nat, nat)>
  {
    set x: nat | x < |row| && row[x] :: (y, x)
  }

  lemma {:induction false} RowCellsCount(y: nat, row: seq<bool>)
    ensures |RowCells(y, row)| == RowHashes(row)
  {
    if |row| > 0 {
      var m := |row| - 1;
      RowCellsCount(y, row[..m]);
      var last := if row[m] then {(y, m)} else {};
      assert RowCells(y, row) == RowCells(y, row[..m]) + last;
      assert (y, m) !in RowCells(y, row[..m]);
    }
  }

  /** `num_hash` counts the set pixels. */
  lemma {:induction false} HashesCells(g: Grid)
    ensures Hashes(g) == |Cells(g)|
  {
    if |g| > 0 {
      var n := |g| - 1;
      HashesCells(g[..n]);
      RowCellsCount(n, g[n]);
      assert Cells(g) == Cells(g[..n]) + RowCells(n, g[n]);
      assert Cells(g[..n]) !! RowCells(n, g[n]);
    }
  }

  /** `do_part2` over orientations from the first: the first with a monster
      decides, its count times 15 taken from the hash count, which panics
      below zero; with none the hash count stands. */
  function Sighting(os: seq<Grid>, hashes: nat): (r: Result<nat>)
    requires forall o :: o in os ==> Square(o, |o|)
    ensures r.Ok? || r.Panic?
    ensures r.Ok? ==> r.value <= hashes
  {
    if |os| == 0 then Ok(hashes)
    else if Monsters(os[0]) != 0 then
      (if 15 * Monsters(os[0]) > hashes then Panic(Underflow) else Ok(hashes - 15 * Monsters(os[0])))
    else Sighting(os[1..], hashes)
  }

  /** What `do_part2` answers for an image. */
  function Roughness(g: Grid): (r: Result<nat>)
    requires Square(g, |g|)
    ensures r.Ok? || r.Panic?
    ensures r.Ok? ==> r.value <= Hashes(g)
  {
    OrientationsOf(g);
    Sighting(Orientations(g), Hashes(g))
  }

  /** `do_part2`. The message it prints when no orientation shows a monster
      is not part of this model. */
  method DoPart2(g: Grid) returns (r: Result<nat>)
    requires Square(g, |g|)
    ensures r == Roughness(g)
  {
    var hashes := Hashes(g);
    var os := Orient(g);
    OrientationsOf(g);
    for k := 0 to 8
      invariant Sighting(os[k..], hashes) == Sighting(os, hashes)
    {
      var count := CountMonsters(os[k]);
      assert os[k..][0] == os[k] && os[k..][1..] == os[k + 1..];
      if count != 0 {
        if 15 * count > hashes {
          return Panic(Underflow);
        }
        return Ok(hashes - 15 * count);
      }
    }
    return Ok(hashes);
  }

  // ------------------------------------------------------- part2, the end

  /** The panic of `unwrap` on an `Err` carrying msg. */
  function Unwrapped(msg: string): string
  {
    "called `Result::unwrap()` on an `Err` value: \"" + msg + "\""
  }

  /** The end of `part2` for the stitched rows: 24 or 96 of them are made
      a tile, which must be square, and searched; any other number panics. */
  function Searched(st: Grid): Result<nat>
  {
    if |st| != 24 && |st| != 96 then Panic(Unsupported)
    else
      var t := TryTile(st, |st|);
      if t.Err? then Panic(Unwrapped(t.msg))
      else
        TryTileSquare(st, |st|);
        Roughness(st)
  }

  /** `part2` once assembled: the box, the stitched image, the search. */
  method Finish(img: map<Pos, Grid>) returns (r: Result<nat>, ghost box: Box)
    requires Pictures(img) && img != map[]
    ensures Spans(box, img.Keys)
    ensures r == if Filled(img, box) then Searched(Stitched(img, box)) else Panic(MissingKey)
  {
    var b := Bounds(img.Keys);
    box := b;
    var st := Stitch(img, b);
    if !st.Ok? {
      return Panic(MissingKey), box;
    }
    var rows := st.value;
    if |rows| == 24 || |rows| == 96 {
      var t := TryTile(rows, |rows|);
      if t.Err? {
        return Panic(Unwrapped(t.msg)), box;
      }
      TryTileSquare(rows, |rows|);
      r := DoPart2(t.value);
    } else {
      r := Panic(Unsupported);
    }
  }

  /** `part2`: assemble, stitch the tiles' insides together and search the
      image. The ghost outputs are as for `part1`. */
  method Part2(input: map<nat, Grid>)
    returns (a: Answer, ghost img: map<Pos, Grid>, ghost ids: map<Pos, nat>, ghost box: Box, ghost rest: map<nat, Grid>)
    requires Tiles(input)
    ensures input == map[] ==> a == Finished(Panic(NoneUnwrap))
    ensures a.Finished? && input != map[] ==>
      Partial(input, img, ids, map[]) && Pictures(img) && Spans(box, img.Keys) &&
      a.result == if Filled(img, box) then Searched(Stitched(img, box)) else Panic(MissingKey)
    ensures a.Forever? ==> Partial(input, img, ids, rest) && rest != map[] && Stuck(img, rest)
  {
    var asm := Assemble(input);
    if asm.NoTiles? {
      return Finished(Panic(NoneUnwrap)), map[], map[], Box(0, 0, 0, 0), map[];
    } else if asm.Stalled? {
      return Forever, asm.img, asm.ids, Box(0, 0, 0, 0), asm.rest;
    }
    PartialPictures(input, asm.img, asm.ids, map[]);
    assert Origin in asm.img;
    var r;
    r, box := Finish(asm.img);
    return Finished(r), asm.img, asm.ids, box, map[];
  }

  // ------------------------------------------------- the subtraction

  /** An image with every pixel set. */
  function AllSet(n: nat): (g: Grid)
    ensures Square(g, n)
  {
    seq(n, _ => seq(n, _ => true))
  }

  lemma {:induction false} SetRow(m: nat)
    ensures RowHashes(seq(m, _ => true)) == m
  {
    if m > 0 {
      assert seq(m, _ => true)[..m - 1] == seq(m - 1, _ => true);
      SetRow(m - 1);
    }
  }

  lemma {:induction false} AllSetHashes(n: nat, j: nat)
    requires j <= n
    ensures Hashes(AllSet(n)[..j]) == j * n
  {
    if j > 0 {
      var g := AllSet(n)[..j];
      assert g[..j - 1] == AllSet(n)[..j - 1];
      AllSetHashes(n, j - 1);
      assert g[j - 1] == seq(n, _ => true);
      SetRow(n);
      assert (j - 1) * n + n == j * n;
    }
  }

  lemma {:induction false} AllSetRowMonsters(n: nat, y: nat, k: nat)
    requires y < Windows(n, 3) && k <= Windows(n, 20)
    ensures RowMonsters(AllSet(n), y, k) == k
  {
    if k > 0 {
      AllSetRowMonsters(n, y, k - 1);
      var g := AllSet(n);
      forall i | 0 <= i < 3
        ensures RowMatch(g[y + i][k - 1..k + 19], Monster[i])
      {
        var row := g[y + i][k - 1..k + 19];
        assert forall d :: 0 <= d < |row| ==> row[d];
        RowMatchAccepts(row, Monster[i]);
      }
      assert MonsterAt(g, y, k - 1);
    }
  }

  lemma {:induction false} AllSetMonsters(n: nat, j: nat)
    requires j <= Windows(n, 3)
    ensures MonstersUpTo(AllSet(n), j) == j * Windows(n, 20)
  {
    if j > 0 {
      var g, w := AllSet(n), Windows(n, 20);
      AllSetMonsters(n, j - 1);
      AllSetRowMonsters(n, j - 1, w);
      assert MonstersUpTo(g, j) == MonstersUpTo(g, j - 1) + RowMonsters(g, j - 1, w);
      assert (j - 1) * w + w == j * w;
    }
  }

  /** On a 24 by 24 image with every pixel set, 110 monsters are counted
      in the first orientation, and 15 times that is more than the 576 set
      pixels: `do_part2` panics. */
  lemma AllSetUnderflows()
    ensures Roughness(AllSet(24)) == Panic(Underflow)
  {
    var g := AllSet(24);
    OrientationsOf(g);
    AllSetMonsters(24, 22);
    assert Monsters(g) == 110;
    assert g[..24] == g;
    AllSetHashes(24, 24);
    assert Hashes(g) == 576;
  }

  /** Pixel d of row i of the monster with its corner at (x, y) is one it
      must cover. */
  predicate Covers(g: Grid, y: nat, x: nat, i: nat, d: nat)
    requires Square(g, |g|)
  {
    y < Windows(|g|, 3) && x < Windows(|g|, 20) && i < 3 && d < 20 &&
    MonsterAt(g, y, x) && Monster[i][d] == '#'
  }

  /** The places a sea monster covers, over every monster found. */
  function Covered(g: Grid): set<(nat, nat)>
    requires Square(g, |g|)
  {
    set y: nat, x: nat, i: nat, d: nat | y < |g| && x < |g| && i < 3 && d < 20 && Covers(g, y, x, i, d) :: (y + i, x + d)
  }

  /** A covered pixel is set. */
  lemma CoversSet(g: Grid, y: nat, x: nat, i: nat, d: nat)
    requires Square(g, |g|) && Covers(g, y, x, i, d)
    ensures y + i < |g| && x + d < |g| && g[y + i][x + d]
  {
    var row := g[y + i][x..x + 20];
    if i == 0 {
      assert RowMatch(row, Monster[0]);
    } else if i == 1 {
      assert RowMatch(row, Monster[1]);
    } else {
      assert RowMatch(row, Monster[2]);
    }
    assert Monster[i][d] != ' ';
    assert row[d] == g[y + i][x + d];
  }

  /** Monsters lie on set pixels only. */
  lemma CoveredCells(g: Grid)
    requires Square(g, |g|)
    ensures Covered(g) <= Cells(g)
  {
    forall c | c in Covered(g)
      ensures c in Cells(g)
    {
      var y: nat, x: nat, i: nat, d: nat :| y < |g| && x < |g| && i < 3 && d < 20 && Covers(g, y, x, i, d) && c == (y + i, x + d);
      CoversSet(g, y, x, i, d);
    }
  }

  /** The first orientation that shows a monster. */
  function FirstSighting(os: seq<Grid>): (r: Option<Grid>)
    requires forall o :: o in os ==> Square(o, |o|)
    ensures r.Some? ==> r.value in os && Monsters(r.value) != 0
    ensures r.None? ==> forall o :: o in os ==> Monsters(o) == 0
  {
    if |os| == 0 then None
    else if Monsters(os[0]) != 0 then Some(os[0])
    else
      assert forall o :: o in os[1..] ==> o in os;
      FirstSighting(os[1..])
  }

  /** The first orientation of the image that shows a monster. */
  function Sighted(g: Grid): (r: Option<Grid>)
    requires Square(g, |g|)
    ensures r.Some? ==> Square(r.value, |r.value|)
  {
    OrientationsOf(g);
    FirstSighting(Orientations(g))
  }

  /** The roughness as intended: the set pixels no monster covers, in the
      first orientation that shows monsters, each pixel counted once
      however many monsters overlap on it. */
  function WaterRoughness(g: Grid): nat
    requires Square(g, |g|)
  {
    match Sighted(g)
    case Some(o) => |Cells(o) - Covered(o)|
    case None => |Cells(g)|
  }

  /** The intended roughness subtracts the covered pixels from the set
      ones, so it never goes below zero; with no monster it is the hash
      count. */
  lemma WaterRoughnessMeaning(g: Grid)
    requires Square(g, |g|)
    ensures Sighted(g).Some? ==>
      var o := Sighted(g).value;
      Covered(o) <= Cells(o) && WaterRoughness(g) == |Cells(o)| - |Covered(o)|
    ensures Sighted(g).None? ==> WaterRoughness(g) == Hashes(g)
  {
    match Sighted(g)
    case Some(o) =>
      CoveredCells(o);
      CardDiff(Cells(o), Covered(o));
    case None =>
      HashesCells(g);
  }

  /** Taking away a subset takes away its size. */
  lemma CardDiff(a: set<(nat, nat)>, b: set<(nat, nat)>)
    requires b <= a
    ensures |a - b| == |a| - |b|
  {
    assert a == (a - b) + b;
  }

  /** Two sets that a pair of mutually inverse maps carry onto each other
      have the same size. */
  lemma {:induction false} SameSize(a: set<(nat, nat)>, b: set<(nat, nat)>, f: ((nat, nat)) -> (nat, nat), h: ((nat, nat)) -> (nat, nat))
    requires forall p :: p in a ==> f(p) in b && h(f(p)) == p
    requires forall q :: q in b ==> h(q) in a && f(h(q)) == q
    ensures |a| == |b|
    decreases |a|
  {
    if a != {} {
      var p :| p in a;
      SameSize(a - {p}, b - {f(p)}, f, h);
    }
  }

  /** A quarter turn moves the set pixels without changing their number. */
  lemma RotatedCells(g: Grid)
    requires Square(g, |g|)
    ensures |Cells(Rotated(g))| == |Cells(g)|
  {
    var n := |g|;
    var r := Rotated(g);
    var f := (p: (nat, nat)) => (p.1, if p.0 < n then n - 1 - p.0 else 0);
    var h := (q: (nat, nat)) => (if q.1 < n then n - 1 - q.1 else 0, q.0);
    forall p | p in Cells(g)
      ensures f(p) in Cells(r) && h(f(p)) == p
    {
      assert r[p.1][n - 1 - p.0] == g[p.0][p.1];
    }
    forall q | q in Cells(r)
      ensures h(q) in Cells(g) && f(h(q)) == q
    {
      assert r[q.0][q.1] == g[n - 1 - q.1][q.0];
    }
    SameSize(Cells(g), Cells(r), f, h);
  }

  /** So does a flip. */
  lemma FlippedCells(g: Grid)
    requires Square(g, |g|)
    ensures |Cells(Flipped(g))| == |Cells(g)|
  {
    var n := |g|;
    var r := Flipped(g);
    assert forall y :: 0 <= y < n ==> r[y] == g[n - 1 - y];
    var f := (p: (nat, nat)) => (if p.0 < n then n - 1 - p.0 else 0, p.1);
    forall p | p in Cells(g)
      ensures f(p) in Cells(r) && f(f(p)) == p
    {
      assert r[n - 1 - p.0] == g[p.0];
    }
    forall q | q in Cells(r)
      ensures f(q) in Cells(g) && f(f(q)) == q
    {
      assert r[q.0] == g[n - 1 - q.0];
    }
    SameSize(Cells(g), Cells(r), f, f);
  }

  lemma {:induction false} TurnedCells(g: Grid, k: nat)
    requires Square(g, |g|)
    ensures |Cells(Turned(g, k))| == |Cells(g)|
  {
    if k > 0 {
      TurnedCells(g, k - 1);
      RotatedCells(Turned(g, k - 1));
    }
  }

  /** Every orientation of the image has as many set pixels as the image. */
  lemma OrientationCells(g: Grid, j: nat)
    requires Square(g, |g|) && j < 8
    ensures |Orientations(g)| == 8 && |Cells(Orientations(g)[j])| == |Cells(g)|
  {
    OrientationsOf(g);
    if j < 4 {
      TurnedCells(g, j);
    } else {
      FlippedCells(g);
      TurnedCells(Flipped(g), j - 4);
    }
  }

  /** `do_part2`'s scan decides on the first orientation showing a monster,
      or stands on the hash count when there is none. */
  lemma {:induction false} SightingFirst(os: seq<Grid>, hashes: nat)
    requires forall o :: o in os ==> Square(o, |o|)
    ensures FirstSighting(os).None? ==> Sighting(os, hashes) == Ok(hashes)
    ensures FirstSighting(os).Some? ==> Sighting(os, hashes) == Sighting([FirstSighting(os).value], hashes)
  {
    if |os| == 0 {
    } else if Monsters(os[0]) != 0 {
      assert FirstSighting(os) == Some(os[0]);
    } else {
      assert forall o :: o in os[1..] ==> o in os;
      SightingFirst(os[1..], hashes);
      assert FirstSighting(os) == FirstSighting(os[1..]);
      assert Sighting(os, hashes) == Sighting(os[1..], hashes);
    }
  }

  /** Where no two sighted monsters share a pixel, `do_part2`'s subtraction
      of 15 per monster is the intended roughness and never underflows;
      with no monster in any orientation both are the hash count. */
  lemma RoughnessAgrees(g: Grid)
    requires Square(g, |g|)
    ensures Sighted(g).None? ==> Roughness(g) == Ok(WaterRoughness(g))
    ensures Sighted(g).Some? && |Covered(Sighted(g).value)| == 15 * Monsters(Sighted(g).value) ==>
      Roughness(g) == Ok(WaterRoughness(g))
  {
    if Sighted(g).None? {
      RoughnessUnsighted(g);
    } else if |Covered(Sighted(g).value)| == 15 * Monsters(Sighted(g).value) {
      RoughnessApart(g);
    }
  }

  lemma RoughnessUnsighted(g: Grid)
    requires Square(g, |g|) && Sighted(g).None?
    ensures Roughness(g) == Ok(WaterRoughness(g))
  {
    OrientationsOf(g);
    SightingFirst(Orientations(g), Hashes(g));
    WaterRoughnessMeaning(g);
  }

  lemma RoughnessApart(g: Grid)
    requires Square(g, |g|) && Sighted(g).Some?
    requires |Covered(Sighted(g).value)| == 15 * Monsters(Sighted(g).value)
    ensures Roughness(g) == Ok(WaterRoughness(g))
  {
    var o := Sighted(g).value;
    var h, m, w := Hashes(g), Monsters(o), WaterRoughness(g);
    assert w == h - 15 * m by {
      WaterRoughnessMeaning(g);
      SightedCells(g);
    }
    assert Roughness(g) == Ok(h - 15 * m) by {
      RoughnessSighted(g);
    }
  }

  /** With a monster in sight, `do_part2` takes 15 per monster of the first
      orientation showing one from the hash count. */
  lemma RoughnessSighted(g: Grid)
    requires Square(g, |g|) && Sighted(g).Some?
    ensures 15 * Monsters(Sighted(g).value) > Hashes(g) ==> Roughness(g) == Panic(Underflow)
    ensures 15 * Monsters(Sighted(g).value) <= Hashes(g) ==>
      Roughness(g) == Ok(Hashes(g) - 15 * Monsters(Sighted(g).value))
  {
    OrientationsOf(g);
    SightingFirst(Orientations(g), Hashes(g));
  }

  /** The orientation that shows monsters has as many set pixels as the
      image has hashes. */
  lemma SightedCells(g: Grid)
    requires Square(g, |g|)
    ensures Sighted(g).Some? ==> |Cells(Sighted(g).value)| == Hashes(g)
  {
    OrientationsOf(g);
    match FirstSighting(Orientations(g))
    case Some(o) =>
      var j :| 0 <= j < 8 && Orientations(g)[j] == o;
      OrientationCells(g, j);
      HashesCells(g);
    case None =>
  }
}
