/** Day 5: binary boarding passes. The first seven chars are a row number
    in binary ('B' = 1), the rest a column number ('R' = 1), most
    significant first; the seat id is row * 8 + column. */
module Day05 {
  import opened Outcomes
  import opened Text

  /** The binary number `s` spells, `one` standing for 1 and anything else for 0. */
  function BitsValue(s: string, one: char): nat
  {
    if s == [] then 0 else 2 * BitsValue(s[..|s| - 1], one) + (if s[|s| - 1] == one then 1 else 0)
  }

  /** k binary digits hold a value below 2^k. */
  lemma {:induction false} BitsBound(s: string, one: char)
    ensures BitsValue(s, one) < Pow2(|s|)
  {
    if s != [] {
      BitsBound(s[..|s| - 1], one);
    }
  }

  /** The pass for value v in k digits: the inverse of `BitsValue`. */
  function Encode(v: nat, k: nat, one: char, zero: char): (s: string)
    ensures |s| == k
  {
    if k == 0 then [] else Encode(v / 2, k - 1, one, zero) + [if v % 2 == 1 then one else zero]
  }

  /** Decoding an encoding gives the value back. */
  lemma {:induction false} DecodeEncode(v: nat, k: nat, one: char, zero: char)
    requires v < Pow2(k) && one != zero
    ensures BitsValue(Encode(v, k, one, zero), one) == v
  {
    if k > 0 {
      var s := Encode(v, k, one, zero);
      DecodeEncode(v / 2, k - 1, one, zero);
      assert s[..|s| - 1] == Encode(v / 2, k - 1, one, zero);
    }
  }

  /** Encoding the value of a pass gives the pass back, when it only uses
      the two letters. */
  lemma {:induction false} EncodeDecode(s: string, one: char, zero: char)
    requires forall i :: 0 <= i < |s| ==> s[i] == one || s[i] == zero
    requires one != zero
    ensures Encode(BitsValue(s, one), |s|, one, zero) == s
  {
    if s != [] {
      var pre := s[..|s| - 1];
      EncodeDecode(pre, one, zero);
      assert s == pre + [s[|s| - 1]];
    }
  }

  /** The row and column `seat_pos` computes: the column register is a `u8`,
      so bits shifted past the eighth are lost. */
  function Row(seat: string): nat
    requires |seat| >= 7
  {
    BitsValue(seat[..7], 'B')
  }

  function Col(seat: string): nat
    requires |seat| >= 7
  {
    BitsValue(seat[7..], 'R') % 256
  }

  /** `seat_pos`: shift-and-or loops over `seat[..7]` and `seat[7..]`. */
  method SeatPos(seat: string) returns (row: nat, col: nat)
    requires |seat| >= 7
    ensures row == Row(seat) && col == Col(seat)
    ensures row < 128 && col < 256
  {
    row := 0;
    for i := 0 to 7
      invariant row == BitsValue(seat[..i], 'B')
    {
      assert seat[..i + 1][..i] == seat[..i];
      row := 2 * row;
      if seat[i] == 'B' {
        row := row + 1;
      }
    }
    BitsBound(seat[..7], 'B');
    assert Pow2(7) == 128;
    col := 0;
    for i := 7 to |seat|
      invariant col == BitsValue(seat[7..i], 'R') % 256
    {
      assert seat[7..i + 1][..i - 7] == seat[7..i];
      ShiftMod(BitsValue(seat[7..i], 'R'), if seat[i] == 'R' then 1 else 0);
      col := (2 * col) % 256;
      if seat[i] == 'R' {
        col := col + 1;
      }
    }
    assert seat[7..|seat|] == seat[7..];
  }

  /** Shifting left inside a `u8` and setting the low bit commutes with
      reducing modulo 256. */
  lemma ShiftMod(v: nat, b: nat)
    requires b < 2
    ensures ((2 * (v % 256)) % 256) + b == (2 * v + b) % 256
  {
  }

  /** `seat_id`. */
  function SeatId(row: nat, col: nat): nat
  {
    row * 8 + col
  }

  /** For a column of three bits the id determines the seat: row and
      column come back as quotient and remainder by 8. */
  lemma SeatIdInverse(row: nat, col: nat)
    requires col < 8
    ensures SeatId(row, col) / 8 == row && SeatId(row, col) % 8 == col
  {
  }

  /** A ten-char pass has row < 128 and column < 8, so its id is below 1024. */
  lemma TenCharId(seat: string)
    requires |seat| == 10
    ensures Row(seat) < 128 && Col(seat) < 8 && SeatId(Row(seat), Col(seat)) < 1024
  {
    BitsBound(seat[..7], 'B');
    BitsBound(seat[7..], 'R');
    assert Pow2(7) == 128 && Pow2(3) == 8;
  }

  /** The id of a pass. */
  function IdOf(seat: string): nat
    requires |seat| >= 7
  {
    SeatId(Row(seat), Col(seat))
  }

  /** Appending a digit doubles the value and adds the digit. */
  lemma BitsSnoc(s: string, c: char, one: char)
    ensures BitsValue(s + [c], one) == 2 * BitsValue(s, one) + (if c == one then 1 else 0)
  {
    assert (s + [c])[..|s|] == s;
  }

  /** "FBFBBFFRLR" is row 44, column 5, id 357. */
  lemma Sample()
    ensures Row("FBFBBFFRLR") == 44 && Col("FBFBBFFRLR") == 5 && IdOf("FBFBBFFRLR") == 357
  {
    assert "FBFBBFFRLR"[..7] == "FBFBBFF" && "FBFBBFFRLR"[7..] == "RLR";
    var row := "FBFBBFF";
    for i := 0 to 7
      invariant BitsValue(row[..i], 'B') == [0, 0, 1, 2, 5, 11, 22, 44][i]
    {
      BitsSnoc(row[..i], row[i], 'B');
      assert row[..i + 1] == row[..i] + [row[i]];
    }
    assert row[..7] == row;
    var col := "RLR";
    for i := 0 to 3
      invariant BitsValue(col[..i], 'R') == [0, 1, 2, 5][i]
    {
      BitsSnoc(col[..i], col[i], 'R');
      assert col[..i + 1] == col[..i] + [col[i]];
    }
    assert col[..3] == col;
  }

  predicate Passes(input: seq<string>)
  {
    forall i :: 0 <= i < |input| ==> |input[i]| >= 7
  }

  /** `part1`: the largest seat id; `max().unwrap()` panics on no passes. */
  method Part1(input: seq<string>) returns (m: nat)
    requires |input| > 0 && Passes(input)
    ensures exists i :: 0 <= i < |input| && m == IdOf(input[i])
    ensures forall i :: 0 <= i < |input| ==> IdOf(input[i]) <= m
  {
    var row, col := SeatPos(input[0]);
    m := SeatId(row, col);
    for k := 1 to |input|
      invariant exists i :: 0 <= i < k && m == IdOf(input[i])
      invariant forall i :: 0 <= i < k ==> IdOf(input[i]) <= m
    {
      row, col := SeatPos(input[k]);
      var id := SeatId(row, col);
      if id > m {
        m := id;
      }
    }
  }

  /** Seat i is free with both neighbours taken. */
  predicate Gap(seats: set<nat>, i: nat)
  {
    i >= 1 && i - 1 in seats && i + 1 in seats && i !in seats
  }

  /** The set of seat ids of the passes. */
  function Seats(input: seq<string>): set<nat>
    requires Passes(input)
  {
    set i | 0 <= i < |input| :: IdOf(input[i])
  }

  /** `part2`: the smallest gap. The search runs over 1..=max(ids), but a
      gap's upper neighbour is an id, so no gap lies beyond it: the Rust
      code panics exactly when there is no gap at all. */
  method Part2(input: seq<string>) returns (r: Result<nat>)
    requires |input| > 0 && Passes(input)
    ensures r.Ok? || r.Panic?
    ensures r.Ok? ==> Gap(Seats(input), r.value) && forall j :: 0 <= j < r.value ==> !Gap(Seats(input), j)
    ensures r.Panic? ==> forall j :: !Gap(Seats(input), j)
  {
    var seats: set<nat> := {};
    for k := 0 to |input|
      invariant seats == set i | 0 <= i < k :: IdOf(input[i])
    {
      var row, col := SeatPos(input[k]);
      seats := seats + {SeatId(row, col)};
    }
    var max := Part1(input);
    var i := 1;
    while i <= max
      invariant 1 <= i <= max + 1
      invariant forall j :: 0 <= j < i ==> !Gap(seats, j)
    {
      if i - 1 in seats && i + 1 in seats && i !in seats {
        return Ok(i);
      }
      i := i + 1;
    }
    assert forall j :: j in seats ==> j <= max;
    return Panic("I have no seat! Oh no!");
  }
}
