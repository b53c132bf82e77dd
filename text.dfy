/** String helpers that stand for the Rust standard-library calls the days use:
    `str::split(char)`, `str::find(char)`, `starts_with`/`ends_with`, and the
    `parse::<uN>()` / `parse::<iN>()` integer parsers (an optional sign, one or
    more ASCII digits, and a range check against the target type). Strings are
    `seq<char>`; the inputs are ASCII, so a char is a byte. */
module Text {
  import opened Outcomes

  const U8Max: nat := 255
  const U16Max: nat := 65535
  const U32Max: nat := 0xFFFF_FFFF
  const U64Max: nat := 0xFFFF_FFFF_FFFF_FFFF
  const I32Min: int := -0x8000_0000
  const I32Max: int := 0x7FFF_FFFF
  const I64Min: int := -0x8000_0000_0000_0000
  const I64Max: int := 0x7FFF_FFFF_FFFF_FFFF

  // ---------------------------------------------------------------- split / join

  /** `s.split(sep)`: the pieces between separators, always at least one. */
  function Split(s: string, sep: char): (r: seq<string>)
    ensures |r| >= 1
    ensures forall i :: 0 <= i < |r| ==> sep !in r[i]
    ensures |r| == 1 + Occurrences(s, sep)
  {
    if s == [] then [[]]
    else
      var rest := Split(s[1..], sep);
      if s[0] == sep then [[]] + rest
      else [[s[0]] + rest[0]] + rest[1..]
  }

  function Occurrences(s: string, c: char): nat
  {
    if s == [] then 0 else (if s[0] == c then 1 else 0) + Occurrences(s[1..], c)
  }

  /** The inverse of `Split`: the pieces glued back with `sep` between them. */
  function Join(ws: seq<string>, sep: char): string
  {
    if |ws| == 0 then []
    else if |ws| == 1 then ws[0]
    else ws[0] + [sep] + Join(ws[1..], sep)
  }

  lemma {:induction false} SplitJoin(ws: seq<string>, sep: char)
    requires |ws| >= 1
    requires forall i :: 0 <= i < |ws| ==> sep !in ws[i]
    ensures Split(Join(ws, sep), sep) == ws
  {
    if |ws| == 1 {
      SplitNoSep(ws[0], sep);
    } else {
      SplitJoin(ws[1..], sep);
      SplitPrefix(ws[0], sep, Join(ws[1..], sep));
    }
  }

  lemma {:induction false} SplitNoSep(w: string, sep: char)
    requires sep !in w
    ensures Split(w, sep) == [w]
  {
    if w != [] {
      SplitNoSep(w[1..], sep);
      assert w == [w[0]] + w[1..];
    }
  }

  /** Splitting `w + [sep] + rest` puts `w` in front of the pieces of `rest`. */
  lemma {:induction false} SplitPrefix(w: string, sep: char, rest: string)
    requires sep !in w
    ensures Split(w + [sep] + rest, sep) == [w] + Split(rest, sep)
  {
    if w == [] {
      assert w + [sep] + rest == [sep] + rest;
      assert ([sep] + rest)[1..] == rest;
    } else {
      SplitPrefix(w[1..], sep, rest);
      assert (w + [sep] + rest)[1..] == w[1..] + [sep] + rest;
      assert (w + [sep] + rest)[0] == w[0];
      assert w == [w[0]] + w[1..];
    }
  }

  lemma {:induction false} JoinSplit(s: string, sep: char)
    ensures Join(Split(s, sep), sep) == s
  {
    if s != [] {
      JoinSplit(s[1..], sep);
      var rest := Split(s[1..], sep);
      if s[0] != sep {
        if |rest| == 1 {
          assert Join(rest, sep) == rest[0];
        } else {
          assert Join(rest, sep) == rest[0] + [sep] + Join(rest[1..], sep);
          assert Join([[s[0]] + rest[0]] + rest[1..], sep)
              == [s[0]] + rest[0] + [sep] + Join(rest[1..], sep);
        }
        assert s == [s[0]] + s[1..];
      } else {
        assert Join([[]] + rest, sep) == [] + [sep] + Join(rest, sep);
        assert s == [s[0]] + s[1..];
      }
    }
  }

  // ---------------------------------------------------------------- trim

  /** The ASCII characters `char::is_whitespace` accepts. */
  predicate IsSpace(c: char)
  {
    c == ' ' || c == '\t' || c == '\n' || c == '\r' || c == '\U{0B}' || c == '\U{0C}'
  }

  /** `s.trim_start()`: the suffix after the leading whitespace. */
  function TrimStart(s: string): (r: string)
    ensures |r| <= |s| && r == s[|s| - |r|..]
    ensures forall i :: 0 <= i < |s| - |r| ==> IsSpace(s[i])
    ensures r != [] ==> !IsSpace(r[0])
  {
    if s != [] && IsSpace(s[0]) then TrimStart(s[1..]) else s
  }

  /** `s.trim_end()`: the prefix before the trailing whitespace. */
  function TrimEnd(s: string): (r: string)
    ensures |r| <= |s| && r == s[..|r|]
    ensures forall i :: |r| <= i < |s| ==> IsSpace(s[i])
    ensures r != [] ==> !IsSpace(r[|r| - 1])
  {
    if s != [] && IsSpace(s[|s| - 1]) then TrimEnd(s[..|s| - 1]) else s
  }

  /** `s.trim()`. */
  function Trim(s: string): string
  {
    TrimEnd(TrimStart(s))
  }

  /** Text without whitespace is left as it is. */
  lemma TrimPlain(s: string)
    requires forall i :: 0 <= i < |s| ==> !IsSpace(s[i])
    ensures Trim(s) == s
  {
    assert TrimStart(s) == s;
  }

  /** `s.find(c)`: the first index holding `c`. */
  function Find(s: string, c: char): (r: Option<nat>)
    ensures r.Some? ==> r.value < |s| && s[r.value] == c && c !in s[..r.value]
    ensures r.None? ==> c !in s
  {
    if s == [] then None
    else if s[0] == c then Some(0)
    else match Find(s[1..], c)
      case None => None
      case Some(i) => assert s[1..][..i] == s[1..i + 1]; Some(i + 1)
  }

  /** A character present at i and nowhere before is what `find` finds. */
  lemma FindFirst(s: string, c: char, i: nat)
    requires i < |s| && s[i] == c && c !in s[..i]
    ensures Find(s, c) == Some(i)
  {
    assert s[..i + 1][i] == c;
  }

  predicate StartsWith(s: string, p: string)
  {
    |p| <= |s| && s[..|p|] == p
  }

  predicate EndsWith(s: string, p: string)
  {
    |p| <= |s| && s[|s| - |p|..] == p
  }

  // ---------------------------------------------------------------- numbers

  predicate IsDigit(c: char)
  {
    '0' <= c <= '9'
  }

  predicate IsHexDigit(c: char)
  {
    IsDigit(c) || 'a' <= c <= 'f' || 'A' <= c <= 'F'
  }

  predicate AllDigits(s: string)
  {
    forall i :: 0 <= i < |s| ==> IsDigit(s[i])
  }

  function DigitValue(c: char): nat
    requires IsDigit(c)
  {
    (c as int - '0' as int) as nat
  }

  function DigitChar(d: nat): (c: char)
    requires d < 10
    ensures IsDigit(c) && DigitValue(c) == d
  {
    ('0' as int + d) as char
  }

  /** The value of a string of decimal digits, most significant first. */
  function DecimalValue(s: string): nat
    requires AllDigits(s)
  {
    if s == [] then 0 else DecimalValue(s[..|s| - 1]) * 10 + DigitValue(s[|s| - 1])
  }

  /** The value of a single digit. */
  lemma OneDigit(s: string)
    requires |s| == 1 && IsDigit(s[0])
    ensures AllDigits(s) && DecimalValue(s) == DigitValue(s[0])
  {
    assert s[..0] == [];
  }

  /** The value of two digits. */
  lemma TwoDigits(s: string)
    requires |s| == 2 && IsDigit(s[0]) && IsDigit(s[1])
    ensures AllDigits(s) && DecimalValue(s) == 10 * DigitValue(s[0]) + DigitValue(s[1])
  {
    OneDigit(s[..1]);
  }

  /** The decimal rendering of `n` (no sign, no leading zeros). */
  function ShowNat(n: nat): (s: string)
    ensures |s| >= 1 && AllDigits(s)
  {
    if n < 10 then [DigitChar(n)] else ShowNat(n / 10) + [DigitChar(n % 10)]
  }

  lemma {:induction false} ShowNatValue(n: nat)
    ensures DecimalValue(ShowNat(n)) == n
  {
    if n >= 10 {
      ShowNatValue(n / 10);
      var s := ShowNat(n);
      assert s[..|s| - 1] == ShowNat(n / 10);
    }
  }

  /** A digit string without a leading zero is the rendering of its value. */
  lemma {:induction false} ShowDecimalValue(s: string)
    requires |s| >= 1 && AllDigits(s) && s[0] != '0'
    ensures ShowNat(DecimalValue(s)) == s
  {
    var n := |s|;
    if n > 1 {
      var pre := s[..n - 1];
      ShowDecimalValue(pre);
      DecimalPositive(pre);
      var v := DecimalValue(s);
      assert v / 10 == DecimalValue(pre) && v % 10 == DigitValue(s[n - 1]);
      assert DigitChar(v % 10) == s[n - 1];
      assert s == pre + [s[n - 1]];
    } else {
      assert DigitChar(DigitValue(s[0])) == s[0];
    }
  }

  lemma {:induction false} DecimalPositive(s: string)
    requires |s| >= 1 && AllDigits(s) && s[0] != '0'
    ensures DecimalValue(s) >= 1
  {
    if |s| > 1 {
      DecimalPositive(s[..|s| - 1]);
    }
  }

  /** A leading zero adds nothing to the value. */
  lemma {:induction false} DecimalLeadingZero(s: string)
    requires |s| >= 1 && AllDigits(s) && s[0] == '0'
    ensures DecimalValue(s) == DecimalValue(s[1..])
  {
    var n := |s|;
    if n > 1 {
      var pre := s[..n - 1];
      DecimalLeadingZero(pre);
      assert s[1..][..n - 2] == pre[1..];
    }
  }

  function Pow2(k: nat): (p: nat)
    ensures p >= 1
  {
    if k == 0 then 1 else 2 * Pow2(k - 1)
  }

  function Pow10(k: nat): (p: nat)
    ensures p >= 1
  {
    if k == 0 then 1 else 10 * Pow10(k - 1)
  }

  /** A value of k digits is below 10^k. */
  lemma {:induction false} DecimalBound(s: string)
    requires AllDigits(s)
    ensures DecimalValue(s) < Pow10(|s|)
  {
    if s != [] {
      DecimalBound(s[..|s| - 1]);
    }
  }

  /** `str::parse::<uN>()` where `max` is the largest value of the type:
      an optional `+`, then at least one digit and nothing else. */
  function ParseNat(s: string, max: nat): (r: Option<nat>)
    ensures r.Some? ==> r.value <= max
  {
    var body := if |s| > 0 && s[0] == '+' then s[1..] else s;
    if |body| == 0 || !AllDigits(body) then None
    else if DecimalValue(body) > max then None
    else Some(DecimalValue(body))
  }

  /** `str::parse::<iN>()`: an optional `+` or `-`, then at least one digit. */
  function ParseInt(s: string, min: int, max: int): (r: Option<int>)
    ensures r.Some? ==> min <= r.value <= max
  {
    var neg := |s| > 0 && s[0] == '-';
    var body := if |s| > 0 && (s[0] == '+' || s[0] == '-') then s[1..] else s;
    if |body| == 0 || !AllDigits(body) then None
    else
      var mag: int := DecimalValue(body);
      var v := if neg then -mag else mag;
      if v < min || v > max then None else Some(v)
  }

  /** Parsing the rendering of any value of the type gives the value back. */
  lemma ParseShowNat(n: nat, max: nat)
    requires n <= max
    ensures ParseNat(ShowNat(n), max) == Some(n)
  {
    ShowNatValue(n);
  }

  /** A successful parse only ever reads digits, after at most a `+`. */
  lemma ParseNatDigits(s: string, max: nat)
    requires ParseNat(s, max).Some?
    ensures |s| >= 1
    ensures AllDigits(s) || (s[0] == '+' && |s| >= 2 && AllDigits(s[1..]))
  {
  }

  /** A signed value with its sign always written: "+7", "-3". */
  function ShowSigned(n: int): (s: string)
    ensures |s| >= 2 && (s[0] == '+' || s[0] == '-') && AllDigits(s[1..])
  {
    if n < 0 then "-" + ShowNat(-n) else "+" + ShowNat(n)
  }

  lemma ParseShowSigned(n: int, min: int, max: int)
    requires min <= n <= max
    ensures ParseInt(ShowSigned(n), min, max) == Some(n)
  {
    var s := ShowSigned(n);
    var m: nat := if n < 0 then -n else n;
    ShowNatValue(m);
    assert s[1..] == ShowNat(m);
    assert s[0] == '-' <==> n < 0;
    assert DecimalValue(s[1..]) == m;
  }
}
