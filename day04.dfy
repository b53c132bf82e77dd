/** Day 4: passport validation. A passport is a map from field names to
    values; `valid` asks for the seven required keys, `v2` also checks each
    value, returning `None` at the first check that fails. */
module Day04 {
  import opened Outcomes
  import opened Text

  type Passport = map<string, string>

  /** The keys `valid` demands, in the order it checks them; "cid" is not one. */
  const Required: seq<string> := ["byr", "iyr", "eyr", "hgt", "hcl", "ecl", "pid"]

  /** The early-return loop of `valid` over a list of keys. */
  function AllPresent(p: Passport, keys: seq<string>): (b: bool)
    ensures b <==> forall i :: 0 <= i < |keys| ==> keys[i] in p
  {
    if keys == [] then true
    else if keys[0] !in p then false
    else
      assert forall i :: 1 <= i < |keys| ==> keys[i] == keys[1..][i - 1];
      AllPresent(p, keys[1..])
  }

  /** `valid`: every required key is present. */
  function Valid(p: Passport): (b: bool)
    ensures b <==> (set k | k in Required) <= p.Keys
  {
    AllPresent(p, Required)
  }

  /** A year field: a `u16` parse whose value lies in `lo..=hi`. */
  predicate YearOk(s: string, lo: nat, hi: nat)
  {
    var v := ParseNat(s, U16Max);
    v.Some? && lo <= v.value <= hi
  }

  /** The height check: a "cm" suffix demands exactly 5 chars and a `u8`
      value 150..=193 in the first three; otherwise an "in" suffix demands
      exactly 4 chars and 59..=76 in the first two; any other suffix fails. */
  predicate HgtOk(s: string)
  {
    if EndsWith(s, "cm") then
      |s| == 5 && (var v := ParseNat(s[..3], U8Max); v.Some? && 150 <= v.value <= 193)
    else if EndsWith(s, "in") then
      |s| == 4 && (var v := ParseNat(s[..2], U8Max); v.Some? && 59 <= v.value <= 76)
    else false
  }

  predicate HclOk(s: string)
  {
    |s| == 7 && s[0] == '#' && forall i :: 1 <= i < 7 ==> IsHexDigit(s[i])
  }

  const EyeColours: set<string> := {"amb", "blu", "brn", "gry", "grn", "hzl", "oth"}

  predicate PidOk(s: string)
  {
    |s| == 9 && AllDigits(s)
  }

  /** `v2`: the checks in source order, `None` at the first failure. */
  function V2(p: Passport): (r: Option<()>)
    ensures r.Some? ==> Valid(p)
  {
    if "byr" !in p || !YearOk(p["byr"], 1920, 2002) then None
    else if "iyr" !in p || !YearOk(p["iyr"], 2010, 2020) then None
    else if "eyr" !in p || !YearOk(p["eyr"], 2020, 2030) then None
    else if "hgt" !in p || !HgtOk(p["hgt"]) then None
    else if "hcl" !in p || !HclOk(p["hcl"]) then None
    else if "ecl" !in p || p["ecl"] !in EyeColours then None
    else if "pid" !in p || !PidOk(p["pid"]) then None
    else Some(())
  }

  /** `valid2`. */
  predicate Valid2(p: Passport)
  {
    V2(p).Some?
  }

  /** The check `v2` applies to the value of the i-th required key. */
  predicate FieldOk(i: nat, v: string)
  {
    if i == 0 then YearOk(v, 1920, 2002)
    else if i == 1 then YearOk(v, 2010, 2020)
    else if i == 2 then YearOk(v, 2020, 2030)
    else if i == 3 then HgtOk(v)
    else if i == 4 then HclOk(v)
    else if i == 5 then v in EyeColours
    else PidOk(v)
  }

  /** A passport passes the second policy iff every required field is
      present and passes its own check; the order of the checks does not
      matter. */
  lemma Valid2Fields(p: Passport)
    ensures Valid2(p) <==> forall i :: 0 <= i < |Required| ==> Required[i] in p && FieldOk(i, p[Required[i]])
  {
    var r := Required;
    assert r[0] == "byr" && r[1] == "iyr" && r[2] == "eyr" && r[3] == "hgt";
    assert r[4] == "hcl" && r[5] == "ecl" && r[6] == "pid" && |r| == 7;
    if forall i :: 0 <= i < |r| ==> r[i] in p && FieldOk(i, p[r[i]]) {
      assert FieldOk(0, p[r[0]]) && FieldOk(1, p[r[1]]) && FieldOk(2, p[r[2]]) && FieldOk(3, p[r[3]]);
      assert FieldOk(4, p[r[4]]) && FieldOk(5, p[r[5]]) && FieldOk(6, p[r[6]]);
    }
  }

  /** The height check accepts exactly the renderings of 150..=193 followed
      by "cm" and of 59..=76 followed by "in": a sign or a leading zero
      would leave too few digits for a value in range. */
  lemma HgtShape(s: string)
    ensures HgtOk(s) <==>
      (exists n: nat :: 150 <= n <= 193 && s == ShowNat(n) + "cm") ||
      (exists n: nat :: 59 <= n <= 76 && s == ShowNat(n) + "in")
  {
    if HgtOk(s) {
      if EndsWith(s, "cm") {
        var n := HgtAccepted(s, 3, "cm");
      } else {
        var n := HgtAccepted(s, 2, "in");
      }
    }
    if exists n: nat :: 150 <= n <= 193 && s == ShowNat(n) + "cm" {
      var n: nat :| 150 <= n <= 193 && s == ShowNat(n) + "cm";
      HgtCm(s, n);
    }
    if exists n: nat :: 59 <= n <= 76 && s == ShowNat(n) + "in" {
      var n: nat :| 59 <= n <= 76 && s == ShowNat(n) + "in";
      HgtIn(s, n);
    }
  }

  /** An accepted height is its value's rendering and then its unit. */
  lemma HgtAccepted(s: string, k: nat, unit: string) returns (n: nat)
    requires HgtOk(s) && |unit| == 2 && EndsWith(s, unit)
    requires (unit == "cm" && k == 3) || (unit == "in" && k == 2 && !EndsWith(s, "cm"))
    ensures s == ShowNat(n) + unit
    ensures unit == "cm" ==> 150 <= n <= 193
    ensures unit == "in" ==> 59 <= n <= 76
  {
    n := ParseNat(s[..k], U8Max).value;
    HgtDigits(s[..k], n);
    assert s == s[..k] + s[k..];
  }

  lemma HgtCm(s: string, n: nat)
    requires 150 <= n <= 193 && s == ShowNat(n) + "cm"
    ensures HgtOk(s)
  {
    ShowNatWidth(n, 3);
    assert s[..3] == ShowNat(n);
    ParseShowNat(n, U8Max);
  }

  lemma HgtIn(s: string, n: nat)
    requires 59 <= n <= 76 && s == ShowNat(n) + "in"
    ensures HgtOk(s)
  {
    ShowNatWidth(n, 2);
    assert s[..2] == ShowNat(n);
    assert !EndsWith(s, "cm");
    ParseShowNat(n, U8Max);
  }

  /** A k-char slice that parses to a value of k digits has neither a sign
      nor a leading zero, so it is the value's rendering. */
  lemma HgtDigits(d: string, n: nat)
    requires |d| >= 2 && ParseNat(d, U8Max) == Some(n) && n >= Pow10(|d| - 1)
    ensures d == ShowNat(n)
  {
    if d[0] == '+' {
      DecimalBound(d[1..]);
      assert false;
    }
    if d[0] == '0' {
      DecimalLeadingZero(d);
      DecimalBound(d[1..]);
      assert false;
    }
    ShowDecimalValue(d);
  }

  /** A value of k digits renders in k chars (k = 2, 3). */
  lemma ShowNatWidth(n: nat, k: nat)
    requires k == 2 || k == 3
    requires Pow10(k - 1) <= n < Pow10(k)
    ensures |ShowNat(n)| == k
  {
    assert ShowNat(n) == ShowNat(n / 10) + [DigitChar(n % 10)];
    if k == 3 {
      assert ShowNat(n / 10) == ShowNat(n / 100) + [DigitChar(n / 10 % 10)];
    }
  }

  /** `part1`: the number of passports with every required key. */
  function Part1(ps: seq<Passport>): (n: nat)
    ensures n <= |ps|
    ensures n == |ps| <==> forall i :: 0 <= i < |ps| ==> Valid(ps[i])
  {
    if ps == [] then 0
    else
      assert forall i :: 1 <= i < |ps| ==> ps[i] == ps[1..][i - 1];
      (if Valid(ps[0]) then 1 else 0) + Part1(ps[1..])
  }

  /** `part2`: the number of passports passing every field check; never
      more than `part1`. */
  function Part2(ps: seq<Passport>): (n: nat)
    ensures n <= Part1(ps)
    ensures n == |ps| <==> forall i :: 0 <= i < |ps| ==> Valid2(ps[i])
  {
    if ps == [] then 0
    else
      assert forall i :: 1 <= i < |ps| ==> ps[i] == ps[1..][i - 1];
      (if Valid2(ps[0]) then 1 else 0) + Part2(ps[1..])
  }
}
