/** Day 25: the card and the door derive a shared encryption key by
    repeatedly multiplying a subject number modulo 20201227. The loop sizes
    are found by trying 1, 2, 3, ... steps until the public key appears;
    the key is either public key transformed by the other's loop size. */
module Day25 {
  import opened Outcomes
  import opened Text

  const Modulus: nat := 20201227
  const Subject: nat := 7
  const NoneUnwrap := "called `Option::unwrap()` on a `None` value"

  /** `transform_subj_num` as a recursion: `loops` steps of multiplying by
      `subj` and reducing, starting from 1. */
  function Transform(subj: nat, loops: nat): nat
  {
    if loops == 0 then 1 else (Transform(subj, loops - 1) * subj) % Modulus
  }

  /** Whether one of the first `loops` multiplications leaves `u64`. */
  predicate Overflows(subj: nat, loops: nat)
  {
    loops > 0 && (Overflows(subj, loops - 1) || Transform(subj, loops - 1) * subj > U64Max)
  }

  function Pow(x: nat, k: nat): nat
  {
    if k == 0 then 1 else Pow(x, k - 1) * x
  }

  // ------------------------------------------------------------ arithmetic

  /** Division with remainder is unique. */
  lemma ModUnique(y: int, q: int, r: int, m: int)
    requires m > 0 && y == q * m + r && 0 <= r < m
    ensures y % m == r
  {
    var q', r' := y / m, y % m;
    assert (q - q') * m == r' - r;
    if q > q' {
      MulMono(1, m, q - q', m);
    } else if q < q' {
      MulMono(1, m, q' - q, m);
    }
  }

  lemma ModMul(a: nat, b: nat, m: nat)
    requires m > 0
    ensures ((a % m) * b) % m == (a * b) % m
  {
    var q, r := a / m, a % m;
    var rb := r * b;
    assert a * b == (q * b) * m + rb;
    assert a * b == (q * b + rb / m) * m + rb % m;
    ModUnique(a * b, q * b + rb / m, rb % m, m);
  }

  lemma MulMono(a: int, b: int, c: int, d: int)
    requires 0 <= a && 0 <= b
    requires a <= c && b <= d
    ensures a * b <= c * d
  {
    assert a * b <= c * b;
    assert c * b <= c * d;
  }

  lemma {:induction false} PowAdd(x: nat, a: nat, b: nat)
    ensures Pow(x, a + b) == Pow(x, a) * Pow(x, b)
    decreases b
  {
    if b > 0 {
      PowAdd(x, a, b - 1);
      calc {
        Pow(x, a + b);
        Pow(x, a + b - 1) * x;
        Pow(x, a) * Pow(x, b - 1) * x;
        Pow(x, a) * (Pow(x, b - 1) * x);
      }
    }
  }

  lemma {:induction false} PowPow(x: nat, a: nat, b: nat)
    ensures Pow(Pow(x, a), b) == Pow(x, a * b)
    decreases b
  {
    if b > 0 {
      PowPow(x, a, b - 1);
      PowAdd(x, a * (b - 1), a);
      assert a * (b - 1) + a == a * b;
    }
  }

  lemma {:induction false} PowMod(x: nat, k: nat, m: nat)
    requires m > 0
    ensures Pow(x % m, k) % m == Pow(x, k) % m
    decreases k
  {
    if k > 0 {
      PowMod(x, k - 1, m);
      calc {
        Pow(x % m, k) % m;
        (Pow(x % m, k - 1) * (x % m)) % m;
        { ModMul(Pow(x % m, k - 1), x % m, m); }
        ((Pow(x % m, k - 1) % m) * (x % m)) % m;
        ((Pow(x, k - 1) % m) * (x % m)) % m;
        { ModMul(Pow(x, k - 1), x % m, m); }
        (Pow(x, k - 1) * (x % m)) % m;
        { ModMul(x, Pow(x, k - 1), m); }
        (Pow(x, k - 1) * x) % m;
      }
    }
  }

  // ----------------------------------------------------------- the transform

  /** The transform is the power reduced modulo 20201227, so it is always
      below the modulus. */
  lemma {:induction false} TransformPow(subj: nat, loops: nat)
    ensures Transform(subj, loops) == Pow(subj, loops) % Modulus
    ensures Transform(subj, loops) < Modulus
    decreases loops
  {
    if loops > 0 {
      TransformPow(subj, loops - 1);
      ModMul(Pow(subj, loops - 1), subj, Modulus);
    }
  }

  /** With a subject below the modulus, no multiplication overflows. */
  lemma {:induction false} NoOverflow(subj: nat, loops: nat)
    requires subj < Modulus
    ensures !Overflows(subj, loops)
    decreases loops
  {
    if loops > 0 {
      NoOverflow(subj, loops - 1);
      TransformPow(subj, loops - 1);
      MulMono(Transform(subj, loops - 1), subj, Modulus - 1, Modulus - 1);
    }
  }

  /** `transform_subj_num`: a `u64` multiplication that leaves the range
      panics. */
  method TransformSubjNum(subj: nat, loops: nat) returns (r: Result<nat>)
    ensures r == if Overflows(subj, loops) then Panic("attempt to multiply with overflow")
                 else Ok(Transform(subj, loops))
  {
    var n := 1;
    for i := 0 to loops
      invariant n == Transform(subj, i) && !Overflows(subj, i)
    {
      if n * subj > U64Max {
        NoLaterRecovery(subj, i + 1, loops);
        return Panic("attempt to multiply with overflow");
      }
      n := (n * subj) % Modulus;
    }
    return Ok(n);
  }

  /** Once a step overflows, every longer run has overflowed too. */
  lemma {:induction false} NoLaterRecovery(subj: nat, i: nat, loops: nat)
    requires i <= loops && Overflows(subj, i)
    ensures Overflows(subj, loops)
    decreases loops - i
  {
    if i < loops {
      NoLaterRecovery(subj, i + 1, loops);
    }
  }

  // ---------------------------------------------------------- the loop size

  /** k is the loop size `derive_loop_size` finds: the first number of
      steps that produces the public key. */
  predicate IsLoopSize(subj: nat, pubkey: nat, k: nat)
  {
    Transform(subj, k) == pubkey && forall j :: 0 <= j < k ==> Transform(subj, j) != pubkey
  }

  /** There is at most one loop size. */
  lemma LoopSizeUnique(subj: nat, pubkey: nat, k: nat, l: nat)
    requires IsLoopSize(subj, pubkey, k) && IsLoopSize(subj, pubkey, l)
    ensures k == l
  {
  }

  /** `derive_loop_size`: the search only ends when some number of steps
      produces the public key, which the precondition states; a step that
      leaves `u64` panics first. */
  method DeriveLoopSize(subj: nat, pubkey: nat) returns (r: Result<nat>)
    requires exists k: nat :: Transform(subj, k) == pubkey
    ensures r.Ok? || r.Panic?
    ensures r.Ok? ==> IsLoopSize(subj, pubkey, r.value) && !Overflows(subj, r.value)
    ensures r.Panic? ==> exists k: nat :: Overflows(subj, k) && forall j :: 0 <= j < k ==> Transform(subj, j) != pubkey
    ensures subj < Modulus ==> r.Ok?
  {
    ghost var target: nat :| Transform(subj, target) == pubkey;
    var n, i: nat := 1, 0;
    while n != pubkey
      invariant n == Transform(subj, i) && !Overflows(subj, i)
      invariant forall j :: 0 <= j < i ==> Transform(subj, j) != pubkey
      invariant i <= target
      decreases target - i
    {
      if n * subj > U64Max {
        assert Overflows(subj, i + 1);
        if subj < Modulus {
          NoOverflow(subj, i + 1);
          assert false;
        }
        return Panic("attempt to multiply with overflow");
      }
      n := (n * subj) % Modulus;
      i := i + 1;
    }
    return Ok(i);
  }

  // ---------------------------------------------------------- the handshake

  /** Both parties end on 7 to the power of the product of the loop sizes. */
  lemma {:induction false} KeysAgree(a: nat, b: nat)
    ensures Transform(Transform(Subject, a), b) == Pow(Subject, a * b) % Modulus
    ensures Transform(Transform(Subject, a), b) == Transform(Transform(Subject, b), a)
  {
    TransformPow(Subject, a);
    TransformPow(Subject, b);
    TransformPow(Transform(Subject, a), b);
    TransformPow(Transform(Subject, b), a);
    PowMod(Pow(Subject, a), b, Modulus);
    PowMod(Pow(Subject, b), a, Modulus);
    PowPow(Subject, a, b);
    PowPow(Subject, b, a);
    assert a * b == b * a;
  }

  /** `handshake`: the two keys agree, so the `assert_eq!` never fires. */
  method Handshake(cardLoops: nat, doorLoops: nat) returns (key: nat)
    ensures key == Pow(Subject, cardLoops * doorLoops) % Modulus
    ensures key == Transform(Transform(Subject, cardLoops), doorLoops)
  {
    var cardPub := Transformed(Subject, cardLoops);
    var doorPub := Transformed(Subject, doorLoops);
    var keyA := Transformed(cardPub, doorLoops);
    var keyB := Transformed(doorPub, cardLoops);
    KeysAgree(cardLoops, doorLoops);
    assert keyA == keyB;
    key := keyA;
  }

  /** `transform_subj_num` on a subject below the modulus, which never
      panics. */
  method Transformed(subj: nat, loops: nat) returns (n: nat)
    requires subj < Modulus
    ensures n == Transform(subj, loops) && n < Modulus
  {
    NoOverflow(subj, loops);
    TransformPow(subj, loops);
    var r := TransformSubjNum(subj, loops);
    n := r.value;
  }

  /** `part1`: the encryption key from the two public keys. The loop-size
      searches end only when the public keys are powers of 7. */
  method Part1(cardPub: nat, doorPub: nat) returns (r: Result<nat>)
    requires exists k: nat :: Transform(Subject, k) == cardPub
    requires exists k: nat :: Transform(Subject, k) == doorPub
    ensures r.Ok?
    ensures forall a, b :: IsLoopSize(Subject, cardPub, a) && IsLoopSize(Subject, doorPub, b) ==>
              r.value == Transform(cardPub, b) == Transform(doorPub, a)
  {
    var cardLoops := DeriveLoopSize(Subject, cardPub);
    var doorLoops := DeriveLoopSize(Subject, doorPub);
    var key := Handshake(cardLoops.value, doorLoops.value);
    forall a, b | IsLoopSize(Subject, cardPub, a) && IsLoopSize(Subject, doorPub, b)
      ensures key == Transform(cardPub, b) == Transform(doorPub, a)
    {
      LoopSizeUnique(Subject, cardPub, a, cardLoops.value);
      LoopSizeUnique(Subject, doorPub, b, doorLoops.value);
      KeysAgree(a, b);
    }
    return Ok(key);
  }

  // ---------------------------------------------------------------- reading

  /** `read`: exactly two lines, each a `u64`; anything else panics.
      `collect_tuple` pulls at most three lines through the parse (the
      third only to find out that there is one too many), so only a bad
      number among the first three panics in `Result::unwrap`. */
  function Read(lines: seq<string>): (r: Result<(nat, nat)>)
    ensures r.Ok? <==> |lines| == 2 && ParseNat(lines[0], U64Max).Some? && ParseNat(lines[1], U64Max).Some?
    ensures r.Ok? ==> Some(r.value.0) == ParseNat(lines[0], U64Max) && Some(r.value.1) == ParseNat(lines[1], U64Max)
    ensures |lines| > 3 && (forall i :: 0 <= i < 3 ==> ParseNat(lines[i], U64Max).Some?) ==> r == Panic(NoneUnwrap)
  {
    if exists i :: 0 <= i < |lines| && i < 3 && ParseNat(lines[i], U64Max).None? then
      Panic("called `Result::unwrap()` on an `Err` value")
    else if |lines| != 2 then Panic(NoneUnwrap)
    else Ok((ParseNat(lines[0], U64Max).value, ParseNat(lines[1], U64Max).value))
  }

  /** A fourth line is never parsed: three good numbers and a bad one
      panic in `Option::unwrap`, not in `Result::unwrap`. */
  lemma ReadFourLines()
    ensures Read(["1", "2", "3", "x"]) == Panic(NoneUnwrap)
  {
    assert ParseNat("1", U64Max) == Some(1) by { ParseShowNat(1, U64Max); }
    assert ParseNat("2", U64Max) == Some(2) by { ParseShowNat(2, U64Max); }
    assert ParseNat("3", U64Max) == Some(3) by { ParseShowNat(3, U64Max); }
  }

  /** Reading back two written keys gives them again. */
  lemma ReadShow(a: nat, b: nat)
    requires a <= U64Max && b <= U64Max
    ensures Read([ShowNat(a), ShowNat(b)]) == Ok((a, b))
  {
    ParseShowNat(a, U64Max);
    ParseShowNat(b, U64Max);
  }

  // ---------------------------------------------------------------- example

  /** One more step of the transform. */
  lemma TransformStep(subj: nat, k: nat, n: nat)
    requires Transform(subj, k) == n
    ensures Transform(subj, k + 1) == (n * subj) % Modulus
  {
  }

  /** The powers of 7 up to the 11th, reduced. */
  lemma SevenPowers(k: nat)
    requires k == 0
    ensures Transform(Subject, k) == 1 && Transform(Subject, k + 1) == 7
    ensures Transform(Subject, k + 2) == 49 && Transform(Subject, k + 3) == 343
    ensures Transform(Subject, k + 4) == 2401 && Transform(Subject, k + 5) == 16807
    ensures Transform(Subject, k + 6) == 117649 && Transform(Subject, k + 7) == 823543
    ensures Transform(Subject, k + 8) == 5764801 && Transform(Subject, k + 9) == 20152380
    ensures Transform(Subject, k + 10) == 19859298 && Transform(Subject, k + 11) == 17807724
  {
    TransformStep(Subject, k, 1);
    TransformStep(Subject, k + 1, 7);
    TransformStep(Subject, k + 2, 49);
    TransformStep(Subject, k + 3, 343);
    TransformStep(Subject, k + 4, 2401);
    TransformStep(Subject, k + 5, 16807);
    TransformStep(Subject, k + 6, 117649);
    TransformStep(Subject, k + 7, 823543);
    TransformStep(Subject, k + 8, 5764801);
    TransformStep(Subject, k + 9, 20152380);
    TransformStep(Subject, k + 10, 19859298);
  }

  /** The example's loop sizes are 8 for the card and 11 for the door. */
  lemma SampleLoopSizes()
    ensures IsLoopSize(Subject, 5764801, 8)
    ensures IsLoopSize(Subject, 17807724, 11)
  {
    SevenPowers(0);
    forall j | 0 <= j < 11 ensures Transform(Subject, j) != 17807724 {
      assert j == 0 || j == 1 || j == 2 || j == 3 || j == 4 || j == 5 || j == 6 || j == 7 || j == 8 || j == 9 || j == 10;
    }
    forall j | 0 <= j < 8 ensures Transform(Subject, j) != 5764801 {
      assert j == 0 || j == 1 || j == 2 || j == 3 || j == 4 || j == 5 || j == 6 || j == 7;
    }
  }

  /** The card's public key transformed by the door's loop size. */
  lemma CardPowers(subj: nat, k: nat)
    requires subj == 5764801 && k == 0
    ensures Transform(subj, k + 11) == 14897079
  {
    TransformStep(subj, k, 1);
    TransformStep(subj, k + 1, 5764801);
    TransformStep(subj, k + 2, 13239263);
    TransformStep(subj, k + 3, 6286092);
    TransformStep(subj, k + 4, 17588834);
    TransformStep(subj, k + 5, 8144799);
    TransformStep(subj, k + 6, 19339482);
    TransformStep(subj, k + 7, 16501187);
    TransformStep(subj, k + 8, 16669039);
    TransformStep(subj, k + 9, 11273191);
    TransformStep(subj, k + 10, 12070132);
  }

  /** The example's encryption key is 14897079. */
  lemma SampleKey()
    ensures forall a, b :: IsLoopSize(Subject, 5764801, a) && IsLoopSize(Subject, 17807724, b) ==>
              Transform(5764801, b) == 14897079
  {
    SampleLoopSizes();
    CardPowers(5764801, 0);
    forall a, b | IsLoopSize(Subject, 5764801, a) && IsLoopSize(Subject, 17807724, b)
      ensures Transform(5764801, b) == 14897079
    {
      LoopSizeUnique(Subject, 17807724, b, 11);
    }
  }
}
