/** The sample expressions of the day 18 tests, taken through the model:
    each line's tokens, the two trees the line parses to, and the values
    the two modes give. */
module Day18Samples {
  import opened Outcomes
  import opened Day18

  /** A tree is written as the slice of ts its tokens occupy: a literal,
      a parenthesised tree, and two trees around an operator. */
  lemma PrintLit(n: nat, ts: seq<Token>, i: nat)
    requires i < |ts| && ts[i] == Num(n)
    ensures Print(Lit(n)) == ts[i..i + 1]
  {
  }

  lemma PrintGroup(x: Expr, ts: seq<Token>, i: nat, j: nat)
    requires i + 1 < j <= |ts| && ts[i] == Open && ts[j - 1] == Close
    requires Print(x) == ts[i + 1..j - 1]
    ensures Print(Group(x)) == ts[i..j]
  {
    assert ts[i..j] == [ts[i]] + ts[i + 1..j - 1] + [ts[j - 1]];
  }

  lemma PrintBin(l: Expr, op: Token, r: Expr, ts: seq<Token>, i: nat, k: nat, j: nat)
    requires i <= k < j <= |ts| && ts[k] == op
    requires Print(l) == ts[i..k] && Print(r) == ts[k + 1..j]
    ensures Print(Bin(op, l, r)) == ts[i..j]
  {
    assert ts[i..j] == ts[i..k] + [ts[k]] + ts[k + 1..j];
  }

  lemma PrintWhole(e: Expr, ts: seq<Token>)
    requires Print(e) == ts[0..|ts|]
    ensures Print(e) == ts
  {
    assert ts[0..|ts|] == ts;
  }

  /** The first sample line, "1 + 2 * 3 + 4 * 5 + 6", as tokens, and the two trees
      it is read as: a left-nested chain and a product of sums. */
  const OneTokens := [Num(1), Add, Num(2), Mul, Num(3), Add, Num(4), Mul, Num(5), Add, Num(6)]
  const OneChain := Bin(Add, Bin(Mul, Bin(Add, Bin(Mul, Bin(Add, Lit(1), Lit(2)), Lit(3)), Lit(4)), Lit(5)), Lit(6))
  const OneProduct := Bin(Mul, Bin(Mul, Bin(Add, Lit(1), Lit(2)), Bin(Add, Lit(3), Lit(4))), Bin(Add, Lit(5), Lit(6)))

  lemma SampleOneChainPrint()
    ensures Print(OneChain) == OneTokens[0..|OneTokens|]
  {
    PrintLit(1, OneTokens, 0);
    PrintLit(2, OneTokens, 2);
    PrintBin(Lit(1), Add, Lit(2), OneTokens, 0, 1, 3);
    PrintLit(3, OneTokens, 4);
    PrintBin(Bin(Add, Lit(1), Lit(2)), Mul, Lit(3), OneTokens, 0, 3, 5);
    PrintLit(4, OneTokens, 6);
    PrintBin(Bin(Mul, Bin(Add, Lit(1), Lit(2)), Lit(3)), Add, Lit(4), OneTokens, 0, 5, 7);
    PrintLit(5, OneTokens, 8);
    PrintBin(Bin(Add, Bin(Mul, Bin(Add, Lit(1), Lit(2)), Lit(3)), Lit(4)), Mul, Lit(5), OneTokens, 0, 7, 9);
    PrintLit(6, OneTokens, 10);
    PrintBin(Bin(Mul, Bin(Add, Bin(Mul, Bin(Add, Lit(1), Lit(2)), Lit(3)), Lit(4)), Lit(5)), Add, Lit(6), OneTokens, 0, 9, 11);
  }

  lemma SampleOneProductPrint()
    ensures Print(OneProduct) == OneTokens[0..|OneTokens|]
  {
    PrintLit(1, OneTokens, 0);
    PrintLit(2, OneTokens, 2);
    PrintBin(Lit(1), Add, Lit(2), OneTokens, 0, 1, 3);
    PrintLit(3, OneTokens, 4);
    PrintLit(4, OneTokens, 6);
    PrintBin(Lit(3), Add, Lit(4), OneTokens, 4, 5, 7);
    PrintBin(Bin(Add, Lit(1), Lit(2)), Mul, Bin(Add, Lit(3), Lit(4)), OneTokens, 0, 3, 7);
    PrintLit(5, OneTokens, 8);
    PrintLit(6, OneTokens, 10);
    PrintBin(Lit(5), Add, Lit(6), OneTokens, 8, 9, 11);
    PrintBin(Bin(Mul, Bin(Add, Lit(1), Lit(2)), Bin(Add, Lit(3), Lit(4))), Mul, Bin(Add, Lit(5), Lit(6)), OneTokens, 0, 7, 11);
  }

  lemma SampleOneChain()
    ensures Evaluate(Print(OneChain), false) == Ok(71)
  {
    LeftToRight(OneChain);
  }

  lemma SampleOneProduct()
    ensures Evaluate(Print(OneProduct), true) == Ok(231)
  {
    AdditionFirst(OneProduct);
  }

  /** The first sample line evaluates to 71 in plain mode and to 231 in
      advanced mode. */
  lemma SampleOne()
    ensures Evaluate(OneTokens, false) == Ok(71)
    ensures Evaluate(OneTokens, true) == Ok(231)
  {
    SampleOneChainPrint();
    PrintWhole(OneChain, OneTokens);
    SampleOneChain();
    SampleOneProductPrint();
    PrintWhole(OneProduct, OneTokens);
    SampleOneProduct();
  }

  /** The second sample line, "1 + (2 * 3) + (4 * (5 + 6))", as tokens, and the two trees
      it is read as: a left-nested chain and a product of sums. */
  const TwoTokens := [Num(1), Add, Open, Num(2), Mul, Num(3), Close, Add, Open, Num(4), Mul, Open, Num(5), Add, Num(6), Close, Close]
  const TwoChain := Bin(Add, Bin(Add, Lit(1), Group(Bin(Mul, Lit(2), Lit(3)))), Group(Bin(Mul, Lit(4), Group(Bin(Add, Lit(5), Lit(6))))))
  const TwoProduct := Bin(Add, Bin(Add, Lit(1), Group(Bin(Mul, Lit(2), Lit(3)))), Group(Bin(Mul, Lit(4), Group(Bin(Add, Lit(5), Lit(6))))))

  lemma SampleTwoChainPrint()
    ensures Print(TwoChain) == TwoTokens[0..|TwoTokens|]
  {
    PrintLit(1, TwoTokens, 0);
    PrintLit(2, TwoTokens, 3);
    PrintLit(3, TwoTokens, 5);
    PrintBin(Lit(2), Mul, Lit(3), TwoTokens, 3, 4, 6);
    PrintGroup(Bin(Mul, Lit(2), Lit(3)), TwoTokens, 2, 7);
    PrintBin(Lit(1), Add, Group(Bin(Mul, Lit(2), Lit(3))), TwoTokens, 0, 1, 7);
    PrintLit(4, TwoTokens, 9);
    PrintLit(5, TwoTokens, 12);
    PrintLit(6, TwoTokens, 14);
    PrintBin(Lit(5), Add, Lit(6), TwoTokens, 12, 13, 15);
    PrintGroup(Bin(Add, Lit(5), Lit(6)), TwoTokens, 11, 16);
    PrintBin(Lit(4), Mul, Group(Bin(Add, Lit(5), Lit(6))), TwoTokens, 9, 10, 16);
    PrintGroup(Bin(Mul, Lit(4), Group(Bin(Add, Lit(5), Lit(6)))), TwoTokens, 8, 17);
    PrintBin(Bin(Add, Lit(1), Group(Bin(Mul, Lit(2), Lit(3)))), Add, Group(Bin(Mul, Lit(4), Group(Bin(Add, Lit(5), Lit(6))))), TwoTokens, 0, 7, 17);
  }

  lemma SampleTwoProductPrint()
    ensures Print(TwoProduct) == TwoTokens[0..|TwoTokens|]
  {
    PrintLit(1, TwoTokens, 0);
    PrintLit(2, TwoTokens, 3);
    PrintLit(3, TwoTokens, 5);
    PrintBin(Lit(2), Mul, Lit(3), TwoTokens, 3, 4, 6);
    PrintGroup(Bin(Mul, Lit(2), Lit(3)), TwoTokens, 2, 7);
    PrintBin(Lit(1), Add, Group(Bin(Mul, Lit(2), Lit(3))), TwoTokens, 0, 1, 7);
    PrintLit(4, TwoTokens, 9);
    PrintLit(5, TwoTokens, 12);
    PrintLit(6, TwoTokens, 14);
    PrintBin(Lit(5), Add, Lit(6), TwoTokens, 12, 13, 15);
    PrintGroup(Bin(Add, Lit(5), Lit(6)), TwoTokens, 11, 16);
    PrintBin(Lit(4), Mul, Group(Bin(Add, Lit(5), Lit(6))), TwoTokens, 9, 10, 16);
    PrintGroup(Bin(Mul, Lit(4), Group(Bin(Add, Lit(5), Lit(6)))), TwoTokens, 8, 17);
    PrintBin(Bin(Add, Lit(1), Group(Bin(Mul, Lit(2), Lit(3)))), Add, Group(Bin(Mul, Lit(4), Group(Bin(Add, Lit(5), Lit(6))))), TwoTokens, 0, 7, 17);
  }

  lemma SampleTwoChain()
    ensures Evaluate(Print(TwoChain), false) == Ok(51)
  {
    LeftToRight(TwoChain);
  }

  lemma SampleTwoProduct()
    ensures Evaluate(Print(TwoProduct), true) == Ok(51)
  {
    AdditionFirst(TwoProduct);
  }

  /** The second sample line evaluates to 51 in plain mode and to 51 in
      advanced mode. */
  lemma SampleTwo()
    ensures Evaluate(TwoTokens, false) == Ok(51)
    ensures Evaluate(TwoTokens, true) == Ok(51)
  {
    SampleTwoChainPrint();
    PrintWhole(TwoChain, TwoTokens);
    SampleTwoChain();
    SampleTwoProductPrint();
    PrintWhole(TwoProduct, TwoTokens);
    SampleTwoProduct();
  }

  /** The third sample line, "2 * 3 + (4 * 5)", as tokens, and the two trees
      it is read as: a left-nested chain and a product of sums. */
  const ThreeTokens := [Num(2), Mul, Num(3), Add, Open, Num(4), Mul, Num(5), Close]
  const ThreeChain := Bin(Add, Bin(Mul, Lit(2), Lit(3)), Group(Bin(Mul, Lit(4), Lit(5))))
  const ThreeProduct := Bin(Mul, Lit(2), Bin(Add, Lit(3), Group(Bin(Mul, Lit(4), Lit(5)))))

  lemma SampleThreeChainPrint()
    ensures Print(ThreeChain) == ThreeTokens[0..|ThreeTokens|]
  {
    PrintLit(2, ThreeTokens, 0);
    PrintLit(3, ThreeTokens, 2);
    PrintBin(Lit(2), Mul, Lit(3), ThreeTokens, 0, 1, 3);
    PrintLit(4, ThreeTokens, 5);
    PrintLit(5, ThreeTokens, 7);
    PrintBin(Lit(4), Mul, Lit(5), ThreeTokens, 5, 6, 8);
    PrintGroup(Bin(Mul, Lit(4), Lit(5)), ThreeTokens, 4, 9);
    PrintBin(Bin(Mul, Lit(2), Lit(3)), Add, Group(Bin(Mul, Lit(4), Lit(5))), ThreeTokens, 0, 3, 9);
  }

  lemma SampleThreeProductPrint()
    ensures Print(ThreeProduct) == ThreeTokens[0..|ThreeTokens|]
  {
    PrintLit(2, ThreeTokens, 0);
    PrintLit(3, ThreeTokens, 2);
    PrintLit(4, ThreeTokens, 5);
    PrintLit(5, ThreeTokens, 7);
    PrintBin(Lit(4), Mul, Lit(5), ThreeTokens, 5, 6, 8);
    PrintGroup(Bin(Mul, Lit(4), Lit(5)), ThreeTokens, 4, 9);
    PrintBin(Lit(3), Add, Group(Bin(Mul, Lit(4), Lit(5))), ThreeTokens, 2, 3, 9);
    PrintBin(Lit(2), Mul, Bin(Add, Lit(3), Group(Bin(Mul, Lit(4), Lit(5)))), ThreeTokens, 0, 1, 9);
  }

  lemma SampleThreeChain()
    ensures Evaluate(Print(ThreeChain), false) == Ok(26)
  {
    LeftToRight(ThreeChain);
  }

  lemma SampleThreeProduct()
    ensures Evaluate(Print(ThreeProduct), true) == Ok(46)
  {
    AdditionFirst(ThreeProduct);
  }

  /** The third sample line evaluates to 26 in plain mode and to 46 in
      advanced mode. */
  lemma SampleThree()
    ensures Evaluate(ThreeTokens, false) == Ok(26)
    ensures Evaluate(ThreeTokens, true) == Ok(46)
  {
    SampleThreeChainPrint();
    PrintWhole(ThreeChain, ThreeTokens);
    SampleThreeChain();
    SampleThreeProductPrint();
    PrintWhole(ThreeProduct, ThreeTokens);
    SampleThreeProduct();
  }

  /** The fourth sample line, "5 + (8 * 3 + 9 + 3 * 4 * 3)", as tokens, and the two trees
      it is read as: a left-nested chain and a product of sums. */
  const FourTokens := [Num(5), Add, Open, Num(8), Mul, Num(3), Add, Num(9), Add, Num(3), Mul, Num(4), Mul, Num(3), Close]
  const FourChain := Bin(Add, Lit(5), Group(Bin(Mul, Bin(Mul, Bin(Add, Bin(Add, Bin(Mul, Lit(8), Lit(3)), Lit(9)), Lit(3)), Lit(4)), Lit(3))))
  const FourProduct := Bin(Add, Lit(5), Group(Bin(Mul, Bin(Mul, Bin(Mul, Lit(8), Bin(Add, Bin(Add, Lit(3), Lit(9)), Lit(3))), Lit(4)), Lit(3))))

  lemma SampleFourChainPrint()
    ensures Print(FourChain) == FourTokens[0..|FourTokens|]
  {
    PrintLit(5, FourTokens, 0);
    PrintLit(8, FourTokens, 3);
    PrintLit(3, FourTokens, 5);
    PrintBin(Lit(8), Mul, Lit(3), FourTokens, 3, 4, 6);
    PrintLit(9, FourTokens, 7);
    PrintBin(Bin(Mul, Lit(8), Lit(3)), Add, Lit(9), FourTokens, 3, 6, 8);
    PrintLit(3, FourTokens, 9);
    PrintBin(Bin(Add, Bin(Mul, Lit(8), Lit(3)), Lit(9)), Add, Lit(3), FourTokens, 3, 8, 10);
    PrintLit(4, FourTokens, 11);
    PrintBin(Bin(Add, Bin(Add, Bin(Mul, Lit(8), Lit(3)), Lit(9)), Lit(3)), Mul, Lit(4), FourTokens, 3, 10, 12);
    PrintLit(3, FourTokens, 13);
    PrintBin(Bin(Mul, Bin(Add, Bin(Add, Bin(Mul, Lit(8), Lit(3)), Lit(9)), Lit(3)), Lit(4)), Mul, Lit(3), FourTokens, 3, 12, 14);
    PrintGroup(Bin(Mul, Bin(Mul, Bin(Add, Bin(Add, Bin(Mul, Lit(8), Lit(3)), Lit(9)), Lit(3)), Lit(4)), Lit(3)), FourTokens, 2, 15);
    PrintBin(Lit(5), Add, Group(Bin(Mul, Bin(Mul, Bin(Add, Bin(Add, Bin(Mul, Lit(8), Lit(3)), Lit(9)), Lit(3)), Lit(4)), Lit(3))), FourTokens, 0, 1, 15);
  }

  lemma SampleFourProductPrint()
    ensures Print(FourProduct) == FourTokens[0..|FourTokens|]
  {
    PrintLit(5, FourTokens, 0);
    PrintLit(8, FourTokens, 3);
    PrintLit(3, FourTokens, 5);
    PrintLit(9, FourTokens, 7);
    PrintBin(Lit(3), Add, Lit(9), FourTokens, 5, 6, 8);
    PrintLit(3, FourTokens, 9);
    PrintBin(Bin(Add, Lit(3), Lit(9)), Add, Lit(3), FourTokens, 5, 8, 10);
    PrintBin(Lit(8), Mul, Bin(Add, Bin(Add, Lit(3), Lit(9)), Lit(3)), FourTokens, 3, 4, 10);
    PrintLit(4, FourTokens, 11);
    PrintBin(Bin(Mul, Lit(8), Bin(Add, Bin(Add, Lit(3), Lit(9)), Lit(3))), Mul, Lit(4), FourTokens, 3, 10, 12);
    PrintLit(3, FourTokens, 13);
    PrintBin(Bin(Mul, Bin(Mul, Lit(8), Bin(Add, Bin(Add, Lit(3), Lit(9)), Lit(3))), Lit(4)), Mul, Lit(3), FourTokens, 3, 12, 14);
    PrintGroup(Bin(Mul, Bin(Mul, Bin(Mul, Lit(8), Bin(Add, Bin(Add, Lit(3), Lit(9)), Lit(3))), Lit(4)), Lit(3)), FourTokens, 2, 15);
    PrintBin(Lit(5), Add, Group(Bin(Mul, Bin(Mul, Bin(Mul, Lit(8), Bin(Add, Bin(Add, Lit(3), Lit(9)), Lit(3))), Lit(4)), Lit(3))), FourTokens, 0, 1, 15);
  }

  lemma SampleFourChain()
    ensures Evaluate(Print(FourChain), false) == Ok(437)
  {
    LeftToRight(FourChain);
  }

  lemma SampleFourProduct()
    ensures Evaluate(Print(FourProduct), true) == Ok(1445)
  {
    AdditionFirst(FourProduct);
  }

  /** The fourth sample line evaluates to 437 in plain mode and to 1445 in
      advanced mode. */
  lemma SampleFour()
    ensures Evaluate(FourTokens, false) == Ok(437)
    ensures Evaluate(FourTokens, true) == Ok(1445)
  {
    SampleFourChainPrint();
    PrintWhole(FourChain, FourTokens);
    SampleFourChain();
    SampleFourProductPrint();
    PrintWhole(FourProduct, FourTokens);
    SampleFourProduct();
  }

  /** The fifth sample line, "5 * 9 * (7 * 3 * 3 + 9 * 3 + (8 + 6 * 4))", as tokens, and the two trees
      it is read as: a left-nested chain and a product of sums. */
  const FiveTokens := [Num(5), Mul, Num(9), Mul, Open, Num(7), Mul, Num(3), Mul, Num(3), Add, Num(9), Mul, Num(3), Add, Open, Num(8), Add, Num(6), Mul, Num(4), Close, Close]
  const FiveChain := Bin(Mul, Bin(Mul, Lit(5), Lit(9)), Group(Bin(Add, Bin(Mul, Bin(Add, Bin(Mul, Bin(Mul, Lit(7), Lit(3)), Lit(3)), Lit(9)), Lit(3)), Group(Bin(Mul, Bin(Add, Lit(8), Lit(6)), Lit(4))))))
  const FiveProduct := Bin(Mul, Bin(Mul, Lit(5), Lit(9)), Group(Bin(Mul, Bin(Mul, Bin(Mul, Lit(7), Lit(3)), Bin(Add, Lit(3), Lit(9))), Bin(Add, Lit(3), Group(Bin(Mul, Bin(Add, Lit(8), Lit(6)), Lit(4)))))))

  lemma SampleFiveChainPrint()
    ensures Print(FiveChain) == FiveTokens[0..|FiveTokens|]
  {
    PrintLit(5, FiveTokens, 0);
    PrintLit(9, FiveTokens, 2);
    PrintBin(Lit(5), Mul, Lit(9), FiveTokens, 0, 1, 3);
    PrintLit(7, FiveTokens, 5);
    PrintLit(3, FiveTokens, 7);
    PrintBin(Lit(7), Mul, Lit(3), FiveTokens, 5, 6, 8);
    PrintLit(3, FiveTokens, 9);
    PrintBin(Bin(Mul, Lit(7), Lit(3)), Mul, Lit(3), FiveTokens, 5, 8, 10);
    PrintLit(9, FiveTokens, 11);
    PrintBin(Bin(Mul, Bin(Mul, Lit(7), Lit(3)), Lit(3)), Add, Lit(9), FiveTokens, 5, 10, 12);
    PrintLit(3, FiveTokens, 13);
    PrintBin(Bin(Add, Bin(Mul, Bin(Mul, Lit(7), Lit(3)), Lit(3)), Lit(9)), Mul, Lit(3), FiveTokens, 5, 12, 14);
    PrintLit(8, FiveTokens, 16);
    PrintLit(6, FiveTokens, 18);
    PrintBin(Lit(8), Add, Lit(6), FiveTokens, 16, 17, 19);
    PrintLit(4, FiveTokens, 20);
    PrintBin(Bin(Add, Lit(8), Lit(6)), Mul, Lit(4), FiveTokens, 16, 19, 21);
    PrintGroup(Bin(Mul, Bin(Add, Lit(8), Lit(6)), Lit(4)), FiveTokens, 15, 22);
    PrintBin(Bin(Mul, Bin(Add, Bin(Mul, Bin(Mul, Lit(7), Lit(3)), Lit(3)), Lit(9)), Lit(3)), Add, Group(Bin(Mul, Bin(Add, Lit(8), Lit(6)), Lit(4))), FiveTokens, 5, 14, 22);
    PrintGroup(Bin(Add, Bin(Mul, Bin(Add, Bin(Mul, Bin(Mul, Lit(7), Lit(3)), Lit(3)), Lit(9)), Lit(3)), Group(Bin(Mul, Bin(Add, Lit(8), Lit(6)), Lit(4)))), FiveTokens, 4, 23);
    PrintBin(Bin(Mul, Lit(5), Lit(9)), Mul, Group(Bin(Add, Bin(Mul, Bin(Add, Bin(Mul, Bin(Mul, Lit(7), Lit(3)), Lit(3)), Lit(9)), Lit(3)), Group(Bin(Mul, Bin(Add, Lit(8), Lit(6)), Lit(4))))), FiveTokens, 0, 3, 23);
  }

  lemma SampleFiveProductPrint()
    ensures Print(FiveProduct) == FiveTokens[0..|FiveTokens|]
  {
    PrintLit(5, FiveTokens, 0);
    PrintLit(9, FiveTokens, 2);
    PrintBin(Lit(5), Mul, Lit(9), FiveTokens, 0, 1, 3);
    PrintLit(7, FiveTokens, 5);
    PrintLit(3, FiveTokens, 7);
    PrintBin(Lit(7), Mul, Lit(3), FiveTokens, 5, 6, 8);
    PrintLit(3, FiveTokens, 9);
    PrintLit(9, FiveTokens, 11);
    PrintBin(Lit(3), Add, Lit(9), FiveTokens, 9, 10, 12);
    PrintBin(Bin(Mul, Lit(7), Lit(3)), Mul, Bin(Add, Lit(3), Lit(9)), FiveTokens, 5, 8, 12);
    PrintLit(3, FiveTokens, 13);
    PrintLit(8, FiveTokens, 16);
    PrintLit(6, FiveTokens, 18);
    PrintBin(Lit(8), Add, Lit(6), FiveTokens, 16, 17, 19);
    PrintLit(4, FiveTokens, 20);
    PrintBin(Bin(Add, Lit(8), Lit(6)), Mul, Lit(4), FiveTokens, 16, 19, 21);
    PrintGroup(Bin(Mul, Bin(Add, Lit(8), Lit(6)), Lit(4)), FiveTokens, 15, 22);
    PrintBin(Lit(3), Add, Group(Bin(Mul, Bin(Add, Lit(8), Lit(6)), Lit(4))), FiveTokens, 13, 14, 22);
    PrintBin(Bin(Mul, Bin(Mul, Lit(7), Lit(3)), Bin(Add, Lit(3), Lit(9))), Mul, Bin(Add, Lit(3), Group(Bin(Mul, Bin(Add, Lit(8), Lit(6)), Lit(4)))), FiveTokens, 5, 12, 22);
    PrintGroup(Bin(Mul, Bin(Mul, Bin(Mul, Lit(7), Lit(3)), Bin(Add, Lit(3), Lit(9))), Bin(Add, Lit(3), Group(Bin(Mul, Bin(Add, Lit(8), Lit(6)), Lit(4))))), FiveTokens, 4, 23);
    PrintBin(Bin(Mul, Lit(5), Lit(9)), Mul, Group(Bin(Mul, Bin(Mul, Bin(Mul, Lit(7), Lit(3)), Bin(Add, Lit(3), Lit(9))), Bin(Add, Lit(3), Group(Bin(Mul, Bin(Add, Lit(8), Lit(6)), Lit(4)))))), FiveTokens, 0, 3, 23);
  }

  lemma SampleFiveChain()
    ensures Evaluate(Print(FiveChain), false) == Ok(12240)
  {
    LeftToRight(FiveChain);
  }

  lemma SampleFiveProduct()
    ensures Evaluate(Print(FiveProduct), true) == Ok(669060)
  {
    AdditionFirst(FiveProduct);
  }

  /** The fifth sample line evaluates to 12240 in plain mode and to 669060 in
      advanced mode. */
  lemma SampleFive()
    ensures Evaluate(FiveTokens, false) == Ok(12240)
    ensures Evaluate(FiveTokens, true) == Ok(669060)
  {
    SampleFiveChainPrint();
    PrintWhole(FiveChain, FiveTokens);
    SampleFiveChain();
    SampleFiveProductPrint();
    PrintWhole(FiveProduct, FiveTokens);
    SampleFiveProduct();
  }

  /** The sixth sample line, "((2 + 4 * 9) * (6 + 9 * 8 + 6) + 6) + 2 + 4 * 2", as tokens, and the two trees
      it is read as: a left-nested chain and a product of sums. */
  const SixTokens := [Open, Open, Num(2), Add, Num(4), Mul, Num(9), Close, Mul, Open, Num(6), Add, Num(9), Mul, Num(8), Add, Num(6), Close, Add, Num(6), Close, Add, Num(2), Add, Num(4), Mul, Num(2)]
  const SixChain := Bin(Mul, Bin(Add, Bin(Add, Group(Bin(Add, Bin(Mul, Group(Bin(Mul, Bin(Add, Lit(2), Lit(4)), Lit(9))), Group(Bin(Add, Bin(Mul, Bin(Add, Lit(6), Lit(9)), Lit(8)), Lit(6)))), Lit(6))), Lit(2)), Lit(4)), Lit(2))
  const SixProduct := Bin(Mul, Bin(Add, Bin(Add, Group(Bin(Mul, Group(Bin(Mul, Bin(Add, Lit(2), Lit(4)), Lit(9))), Bin(Add, Group(Bin(Mul, Bin(Add, Lit(6), Lit(9)), Bin(Add, Lit(8), Lit(6)))), Lit(6)))), Lit(2)), Lit(4)), Lit(2))

  lemma SampleSixChainPrint()
    ensures Print(SixChain) == SixTokens[0..|SixTokens|]
  {
    PrintLit(2, SixTokens, 2);
    PrintLit(4, SixTokens, 4);
    PrintBin(Lit(2), Add, Lit(4), SixTokens, 2, 3, 5);
    PrintLit(9, SixTokens, 6);
    PrintBin(Bin(Add, Lit(2), Lit(4)), Mul, Lit(9), SixTokens, 2, 5, 7);
    PrintGroup(Bin(Mul, Bin(Add, Lit(2), Lit(4)), Lit(9)), SixTokens, 1, 8);
    PrintLit(6, SixTokens, 10);
    PrintLit(9, SixTokens, 12);
    PrintBin(Lit(6), Add, Lit(9), SixTokens, 10, 11, 13);
    PrintLit(8, SixTokens, 14);
    PrintBin(Bin(Add, Lit(6), Lit(9)), Mul, Lit(8), SixTokens, 10, 13, 15);
    PrintLit(6, SixTokens, 16);
    PrintBin(Bin(Mul, Bin(Add, Lit(6), Lit(9)), Lit(8)), Add, Lit(6), SixTokens, 10, 15, 17);
    PrintGroup(Bin(Add, Bin(Mul, Bin(Add, Lit(6), Lit(9)), Lit(8)), Lit(6)), SixTokens, 9, 18);
    PrintBin(Group(Bin(Mul, Bin(Add, Lit(2), Lit(4)), Lit(9))), Mul, Group(Bin(Add, Bin(Mul, Bin(Add, Lit(6), Lit(9)), Lit(8)), Lit(6))), SixTokens, 1, 8, 18);
    PrintLit(6, SixTokens, 19);
    PrintBin(Bin(Mul, Group(Bin(Mul, Bin(Add, Lit(2), Lit(4)), Lit(9))), Group(Bin(Add, Bin(Mul, Bin(Add, Lit(6), Lit(9)), Lit(8)), Lit(6)))), Add, Lit(6), SixTokens, 1, 18, 20);
    PrintGroup(Bin(Add, Bin(Mul, Group(Bin(Mul, Bin(Add, Lit(2), Lit(4)), Lit(9))), Group(Bin(Add, Bin(Mul, Bin(Add, Lit(6), Lit(9)), Lit(8)), Lit(6)))), Lit(6)), SixTokens, 0, 21);
    PrintLit(2, SixTokens, 22);
    PrintBin(Group(Bin(Add, Bin(Mul, Group(Bin(Mul, Bin(Add, Lit(2), Lit(4)), Lit(9))), Group(Bin(Add, Bin(Mul, Bin(Add, Lit(6), Lit(9)), Lit(8)), Lit(6)))), Lit(6))), Add, Lit(2), SixTokens, 0, 21, 23);
    PrintLit(4, SixTokens, 24);
    PrintBin(Bin(Add, Group(Bin(Add, Bin(Mul, Group(Bin(Mul, Bin(Add, Lit(2), Lit(4)), Lit(9))), Group(Bin(Add, Bin(Mul, Bin(Add, Lit(6), Lit(9)), Lit(8)), Lit(6)))), Lit(6))), Lit(2)), Add, Lit(4), SixTokens, 0, 23, 25);
    PrintLit(2, SixTokens, 26);
    PrintBin(Bin(Add, Bin(Add, Group(Bin(Add, Bin(Mul, Group(Bin(Mul, Bin(Add, Lit(2), Lit(4)), Lit(9))), Group(Bin(Add, Bin(Mul, Bin(Add, Lit(6), Lit(9)), Lit(8)), Lit(6)))), Lit(6))), Lit(2)), Lit(4)), Mul, Lit(2), SixTokens, 0, 25, 27);
  }

  lemma SampleSixProductPrint()
    ensures Print(SixProduct) == SixTokens[0..|SixTokens|]
  {
    PrintLit(2, SixTokens, 2);
    PrintLit(4, SixTokens, 4);
    PrintBin(Lit(2), Add, Lit(4), SixTokens, 2, 3, 5);
    PrintLit(9, SixTokens, 6);
    PrintBin(Bin(Add, Lit(2), Lit(4)), Mul, Lit(9), SixTokens, 2, 5, 7);
    PrintGroup(Bin(Mul, Bin(Add, Lit(2), Lit(4)), Lit(9)), SixTokens, 1, 8);
    PrintLit(6, SixTokens, 10);
    PrintLit(9, SixTokens, 12);
    PrintBin(Lit(6), Add, Lit(9), SixTokens, 10, 11, 13);
    PrintLit(8, SixTokens, 14);
    PrintLit(6, SixTokens, 16);
    PrintBin(Lit(8), Add, Lit(6), SixTokens, 14, 15, 17);
    PrintBin(Bin(Add, Lit(6), Lit(9)), Mul, Bin(Add, Lit(8), Lit(6)), SixTokens, 10, 13, 17);
    PrintGroup(Bin(Mul, Bin(Add, Lit(6), Lit(9)), Bin(Add, Lit(8), Lit(6))), SixTokens, 9, 18);
    PrintLit(6, SixTokens, 19);
    PrintBin(Group(Bin(Mul, Bin(Add, Lit(6), Lit(9)), Bin(Add, Lit(8), Lit(6)))), Add, Lit(6), SixTokens, 9, 18, 20);
    PrintBin(Group(Bin(Mul, Bin(Add, Lit(2), Lit(4)), Lit(9))), Mul, Bin(Add, Group(Bin(Mul, Bin(Add, Lit(6), Lit(9)), Bin(Add, Lit(8), Lit(6)))), Lit(6)), SixTokens, 1, 8, 20);
    PrintGroup(Bin(Mul, Group(Bin(Mul, Bin(Add, Lit(2), Lit(4)), Lit(9))), Bin(Add, Group(Bin(Mul, Bin(Add, Lit(6), Lit(9)), Bin(Add, Lit(8), Lit(6)))), Lit(6))), SixTokens, 0, 21);
    PrintLit(2, SixTokens, 22);
    PrintBin(Group(Bin(Mul, Group(Bin(Mul, Bin(Add, Lit(2), Lit(4)), Lit(9))), Bin(Add, Group(Bin(Mul, Bin(Add, Lit(6), Lit(9)), Bin(Add, Lit(8), Lit(6)))), Lit(6)))), Add, Lit(2), SixTokens, 0, 21, 23);
    PrintLit(4, SixTokens, 24);
    PrintBin(Bin(Add, Group(Bin(Mul, Group(Bin(Mul, Bin(Add, Lit(2), Lit(4)), Lit(9))), Bin(Add, Group(Bin(Mul, Bin(Add, Lit(6), Lit(9)), Bin(Add, Lit(8), Lit(6)))), Lit(6)))), Lit(2)), Add, Lit(4), SixTokens, 0, 23, 25);
    PrintLit(2, SixTokens, 26);
    PrintBin(Bin(Add, Bin(Add, Group(Bin(Mul, Group(Bin(Mul, Bin(Add, Lit(2), Lit(4)), Lit(9))), Bin(Add, Group(Bin(Mul, Bin(Add, Lit(6), Lit(9)), Bin(Add, Lit(8), Lit(6)))), Lit(6)))), Lit(2)), Lit(4)), Mul, Lit(2), SixTokens, 0, 25, 27);
  }

  lemma SampleSixChain()
    ensures Evaluate(Print(SixChain), false) == Ok(13632)
  {
    LeftToRight(SixChain);
  }

  lemma SampleSixProduct()
    ensures Evaluate(Print(SixProduct), true) == Ok(23340)
  {
    AdditionFirst(SixProduct);
  }

  /** The sixth sample line evaluates to 13632 in plain mode and to 23340 in
      advanced mode. */
  lemma SampleSix()
    ensures Evaluate(SixTokens, false) == Ok(13632)
    ensures Evaluate(SixTokens, true) == Ok(23340)
  {
    SampleSixChainPrint();
    PrintWhole(SixChain, SixTokens);
    SampleSixChain();
    SampleSixProductPrint();
    PrintWhole(SixProduct, SixTokens);
    SampleSixProduct();
  }

  lemma TokenizeSkip(s: string, k: nat)
    requires k < |s| && s[k] == ' '
    ensures Tokenize(s[k..]) == Tokenize(s[k + 1..])
  {
    assert s[k..][1..] == s[k + 1..];
  }

  /** The k-th character of s is the j-th token of ts. */
  lemma TokenizeToken(s: string, k: nat, ts: seq<Token>, j: nat)
    requires k < |s| && s[k] != ' ' && j < |ts| && TokenOf(s[k]) == Some(ts[j])
    requires Tokenize(s[k + 1..]) == Ok(ts[j + 1..])
    ensures Tokenize(s[k..]) == Ok(ts[j..])
  {
    assert s[k..][1..] == s[k + 1..];
    assert ts[j..] == [ts[j]] + ts[j + 1..];
  }

  lemma TokenizeWhole(s: string, ts: seq<Token>)
    requires Tokenize(s[0..]) == Ok(ts[0..])
    ensures Tokenize(s) == Ok(ts)
  {
    assert s[0..] == s;
    assert ts[0..] == ts;
  }

  /** The third sample line. */
  const Three := "2 * 3 + (4 * 5)"

  lemma SampleThreeFrom13()
    ensures Tokenize(Three[13..]) == Ok(ThreeTokens[7..])
  {
    var s := Three;
    assert Tokenize(s[15..]) == Ok(ThreeTokens[9..]);
    TokenizeToken(s, 14, ThreeTokens, 8);
    TokenizeToken(s, 13, ThreeTokens, 7);
  }

  lemma SampleThreeFrom11()
    ensures Tokenize(Three[11..]) == Ok(ThreeTokens[6..])
  {
    var s := Three;
    SampleThreeFrom13();
    TokenizeSkip(s, 12);
    TokenizeToken(s, 11, ThreeTokens, 6);
  }

  lemma SampleThreeFrom9()
    ensures Tokenize(Three[9..]) == Ok(ThreeTokens[5..])
  {
    var s := Three;
    SampleThreeFrom11();
    TokenizeSkip(s, 10);
    TokenizeToken(s, 9, ThreeTokens, 5);
  }

  lemma SampleThreeFrom7()
    ensures Tokenize(Three[7..]) == Ok(ThreeTokens[4..])
  {
    var s := Three;
    SampleThreeFrom9();
    TokenizeToken(s, 8, ThreeTokens, 4);
    TokenizeSkip(s, 7);
  }

  lemma SampleThreeFrom5()
    ensures Tokenize(Three[5..]) == Ok(ThreeTokens[3..])
  {
    var s := Three;
    SampleThreeFrom7();
    TokenizeToken(s, 6, ThreeTokens, 3);
    TokenizeSkip(s, 5);
  }

  lemma SampleThreeFrom3()
    ensures Tokenize(Three[3..]) == Ok(ThreeTokens[2..])
  {
    var s := Three;
    SampleThreeFrom5();
    TokenizeToken(s, 4, ThreeTokens, 2);
    TokenizeSkip(s, 3);
  }

  lemma SampleThreeFrom1()
    ensures Tokenize(Three[1..]) == Ok(ThreeTokens[1..])
  {
    var s := Three;
    SampleThreeFrom3();
    TokenizeToken(s, 2, ThreeTokens, 1);
    TokenizeSkip(s, 1);
  }

  lemma SampleThreeFrom0()
    ensures Tokenize(Three[0..]) == Ok(ThreeTokens[0..])
  {
    var s := Three;
    SampleThreeFrom1();
    TokenizeToken(s, 0, ThreeTokens, 0);
  }

  /** The third sample line reads as its tokens. */
  lemma SampleThreeTokens()
    ensures Tokenize(Three) == Ok(ThreeTokens)
  {
    SampleThreeFrom0();
    TokenizeWhole(Three, ThreeTokens);
  }
}
