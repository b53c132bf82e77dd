/** The sample game of `mod test` in src/days/day22.rs: player 2 wins
    Combat after 29 rounds with a score of 306. The rounds are shown one at
    a time, and the lemmas take the number of rounds played so far as a
    parameter, which keeps the verifier from evaluating the game itself. */
module Day22Samples {
  import opened Outcomes
  import opened Day22

  const SampleDecks := Decks([9, 2, 6, 3, 1], [5, 8, 4, 7, 10])

  lemma Round0()
    ensures Next(Decks([9, 2, 6, 3, 1], [5, 8, 4, 7, 10])) == Some(Decks([2, 6, 3, 1, 9, 5], [8, 4, 7, 10]))
  {
    NextRound(9, [2, 6, 3, 1], 5, [8, 4, 7, 10]);
    assert [9] + [2, 6, 3, 1] == [9, 2, 6, 3, 1] && [5] + [8, 4, 7, 10] == [5, 8, 4, 7, 10];
    assert [2, 6, 3, 1] + [9, 5] == [2, 6, 3, 1, 9, 5];
  }

  lemma Round1()
    ensures Next(Decks([2, 6, 3, 1, 9, 5], [8, 4, 7, 10])) == Some(Decks([6, 3, 1, 9, 5], [4, 7, 10, 8, 2]))
  {
    NextRound(2, [6, 3, 1, 9, 5], 8, [4, 7, 10]);
    assert [2] + [6, 3, 1, 9, 5] == [2, 6, 3, 1, 9, 5] && [8] + [4, 7, 10] == [8, 4, 7, 10];
    assert [4, 7, 10] + [8, 2] == [4, 7, 10, 8, 2];
  }

  lemma Round2()
    ensures Next(Decks([6, 3, 1, 9, 5], [4, 7, 10, 8, 2])) == Some(Decks([3, 1, 9, 5, 6, 4], [7, 10, 8, 2]))
  {
    NextRound(6, [3, 1, 9, 5], 4, [7, 10, 8, 2]);
    assert [6] + [3, 1, 9, 5] == [6, 3, 1, 9, 5] && [4] + [7, 10, 8, 2] == [4, 7, 10, 8, 2];
    assert [3, 1, 9, 5] + [6, 4] == [3, 1, 9, 5, 6, 4];
  }

  lemma Round3()
    ensures Next(Decks([3, 1, 9, 5, 6, 4], [7, 10, 8, 2])) == Some(Decks([1, 9, 5, 6, 4], [10, 8, 2, 7, 3]))
  {
    NextRound(3, [1, 9, 5, 6, 4], 7, [10, 8, 2]);
    assert [3] + [1, 9, 5, 6, 4] == [3, 1, 9, 5, 6, 4] && [7] + [10, 8, 2] == [7, 10, 8, 2];
    assert [10, 8, 2] + [7, 3] == [10, 8, 2, 7, 3];
  }

  lemma Round4()
    ensures Next(Decks([1, 9, 5, 6, 4], [10, 8, 2, 7, 3])) == Some(Decks([9, 5, 6, 4], [8, 2, 7, 3, 10, 1]))
  {
    NextRound(1, [9, 5, 6, 4], 10, [8, 2, 7, 3]);
    assert [1] + [9, 5, 6, 4] == [1, 9, 5, 6, 4] && [10] + [8, 2, 7, 3] == [10, 8, 2, 7, 3];
    assert [8, 2, 7, 3] + [10, 1] == [8, 2, 7, 3, 10, 1];
  }

  lemma Round5()
    ensures Next(Decks([9, 5, 6, 4], [8, 2, 7, 3, 10, 1])) == Some(Decks([5, 6, 4, 9, 8], [2, 7, 3, 10, 1]))
  {
    NextRound(9, [5, 6, 4], 8, [2, 7, 3, 10, 1]);
    assert [9] + [5, 6, 4] == [9, 5, 6, 4] && [8] + [2, 7, 3, 10, 1] == [8, 2, 7, 3, 10, 1];
    assert [5, 6, 4] + [9, 8] == [5, 6, 4, 9, 8];
  }

  lemma Round6()
    ensures Next(Decks([5, 6, 4, 9, 8], [2, 7, 3, 10, 1])) == Some(Decks([6, 4, 9, 8, 5, 2], [7, 3, 10, 1]))
  {
    NextRound(5, [6, 4, 9, 8], 2, [7, 3, 10, 1]);
    assert [5] + [6, 4, 9, 8] == [5, 6, 4, 9, 8] && [2] + [7, 3, 10, 1] == [2, 7, 3, 10, 1];
    assert [6, 4, 9, 8] + [5, 2] == [6, 4, 9, 8, 5, 2];
  }

  lemma Round7()
    ensures Next(Decks([6, 4, 9, 8, 5, 2], [7, 3, 10, 1])) == Some(Decks([4, 9, 8, 5, 2], [3, 10, 1, 7, 6]))
  {
    NextRound(6, [4, 9, 8, 5, 2], 7, [3, 10, 1]);
    assert [6] + [4, 9, 8, 5, 2] == [6, 4, 9, 8, 5, 2] && [7] + [3, 10, 1] == [7, 3, 10, 1];
    assert [3, 10, 1] + [7, 6] == [3, 10, 1, 7, 6];
  }

  lemma Round8()
    ensures Next(Decks([4, 9, 8, 5, 2], [3, 10, 1, 7, 6])) == Some(Decks([9, 8, 5, 2, 4, 3], [10, 1, 7, 6]))
  {
    NextRound(4, [9, 8, 5, 2], 3, [10, 1, 7, 6]);
    assert [4] + [9, 8, 5, 2] == [4, 9, 8, 5, 2] && [3] + [10, 1, 7, 6] == [3, 10, 1, 7, 6];
    assert [9, 8, 5, 2] + [4, 3] == [9, 8, 5, 2, 4, 3];
  }

  lemma Round9()
    ensures Next(Decks([9, 8, 5, 2, 4, 3], [10, 1, 7, 6])) == Some(Decks([8, 5, 2, 4, 3], [1, 7, 6, 10, 9]))
  {
    NextRound(9, [8, 5, 2, 4, 3], 10, [1, 7, 6]);
    assert [9] + [8, 5, 2, 4, 3] == [9, 8, 5, 2, 4, 3] && [10] + [1, 7, 6] == [10, 1, 7, 6];
    assert [1, 7, 6] + [10, 9] == [1, 7, 6, 10, 9];
  }

  lemma Round10()
    ensures Next(Decks([8, 5, 2, 4, 3], [1, 7, 6, 10, 9])) == Some(Decks([5, 2, 4, 3, 8, 1], [7, 6, 10, 9]))
  {
    NextRound(8, [5, 2, 4, 3], 1, [7, 6, 10, 9]);
    assert [8] + [5, 2, 4, 3] == [8, 5, 2, 4, 3] && [1] + [7, 6, 10, 9] == [1, 7, 6, 10, 9];
    assert [5, 2, 4, 3] + [8, 1] == [5, 2, 4, 3, 8, 1];
  }

  lemma Round11()
    ensures Next(Decks([5, 2, 4, 3, 8, 1], [7, 6, 10, 9])) == Some(Decks([2, 4, 3, 8, 1], [6, 10, 9, 7, 5]))
  {
    NextRound(5, [2, 4, 3, 8, 1], 7, [6, 10, 9]);
    assert [5] + [2, 4, 3, 8, 1] == [5, 2, 4, 3, 8, 1] && [7] + [6, 10, 9] == [7, 6, 10, 9];
    assert [6, 10, 9] + [7, 5] == [6, 10, 9, 7, 5];
  }

  lemma Round12()
    ensures Next(Decks([2, 4, 3, 8, 1], [6, 10, 9, 7, 5])) == Some(Decks([4, 3, 8, 1], [10, 9, 7, 5, 6, 2]))
  {
    NextRound(2, [4, 3, 8, 1], 6, [10, 9, 7, 5]);
    assert [2] + [4, 3, 8, 1] == [2, 4, 3, 8, 1] && [6] + [10, 9, 7, 5] == [6, 10, 9, 7, 5];
    assert [10, 9, 7, 5] + [6, 2] == [10, 9, 7, 5, 6, 2];
  }

  lemma Round13()
    ensures Next(Decks([4, 3, 8, 1], [10, 9, 7, 5, 6, 2])) == Some(Decks([3, 8, 1], [9, 7, 5, 6, 2, 10, 4]))
  {
    NextRound(4, [3, 8, 1], 10, [9, 7, 5, 6, 2]);
    assert [4] + [3, 8, 1] == [4, 3, 8, 1] && [10] + [9, 7, 5, 6, 2] == [10, 9, 7, 5, 6, 2];
    assert [9, 7, 5, 6, 2] + [10, 4] == [9, 7, 5, 6, 2, 10, 4];
  }

  lemma Round14()
    ensures Next(Decks([3, 8, 1], [9, 7, 5, 6, 2, 10, 4])) == Some(Decks([8, 1], [7, 5, 6, 2, 10, 4, 9, 3]))
  {
    NextRound(3, [8, 1], 9, [7, 5, 6, 2, 10, 4]);
    assert [3] + [8, 1] == [3, 8, 1] && [9] + [7, 5, 6, 2, 10, 4] == [9, 7, 5, 6, 2, 10, 4];
    assert [7, 5, 6, 2, 10, 4] + [9, 3] == [7, 5, 6, 2, 10, 4, 9, 3];
  }

  lemma Round15()
    ensures Next(Decks([8, 1], [7, 5, 6, 2, 10, 4, 9, 3])) == Some(Decks([1, 8, 7], [5, 6, 2, 10, 4, 9, 3]))
  {
    NextRound(8, [1], 7, [5, 6, 2, 10, 4, 9, 3]);
    assert [8] + [1] == [8, 1] && [7] + [5, 6, 2, 10, 4, 9, 3] == [7, 5, 6, 2, 10, 4, 9, 3];
    assert [1] + [8, 7] == [1, 8, 7];
  }

  lemma Round16()
    ensures Next(Decks([1, 8, 7], [5, 6, 2, 10, 4, 9, 3])) == Some(Decks([8, 7], [6, 2, 10, 4, 9, 3, 5, 1]))
  {
    NextRound(1, [8, 7], 5, [6, 2, 10, 4, 9, 3]);
    assert [1] + [8, 7] == [1, 8, 7] && [5] + [6, 2, 10, 4, 9, 3] == [5, 6, 2, 10, 4, 9, 3];
    assert [6, 2, 10, 4, 9, 3] + [5, 1] == [6, 2, 10, 4, 9, 3, 5, 1];
  }

  lemma Round17()
    ensures Next(Decks([8, 7], [6, 2, 10, 4, 9, 3, 5, 1])) == Some(Decks([7, 8, 6], [2, 10, 4, 9, 3, 5, 1]))
  {
    NextRound(8, [7], 6, [2, 10, 4, 9, 3, 5, 1]);
    assert [8] + [7] == [8, 7] && [6] + [2, 10, 4, 9, 3, 5, 1] == [6, 2, 10, 4, 9, 3, 5, 1];
    assert [7] + [8, 6] == [7, 8, 6];
  }

  lemma Round18()
    ensures Next(Decks([7, 8, 6], [2, 10, 4, 9, 3, 5, 1])) == Some(Decks([8, 6, 7, 2], [10, 4, 9, 3, 5, 1]))
  {
    NextRound(7, [8, 6], 2, [10, 4, 9, 3, 5, 1]);
    assert [7] + [8, 6] == [7, 8, 6] && [2] + [10, 4, 9, 3, 5, 1] == [2, 10, 4, 9, 3, 5, 1];
    assert [8, 6] + [7, 2] == [8, 6, 7, 2];
  }

  lemma Round19()
    ensures Next(Decks([8, 6, 7, 2], [10, 4, 9, 3, 5, 1])) == Some(Decks([6, 7, 2], [4, 9, 3, 5, 1, 10, 8]))
  {
    NextRound(8, [6, 7, 2], 10, [4, 9, 3, 5, 1]);
    assert [8] + [6, 7, 2] == [8, 6, 7, 2] && [10] + [4, 9, 3, 5, 1] == [10, 4, 9, 3, 5, 1];
    assert [4, 9, 3, 5, 1] + [10, 8] == [4, 9, 3, 5, 1, 10, 8];
  }

  lemma Round20()
    ensures Next(Decks([6, 7, 2], [4, 9, 3, 5, 1, 10, 8])) == Some(Decks([7, 2, 6, 4], [9, 3, 5, 1, 10, 8]))
  {
    NextRound(6, [7, 2], 4, [9, 3, 5, 1, 10, 8]);
    assert [6] + [7, 2] == [6, 7, 2] && [4] + [9, 3, 5, 1, 10, 8] == [4, 9, 3, 5, 1, 10, 8];
    assert [7, 2] + [6, 4] == [7, 2, 6, 4];
  }

  lemma Round21()
    ensures Next(Decks([7, 2, 6, 4], [9, 3, 5, 1, 10, 8])) == Some(Decks([2, 6, 4], [3, 5, 1, 10, 8, 9, 7]))
  {
    NextRound(7, [2, 6, 4], 9, [3, 5, 1, 10, 8]);
    assert [7] + [2, 6, 4] == [7, 2, 6, 4] && [9] + [3, 5, 1, 10, 8] == [9, 3, 5, 1, 10, 8];
    assert [3, 5, 1, 10, 8] + [9, 7] == [3, 5, 1, 10, 8, 9, 7];
  }

  lemma Round22()
    ensures Next(Decks([2, 6, 4], [3, 5, 1, 10, 8, 9, 7])) == Some(Decks([6, 4], [5, 1, 10, 8, 9, 7, 3, 2]))
  {
    NextRound(2, [6, 4], 3, [5, 1, 10, 8, 9, 7]);
    assert [2] + [6, 4] == [2, 6, 4] && [3] + [5, 1, 10, 8, 9, 7] == [3, 5, 1, 10, 8, 9, 7];
    assert [5, 1, 10, 8, 9, 7] + [3, 2] == [5, 1, 10, 8, 9, 7, 3, 2];
  }

  lemma Round23()
    ensures Next(Decks([6, 4], [5, 1, 10, 8, 9, 7, 3, 2])) == Some(Decks([4, 6, 5], [1, 10, 8, 9, 7, 3, 2]))
  {
    NextRound(6, [4], 5, [1, 10, 8, 9, 7, 3, 2]);
    assert [6] + [4] == [6, 4] && [5] + [1, 10, 8, 9, 7, 3, 2] == [5, 1, 10, 8, 9, 7, 3, 2];
    assert [4] + [6, 5] == [4, 6, 5];
  }

  lemma Round24()
    ensures Next(Decks([4, 6, 5], [1, 10, 8, 9, 7, 3, 2])) == Some(Decks([6, 5, 4, 1], [10, 8, 9, 7, 3, 2]))
  {
    NextRound(4, [6, 5], 1, [10, 8, 9, 7, 3, 2]);
    assert [4] + [6, 5] == [4, 6, 5] && [1] + [10, 8, 9, 7, 3, 2] == [1, 10, 8, 9, 7, 3, 2];
    assert [6, 5] + [4, 1] == [6, 5, 4, 1];
  }

  lemma Round25()
    ensures Next(Decks([6, 5, 4, 1], [10, 8, 9, 7, 3, 2])) == Some(Decks([5, 4, 1], [8, 9, 7, 3, 2, 10, 6]))
  {
    NextRound(6, [5, 4, 1], 10, [8, 9, 7, 3, 2]);
    assert [6] + [5, 4, 1] == [6, 5, 4, 1] && [10] + [8, 9, 7, 3, 2] == [10, 8, 9, 7, 3, 2];
    assert [8, 9, 7, 3, 2] + [10, 6] == [8, 9, 7, 3, 2, 10, 6];
  }

  lemma Round26()
    ensures Next(Decks([5, 4, 1], [8, 9, 7, 3, 2, 10, 6])) == Some(Decks([4, 1], [9, 7, 3, 2, 10, 6, 8, 5]))
  {
    NextRound(5, [4, 1], 8, [9, 7, 3, 2, 10, 6]);
    assert [5] + [4, 1] == [5, 4, 1] && [8] + [9, 7, 3, 2, 10, 6] == [8, 9, 7, 3, 2, 10, 6];
    assert [9, 7, 3, 2, 10, 6] + [8, 5] == [9, 7, 3, 2, 10, 6, 8, 5];
  }

  lemma Round27()
    ensures Next(Decks([4, 1], [9, 7, 3, 2, 10, 6, 8, 5])) == Some(Decks([1], [7, 3, 2, 10, 6, 8, 5, 9, 4]))
  {
    NextRound(4, [1], 9, [7, 3, 2, 10, 6, 8, 5]);
    assert [4] + [1] == [4, 1] && [9] + [7, 3, 2, 10, 6, 8, 5] == [9, 7, 3, 2, 10, 6, 8, 5];
    assert [7, 3, 2, 10, 6, 8, 5] + [9, 4] == [7, 3, 2, 10, 6, 8, 5, 9, 4];
  }

  lemma Round28()
    ensures Next(Decks([1], [7, 3, 2, 10, 6, 8, 5, 9, 4])) == Some(Decks([], [3, 2, 10, 6, 8, 5, 9, 4, 7, 1]))
  {
    NextRound(1, [], 7, [3, 2, 10, 6, 8, 5, 9, 4]);
    assert [1] + [] == [1] && [7] + [3, 2, 10, 6, 8, 5, 9, 4] == [7, 3, 2, 10, 6, 8, 5, 9, 4];
    assert [3, 2, 10, 6, 8, 5, 9, 4] + [7, 1] == [3, 2, 10, 6, 8, 5, 9, 4, 7, 1];
  }

  lemma Rounds0(d: Decks, k: nat, k': nat)
    requires k' == k + 5 && Play(d, k) == Some(Decks([9, 2, 6, 3, 1], [5, 8, 4, 7, 10]))
    ensures Play(d, k') == Some(Decks([9, 5, 6, 4], [8, 2, 7, 3, 10, 1]))
  {
    Round0();
    assert Play(d, k + 1) == Some(Decks([2, 6, 3, 1, 9, 5], [8, 4, 7, 10]));
    Round1();
    assert Play(d, k + 2) == Some(Decks([6, 3, 1, 9, 5], [4, 7, 10, 8, 2]));
    Round2();
    assert Play(d, k + 3) == Some(Decks([3, 1, 9, 5, 6, 4], [7, 10, 8, 2]));
    Round3();
    assert Play(d, k + 4) == Some(Decks([1, 9, 5, 6, 4], [10, 8, 2, 7, 3]));
    Round4();
    assert Play(d, k + 5) == Some(Decks([9, 5, 6, 4], [8, 2, 7, 3, 10, 1]));
  }

  lemma Rounds1(d: Decks, k: nat, k': nat)
    requires k' == k + 5 && Play(d, k) == Some(Decks([9, 5, 6, 4], [8, 2, 7, 3, 10, 1]))
    ensures Play(d, k') == Some(Decks([8, 5, 2, 4, 3], [1, 7, 6, 10, 9]))
  {
    Round5();
    assert Play(d, k + 1) == Some(Decks([5, 6, 4, 9, 8], [2, 7, 3, 10, 1]));
    Round6();
    assert Play(d, k + 2) == Some(Decks([6, 4, 9, 8, 5, 2], [7, 3, 10, 1]));
    Round7();
    assert Play(d, k + 3) == Some(Decks([4, 9, 8, 5, 2], [3, 10, 1, 7, 6]));
    Round8();
    assert Play(d, k + 4) == Some(Decks([9, 8, 5, 2, 4, 3], [10, 1, 7, 6]));
    Round9();
    assert Play(d, k + 5) == Some(Decks([8, 5, 2, 4, 3], [1, 7, 6, 10, 9]));
  }

  lemma Rounds2(d: Decks, k: nat, k': nat)
    requires k' == k + 5 && Play(d, k) == Some(Decks([8, 5, 2, 4, 3], [1, 7, 6, 10, 9]))
    ensures Play(d, k') == Some(Decks([8, 1], [7, 5, 6, 2, 10, 4, 9, 3]))
  {
    Round10();
    assert Play(d, k + 1) == Some(Decks([5, 2, 4, 3, 8, 1], [7, 6, 10, 9]));
    Round11();
    assert Play(d, k + 2) == Some(Decks([2, 4, 3, 8, 1], [6, 10, 9, 7, 5]));
    Round12();
    assert Play(d, k + 3) == Some(Decks([4, 3, 8, 1], [10, 9, 7, 5, 6, 2]));
    Round13();
    assert Play(d, k + 4) == Some(Decks([3, 8, 1], [9, 7, 5, 6, 2, 10, 4]));
    Round14();
    assert Play(d, k + 5) == Some(Decks([8, 1], [7, 5, 6, 2, 10, 4, 9, 3]));
  }

  lemma Rounds3(d: Decks, k: nat, k': nat)
    requires k' == k + 5 && Play(d, k) == Some(Decks([8, 1], [7, 5, 6, 2, 10, 4, 9, 3]))
    ensures Play(d, k') == Some(Decks([6, 7, 2], [4, 9, 3, 5, 1, 10, 8]))
  {
    Round15();
    assert Play(d, k + 1) == Some(Decks([1, 8, 7], [5, 6, 2, 10, 4, 9, 3]));
    Round16();
    assert Play(d, k + 2) == Some(Decks([8, 7], [6, 2, 10, 4, 9, 3, 5, 1]));
    Round17();
    assert Play(d, k + 3) == Some(Decks([7, 8, 6], [2, 10, 4, 9, 3, 5, 1]));
    Round18();
    assert Play(d, k + 4) == Some(Decks([8, 6, 7, 2], [10, 4, 9, 3, 5, 1]));
    Round19();
    assert Play(d, k + 5) == Some(Decks([6, 7, 2], [4, 9, 3, 5, 1, 10, 8]));
  }

  lemma Rounds4(d: Decks, k: nat, k': nat)
    requires k' == k + 5 && Play(d, k) == Some(Decks([6, 7, 2], [4, 9, 3, 5, 1, 10, 8]))
    ensures Play(d, k') == Some(Decks([6, 5, 4, 1], [10, 8, 9, 7, 3, 2]))
  {
    Round20();
    assert Play(d, k + 1) == Some(Decks([7, 2, 6, 4], [9, 3, 5, 1, 10, 8]));
    Round21();
    assert Play(d, k + 2) == Some(Decks([2, 6, 4], [3, 5, 1, 10, 8, 9, 7]));
    Round22();
    assert Play(d, k + 3) == Some(Decks([6, 4], [5, 1, 10, 8, 9, 7, 3, 2]));
    Round23();
    assert Play(d, k + 4) == Some(Decks([4, 6, 5], [1, 10, 8, 9, 7, 3, 2]));
    Round24();
    assert Play(d, k + 5) == Some(Decks([6, 5, 4, 1], [10, 8, 9, 7, 3, 2]));
  }

  lemma Rounds5(d: Decks, k: nat, k': nat)
    requires k' == k + 4 && Play(d, k) == Some(Decks([6, 5, 4, 1], [10, 8, 9, 7, 3, 2]))
    ensures Play(d, k') == Some(Decks([], [3, 2, 10, 6, 8, 5, 9, 4, 7, 1]))
  {
    Round25();
    assert Play(d, k + 1) == Some(Decks([5, 4, 1], [8, 9, 7, 3, 2, 10, 6]));
    Round26();
    assert Play(d, k + 2) == Some(Decks([4, 1], [9, 7, 3, 2, 10, 6, 8, 5]));
    Round27();
    assert Play(d, k + 3) == Some(Decks([1], [7, 3, 2, 10, 6, 8, 5, 9, 4]));
    Round28();
    assert Play(d, k + 4) == Some(Decks([], [3, 2, 10, 6, 8, 5, 9, 4, 7, 1]));
  }

  /** The 29 rounds of the sample game. */
  lemma SampleRounds(d: Decks, k: nat, fuel: nat)
    requires d == SampleDecks && k == 0 && fuel >= k + 29
    ensures Combat(d, fuel) == Won(P2, Decks([], [3, 2, 10, 6, 8, 5, 9, 4, 7, 1]))
  {
    assert Play(d, k) == Some(d);
    Rounds0(d, k + 0, k + 5);
    Rounds1(d, k + 5, k + 10);
    Rounds2(d, k + 10, k + 15);
    Rounds3(d, k + 15, k + 20);
    Rounds4(d, k + 20, k + 25);
    Rounds5(d, k + 25, k + 29);
    PlayCombat(d, k + 29, fuel);
  }

  lemma SampleScore0()
    ensures Score([1]) == 1
  {
    ScoreCons(1, []);
    assert [1] + [] == [1];
  }

  lemma SampleScore1()
    ensures Score([7, 1]) == 15
  {
    SampleScore0();
    ScoreCons(7, [1]);
    assert [7] + [1] == [7, 1];
  }

  lemma SampleScore2()
    ensures Score([4, 7, 1]) == 27
  {
    SampleScore1();
    ScoreCons(4, [7, 1]);
    assert [4] + [7, 1] == [4, 7, 1];
  }

  lemma SampleScore3()
    ensures Score([9, 4, 7, 1]) == 63
  {
    SampleScore2();
    ScoreCons(9, [4, 7, 1]);
    assert [9] + [4, 7, 1] == [9, 4, 7, 1];
  }

  lemma SampleScore4()
    ensures Score([5, 9, 4, 7, 1]) == 88
  {
    SampleScore3();
    ScoreCons(5, [9, 4, 7, 1]);
    assert [5] + [9, 4, 7, 1] == [5, 9, 4, 7, 1];
  }

  lemma SampleScore5()
    ensures Score([8, 5, 9, 4, 7, 1]) == 136
  {
    SampleScore4();
    ScoreCons(8, [5, 9, 4, 7, 1]);
    assert [8] + [5, 9, 4, 7, 1] == [8, 5, 9, 4, 7, 1];
  }

  lemma SampleScore6()
    ensures Score([6, 8, 5, 9, 4, 7, 1]) == 178
  {
    SampleScore5();
    ScoreCons(6, [8, 5, 9, 4, 7, 1]);
    assert [6] + [8, 5, 9, 4, 7, 1] == [6, 8, 5, 9, 4, 7, 1];
  }

  lemma SampleScore7()
    ensures Score([10, 6, 8, 5, 9, 4, 7, 1]) == 258
  {
    SampleScore6();
    ScoreCons(10, [6, 8, 5, 9, 4, 7, 1]);
    assert [10] + [6, 8, 5, 9, 4, 7, 1] == [10, 6, 8, 5, 9, 4, 7, 1];
  }

  lemma SampleScore8()
    ensures Score([2, 10, 6, 8, 5, 9, 4, 7, 1]) == 276
  {
    SampleScore7();
    ScoreCons(2, [10, 6, 8, 5, 9, 4, 7, 1]);
    assert [2] + [10, 6, 8, 5, 9, 4, 7, 1] == [2, 10, 6, 8, 5, 9, 4, 7, 1];
  }

  lemma SampleScore9()
    ensures Score([3, 2, 10, 6, 8, 5, 9, 4, 7, 1]) == 306
  {
    SampleScore8();
    ScoreCons(3, [2, 10, 6, 8, 5, 9, 4, 7, 1]);
    assert [3] + [2, 10, 6, 8, 5, 9, 4, 7, 1] == [3, 2, 10, 6, 8, 5, 9, 4, 7, 1];
  }

  /** `test_day22_part1`. */
  lemma SamplePart1(d: Decks, k: nat, fuel: nat)
    requires d == SampleDecks && k == 0 && fuel >= k + 29
    ensures Combat(d, fuel).Won? && Score(Combat(d, fuel).decks.p2) == 306
  {
    SampleRounds(d, k, fuel);
    SampleScore9();
  }
}
