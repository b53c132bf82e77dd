/** The sample game of `mod test` in src/days/day23.rs: the cups 389125467
    after 100 moves read 67384529 from cup 1 on, proved one move at a time.
    The lemmas take the cups and the number of moves made so far as
    parameters, which keeps the verifier from evaluating the hundred moves
    itself. */
module Day23Samples {
  import opened Outcomes
  import opened Day23

  const SampleCups: seq<nat> := [3, 8, 9, 1, 2, 5, 4, 6, 7]

  /** A move whose destination is found after the cups `before`: the
      picked cups go back between `before` and `after`, and the old current
      cup moves to the back. */
  lemma MoveAt(c: nat, picked: seq<nat>, before: seq<nat>, after: seq<nat>, max: nat, dest: nat)
    requires c >= 1 && |picked| == 3 && max == 4 + |before| + |after|
    requires Destination(c, picked, max) == dest
    requires FindFrom([c] + before + after, dest, 0) == Some(|before|)
    ensures Move([c] + picked + before + after) == Ok(before + picked + after + [c])
  {
    var cups := [c] + picked + before + after;
    assert cups[1..4] == picked;
    assert [cups[0]] + cups[4..] == [c] + before + after;
    var ring := [c] + before + after;
    var rotated := ring[1..] + [ring[0]];
    assert rotated == before + after + [c];
    assert rotated[..|before|] == before;
    assert rotated[|before|..] == after + [c];
    assert Move(cups) == Ok(rotated[..|before|] + picked + rotated[|before|..]);
    assert before + picked + after + [c] == rotated[..|before|] + picked + rotated[|before|..];
  }

  lemma MovesStep(cups: seq<nat>, k: nat, s: seq<nat>, s': seq<nat>)
    requires Moves(cups, k) == Ok(s) && Move(s) == Ok(s')
    ensures Moves(cups, k + 1) == Ok(s')
  {
  }

  lemma Find0()
    ensures Destination(3, [8, 9, 1], 9) == 2 && FindFrom([3, 2, 5, 4, 6, 7], 2, 0) == Some(1)
  {
  }

  lemma Move0()
    ensures Move([3, 8, 9, 1, 2, 5, 4, 6, 7]) == Ok([2, 8, 9, 1, 5, 4, 6, 7, 3])
  {
    Find0();
    assert [3] + [2] + [5, 4, 6, 7] == [3, 2, 5, 4, 6, 7];
    MoveAt(3, [8, 9, 1], [2], [5, 4, 6, 7], 9, 2);
    assert [3] + [8, 9, 1] + [2] + [5, 4, 6, 7] == [3, 8, 9, 1, 2, 5, 4, 6, 7];
    assert [2] + [8, 9, 1] + [5, 4, 6, 7] + [3] == [2, 8, 9, 1, 5, 4, 6, 7, 3];
  }

  lemma Find1()
    ensures Destination(2, [8, 9, 1], 9) == 7 && FindFrom([2, 5, 4, 6, 7, 3], 7, 0) == Some(4)
  {
  }

  lemma Move1()
    ensures Move([2, 8, 9, 1, 5, 4, 6, 7, 3]) == Ok([5, 4, 6, 7, 8, 9, 1, 3, 2])
  {
    Find1();
    assert [2] + [5, 4, 6, 7] + [3] == [2, 5, 4, 6, 7, 3];
    MoveAt(2, [8, 9, 1], [5, 4, 6, 7], [3], 9, 7);
    assert [2] + [8, 9, 1] + [5, 4, 6, 7] + [3] == [2, 8, 9, 1, 5, 4, 6, 7, 3];
    assert [5, 4, 6, 7] + [8, 9, 1] + [3] + [2] == [5, 4, 6, 7, 8, 9, 1, 3, 2];
  }

  lemma Find2()
    ensures Destination(5, [4, 6, 7], 9) == 3 && FindFrom([5, 8, 9, 1, 3, 2], 3, 0) == Some(4)
  {
  }

  lemma Move2()
    ensures Move([5, 4, 6, 7, 8, 9, 1, 3, 2]) == Ok([8, 9, 1, 3, 4, 6, 7, 2, 5])
  {
    Find2();
    assert [5] + [8, 9, 1, 3] + [2] == [5, 8, 9, 1, 3, 2];
    MoveAt(5, [4, 6, 7], [8, 9, 1, 3], [2], 9, 3);
    assert [5] + [4, 6, 7] + [8, 9, 1, 3] + [2] == [5, 4, 6, 7, 8, 9, 1, 3, 2];
    assert [8, 9, 1, 3] + [4, 6, 7] + [2] + [5] == [8, 9, 1, 3, 4, 6, 7, 2, 5];
  }

  lemma Find3()
    ensures Destination(8, [9, 1, 3], 9) == 7 && FindFrom([8, 4, 6, 7, 2, 5], 7, 0) == Some(3)
  {
  }

  lemma Move3()
    ensures Move([8, 9, 1, 3, 4, 6, 7, 2, 5]) == Ok([4, 6, 7, 9, 1, 3, 2, 5, 8])
  {
    Find3();
    assert [8] + [4, 6, 7] + [2, 5] == [8, 4, 6, 7, 2, 5];
    MoveAt(8, [9, 1, 3], [4, 6, 7], [2, 5], 9, 7);
    assert [8] + [9, 1, 3] + [4, 6, 7] + [2, 5] == [8, 9, 1, 3, 4, 6, 7, 2, 5];
    assert [4, 6, 7] + [9, 1, 3] + [2, 5] + [8] == [4, 6, 7, 9, 1, 3, 2, 5, 8];
  }

  lemma Find4()
    ensures Destination(4, [6, 7, 9], 9) == 3 && FindFrom([4, 1, 3, 2, 5, 8], 3, 0) == Some(2)
  {
  }

  lemma Move4()
    ensures Move([4, 6, 7, 9, 1, 3, 2, 5, 8]) == Ok([1, 3, 6, 7, 9, 2, 5, 8, 4])
  {
    Find4();
    assert [4] + [1, 3] + [2, 5, 8] == [4, 1, 3, 2, 5, 8];
    MoveAt(4, [6, 7, 9], [1, 3], [2, 5, 8], 9, 3);
    assert [4] + [6, 7, 9] + [1, 3] + [2, 5, 8] == [4, 6, 7, 9, 1, 3, 2, 5, 8];
    assert [1, 3] + [6, 7, 9] + [2, 5, 8] + [4] == [1, 3, 6, 7, 9, 2, 5, 8, 4];
  }

  lemma Find5()
    ensures Destination(1, [3, 6, 7], 9) == 9 && FindFrom([1, 9, 2, 5, 8, 4], 9, 0) == Some(1)
  {
  }

  lemma Move5()
    ensures Move([1, 3, 6, 7, 9, 2, 5, 8, 4]) == Ok([9, 3, 6, 7, 2, 5, 8, 4, 1])
  {
    Find5();
    assert [1] + [9] + [2, 5, 8, 4] == [1, 9, 2, 5, 8, 4];
    MoveAt(1, [3, 6, 7], [9], [2, 5, 8, 4], 9, 9);
    assert [1] + [3, 6, 7] + [9] + [2, 5, 8, 4] == [1, 3, 6, 7, 9, 2, 5, 8, 4];
    assert [9] + [3, 6, 7] + [2, 5, 8, 4] + [1] == [9, 3, 6, 7, 2, 5, 8, 4, 1];
  }

  lemma Find6()
    ensures Destination(9, [3, 6, 7], 9) == 8 && FindFrom([9, 2, 5, 8, 4, 1], 8, 0) == Some(3)
  {
  }

  lemma Move6()
    ensures Move([9, 3, 6, 7, 2, 5, 8, 4, 1]) == Ok([2, 5, 8, 3, 6, 7, 4, 1, 9])
  {
    Find6();
    assert [9] + [2, 5, 8] + [4, 1] == [9, 2, 5, 8, 4, 1];
    MoveAt(9, [3, 6, 7], [2, 5, 8], [4, 1], 9, 8);
    assert [9] + [3, 6, 7] + [2, 5, 8] + [4, 1] == [9, 3, 6, 7, 2, 5, 8, 4, 1];
    assert [2, 5, 8] + [3, 6, 7] + [4, 1] + [9] == [2, 5, 8, 3, 6, 7, 4, 1, 9];
  }

  lemma Find7()
    ensures Destination(2, [5, 8, 3], 9) == 1 && FindFrom([2, 6, 7, 4, 1, 9], 1, 0) == Some(4)
  {
  }

  lemma Move7()
    ensures Move([2, 5, 8, 3, 6, 7, 4, 1, 9]) == Ok([6, 7, 4, 1, 5, 8, 3, 9, 2])
  {
    Find7();
    assert [2] + [6, 7, 4, 1] + [9] == [2, 6, 7, 4, 1, 9];
    MoveAt(2, [5, 8, 3], [6, 7, 4, 1], [9], 9, 1);
    assert [2] + [5, 8, 3] + [6, 7, 4, 1] + [9] == [2, 5, 8, 3, 6, 7, 4, 1, 9];
    assert [6, 7, 4, 1] + [5, 8, 3] + [9] + [2] == [6, 7, 4, 1, 5, 8, 3, 9, 2];
  }

  lemma Find8()
    ensures Destination(6, [7, 4, 1], 9) == 5 && FindFrom([6, 5, 8, 3, 9, 2], 5, 0) == Some(1)
  {
  }

  lemma Move8()
    ensures Move([6, 7, 4, 1, 5, 8, 3, 9, 2]) == Ok([5, 7, 4, 1, 8, 3, 9, 2, 6])
  {
    Find8();
    assert [6] + [5] + [8, 3, 9, 2] == [6, 5, 8, 3, 9, 2];
    MoveAt(6, [7, 4, 1], [5], [8, 3, 9, 2], 9, 5);
    assert [6] + [7, 4, 1] + [5] + [8, 3, 9, 2] == [6, 7, 4, 1, 5, 8, 3, 9, 2];
    assert [5] + [7, 4, 1] + [8, 3, 9, 2] + [6] == [5, 7, 4, 1, 8, 3, 9, 2, 6];
  }

  lemma Find9()
    ensures Destination(5, [7, 4, 1], 9) == 3 && FindFrom([5, 8, 3, 9, 2, 6], 3, 0) == Some(2)
  {
  }

  lemma Move9()
    ensures Move([5, 7, 4, 1, 8, 3, 9, 2, 6]) == Ok([8, 3, 7, 4, 1, 9, 2, 6, 5])
  {
    Find9();
    assert [5] + [8, 3] + [9, 2, 6] == [5, 8, 3, 9, 2, 6];
    MoveAt(5, [7, 4, 1], [8, 3], [9, 2, 6], 9, 3);
    assert [5] + [7, 4, 1] + [8, 3] + [9, 2, 6] == [5, 7, 4, 1, 8, 3, 9, 2, 6];
    assert [8, 3] + [7, 4, 1] + [9, 2, 6] + [5] == [8, 3, 7, 4, 1, 9, 2, 6, 5];
  }

  lemma Find10()
    ensures Destination(8, [3, 7, 4], 9) == 6 && FindFrom([8, 1, 9, 2, 6, 5], 6, 0) == Some(4)
  {
  }

  lemma Move10()
    ensures Move([8, 3, 7, 4, 1, 9, 2, 6, 5]) == Ok([1, 9, 2, 6, 3, 7, 4, 5, 8])
  {
    Find10();
    assert [8] + [1, 9, 2, 6] + [5] == [8, 1, 9, 2, 6, 5];
    MoveAt(8, [3, 7, 4], [1, 9, 2, 6], [5], 9, 6);
    assert [8] + [3, 7, 4] + [1, 9, 2, 6] + [5] == [8, 3, 7, 4, 1, 9, 2, 6, 5];
    assert [1, 9, 2, 6] + [3, 7, 4] + [5] + [8] == [1, 9, 2, 6, 3, 7, 4, 5, 8];
  }

  lemma Find11()
    ensures Destination(1, [9, 2, 6], 9) == 8 && FindFrom([1, 3, 7, 4, 5, 8], 8, 0) == Some(5)
  {
  }

  lemma Move11()
    ensures Move([1, 9, 2, 6, 3, 7, 4, 5, 8]) == Ok([3, 7, 4, 5, 8, 9, 2, 6, 1])
  {
    Find11();
    assert [1] + [3, 7, 4, 5, 8] + [] == [1, 3, 7, 4, 5, 8];
    MoveAt(1, [9, 2, 6], [3, 7, 4, 5, 8], [], 9, 8);
    assert [1] + [9, 2, 6] + [3, 7, 4, 5, 8] + [] == [1, 9, 2, 6, 3, 7, 4, 5, 8];
    assert [3, 7, 4, 5, 8] + [9, 2, 6] + [] + [1] == [3, 7, 4, 5, 8, 9, 2, 6, 1];
  }

  lemma Find12()
    ensures Destination(3, [7, 4, 5], 9) == 2 && FindFrom([3, 8, 9, 2, 6, 1], 2, 0) == Some(3)
  {
  }

  lemma Move12()
    ensures Move([3, 7, 4, 5, 8, 9, 2, 6, 1]) == Ok([8, 9, 2, 7, 4, 5, 6, 1, 3])
  {
    Find12();
    assert [3] + [8, 9, 2] + [6, 1] == [3, 8, 9, 2, 6, 1];
    MoveAt(3, [7, 4, 5], [8, 9, 2], [6, 1], 9, 2);
    assert [3] + [7, 4, 5] + [8, 9, 2] + [6, 1] == [3, 7, 4, 5, 8, 9, 2, 6, 1];
    assert [8, 9, 2] + [7, 4, 5] + [6, 1] + [3] == [8, 9, 2, 7, 4, 5, 6, 1, 3];
  }

  lemma Find13()
    ensures Destination(8, [9, 2, 7], 9) == 6 && FindFrom([8, 4, 5, 6, 1, 3], 6, 0) == Some(3)
  {
  }

  lemma Move13()
    ensures Move([8, 9, 2, 7, 4, 5, 6, 1, 3]) == Ok([4, 5, 6, 9, 2, 7, 1, 3, 8])
  {
    Find13();
    assert [8] + [4, 5, 6] + [1, 3] == [8, 4, 5, 6, 1, 3];
    MoveAt(8, [9, 2, 7], [4, 5, 6], [1, 3], 9, 6);
    assert [8] + [9, 2, 7] + [4, 5, 6] + [1, 3] == [8, 9, 2, 7, 4, 5, 6, 1, 3];
    assert [4, 5, 6] + [9, 2, 7] + [1, 3] + [8] == [4, 5, 6, 9, 2, 7, 1, 3, 8];
  }

  lemma Find14()
    ensures Destination(4, [5, 6, 9], 9) == 3 && FindFrom([4, 2, 7, 1, 3, 8], 3, 0) == Some(4)
  {
  }

  lemma Move14()
    ensures Move([4, 5, 6, 9, 2, 7, 1, 3, 8]) == Ok([2, 7, 1, 3, 5, 6, 9, 8, 4])
  {
    Find14();
    assert [4] + [2, 7, 1, 3] + [8] == [4, 2, 7, 1, 3, 8];
    MoveAt(4, [5, 6, 9], [2, 7, 1, 3], [8], 9, 3);
    assert [4] + [5, 6, 9] + [2, 7, 1, 3] + [8] == [4, 5, 6, 9, 2, 7, 1, 3, 8];
    assert [2, 7, 1, 3] + [5, 6, 9] + [8] + [4] == [2, 7, 1, 3, 5, 6, 9, 8, 4];
  }

  lemma Find15()
    ensures Destination(2, [7, 1, 3], 9) == 9 && FindFrom([2, 5, 6, 9, 8, 4], 9, 0) == Some(3)
  {
  }

  lemma Move15()
    ensures Move([2, 7, 1, 3, 5, 6, 9, 8, 4]) == Ok([5, 6, 9, 7, 1, 3, 8, 4, 2])
  {
    Find15();
    assert [2] + [5, 6, 9] + [8, 4] == [2, 5, 6, 9, 8, 4];
    MoveAt(2, [7, 1, 3], [5, 6, 9], [8, 4], 9, 9);
    assert [2] + [7, 1, 3] + [5, 6, 9] + [8, 4] == [2, 7, 1, 3, 5, 6, 9, 8, 4];
    assert [5, 6, 9] + [7, 1, 3] + [8, 4] + [2] == [5, 6, 9, 7, 1, 3, 8, 4, 2];
  }

  lemma Find16()
    ensures Destination(5, [6, 9, 7], 9) == 4 && FindFrom([5, 1, 3, 8, 4, 2], 4, 0) == Some(4)
  {
  }

  lemma Move16()
    ensures Move([5, 6, 9, 7, 1, 3, 8, 4, 2]) == Ok([1, 3, 8, 4, 6, 9, 7, 2, 5])
  {
    Find16();
    assert [5] + [1, 3, 8, 4] + [2] == [5, 1, 3, 8, 4, 2];
    MoveAt(5, [6, 9, 7], [1, 3, 8, 4], [2], 9, 4);
    assert [5] + [6, 9, 7] + [1, 3, 8, 4] + [2] == [5, 6, 9, 7, 1, 3, 8, 4, 2];
    assert [1, 3, 8, 4] + [6, 9, 7] + [2] + [5] == [1, 3, 8, 4, 6, 9, 7, 2, 5];
  }

  lemma Find17()
    ensures Destination(1, [3, 8, 4], 9) == 9 && FindFrom([1, 6, 9, 7, 2, 5], 9, 0) == Some(2)
  {
  }

  lemma Move17()
    ensures Move([1, 3, 8, 4, 6, 9, 7, 2, 5]) == Ok([6, 9, 3, 8, 4, 7, 2, 5, 1])
  {
    Find17();
    assert [1] + [6, 9] + [7, 2, 5] == [1, 6, 9, 7, 2, 5];
    MoveAt(1, [3, 8, 4], [6, 9], [7, 2, 5], 9, 9);
    assert [1] + [3, 8, 4] + [6, 9] + [7, 2, 5] == [1, 3, 8, 4, 6, 9, 7, 2, 5];
    assert [6, 9] + [3, 8, 4] + [7, 2, 5] + [1] == [6, 9, 3, 8, 4, 7, 2, 5, 1];
  }

  lemma Find18()
    ensures Destination(6, [9, 3, 8], 9) == 5 && FindFrom([6, 4, 7, 2, 5, 1], 5, 0) == Some(4)
  {
  }

  lemma Move18()
    ensures Move([6, 9, 3, 8, 4, 7, 2, 5, 1]) == Ok([4, 7, 2, 5, 9, 3, 8, 1, 6])
  {
    Find18();
    assert [6] + [4, 7, 2, 5] + [1] == [6, 4, 7, 2, 5, 1];
    MoveAt(6, [9, 3, 8], [4, 7, 2, 5], [1], 9, 5);
    assert [6] + [9, 3, 8] + [4, 7, 2, 5] + [1] == [6, 9, 3, 8, 4, 7, 2, 5, 1];
    assert [4, 7, 2, 5] + [9, 3, 8] + [1] + [6] == [4, 7, 2, 5, 9, 3, 8, 1, 6];
  }

  lemma Find19()
    ensures Destination(4, [7, 2, 5], 9) == 3 && FindFrom([4, 9, 3, 8, 1, 6], 3, 0) == Some(2)
  {
  }

  lemma Move19()
    ensures Move([4, 7, 2, 5, 9, 3, 8, 1, 6]) == Ok([9, 3, 7, 2, 5, 8, 1, 6, 4])
  {
    Find19();
    assert [4] + [9, 3] + [8, 1, 6] == [4, 9, 3, 8, 1, 6];
    MoveAt(4, [7, 2, 5], [9, 3], [8, 1, 6], 9, 3);
    assert [4] + [7, 2, 5] + [9, 3] + [8, 1, 6] == [4, 7, 2, 5, 9, 3, 8, 1, 6];
    assert [9, 3] + [7, 2, 5] + [8, 1, 6] + [4] == [9, 3, 7, 2, 5, 8, 1, 6, 4];
  }

  lemma Find20()
    ensures Destination(9, [3, 7, 2], 9) == 8 && FindFrom([9, 5, 8, 1, 6, 4], 8, 0) == Some(2)
  {
  }

  lemma Move20()
    ensures Move([9, 3, 7, 2, 5, 8, 1, 6, 4]) == Ok([5, 8, 3, 7, 2, 1, 6, 4, 9])
  {
    Find20();
    assert [9] + [5, 8] + [1, 6, 4] == [9, 5, 8, 1, 6, 4];
    MoveAt(9, [3, 7, 2], [5, 8], [1, 6, 4], 9, 8);
    assert [9] + [3, 7, 2] + [5, 8] + [1, 6, 4] == [9, 3, 7, 2, 5, 8, 1, 6, 4];
    assert [5, 8] + [3, 7, 2] + [1, 6, 4] + [9] == [5, 8, 3, 7, 2, 1, 6, 4, 9];
  }

  lemma Find21()
    ensures Destination(5, [8, 3, 7], 9) == 4 && FindFrom([5, 2, 1, 6, 4, 9], 4, 0) == Some(4)
  {
  }

  lemma Move21()
    ensures Move([5, 8, 3, 7, 2, 1, 6, 4, 9]) == Ok([2, 1, 6, 4, 8, 3, 7, 9, 5])
  {
    Find21();
    assert [5] + [2, 1, 6, 4] + [9] == [5, 2, 1, 6, 4, 9];
    MoveAt(5, [8, 3, 7], [2, 1, 6, 4], [9], 9, 4);
    assert [5] + [8, 3, 7] + [2, 1, 6, 4] + [9] == [5, 8, 3, 7, 2, 1, 6, 4, 9];
    assert [2, 1, 6, 4] + [8, 3, 7] + [9] + [5] == [2, 1, 6, 4, 8, 3, 7, 9, 5];
  }

  lemma Find22()
    ensures Destination(2, [1, 6, 4], 9) == 9 && FindFrom([2, 8, 3, 7, 9, 5], 9, 0) == Some(4)
  {
  }

  lemma Move22()
    ensures Move([2, 1, 6, 4, 8, 3, 7, 9, 5]) == Ok([8, 3, 7, 9, 1, 6, 4, 5, 2])
  {
    Find22();
    assert [2] + [8, 3, 7, 9] + [5] == [2, 8, 3, 7, 9, 5];
    MoveAt(2, [1, 6, 4], [8, 3, 7, 9], [5], 9, 9);
    assert [2] + [1, 6, 4] + [8, 3, 7, 9] + [5] == [2, 1, 6, 4, 8, 3, 7, 9, 5];
    assert [8, 3, 7, 9] + [1, 6, 4] + [5] + [2] == [8, 3, 7, 9, 1, 6, 4, 5, 2];
  }

  lemma Find23()
    ensures Destination(8, [3, 7, 9], 9) == 6 && FindFrom([8, 1, 6, 4, 5, 2], 6, 0) == Some(2)
  {
  }

  lemma Move23()
    ensures Move([8, 3, 7, 9, 1, 6, 4, 5, 2]) == Ok([1, 6, 3, 7, 9, 4, 5, 2, 8])
  {
    Find23();
    assert [8] + [1, 6] + [4, 5, 2] == [8, 1, 6, 4, 5, 2];
    MoveAt(8, [3, 7, 9], [1, 6], [4, 5, 2], 9, 6);
    assert [8] + [3, 7, 9] + [1, 6] + [4, 5, 2] == [8, 3, 7, 9, 1, 6, 4, 5, 2];
    assert [1, 6] + [3, 7, 9] + [4, 5, 2] + [8] == [1, 6, 3, 7, 9, 4, 5, 2, 8];
  }

  lemma Find24()
    ensures Destination(1, [6, 3, 7], 9) == 9 && FindFrom([1, 9, 4, 5, 2, 8], 9, 0) == Some(1)
  {
  }

  lemma Move24()
    ensures Move([1, 6, 3, 7, 9, 4, 5, 2, 8]) == Ok([9, 6, 3, 7, 4, 5, 2, 8, 1])
  {
    Find24();
    assert [1] + [9] + [4, 5, 2, 8] == [1, 9, 4, 5, 2, 8];
    MoveAt(1, [6, 3, 7], [9], [4, 5, 2, 8], 9, 9);
    assert [1] + [6, 3, 7] + [9] + [4, 5, 2, 8] == [1, 6, 3, 7, 9, 4, 5, 2, 8];
    assert [9] + [6, 3, 7] + [4, 5, 2, 8] + [1] == [9, 6, 3, 7, 4, 5, 2, 8, 1];
  }

  lemma Find25()
    ensures Destination(9, [6, 3, 7], 9) == 8 && FindFrom([9, 4, 5, 2, 8, 1], 8, 0) == Some(4)
  {
  }

  lemma Move25()
    ensures Move([9, 6, 3, 7, 4, 5, 2, 8, 1]) == Ok([4, 5, 2, 8, 6, 3, 7, 1, 9])
  {
    Find25();
    assert [9] + [4, 5, 2, 8] + [1] == [9, 4, 5, 2, 8, 1];
    MoveAt(9, [6, 3, 7], [4, 5, 2, 8], [1], 9, 8);
    assert [9] + [6, 3, 7] + [4, 5, 2, 8] + [1] == [9, 6, 3, 7, 4, 5, 2, 8, 1];
    assert [4, 5, 2, 8] + [6, 3, 7] + [1] + [9] == [4, 5, 2, 8, 6, 3, 7, 1, 9];
  }

  lemma Find26()
    ensures Destination(4, [5, 2, 8], 9) == 3 && FindFrom([4, 6, 3, 7, 1, 9], 3, 0) == Some(2)
  {
  }

  lemma Move26()
    ensures Move([4, 5, 2, 8, 6, 3, 7, 1, 9]) == Ok([6, 3, 5, 2, 8, 7, 1, 9, 4])
  {
    Find26();
    assert [4] + [6, 3] + [7, 1, 9] == [4, 6, 3, 7, 1, 9];
    MoveAt(4, [5, 2, 8], [6, 3], [7, 1, 9], 9, 3);
    assert [4] + [5, 2, 8] + [6, 3] + [7, 1, 9] == [4, 5, 2, 8, 6, 3, 7, 1, 9];
    assert [6, 3] + [5, 2, 8] + [7, 1, 9] + [4] == [6, 3, 5, 2, 8, 7, 1, 9, 4];
  }

  lemma Find27()
    ensures Destination(6, [3, 5, 2], 9) == 4 && FindFrom([6, 8, 7, 1, 9, 4], 4, 0) == Some(5)
  {
  }

  lemma Move27()
    ensures Move([6, 3, 5, 2, 8, 7, 1, 9, 4]) == Ok([8, 7, 1, 9, 4, 3, 5, 2, 6])
  {
    Find27();
    assert [6] + [8, 7, 1, 9, 4] + [] == [6, 8, 7, 1, 9, 4];
    MoveAt(6, [3, 5, 2], [8, 7, 1, 9, 4], [], 9, 4);
    assert [6] + [3, 5, 2] + [8, 7, 1, 9, 4] + [] == [6, 3, 5, 2, 8, 7, 1, 9, 4];
    assert [8, 7, 1, 9, 4] + [3, 5, 2] + [] + [6] == [8, 7, 1, 9, 4, 3, 5, 2, 6];
  }

  lemma Find28()
    ensures Destination(8, [7, 1, 9], 9) == 6 && FindFrom([8, 4, 3, 5, 2, 6], 6, 0) == Some(5)
  {
  }

  lemma Move28()
    ensures Move([8, 7, 1, 9, 4, 3, 5, 2, 6]) == Ok([4, 3, 5, 2, 6, 7, 1, 9, 8])
  {
    Find28();
    assert [8] + [4, 3, 5, 2, 6] + [] == [8, 4, 3, 5, 2, 6];
    MoveAt(8, [7, 1, 9], [4, 3, 5, 2, 6], [], 9, 6);
    assert [8] + [7, 1, 9] + [4, 3, 5, 2, 6] + [] == [8, 7, 1, 9, 4, 3, 5, 2, 6];
    assert [4, 3, 5, 2, 6] + [7, 1, 9] + [] + [8] == [4, 3, 5, 2, 6, 7, 1, 9, 8];
  }

  lemma Find29()
    ensures Destination(4, [3, 5, 2], 9) == 1 && FindFrom([4, 6, 7, 1, 9, 8], 1, 0) == Some(3)
  {
  }

  lemma Move29()
    ensures Move([4, 3, 5, 2, 6, 7, 1, 9, 8]) == Ok([6, 7, 1, 3, 5, 2, 9, 8, 4])
  {
    Find29();
    assert [4] + [6, 7, 1] + [9, 8] == [4, 6, 7, 1, 9, 8];
    MoveAt(4, [3, 5, 2], [6, 7, 1], [9, 8], 9, 1);
    assert [4] + [3, 5, 2] + [6, 7, 1] + [9, 8] == [4, 3, 5, 2, 6, 7, 1, 9, 8];
    assert [6, 7, 1] + [3, 5, 2] + [9, 8] + [4] == [6, 7, 1, 3, 5, 2, 9, 8, 4];
  }

  lemma Find30()
    ensures Destination(6, [7, 1, 3], 9) == 5 && FindFrom([6, 5, 2, 9, 8, 4], 5, 0) == Some(1)
  {
  }

  lemma Move30()
    ensures Move([6, 7, 1, 3, 5, 2, 9, 8, 4]) == Ok([5, 7, 1, 3, 2, 9, 8, 4, 6])
  {
    Find30();
    assert [6] + [5] + [2, 9, 8, 4] == [6, 5, 2, 9, 8, 4];
    MoveAt(6, [7, 1, 3], [5], [2, 9, 8, 4], 9, 5);
    assert [6] + [7, 1, 3] + [5] + [2, 9, 8, 4] == [6, 7, 1, 3, 5, 2, 9, 8, 4];
    assert [5] + [7, 1, 3] + [2, 9, 8, 4] + [6] == [5, 7, 1, 3, 2, 9, 8, 4, 6];
  }

  lemma Find31()
    ensures Destination(5, [7, 1, 3], 9) == 4 && FindFrom([5, 2, 9, 8, 4, 6], 4, 0) == Some(4)
  {
  }

  lemma Move31()
    ensures Move([5, 7, 1, 3, 2, 9, 8, 4, 6]) == Ok([2, 9, 8, 4, 7, 1, 3, 6, 5])
  {
    Find31();
    assert [5] + [2, 9, 8, 4] + [6] == [5, 2, 9, 8, 4, 6];
    MoveAt(5, [7, 1, 3], [2, 9, 8, 4], [6], 9, 4);
    assert [5] + [7, 1, 3] + [2, 9, 8, 4] + [6] == [5, 7, 1, 3, 2, 9, 8, 4, 6];
    assert [2, 9, 8, 4] + [7, 1, 3] + [6] + [5] == [2, 9, 8, 4, 7, 1, 3, 6, 5];
  }

  lemma Find32()
    ensures Destination(2, [9, 8, 4], 9) == 1 && FindFrom([2, 7, 1, 3, 6, 5], 1, 0) == Some(2)
  {
  }

  lemma Move32()
    ensures Move([2, 9, 8, 4, 7, 1, 3, 6, 5]) == Ok([7, 1, 9, 8, 4, 3, 6, 5, 2])
  {
    Find32();
    assert [2] + [7, 1] + [3, 6, 5] == [2, 7, 1, 3, 6, 5];
    MoveAt(2, [9, 8, 4], [7, 1], [3, 6, 5], 9, 1);
    assert [2] + [9, 8, 4] + [7, 1] + [3, 6, 5] == [2, 9, 8, 4, 7, 1, 3, 6, 5];
    assert [7, 1] + [9, 8, 4] + [3, 6, 5] + [2] == [7, 1, 9, 8, 4, 3, 6, 5, 2];
  }

  lemma Find33()
    ensures Destination(7, [1, 9, 8], 9) == 6 && FindFrom([7, 4, 3, 6, 5, 2], 6, 0) == Some(3)
  {
  }

  lemma Move33()
    ensures Move([7, 1, 9, 8, 4, 3, 6, 5, 2]) == Ok([4, 3, 6, 1, 9, 8, 5, 2, 7])
  {
    Find33();
    assert [7] + [4, 3, 6] + [5, 2] == [7, 4, 3, 6, 5, 2];
    MoveAt(7, [1, 9, 8], [4, 3, 6], [5, 2], 9, 6);
    assert [7] + [1, 9, 8] + [4, 3, 6] + [5, 2] == [7, 1, 9, 8, 4, 3, 6, 5, 2];
    assert [4, 3, 6] + [1, 9, 8] + [5, 2] + [7] == [4, 3, 6, 1, 9, 8, 5, 2, 7];
  }

  lemma Find34()
    ensures Destination(4, [3, 6, 1], 9) == 2 && FindFrom([4, 9, 8, 5, 2, 7], 2, 0) == Some(4)
  {
  }

  lemma Move34()
    ensures Move([4, 3, 6, 1, 9, 8, 5, 2, 7]) == Ok([9, 8, 5, 2, 3, 6, 1, 7, 4])
  {
    Find34();
    assert [4] + [9, 8, 5, 2] + [7] == [4, 9, 8, 5, 2, 7];
    MoveAt(4, [3, 6, 1], [9, 8, 5, 2], [7], 9, 2);
    assert [4] + [3, 6, 1] + [9, 8, 5, 2] + [7] == [4, 3, 6, 1, 9, 8, 5, 2, 7];
    assert [9, 8, 5, 2] + [3, 6, 1] + [7] + [4] == [9, 8, 5, 2, 3, 6, 1, 7, 4];
  }

  lemma Find35()
    ensures Destination(9, [8, 5, 2], 9) == 7 && FindFrom([9, 3, 6, 1, 7, 4], 7, 0) == Some(4)
  {
  }

  lemma Move35()
    ensures Move([9, 8, 5, 2, 3, 6, 1, 7, 4]) == Ok([3, 6, 1, 7, 8, 5, 2, 4, 9])
  {
    Find35();
    assert [9] + [3, 6, 1, 7] + [4] == [9, 3, 6, 1, 7, 4];
    MoveAt(9, [8, 5, 2], [3, 6, 1, 7], [4], 9, 7);
    assert [9] + [8, 5, 2] + [3, 6, 1, 7] + [4] == [9, 8, 5, 2, 3, 6, 1, 7, 4];
    assert [3, 6, 1, 7] + [8, 5, 2] + [4] + [9] == [3, 6, 1, 7, 8, 5, 2, 4, 9];
  }

  lemma Find36()
    ensures Destination(3, [6, 1, 7], 9) == 2 && FindFrom([3, 8, 5, 2, 4, 9], 2, 0) == Some(3)
  {
  }

  lemma Move36()
    ensures Move([3, 6, 1, 7, 8, 5, 2, 4, 9]) == Ok([8, 5, 2, 6, 1, 7, 4, 9, 3])
  {
    Find36();
    assert [3] + [8, 5, 2] + [4, 9] == [3, 8, 5, 2, 4, 9];
    MoveAt(3, [6, 1, 7], [8, 5, 2], [4, 9], 9, 2);
    assert [3] + [6, 1, 7] + [8, 5, 2] + [4, 9] == [3, 6, 1, 7, 8, 5, 2, 4, 9];
    assert [8, 5, 2] + [6, 1, 7] + [4, 9] + [3] == [8, 5, 2, 6, 1, 7, 4, 9, 3];
  }

  lemma Find37()
    ensures Destination(8, [5, 2, 6], 9) == 7 && FindFrom([8, 1, 7, 4, 9, 3], 7, 0) == Some(2)
  {
  }

  lemma Move37()
    ensures Move([8, 5, 2, 6, 1, 7, 4, 9, 3]) == Ok([1, 7, 5, 2, 6, 4, 9, 3, 8])
  {
    Find37();
    assert [8] + [1, 7] + [4, 9, 3] == [8, 1, 7, 4, 9, 3];
    MoveAt(8, [5, 2, 6], [1, 7], [4, 9, 3], 9, 7);
    assert [8] + [5, 2, 6] + [1, 7] + [4, 9, 3] == [8, 5, 2, 6, 1, 7, 4, 9, 3];
    assert [1, 7] + [5, 2, 6] + [4, 9, 3] + [8] == [1, 7, 5, 2, 6, 4, 9, 3, 8];
  }

  lemma Find38()
    ensures Destination(1, [7, 5, 2], 9) == 9 && FindFrom([1, 6, 4, 9, 3, 8], 9, 0) == Some(3)
  {
  }

  lemma Move38()
    ensures Move([1, 7, 5, 2, 6, 4, 9, 3, 8]) == Ok([6, 4, 9, 7, 5, 2, 3, 8, 1])
  {
    Find38();
    assert [1] + [6, 4, 9] + [3, 8] == [1, 6, 4, 9, 3, 8];
    MoveAt(1, [7, 5, 2], [6, 4, 9], [3, 8], 9, 9);
    assert [1] + [7, 5, 2] + [6, 4, 9] + [3, 8] == [1, 7, 5, 2, 6, 4, 9, 3, 8];
    assert [6, 4, 9] + [7, 5, 2] + [3, 8] + [1] == [6, 4, 9, 7, 5, 2, 3, 8, 1];
  }

  lemma Find39()
    ensures Destination(6, [4, 9, 7], 9) == 5 && FindFrom([6, 5, 2, 3, 8, 1], 5, 0) == Some(1)
  {
  }

  lemma Move39()
    ensures Move([6, 4, 9, 7, 5, 2, 3, 8, 1]) == Ok([5, 4, 9, 7, 2, 3, 8, 1, 6])
  {
    Find39();
    assert [6] + [5] + [2, 3, 8, 1] == [6, 5, 2, 3, 8, 1];
    MoveAt(6, [4, 9, 7], [5], [2, 3, 8, 1], 9, 5);
    assert [6] + [4, 9, 7] + [5] + [2, 3, 8, 1] == [6, 4, 9, 7, 5, 2, 3, 8, 1];
    assert [5] + [4, 9, 7] + [2, 3, 8, 1] + [6] == [5, 4, 9, 7, 2, 3, 8, 1, 6];
  }

  lemma Find40()
    ensures Destination(5, [4, 9, 7], 9) == 3 && FindFrom([5, 2, 3, 8, 1, 6], 3, 0) == Some(2)
  {
  }

  lemma Move40()
    ensures Move([5, 4, 9, 7, 2, 3, 8, 1, 6]) == Ok([2, 3, 4, 9, 7, 8, 1, 6, 5])
  {
    Find40();
    assert [5] + [2, 3] + [8, 1, 6] == [5, 2, 3, 8, 1, 6];
    MoveAt(5, [4, 9, 7], [2, 3], [8, 1, 6], 9, 3);
    assert [5] + [4, 9, 7] + [2, 3] + [8, 1, 6] == [5, 4, 9, 7, 2, 3, 8, 1, 6];
    assert [2, 3] + [4, 9, 7] + [8, 1, 6] + [5] == [2, 3, 4, 9, 7, 8, 1, 6, 5];
  }

  lemma Find41()
    ensures Destination(2, [3, 4, 9], 9) == 1 && FindFrom([2, 7, 8, 1, 6, 5], 1, 0) == Some(3)
  {
  }

  lemma Move41()
    ensures Move([2, 3, 4, 9, 7, 8, 1, 6, 5]) == Ok([7, 8, 1, 3, 4, 9, 6, 5, 2])
  {
    Find41();
    assert [2] + [7, 8, 1] + [6, 5] == [2, 7, 8, 1, 6, 5];
    MoveAt(2, [3, 4, 9], [7, 8, 1], [6, 5], 9, 1);
    assert [2] + [3, 4, 9] + [7, 8, 1] + [6, 5] == [2, 3, 4, 9, 7, 8, 1, 6, 5];
    assert [7, 8, 1] + [3, 4, 9] + [6, 5] + [2] == [7, 8, 1, 3, 4, 9, 6, 5, 2];
  }

  lemma Find42()
    ensures Destination(7, [8, 1, 3], 9) == 6 && FindFrom([7, 4, 9, 6, 5, 2], 6, 0) == Some(3)
  {
  }

  lemma Move42()
    ensures Move([7, 8, 1, 3, 4, 9, 6, 5, 2]) == Ok([4, 9, 6, 8, 1, 3, 5, 2, 7])
  {
    Find42();
    assert [7] + [4, 9, 6] + [5, 2] == [7, 4, 9, 6, 5, 2];
    MoveAt(7, [8, 1, 3], [4, 9, 6], [5, 2], 9, 6);
    assert [7] + [8, 1, 3] + [4, 9, 6] + [5, 2] == [7, 8, 1, 3, 4, 9, 6, 5, 2];
    assert [4, 9, 6] + [8, 1, 3] + [5, 2] + [7] == [4, 9, 6, 8, 1, 3, 5, 2, 7];
  }

  lemma Find43()
    ensures Destination(4, [9, 6, 8], 9) == 3 && FindFrom([4, 1, 3, 5, 2, 7], 3, 0) == Some(2)
  {
  }

  lemma Move43()
    ensures Move([4, 9, 6, 8, 1, 3, 5, 2, 7]) == Ok([1, 3, 9, 6, 8, 5, 2, 7, 4])
  {
    Find43();
    assert [4] + [1, 3] + [5, 2, 7] == [4, 1, 3, 5, 2, 7];
    MoveAt(4, [9, 6, 8], [1, 3], [5, 2, 7], 9, 3);
    assert [4] + [9, 6, 8] + [1, 3] + [5, 2, 7] == [4, 9, 6, 8, 1, 3, 5, 2, 7];
    assert [1, 3] + [9, 6, 8] + [5, 2, 7] + [4] == [1, 3, 9, 6, 8, 5, 2, 7, 4];
  }

  lemma Find44()
    ensures Destination(1, [3, 9, 6], 9) == 8 && FindFrom([1, 8, 5, 2, 7, 4], 8, 0) == Some(1)
  {
  }

  lemma Move44()
    ensures Move([1, 3, 9, 6, 8, 5, 2, 7, 4]) == Ok([8, 3, 9, 6, 5, 2, 7, 4, 1])
  {
    Find44();
    assert [1] + [8] + [5, 2, 7, 4] == [1, 8, 5, 2, 7, 4];
    MoveAt(1, [3, 9, 6], [8], [5, 2, 7, 4], 9, 8);
    assert [1] + [3, 9, 6] + [8] + [5, 2, 7, 4] == [1, 3, 9, 6, 8, 5, 2, 7, 4];
    assert [8] + [3, 9, 6] + [5, 2, 7, 4] + [1] == [8, 3, 9, 6, 5, 2, 7, 4, 1];
  }

  lemma Find45()
    ensures Destination(8, [3, 9, 6], 9) == 7 && FindFrom([8, 5, 2, 7, 4, 1], 7, 0) == Some(3)
  {
  }

  lemma Move45()
    ensures Move([8, 3, 9, 6, 5, 2, 7, 4, 1]) == Ok([5, 2, 7, 3, 9, 6, 4, 1, 8])
  {
    Find45();
    assert [8] + [5, 2, 7] + [4, 1] == [8, 5, 2, 7, 4, 1];
    MoveAt(8, [3, 9, 6], [5, 2, 7], [4, 1], 9, 7);
    assert [8] + [3, 9, 6] + [5, 2, 7] + [4, 1] == [8, 3, 9, 6, 5, 2, 7, 4, 1];
    assert [5, 2, 7] + [3, 9, 6] + [4, 1] + [8] == [5, 2, 7, 3, 9, 6, 4, 1, 8];
  }

  lemma Find46()
    ensures Destination(5, [2, 7, 3], 9) == 4 && FindFrom([5, 9, 6, 4, 1, 8], 4, 0) == Some(3)
  {
  }

  lemma Move46()
    ensures Move([5, 2, 7, 3, 9, 6, 4, 1, 8]) == Ok([9, 6, 4, 2, 7, 3, 1, 8, 5])
  {
    Find46();
    assert [5] + [9, 6, 4] + [1, 8] == [5, 9, 6, 4, 1, 8];
    MoveAt(5, [2, 7, 3], [9, 6, 4], [1, 8], 9, 4);
    assert [5] + [2, 7, 3] + [9, 6, 4] + [1, 8] == [5, 2, 7, 3, 9, 6, 4, 1, 8];
    assert [9, 6, 4] + [2, 7, 3] + [1, 8] + [5] == [9, 6, 4, 2, 7, 3, 1, 8, 5];
  }

  lemma Find47()
    ensures Destination(9, [6, 4, 2], 9) == 8 && FindFrom([9, 7, 3, 1, 8, 5], 8, 0) == Some(4)
  {
  }

  lemma Move47()
    ensures Move([9, 6, 4, 2, 7, 3, 1, 8, 5]) == Ok([7, 3, 1, 8, 6, 4, 2, 5, 9])
  {
    Find47();
    assert [9] + [7, 3, 1, 8] + [5] == [9, 7, 3, 1, 8, 5];
    MoveAt(9, [6, 4, 2], [7, 3, 1, 8], [5], 9, 8);
    assert [9] + [6, 4, 2] + [7, 3, 1, 8] + [5] == [9, 6, 4, 2, 7, 3, 1, 8, 5];
    assert [7, 3, 1, 8] + [6, 4, 2] + [5] + [9] == [7, 3, 1, 8, 6, 4, 2, 5, 9];
  }

  lemma Find48()
    ensures Destination(7, [3, 1, 8], 9) == 6 && FindFrom([7, 6, 4, 2, 5, 9], 6, 0) == Some(1)
  {
  }

  lemma Move48()
    ensures Move([7, 3, 1, 8, 6, 4, 2, 5, 9]) == Ok([6, 3, 1, 8, 4, 2, 5, 9, 7])
  {
    Find48();
    assert [7] + [6] + [4, 2, 5, 9] == [7, 6, 4, 2, 5, 9];
    MoveAt(7, [3, 1, 8], [6], [4, 2, 5, 9], 9, 6);
    assert [7] + [3, 1, 8] + [6] + [4, 2, 5, 9] == [7, 3, 1, 8, 6, 4, 2, 5, 9];
    assert [6] + [3, 1, 8] + [4, 2, 5, 9] + [7] == [6, 3, 1, 8, 4, 2, 5, 9, 7];
  }

  lemma Find49()
    ensures Destination(6, [3, 1, 8], 9) == 5 && FindFrom([6, 4, 2, 5, 9, 7], 5, 0) == Some(3)
  {
  }

  lemma Move49()
    ensures Move([6, 3, 1, 8, 4, 2, 5, 9, 7]) == Ok([4, 2, 5, 3, 1, 8, 9, 7, 6])
  {
    Find49();
    assert [6] + [4, 2, 5] + [9, 7] == [6, 4, 2, 5, 9, 7];
    MoveAt(6, [3, 1, 8], [4, 2, 5], [9, 7], 9, 5);
    assert [6] + [3, 1, 8] + [4, 2, 5] + [9, 7] == [6, 3, 1, 8, 4, 2, 5, 9, 7];
    assert [4, 2, 5] + [3, 1, 8] + [9, 7] + [6] == [4, 2, 5, 3, 1, 8, 9, 7, 6];
  }

  lemma Find50()
    ensures Destination(4, [2, 5, 3], 9) == 1 && FindFrom([4, 1, 8, 9, 7, 6], 1, 0) == Some(1)
  {
  }

  lemma Move50()
    ensures Move([4, 2, 5, 3, 1, 8, 9, 7, 6]) == Ok([1, 2, 5, 3, 8, 9, 7, 6, 4])
  {
    Find50();
    assert [4] + [1] + [8, 9, 7, 6] == [4, 1, 8, 9, 7, 6];
    MoveAt(4, [2, 5, 3], [1], [8, 9, 7, 6], 9, 1);
    assert [4] + [2, 5, 3] + [1] + [8, 9, 7, 6] == [4, 2, 5, 3, 1, 8, 9, 7, 6];
    assert [1] + [2, 5, 3] + [8, 9, 7, 6] + [4] == [1, 2, 5, 3, 8, 9, 7, 6, 4];
  }

  lemma Find51()
    ensures Destination(1, [2, 5, 3], 9) == 9 && FindFrom([1, 8, 9, 7, 6, 4], 9, 0) == Some(2)
  {
  }

  lemma Move51()
    ensures Move([1, 2, 5, 3, 8, 9, 7, 6, 4]) == Ok([8, 9, 2, 5, 3, 7, 6, 4, 1])
  {
    Find51();
    assert [1] + [8, 9] + [7, 6, 4] == [1, 8, 9, 7, 6, 4];
    MoveAt(1, [2, 5, 3], [8, 9], [7, 6, 4], 9, 9);
    assert [1] + [2, 5, 3] + [8, 9] + [7, 6, 4] == [1, 2, 5, 3, 8, 9, 7, 6, 4];
    assert [8, 9] + [2, 5, 3] + [7, 6, 4] + [1] == [8, 9, 2, 5, 3, 7, 6, 4, 1];
  }

  lemma Find52()
    ensures Destination(8, [9, 2, 5], 9) == 7 && FindFrom([8, 3, 7, 6, 4, 1], 7, 0) == Some(2)
  {
  }

  lemma Move52()
    ensures Move([8, 9, 2, 5, 3, 7, 6, 4, 1]) == Ok([3, 7, 9, 2, 5, 6, 4, 1, 8])
  {
    Find52();
    assert [8] + [3, 7] + [6, 4, 1] == [8, 3, 7, 6, 4, 1];
    MoveAt(8, [9, 2, 5], [3, 7], [6, 4, 1], 9, 7);
    assert [8] + [9, 2, 5] + [3, 7] + [6, 4, 1] == [8, 9, 2, 5, 3, 7, 6, 4, 1];
    assert [3, 7] + [9, 2, 5] + [6, 4, 1] + [8] == [3, 7, 9, 2, 5, 6, 4, 1, 8];
  }

  lemma Find53()
    ensures Destination(3, [7, 9, 2], 9) == 1 && FindFrom([3, 5, 6, 4, 1, 8], 1, 0) == Some(4)
  {
  }

  lemma Move53()
    ensures Move([3, 7, 9, 2, 5, 6, 4, 1, 8]) == Ok([5, 6, 4, 1, 7, 9, 2, 8, 3])
  {
    Find53();
    assert [3] + [5, 6, 4, 1] + [8] == [3, 5, 6, 4, 1, 8];
    MoveAt(3, [7, 9, 2], [5, 6, 4, 1], [8], 9, 1);
    assert [3] + [7, 9, 2] + [5, 6, 4, 1] + [8] == [3, 7, 9, 2, 5, 6, 4, 1, 8];
    assert [5, 6, 4, 1] + [7, 9, 2] + [8] + [3] == [5, 6, 4, 1, 7, 9, 2, 8, 3];
  }

  lemma Find54()
    ensures Destination(5, [6, 4, 1], 9) == 3 && FindFrom([5, 7, 9, 2, 8, 3], 3, 0) == Some(5)
  {
  }

  lemma Move54()
    ensures Move([5, 6, 4, 1, 7, 9, 2, 8, 3]) == Ok([7, 9, 2, 8, 3, 6, 4, 1, 5])
  {
    Find54();
    assert [5] + [7, 9, 2, 8, 3] + [] == [5, 7, 9, 2, 8, 3];
    MoveAt(5, [6, 4, 1], [7, 9, 2, 8, 3], [], 9, 3);
    assert [5] + [6, 4, 1] + [7, 9, 2, 8, 3] + [] == [5, 6, 4, 1, 7, 9, 2, 8, 3];
    assert [7, 9, 2, 8, 3] + [6, 4, 1] + [] + [5] == [7, 9, 2, 8, 3, 6, 4, 1, 5];
  }

  lemma Find55()
    ensures Destination(7, [9, 2, 8], 9) == 6 && FindFrom([7, 3, 6, 4, 1, 5], 6, 0) == Some(2)
  {
  }

  lemma Move55()
    ensures Move([7, 9, 2, 8, 3, 6, 4, 1, 5]) == Ok([3, 6, 9, 2, 8, 4, 1, 5, 7])
  {
    Find55();
    assert [7] + [3, 6] + [4, 1, 5] == [7, 3, 6, 4, 1, 5];
    MoveAt(7, [9, 2, 8], [3, 6], [4, 1, 5], 9, 6);
    assert [7] + [9, 2, 8] + [3, 6] + [4, 1, 5] == [7, 9, 2, 8, 3, 6, 4, 1, 5];
    assert [3, 6] + [9, 2, 8] + [4, 1, 5] + [7] == [3, 6, 9, 2, 8, 4, 1, 5, 7];
  }

  lemma Find56()
    ensures Destination(3, [6, 9, 2], 9) == 1 && FindFrom([3, 8, 4, 1, 5, 7], 1, 0) == Some(3)
  {
  }

  lemma Move56()
    ensures Move([3, 6, 9, 2, 8, 4, 1, 5, 7]) == Ok([8, 4, 1, 6, 9, 2, 5, 7, 3])
  {
    Find56();
    assert [3] + [8, 4, 1] + [5, 7] == [3, 8, 4, 1, 5, 7];
    MoveAt(3, [6, 9, 2], [8, 4, 1], [5, 7], 9, 1);
    assert [3] + [6, 9, 2] + [8, 4, 1] + [5, 7] == [3, 6, 9, 2, 8, 4, 1, 5, 7];
    assert [8, 4, 1] + [6, 9, 2] + [5, 7] + [3] == [8, 4, 1, 6, 9, 2, 5, 7, 3];
  }

  lemma Find57()
    ensures Destination(8, [4, 1, 6], 9) == 7 && FindFrom([8, 9, 2, 5, 7, 3], 7, 0) == Some(4)
  {
  }

  lemma Move57()
    ensures Move([8, 4, 1, 6, 9, 2, 5, 7, 3]) == Ok([9, 2, 5, 7, 4, 1, 6, 3, 8])
  {
    Find57();
    assert [8] + [9, 2, 5, 7] + [3] == [8, 9, 2, 5, 7, 3];
    MoveAt(8, [4, 1, 6], [9, 2, 5, 7], [3], 9, 7);
    assert [8] + [4, 1, 6] + [9, 2, 5, 7] + [3] == [8, 4, 1, 6, 9, 2, 5, 7, 3];
    assert [9, 2, 5, 7] + [4, 1, 6] + [3] + [8] == [9, 2, 5, 7, 4, 1, 6, 3, 8];
  }

  lemma Find58()
    ensures Destination(9, [2, 5, 7], 9) == 8 && FindFrom([9, 4, 1, 6, 3, 8], 8, 0) == Some(5)
  {
  }

  lemma Move58()
    ensures Move([9, 2, 5, 7, 4, 1, 6, 3, 8]) == Ok([4, 1, 6, 3, 8, 2, 5, 7, 9])
  {
    Find58();
    assert [9] + [4, 1, 6, 3, 8] + [] == [9, 4, 1, 6, 3, 8];
    MoveAt(9, [2, 5, 7], [4, 1, 6, 3, 8], [], 9, 8);
    assert [9] + [2, 5, 7] + [4, 1, 6, 3, 8] + [] == [9, 2, 5, 7, 4, 1, 6, 3, 8];
    assert [4, 1, 6, 3, 8] + [2, 5, 7] + [] + [9] == [4, 1, 6, 3, 8, 2, 5, 7, 9];
  }

  lemma Find59()
    ensures Destination(4, [1, 6, 3], 9) == 2 && FindFrom([4, 8, 2, 5, 7, 9], 2, 0) == Some(2)
  {
  }

  lemma Move59()
    ensures Move([4, 1, 6, 3, 8, 2, 5, 7, 9]) == Ok([8, 2, 1, 6, 3, 5, 7, 9, 4])
  {
    Find59();
    assert [4] + [8, 2] + [5, 7, 9] == [4, 8, 2, 5, 7, 9];
    MoveAt(4, [1, 6, 3], [8, 2], [5, 7, 9], 9, 2);
    assert [4] + [1, 6, 3] + [8, 2] + [5, 7, 9] == [4, 1, 6, 3, 8, 2, 5, 7, 9];
    assert [8, 2] + [1, 6, 3] + [5, 7, 9] + [4] == [8, 2, 1, 6, 3, 5, 7, 9, 4];
  }

  lemma Find60()
    ensures Destination(8, [2, 1, 6], 9) == 7 && FindFrom([8, 3, 5, 7, 9, 4], 7, 0) == Some(3)
  {
  }

  lemma Move60()
    ensures Move([8, 2, 1, 6, 3, 5, 7, 9, 4]) == Ok([3, 5, 7, 2, 1, 6, 9, 4, 8])
  {
    Find60();
    assert [8] + [3, 5, 7] + [9, 4] == [8, 3, 5, 7, 9, 4];
    MoveAt(8, [2, 1, 6], [3, 5, 7], [9, 4], 9, 7);
    assert [8] + [2, 1, 6] + [3, 5, 7] + [9, 4] == [8, 2, 1, 6, 3, 5, 7, 9, 4];
    assert [3, 5, 7] + [2, 1, 6] + [9, 4] + [8] == [3, 5, 7, 2, 1, 6, 9, 4, 8];
  }

  lemma Find61()
    ensures Destination(3, [5, 7, 2], 9) == 1 && FindFrom([3, 1, 6, 9, 4, 8], 1, 0) == Some(1)
  {
  }

  lemma Move61()
    ensures Move([3, 5, 7, 2, 1, 6, 9, 4, 8]) == Ok([1, 5, 7, 2, 6, 9, 4, 8, 3])
  {
    Find61();
    assert [3] + [1] + [6, 9, 4, 8] == [3, 1, 6, 9, 4, 8];
    MoveAt(3, [5, 7, 2], [1], [6, 9, 4, 8], 9, 1);
    assert [3] + [5, 7, 2] + [1] + [6, 9, 4, 8] == [3, 5, 7, 2, 1, 6, 9, 4, 8];
    assert [1] + [5, 7, 2] + [6, 9, 4, 8] + [3] == [1, 5, 7, 2, 6, 9, 4, 8, 3];
  }

  lemma Find62()
    ensures Destination(1, [5, 7, 2], 9) == 9 && FindFrom([1, 6, 9, 4, 8, 3], 9, 0) == Some(2)
  {
  }

  lemma Move62()
    ensures Move([1, 5, 7, 2, 6, 9, 4, 8, 3]) == Ok([6, 9, 5, 7, 2, 4, 8, 3, 1])
  {
    Find62();
    assert [1] + [6, 9] + [4, 8, 3] == [1, 6, 9, 4, 8, 3];
    MoveAt(1, [5, 7, 2], [6, 9], [4, 8, 3], 9, 9);
    assert [1] + [5, 7, 2] + [6, 9] + [4, 8, 3] == [1, 5, 7, 2, 6, 9, 4, 8, 3];
    assert [6, 9] + [5, 7, 2] + [4, 8, 3] + [1] == [6, 9, 5, 7, 2, 4, 8, 3, 1];
  }

  lemma Find63()
    ensures Destination(6, [9, 5, 7], 9) == 4 && FindFrom([6, 2, 4, 8, 3, 1], 4, 0) == Some(2)
  {
  }

  lemma Move63()
    ensures Move([6, 9, 5, 7, 2, 4, 8, 3, 1]) == Ok([2, 4, 9, 5, 7, 8, 3, 1, 6])
  {
    Find63();
    assert [6] + [2, 4] + [8, 3, 1] == [6, 2, 4, 8, 3, 1];
    MoveAt(6, [9, 5, 7], [2, 4], [8, 3, 1], 9, 4);
    assert [6] + [9, 5, 7] + [2, 4] + [8, 3, 1] == [6, 9, 5, 7, 2, 4, 8, 3, 1];
    assert [2, 4] + [9, 5, 7] + [8, 3, 1] + [6] == [2, 4, 9, 5, 7, 8, 3, 1, 6];
  }

  lemma Find64()
    ensures Destination(2, [4, 9, 5], 9) == 1 && FindFrom([2, 7, 8, 3, 1, 6], 1, 0) == Some(4)
  {
  }

  lemma Move64()
    ensures Move([2, 4, 9, 5, 7, 8, 3, 1, 6]) == Ok([7, 8, 3, 1, 4, 9, 5, 6, 2])
  {
    Find64();
    assert [2] + [7, 8, 3, 1] + [6] == [2, 7, 8, 3, 1, 6];
    MoveAt(2, [4, 9, 5], [7, 8, 3, 1], [6], 9, 1);
    assert [2] + [4, 9, 5] + [7, 8, 3, 1] + [6] == [2, 4, 9, 5, 7, 8, 3, 1, 6];
    assert [7, 8, 3, 1] + [4, 9, 5] + [6] + [2] == [7, 8, 3, 1, 4, 9, 5, 6, 2];
  }

  lemma Find65()
    ensures Destination(7, [8, 3, 1], 9) == 6 && FindFrom([7, 4, 9, 5, 6, 2], 6, 0) == Some(4)
  {
  }

  lemma Move65()
    ensures Move([7, 8, 3, 1, 4, 9, 5, 6, 2]) == Ok([4, 9, 5, 6, 8, 3, 1, 2, 7])
  {
    Find65();
    assert [7] + [4, 9, 5, 6] + [2] == [7, 4, 9, 5, 6, 2];
    MoveAt(7, [8, 3, 1], [4, 9, 5, 6], [2], 9, 6);
    assert [7] + [8, 3, 1] + [4, 9, 5, 6] + [2] == [7, 8, 3, 1, 4, 9, 5, 6, 2];
    assert [4, 9, 5, 6] + [8, 3, 1] + [2] + [7] == [4, 9, 5, 6, 8, 3, 1, 2, 7];
  }

  lemma Find66()
    ensures Destination(4, [9, 5, 6], 9) == 3 && FindFrom([4, 8, 3, 1, 2, 7], 3, 0) == Some(2)
  {
  }

  lemma Move66()
    ensures Move([4, 9, 5, 6, 8, 3, 1, 2, 7]) == Ok([8, 3, 9, 5, 6, 1, 2, 7, 4])
  {
    Find66();
    assert [4] + [8, 3] + [1, 2, 7] == [4, 8, 3, 1, 2, 7];
    MoveAt(4, [9, 5, 6], [8, 3], [1, 2, 7], 9, 3);
    assert [4] + [9, 5, 6] + [8, 3] + [1, 2, 7] == [4, 9, 5, 6, 8, 3, 1, 2, 7];
    assert [8, 3] + [9, 5, 6] + [1, 2, 7] + [4] == [8, 3, 9, 5, 6, 1, 2, 7, 4];
  }

  lemma Find67()
    ensures Destination(8, [3, 9, 5], 9) == 7 && FindFrom([8, 6, 1, 2, 7, 4], 7, 0) == Some(4)
  {
  }

  lemma Move67()
    ensures Move([8, 3, 9, 5, 6, 1, 2, 7, 4]) == Ok([6, 1, 2, 7, 3, 9, 5, 4, 8])
  {
    Find67();
    assert [8] + [6, 1, 2, 7] + [4] == [8, 6, 1, 2, 7, 4];
    MoveAt(8, [3, 9, 5], [6, 1, 2, 7], [4], 9, 7);
    assert [8] + [3, 9, 5] + [6, 1, 2, 7] + [4] == [8, 3, 9, 5, 6, 1, 2, 7, 4];
    assert [6, 1, 2, 7] + [3, 9, 5] + [4] + [8] == [6, 1, 2, 7, 3, 9, 5, 4, 8];
  }

  lemma Find68()
    ensures Destination(6, [1, 2, 7], 9) == 5 && FindFrom([6, 3, 9, 5, 4, 8], 5, 0) == Some(3)
  {
  }

  lemma Move68()
    ensures Move([6, 1, 2, 7, 3, 9, 5, 4, 8]) == Ok([3, 9, 5, 1, 2, 7, 4, 8, 6])
  {
    Find68();
    assert [6] + [3, 9, 5] + [4, 8] == [6, 3, 9, 5, 4, 8];
    MoveAt(6, [1, 2, 7], [3, 9, 5], [4, 8], 9, 5);
    assert [6] + [1, 2, 7] + [3, 9, 5] + [4, 8] == [6, 1, 2, 7, 3, 9, 5, 4, 8];
    assert [3, 9, 5] + [1, 2, 7] + [4, 8] + [6] == [3, 9, 5, 1, 2, 7, 4, 8, 6];
  }

  lemma Find69()
    ensures Destination(3, [9, 5, 1], 9) == 2 && FindFrom([3, 2, 7, 4, 8, 6], 2, 0) == Some(1)
  {
  }

  lemma Move69()
    ensures Move([3, 9, 5, 1, 2, 7, 4, 8, 6]) == Ok([2, 9, 5, 1, 7, 4, 8, 6, 3])
  {
    Find69();
    assert [3] + [2] + [7, 4, 8, 6] == [3, 2, 7, 4, 8, 6];
    MoveAt(3, [9, 5, 1], [2], [7, 4, 8, 6], 9, 2);
    assert [3] + [9, 5, 1] + [2] + [7, 4, 8, 6] == [3, 9, 5, 1, 2, 7, 4, 8, 6];
    assert [2] + [9, 5, 1] + [7, 4, 8, 6] + [3] == [2, 9, 5, 1, 7, 4, 8, 6, 3];
  }

  lemma Find70()
    ensures Destination(2, [9, 5, 1], 9) == 8 && FindFrom([2, 7, 4, 8, 6, 3], 8, 0) == Some(3)
  {
  }

  lemma Move70()
    ensures Move([2, 9, 5, 1, 7, 4, 8, 6, 3]) == Ok([7, 4, 8, 9, 5, 1, 6, 3, 2])
  {
    Find70();
    assert [2] + [7, 4, 8] + [6, 3] == [2, 7, 4, 8, 6, 3];
    MoveAt(2, [9, 5, 1], [7, 4, 8], [6, 3], 9, 8);
    assert [2] + [9, 5, 1] + [7, 4, 8] + [6, 3] == [2, 9, 5, 1, 7, 4, 8, 6, 3];
    assert [7, 4, 8] + [9, 5, 1] + [6, 3] + [2] == [7, 4, 8, 9, 5, 1, 6, 3, 2];
  }

  lemma Find71()
    ensures Destination(7, [4, 8, 9], 9) == 6 && FindFrom([7, 5, 1, 6, 3, 2], 6, 0) == Some(3)
  {
  }

  lemma Move71()
    ensures Move([7, 4, 8, 9, 5, 1, 6, 3, 2]) == Ok([5, 1, 6, 4, 8, 9, 3, 2, 7])
  {
    Find71();
    assert [7] + [5, 1, 6] + [3, 2] == [7, 5, 1, 6, 3, 2];
    MoveAt(7, [4, 8, 9], [5, 1, 6], [3, 2], 9, 6);
    assert [7] + [4, 8, 9] + [5, 1, 6] + [3, 2] == [7, 4, 8, 9, 5, 1, 6, 3, 2];
    assert [5, 1, 6] + [4, 8, 9] + [3, 2] + [7] == [5, 1, 6, 4, 8, 9, 3, 2, 7];
  }

  lemma Find72()
    ensures Destination(5, [1, 6, 4], 9) == 3 && FindFrom([5, 8, 9, 3, 2, 7], 3, 0) == Some(3)
  {
  }

  lemma Move72()
    ensures Move([5, 1, 6, 4, 8, 9, 3, 2, 7]) == Ok([8, 9, 3, 1, 6, 4, 2, 7, 5])
  {
    Find72();
    assert [5] + [8, 9, 3] + [2, 7] == [5, 8, 9, 3, 2, 7];
    MoveAt(5, [1, 6, 4], [8, 9, 3], [2, 7], 9, 3);
    assert [5] + [1, 6, 4] + [8, 9, 3] + [2, 7] == [5, 1, 6, 4, 8, 9, 3, 2, 7];
    assert [8, 9, 3] + [1, 6, 4] + [2, 7] + [5] == [8, 9, 3, 1, 6, 4, 2, 7, 5];
  }

  lemma Find73()
    ensures Destination(8, [9, 3, 1], 9) == 7 && FindFrom([8, 6, 4, 2, 7, 5], 7, 0) == Some(4)
  {
  }

  lemma Move73()
    ensures Move([8, 9, 3, 1, 6, 4, 2, 7, 5]) == Ok([6, 4, 2, 7, 9, 3, 1, 5, 8])
  {
    Find73();
    assert [8] + [6, 4, 2, 7] + [5] == [8, 6, 4, 2, 7, 5];
    MoveAt(8, [9, 3, 1], [6, 4, 2, 7], [5], 9, 7);
    assert [8] + [9, 3, 1] + [6, 4, 2, 7] + [5] == [8, 9, 3, 1, 6, 4, 2, 7, 5];
    assert [6, 4, 2, 7] + [9, 3, 1] + [5] + [8] == [6, 4, 2, 7, 9, 3, 1, 5, 8];
  }

  lemma Find74()
    ensures Destination(6, [4, 2, 7], 9) == 5 && FindFrom([6, 9, 3, 1, 5, 8], 5, 0) == Some(4)
  {
  }

  lemma Move74()
    ensures Move([6, 4, 2, 7, 9, 3, 1, 5, 8]) == Ok([9, 3, 1, 5, 4, 2, 7, 8, 6])
  {
    Find74();
    assert [6] + [9, 3, 1, 5] + [8] == [6, 9, 3, 1, 5, 8];
    MoveAt(6, [4, 2, 7], [9, 3, 1, 5], [8], 9, 5);
    assert [6] + [4, 2, 7] + [9, 3, 1, 5] + [8] == [6, 4, 2, 7, 9, 3, 1, 5, 8];
    assert [9, 3, 1, 5] + [4, 2, 7] + [8] + [6] == [9, 3, 1, 5, 4, 2, 7, 8, 6];
  }

  lemma Find75()
    ensures Destination(9, [3, 1, 5], 9) == 8 && FindFrom([9, 4, 2, 7, 8, 6], 8, 0) == Some(4)
  {
  }

  lemma Move75()
    ensures Move([9, 3, 1, 5, 4, 2, 7, 8, 6]) == Ok([4, 2, 7, 8, 3, 1, 5, 6, 9])
  {
    Find75();
    assert [9] + [4, 2, 7, 8] + [6] == [9, 4, 2, 7, 8, 6];
    MoveAt(9, [3, 1, 5], [4, 2, 7, 8], [6], 9, 8);
    assert [9] + [3, 1, 5] + [4, 2, 7, 8] + [6] == [9, 3, 1, 5, 4, 2, 7, 8, 6];
    assert [4, 2, 7, 8] + [3, 1, 5] + [6] + [9] == [4, 2, 7, 8, 3, 1, 5, 6, 9];
  }

  lemma Find76()
    ensures Destination(4, [2, 7, 8], 9) == 3 && FindFrom([4, 3, 1, 5, 6, 9], 3, 0) == Some(1)
  {
  }

  lemma Move76()
    ensures Move([4, 2, 7, 8, 3, 1, 5, 6, 9]) == Ok([3, 2, 7, 8, 1, 5, 6, 9, 4])
  {
    Find76();
    assert [4] + [3] + [1, 5, 6, 9] == [4, 3, 1, 5, 6, 9];
    MoveAt(4, [2, 7, 8], [3], [1, 5, 6, 9], 9, 3);
    assert [4] + [2, 7, 8] + [3] + [1, 5, 6, 9] == [4, 2, 7, 8, 3, 1, 5, 6, 9];
    assert [3] + [2, 7, 8] + [1, 5, 6, 9] + [4] == [3, 2, 7, 8, 1, 5, 6, 9, 4];
  }

  lemma Find77()
    ensures Destination(3, [2, 7, 8], 9) == 1 && FindFrom([3, 1, 5, 6, 9, 4], 1, 0) == Some(1)
  {
  }

  lemma Move77()
    ensures Move([3, 2, 7, 8, 1, 5, 6, 9, 4]) == Ok([1, 2, 7, 8, 5, 6, 9, 4, 3])
  {
    Find77();
    assert [3] + [1] + [5, 6, 9, 4] == [3, 1, 5, 6, 9, 4];
    MoveAt(3, [2, 7, 8], [1], [5, 6, 9, 4], 9, 1);
    assert [3] + [2, 7, 8] + [1] + [5, 6, 9, 4] == [3, 2, 7, 8, 1, 5, 6, 9, 4];
    assert [1] + [2, 7, 8] + [5, 6, 9, 4] + [3] == [1, 2, 7, 8, 5, 6, 9, 4, 3];
  }

  lemma Find78()
    ensures Destination(1, [2, 7, 8], 9) == 9 && FindFrom([1, 5, 6, 9, 4, 3], 9, 0) == Some(3)
  {
  }

  lemma Move78()
    ensures Move([1, 2, 7, 8, 5, 6, 9, 4, 3]) == Ok([5, 6, 9, 2, 7, 8, 4, 3, 1])
  {
    Find78();
    assert [1] + [5, 6, 9] + [4, 3] == [1, 5, 6, 9, 4, 3];
    MoveAt(1, [2, 7, 8], [5, 6, 9], [4, 3], 9, 9);
    assert [1] + [2, 7, 8] + [5, 6, 9] + [4, 3] == [1, 2, 7, 8, 5, 6, 9, 4, 3];
    assert [5, 6, 9] + [2, 7, 8] + [4, 3] + [1] == [5, 6, 9, 2, 7, 8, 4, 3, 1];
  }

  lemma Find79()
    ensures Destination(5, [6, 9, 2], 9) == 4 && FindFrom([5, 7, 8, 4, 3, 1], 4, 0) == Some(3)
  {
  }

  lemma Move79()
    ensures Move([5, 6, 9, 2, 7, 8, 4, 3, 1]) == Ok([7, 8, 4, 6, 9, 2, 3, 1, 5])
  {
    Find79();
    assert [5] + [7, 8, 4] + [3, 1] == [5, 7, 8, 4, 3, 1];
    MoveAt(5, [6, 9, 2], [7, 8, 4], [3, 1], 9, 4);
    assert [5] + [6, 9, 2] + [7, 8, 4] + [3, 1] == [5, 6, 9, 2, 7, 8, 4, 3, 1];
    assert [7, 8, 4] + [6, 9, 2] + [3, 1] + [5] == [7, 8, 4, 6, 9, 2, 3, 1, 5];
  }

  lemma Find80()
    ensures Destination(7, [8, 4, 6], 9) == 5 && FindFrom([7, 9, 2, 3, 1, 5], 5, 0) == Some(5)
  {
  }

  lemma Move80()
    ensures Move([7, 8, 4, 6, 9, 2, 3, 1, 5]) == Ok([9, 2, 3, 1, 5, 8, 4, 6, 7])
  {
    Find80();
    assert [7] + [9, 2, 3, 1, 5] + [] == [7, 9, 2, 3, 1, 5];
    MoveAt(7, [8, 4, 6], [9, 2, 3, 1, 5], [], 9, 5);
    assert [7] + [8, 4, 6] + [9, 2, 3, 1, 5] + [] == [7, 8, 4, 6, 9, 2, 3, 1, 5];
    assert [9, 2, 3, 1, 5] + [8, 4, 6] + [] + [7] == [9, 2, 3, 1, 5, 8, 4, 6, 7];
  }

  lemma Find81()
    ensures Destination(9, [2, 3, 1], 9) == 8 && FindFrom([9, 5, 8, 4, 6, 7], 8, 0) == Some(2)
  {
  }

  lemma Move81()
    ensures Move([9, 2, 3, 1, 5, 8, 4, 6, 7]) == Ok([5, 8, 2, 3, 1, 4, 6, 7, 9])
  {
    Find81();
    assert [9] + [5, 8] + [4, 6, 7] == [9, 5, 8, 4, 6, 7];
    MoveAt(9, [2, 3, 1], [5, 8], [4, 6, 7], 9, 8);
    assert [9] + [2, 3, 1] + [5, 8] + [4, 6, 7] == [9, 2, 3, 1, 5, 8, 4, 6, 7];
    assert [5, 8] + [2, 3, 1] + [4, 6, 7] + [9] == [5, 8, 2, 3, 1, 4, 6, 7, 9];
  }

  lemma Find82()
    ensures Destination(5, [8, 2, 3], 9) == 4 && FindFrom([5, 1, 4, 6, 7, 9], 4, 0) == Some(2)
  {
  }

  lemma Move82()
    ensures Move([5, 8, 2, 3, 1, 4, 6, 7, 9]) == Ok([1, 4, 8, 2, 3, 6, 7, 9, 5])
  {
    Find82();
    assert [5] + [1, 4] + [6, 7, 9] == [5, 1, 4, 6, 7, 9];
    MoveAt(5, [8, 2, 3], [1, 4], [6, 7, 9], 9, 4);
    assert [5] + [8, 2, 3] + [1, 4] + [6, 7, 9] == [5, 8, 2, 3, 1, 4, 6, 7, 9];
    assert [1, 4] + [8, 2, 3] + [6, 7, 9] + [5] == [1, 4, 8, 2, 3, 6, 7, 9, 5];
  }

  lemma Find83()
    ensures Destination(1, [4, 8, 2], 9) == 9 && FindFrom([1, 3, 6, 7, 9, 5], 9, 0) == Some(4)
  {
  }

  lemma Move83()
    ensures Move([1, 4, 8, 2, 3, 6, 7, 9, 5]) == Ok([3, 6, 7, 9, 4, 8, 2, 5, 1])
  {
    Find83();
    assert [1] + [3, 6, 7, 9] + [5] == [1, 3, 6, 7, 9, 5];
    MoveAt(1, [4, 8, 2], [3, 6, 7, 9], [5], 9, 9);
    assert [1] + [4, 8, 2] + [3, 6, 7, 9] + [5] == [1, 4, 8, 2, 3, 6, 7, 9, 5];
    assert [3, 6, 7, 9] + [4, 8, 2] + [5] + [1] == [3, 6, 7, 9, 4, 8, 2, 5, 1];
  }

  lemma Find84()
    ensures Destination(3, [6, 7, 9], 9) == 2 && FindFrom([3, 4, 8, 2, 5, 1], 2, 0) == Some(3)
  {
  }

  lemma Move84()
    ensures Move([3, 6, 7, 9, 4, 8, 2, 5, 1]) == Ok([4, 8, 2, 6, 7, 9, 5, 1, 3])
  {
    Find84();
    assert [3] + [4, 8, 2] + [5, 1] == [3, 4, 8, 2, 5, 1];
    MoveAt(3, [6, 7, 9], [4, 8, 2], [5, 1], 9, 2);
    assert [3] + [6, 7, 9] + [4, 8, 2] + [5, 1] == [3, 6, 7, 9, 4, 8, 2, 5, 1];
    assert [4, 8, 2] + [6, 7, 9] + [5, 1] + [3] == [4, 8, 2, 6, 7, 9, 5, 1, 3];
  }

  lemma Find85()
    ensures Destination(4, [8, 2, 6], 9) == 3 && FindFrom([4, 7, 9, 5, 1, 3], 3, 0) == Some(5)
  {
  }

  lemma Move85()
    ensures Move([4, 8, 2, 6, 7, 9, 5, 1, 3]) == Ok([7, 9, 5, 1, 3, 8, 2, 6, 4])
  {
    Find85();
    assert [4] + [7, 9, 5, 1, 3] + [] == [4, 7, 9, 5, 1, 3];
    MoveAt(4, [8, 2, 6], [7, 9, 5, 1, 3], [], 9, 3);
    assert [4] + [8, 2, 6] + [7, 9, 5, 1, 3] + [] == [4, 8, 2, 6, 7, 9, 5, 1, 3];
    assert [7, 9, 5, 1, 3] + [8, 2, 6] + [] + [4] == [7, 9, 5, 1, 3, 8, 2, 6, 4];
  }

  lemma Find86()
    ensures Destination(7, [9, 5, 1], 9) == 6 && FindFrom([7, 3, 8, 2, 6, 4], 6, 0) == Some(4)
  {
  }

  lemma Move86()
    ensures Move([7, 9, 5, 1, 3, 8, 2, 6, 4]) == Ok([3, 8, 2, 6, 9, 5, 1, 4, 7])
  {
    Find86();
    assert [7] + [3, 8, 2, 6] + [4] == [7, 3, 8, 2, 6, 4];
    MoveAt(7, [9, 5, 1], [3, 8, 2, 6], [4], 9, 6);
    assert [7] + [9, 5, 1] + [3, 8, 2, 6] + [4] == [7, 9, 5, 1, 3, 8, 2, 6, 4];
    assert [3, 8, 2, 6] + [9, 5, 1] + [4] + [7] == [3, 8, 2, 6, 9, 5, 1, 4, 7];
  }

  lemma Find87()
    ensures Destination(3, [8, 2, 6], 9) == 1 && FindFrom([3, 9, 5, 1, 4, 7], 1, 0) == Some(3)
  {
  }

  lemma Move87()
    ensures Move([3, 8, 2, 6, 9, 5, 1, 4, 7]) == Ok([9, 5, 1, 8, 2, 6, 4, 7, 3])
  {
    Find87();
    assert [3] + [9, 5, 1] + [4, 7] == [3, 9, 5, 1, 4, 7];
    MoveAt(3, [8, 2, 6], [9, 5, 1], [4, 7], 9, 1);
    assert [3] + [8, 2, 6] + [9, 5, 1] + [4, 7] == [3, 8, 2, 6, 9, 5, 1, 4, 7];
    assert [9, 5, 1] + [8, 2, 6] + [4, 7] + [3] == [9, 5, 1, 8, 2, 6, 4, 7, 3];
  }

  lemma Find88()
    ensures Destination(9, [5, 1, 8], 9) == 7 && FindFrom([9, 2, 6, 4, 7, 3], 7, 0) == Some(4)
  {
  }

  lemma Move88()
    ensures Move([9, 5, 1, 8, 2, 6, 4, 7, 3]) == Ok([2, 6, 4, 7, 5, 1, 8, 3, 9])
  {
    Find88();
    assert [9] + [2, 6, 4, 7] + [3] == [9, 2, 6, 4, 7, 3];
    MoveAt(9, [5, 1, 8], [2, 6, 4, 7], [3], 9, 7);
    assert [9] + [5, 1, 8] + [2, 6, 4, 7] + [3] == [9, 5, 1, 8, 2, 6, 4, 7, 3];
    assert [2, 6, 4, 7] + [5, 1, 8] + [3] + [9] == [2, 6, 4, 7, 5, 1, 8, 3, 9];
  }

  lemma Find89()
    ensures Destination(2, [6, 4, 7], 9) == 1 && FindFrom([2, 5, 1, 8, 3, 9], 1, 0) == Some(2)
  {
  }

  lemma Move89()
    ensures Move([2, 6, 4, 7, 5, 1, 8, 3, 9]) == Ok([5, 1, 6, 4, 7, 8, 3, 9, 2])
  {
    Find89();
    assert [2] + [5, 1] + [8, 3, 9] == [2, 5, 1, 8, 3, 9];
    MoveAt(2, [6, 4, 7], [5, 1], [8, 3, 9], 9, 1);
    assert [2] + [6, 4, 7] + [5, 1] + [8, 3, 9] == [2, 6, 4, 7, 5, 1, 8, 3, 9];
    assert [5, 1] + [6, 4, 7] + [8, 3, 9] + [2] == [5, 1, 6, 4, 7, 8, 3, 9, 2];
  }

  lemma Find90()
    ensures Destination(5, [1, 6, 4], 9) == 3 && FindFrom([5, 7, 8, 3, 9, 2], 3, 0) == Some(3)
  {
  }

  lemma Move90()
    ensures Move([5, 1, 6, 4, 7, 8, 3, 9, 2]) == Ok([7, 8, 3, 1, 6, 4, 9, 2, 5])
  {
    Find90();
    assert [5] + [7, 8, 3] + [9, 2] == [5, 7, 8, 3, 9, 2];
    MoveAt(5, [1, 6, 4], [7, 8, 3], [9, 2], 9, 3);
    assert [5] + [1, 6, 4] + [7, 8, 3] + [9, 2] == [5, 1, 6, 4, 7, 8, 3, 9, 2];
    assert [7, 8, 3] + [1, 6, 4] + [9, 2] + [5] == [7, 8, 3, 1, 6, 4, 9, 2, 5];
  }

  lemma Find91()
    ensures Destination(7, [8, 3, 1], 9) == 6 && FindFrom([7, 6, 4, 9, 2, 5], 6, 0) == Some(1)
  {
  }

  lemma Move91()
    ensures Move([7, 8, 3, 1, 6, 4, 9, 2, 5]) == Ok([6, 8, 3, 1, 4, 9, 2, 5, 7])
  {
    Find91();
    assert [7] + [6] + [4, 9, 2, 5] == [7, 6, 4, 9, 2, 5];
    MoveAt(7, [8, 3, 1], [6], [4, 9, 2, 5], 9, 6);
    assert [7] + [8, 3, 1] + [6] + [4, 9, 2, 5] == [7, 8, 3, 1, 6, 4, 9, 2, 5];
    assert [6] + [8, 3, 1] + [4, 9, 2, 5] + [7] == [6, 8, 3, 1, 4, 9, 2, 5, 7];
  }

  lemma Find92()
    ensures Destination(6, [8, 3, 1], 9) == 5 && FindFrom([6, 4, 9, 2, 5, 7], 5, 0) == Some(4)
  {
  }

  lemma Move92()
    ensures Move([6, 8, 3, 1, 4, 9, 2, 5, 7]) == Ok([4, 9, 2, 5, 8, 3, 1, 7, 6])
  {
    Find92();
    assert [6] + [4, 9, 2, 5] + [7] == [6, 4, 9, 2, 5, 7];
    MoveAt(6, [8, 3, 1], [4, 9, 2, 5], [7], 9, 5);
    assert [6] + [8, 3, 1] + [4, 9, 2, 5] + [7] == [6, 8, 3, 1, 4, 9, 2, 5, 7];
    assert [4, 9, 2, 5] + [8, 3, 1] + [7] + [6] == [4, 9, 2, 5, 8, 3, 1, 7, 6];
  }

  lemma Find93()
    ensures Destination(4, [9, 2, 5], 9) == 3 && FindFrom([4, 8, 3, 1, 7, 6], 3, 0) == Some(2)
  {
  }

  lemma Move93()
    ensures Move([4, 9, 2, 5, 8, 3, 1, 7, 6]) == Ok([8, 3, 9, 2, 5, 1, 7, 6, 4])
  {
    Find93();
    assert [4] + [8, 3] + [1, 7, 6] == [4, 8, 3, 1, 7, 6];
    MoveAt(4, [9, 2, 5], [8, 3], [1, 7, 6], 9, 3);
    assert [4] + [9, 2, 5] + [8, 3] + [1, 7, 6] == [4, 9, 2, 5, 8, 3, 1, 7, 6];
    assert [8, 3] + [9, 2, 5] + [1, 7, 6] + [4] == [8, 3, 9, 2, 5, 1, 7, 6, 4];
  }

  lemma Find94()
    ensures Destination(8, [3, 9, 2], 9) == 7 && FindFrom([8, 5, 1, 7, 6, 4], 7, 0) == Some(3)
  {
  }

  lemma Move94()
    ensures Move([8, 3, 9, 2, 5, 1, 7, 6, 4]) == Ok([5, 1, 7, 3, 9, 2, 6, 4, 8])
  {
    Find94();
    assert [8] + [5, 1, 7] + [6, 4] == [8, 5, 1, 7, 6, 4];
    MoveAt(8, [3, 9, 2], [5, 1, 7], [6, 4], 9, 7);
    assert [8] + [3, 9, 2] + [5, 1, 7] + [6, 4] == [8, 3, 9, 2, 5, 1, 7, 6, 4];
    assert [5, 1, 7] + [3, 9, 2] + [6, 4] + [8] == [5, 1, 7, 3, 9, 2, 6, 4, 8];
  }

  lemma Find95()
    ensures Destination(5, [1, 7, 3], 9) == 4 && FindFrom([5, 9, 2, 6, 4, 8], 4, 0) == Some(4)
  {
  }

  lemma Move95()
    ensures Move([5, 1, 7, 3, 9, 2, 6, 4, 8]) == Ok([9, 2, 6, 4, 1, 7, 3, 8, 5])
  {
    Find95();
    assert [5] + [9, 2, 6, 4] + [8] == [5, 9, 2, 6, 4, 8];
    MoveAt(5, [1, 7, 3], [9, 2, 6, 4], [8], 9, 4);
    assert [5] + [1, 7, 3] + [9, 2, 6, 4] + [8] == [5, 1, 7, 3, 9, 2, 6, 4, 8];
    assert [9, 2, 6, 4] + [1, 7, 3] + [8] + [5] == [9, 2, 6, 4, 1, 7, 3, 8, 5];
  }

  lemma Find96()
    ensures Destination(9, [2, 6, 4], 9) == 8 && FindFrom([9, 1, 7, 3, 8, 5], 8, 0) == Some(4)
  {
  }

  lemma Move96()
    ensures Move([9, 2, 6, 4, 1, 7, 3, 8, 5]) == Ok([1, 7, 3, 8, 2, 6, 4, 5, 9])
  {
    Find96();
    assert [9] + [1, 7, 3, 8] + [5] == [9, 1, 7, 3, 8, 5];
    MoveAt(9, [2, 6, 4], [1, 7, 3, 8], [5], 9, 8);
    assert [9] + [2, 6, 4] + [1, 7, 3, 8] + [5] == [9, 2, 6, 4, 1, 7, 3, 8, 5];
    assert [1, 7, 3, 8] + [2, 6, 4] + [5] + [9] == [1, 7, 3, 8, 2, 6, 4, 5, 9];
  }

  lemma Find97()
    ensures Destination(1, [7, 3, 8], 9) == 9 && FindFrom([1, 2, 6, 4, 5, 9], 9, 0) == Some(5)
  {
  }

  lemma Move97()
    ensures Move([1, 7, 3, 8, 2, 6, 4, 5, 9]) == Ok([2, 6, 4, 5, 9, 7, 3, 8, 1])
  {
    Find97();
    assert [1] + [2, 6, 4, 5, 9] + [] == [1, 2, 6, 4, 5, 9];
    MoveAt(1, [7, 3, 8], [2, 6, 4, 5, 9], [], 9, 9);
    assert [1] + [7, 3, 8] + [2, 6, 4, 5, 9] + [] == [1, 7, 3, 8, 2, 6, 4, 5, 9];
    assert [2, 6, 4, 5, 9] + [7, 3, 8] + [] + [1] == [2, 6, 4, 5, 9, 7, 3, 8, 1];
  }

  lemma Find98()
    ensures Destination(2, [6, 4, 5], 9) == 1 && FindFrom([2, 9, 7, 3, 8, 1], 1, 0) == Some(5)
  {
  }

  lemma Move98()
    ensures Move([2, 6, 4, 5, 9, 7, 3, 8, 1]) == Ok([9, 7, 3, 8, 1, 6, 4, 5, 2])
  {
    Find98();
    assert [2] + [9, 7, 3, 8, 1] + [] == [2, 9, 7, 3, 8, 1];
    MoveAt(2, [6, 4, 5], [9, 7, 3, 8, 1], [], 9, 1);
    assert [2] + [6, 4, 5] + [9, 7, 3, 8, 1] + [] == [2, 6, 4, 5, 9, 7, 3, 8, 1];
    assert [9, 7, 3, 8, 1] + [6, 4, 5] + [] + [2] == [9, 7, 3, 8, 1, 6, 4, 5, 2];
  }

  lemma Find99()
    ensures Destination(9, [7, 3, 8], 9) == 6 && FindFrom([9, 1, 6, 4, 5, 2], 6, 0) == Some(2)
  {
  }

  lemma Move99()
    ensures Move([9, 7, 3, 8, 1, 6, 4, 5, 2]) == Ok([1, 6, 7, 3, 8, 4, 5, 2, 9])
  {
    Find99();
    assert [9] + [1, 6] + [4, 5, 2] == [9, 1, 6, 4, 5, 2];
    MoveAt(9, [7, 3, 8], [1, 6], [4, 5, 2], 9, 6);
    assert [9] + [7, 3, 8] + [1, 6] + [4, 5, 2] == [9, 7, 3, 8, 1, 6, 4, 5, 2];
    assert [1, 6] + [7, 3, 8] + [4, 5, 2] + [9] == [1, 6, 7, 3, 8, 4, 5, 2, 9];
  }

  lemma Chain0(cups: seq<nat>, k: nat, k': nat)
    requires k' == k + 10 && Moves(cups, k) == Ok([3, 8, 9, 1, 2, 5, 4, 6, 7])
    ensures Moves(cups, k') == Ok([8, 3, 7, 4, 1, 9, 2, 6, 5])
  {
    Move0();
    MovesStep(cups, k + 0, [3, 8, 9, 1, 2, 5, 4, 6, 7], [2, 8, 9, 1, 5, 4, 6, 7, 3]);
    Move1();
    MovesStep(cups, k + 1, [2, 8, 9, 1, 5, 4, 6, 7, 3], [5, 4, 6, 7, 8, 9, 1, 3, 2]);
    Move2();
    MovesStep(cups, k + 2, [5, 4, 6, 7, 8, 9, 1, 3, 2], [8, 9, 1, 3, 4, 6, 7, 2, 5]);
    Move3();
    MovesStep(cups, k + 3, [8, 9, 1, 3, 4, 6, 7, 2, 5], [4, 6, 7, 9, 1, 3, 2, 5, 8]);
    Move4();
    MovesStep(cups, k + 4, [4, 6, 7, 9, 1, 3, 2, 5, 8], [1, 3, 6, 7, 9, 2, 5, 8, 4]);
    Move5();
    MovesStep(cups, k + 5, [1, 3, 6, 7, 9, 2, 5, 8, 4], [9, 3, 6, 7, 2, 5, 8, 4, 1]);
    Move6();
    MovesStep(cups, k + 6, [9, 3, 6, 7, 2, 5, 8, 4, 1], [2, 5, 8, 3, 6, 7, 4, 1, 9]);
    Move7();
    MovesStep(cups, k + 7, [2, 5, 8, 3, 6, 7, 4, 1, 9], [6, 7, 4, 1, 5, 8, 3, 9, 2]);
    Move8();
    MovesStep(cups, k + 8, [6, 7, 4, 1, 5, 8, 3, 9, 2], [5, 7, 4, 1, 8, 3, 9, 2, 6]);
    Move9();
    MovesStep(cups, k + 9, [5, 7, 4, 1, 8, 3, 9, 2, 6], [8, 3, 7, 4, 1, 9, 2, 6, 5]);
  }

  lemma Chain1(cups: seq<nat>, k: nat, k': nat)
    requires k' == k + 10 && Moves(cups, k) == Ok([8, 3, 7, 4, 1, 9, 2, 6, 5])
    ensures Moves(cups, k') == Ok([9, 3, 7, 2, 5, 8, 1, 6, 4])
  {
    Move10();
    MovesStep(cups, k + 0, [8, 3, 7, 4, 1, 9, 2, 6, 5], [1, 9, 2, 6, 3, 7, 4, 5, 8]);
    Move11();
    MovesStep(cups, k + 1, [1, 9, 2, 6, 3, 7, 4, 5, 8], [3, 7, 4, 5, 8, 9, 2, 6, 1]);
    Move12();
    MovesStep(cups, k + 2, [3, 7, 4, 5, 8, 9, 2, 6, 1], [8, 9, 2, 7, 4, 5, 6, 1, 3]);
    Move13();
    MovesStep(cups, k + 3, [8, 9, 2, 7, 4, 5, 6, 1, 3], [4, 5, 6, 9, 2, 7, 1, 3, 8]);
    Move14();
    MovesStep(cups, k + 4, [4, 5, 6, 9, 2, 7, 1, 3, 8], [2, 7, 1, 3, 5, 6, 9, 8, 4]);
    Move15();
    MovesStep(cups, k + 5, [2, 7, 1, 3, 5, 6, 9, 8, 4], [5, 6, 9, 7, 1, 3, 8, 4, 2]);
    Move16();
    MovesStep(cups, k + 6, [5, 6, 9, 7, 1, 3, 8, 4, 2], [1, 3, 8, 4, 6, 9, 7, 2, 5]);
    Move17();
    MovesStep(cups, k + 7, [1, 3, 8, 4, 6, 9, 7, 2, 5], [6, 9, 3, 8, 4, 7, 2, 5, 1]);
    Move18();
    MovesStep(cups, k + 8, [6, 9, 3, 8, 4, 7, 2, 5, 1], [4, 7, 2, 5, 9, 3, 8, 1, 6]);
    Move19();
    MovesStep(cups, k + 9, [4, 7, 2, 5, 9, 3, 8, 1, 6], [9, 3, 7, 2, 5, 8, 1, 6, 4]);
  }

  lemma Chain2(cups: seq<nat>, k: nat, k': nat)
    requires k' == k + 10 && Moves(cups, k) == Ok([9, 3, 7, 2, 5, 8, 1, 6, 4])
    ensures Moves(cups, k') == Ok([6, 7, 1, 3, 5, 2, 9, 8, 4])
  {
    Move20();
    MovesStep(cups, k + 0, [9, 3, 7, 2, 5, 8, 1, 6, 4], [5, 8, 3, 7, 2, 1, 6, 4, 9]);
    Move21();
    MovesStep(cups, k + 1, [5, 8, 3, 7, 2, 1, 6, 4, 9], [2, 1, 6, 4, 8, 3, 7, 9, 5]);
    Move22();
    MovesStep(cups, k + 2, [2, 1, 6, 4, 8, 3, 7, 9, 5], [8, 3, 7, 9, 1, 6, 4, 5, 2]);
    Move23();
    MovesStep(cups, k + 3, [8, 3, 7, 9, 1, 6, 4, 5, 2], [1, 6, 3, 7, 9, 4, 5, 2, 8]);
    Move24();
    MovesStep(cups, k + 4, [1, 6, 3, 7, 9, 4, 5, 2, 8], [9, 6, 3, 7, 4, 5, 2, 8, 1]);
    Move25();
    MovesStep(cups, k + 5, [9, 6, 3, 7, 4, 5, 2, 8, 1], [4, 5, 2, 8, 6, 3, 7, 1, 9]);
    Move26();
    MovesStep(cups, k + 6, [4, 5, 2, 8, 6, 3, 7, 1, 9], [6, 3, 5, 2, 8, 7, 1, 9, 4]);
    Move27();
    MovesStep(cups, k + 7, [6, 3, 5, 2, 8, 7, 1, 9, 4], [8, 7, 1, 9, 4, 3, 5, 2, 6]);
    Move28();
    MovesStep(cups, k + 8, [8, 7, 1, 9, 4, 3, 5, 2, 6], [4, 3, 5, 2, 6, 7, 1, 9, 8]);
    Move29();
    MovesStep(cups, k + 9, [4, 3, 5, 2, 6, 7, 1, 9, 8], [6, 7, 1, 3, 5, 2, 9, 8, 4]);
  }

  lemma Chain3(cups: seq<nat>, k: nat, k': nat)
    requires k' == k + 10 && Moves(cups, k) == Ok([6, 7, 1, 3, 5, 2, 9, 8, 4])
    ensures Moves(cups, k') == Ok([5, 4, 9, 7, 2, 3, 8, 1, 6])
  {
    Move30();
    MovesStep(cups, k + 0, [6, 7, 1, 3, 5, 2, 9, 8, 4], [5, 7, 1, 3, 2, 9, 8, 4, 6]);
    Move31();
    MovesStep(cups, k + 1, [5, 7, 1, 3, 2, 9, 8, 4, 6], [2, 9, 8, 4, 7, 1, 3, 6, 5]);
    Move32();
    MovesStep(cups, k + 2, [2, 9, 8, 4, 7, 1, 3, 6, 5], [7, 1, 9, 8, 4, 3, 6, 5, 2]);
    Move33();
    MovesStep(cups, k + 3, [7, 1, 9, 8, 4, 3, 6, 5, 2], [4, 3, 6, 1, 9, 8, 5, 2, 7]);
    Move34();
    MovesStep(cups, k + 4, [4, 3, 6, 1, 9, 8, 5, 2, 7], [9, 8, 5, 2, 3, 6, 1, 7, 4]);
    Move35();
    MovesStep(cups, k + 5, [9, 8, 5, 2, 3, 6, 1, 7, 4], [3, 6, 1, 7, 8, 5, 2, 4, 9]);
    Move36();
    MovesStep(cups, k + 6, [3, 6, 1, 7, 8, 5, 2, 4, 9], [8, 5, 2, 6, 1, 7, 4, 9, 3]);
    Move37();
    MovesStep(cups, k + 7, [8, 5, 2, 6, 1, 7, 4, 9, 3], [1, 7, 5, 2, 6, 4, 9, 3, 8]);
    Move38();
    MovesStep(cups, k + 8, [1, 7, 5, 2, 6, 4, 9, 3, 8], [6, 4, 9, 7, 5, 2, 3, 8, 1]);
    Move39();
    MovesStep(cups, k + 9, [6, 4, 9, 7, 5, 2, 3, 8, 1], [5, 4, 9, 7, 2, 3, 8, 1, 6]);
  }

  lemma Chain4(cups: seq<nat>, k: nat, k': nat)
    requires k' == k + 10 && Moves(cups, k) == Ok([5, 4, 9, 7, 2, 3, 8, 1, 6])
    ensures Moves(cups, k') == Ok([4, 2, 5, 3, 1, 8, 9, 7, 6])
  {
    Move40();
    MovesStep(cups, k + 0, [5, 4, 9, 7, 2, 3, 8, 1, 6], [2, 3, 4, 9, 7, 8, 1, 6, 5]);
    Move41();
    MovesStep(cups, k + 1, [2, 3, 4, 9, 7, 8, 1, 6, 5], [7, 8, 1, 3, 4, 9, 6, 5, 2]);
    Move42();
    MovesStep(cups, k + 2, [7, 8, 1, 3, 4, 9, 6, 5, 2], [4, 9, 6, 8, 1, 3, 5, 2, 7]);
    Move43();
    MovesStep(cups, k + 3, [4, 9, 6, 8, 1, 3, 5, 2, 7], [1, 3, 9, 6, 8, 5, 2, 7, 4]);
    Move44();
    MovesStep(cups, k + 4, [1, 3, 9, 6, 8, 5, 2, 7, 4], [8, 3, 9, 6, 5, 2, 7, 4, 1]);
    Move45();
    MovesStep(cups, k + 5, [8, 3, 9, 6, 5, 2, 7, 4, 1], [5, 2, 7, 3, 9, 6, 4, 1, 8]);
    Move46();
    MovesStep(cups, k + 6, [5, 2, 7, 3, 9, 6, 4, 1, 8], [9, 6, 4, 2, 7, 3, 1, 8, 5]);
    Move47();
    MovesStep(cups, k + 7, [9, 6, 4, 2, 7, 3, 1, 8, 5], [7, 3, 1, 8, 6, 4, 2, 5, 9]);
    Move48();
    MovesStep(cups, k + 8, [7, 3, 1, 8, 6, 4, 2, 5, 9], [6, 3, 1, 8, 4, 2, 5, 9, 7]);
    Move49();
    MovesStep(cups, k + 9, [6, 3, 1, 8, 4, 2, 5, 9, 7], [4, 2, 5, 3, 1, 8, 9, 7, 6]);
  }

  lemma Chain5(cups: seq<nat>, k: nat, k': nat)
    requires k' == k + 10 && Moves(cups, k) == Ok([4, 2, 5, 3, 1, 8, 9, 7, 6])
    ensures Moves(cups, k') == Ok([8, 2, 1, 6, 3, 5, 7, 9, 4])
  {
    Move50();
    MovesStep(cups, k + 0, [4, 2, 5, 3, 1, 8, 9, 7, 6], [1, 2, 5, 3, 8, 9, 7, 6, 4]);
    Move51();
    MovesStep(cups, k + 1, [1, 2, 5, 3, 8, 9, 7, 6, 4], [8, 9, 2, 5, 3, 7, 6, 4, 1]);
    Move52();
    MovesStep(cups, k + 2, [8, 9, 2, 5, 3, 7, 6, 4, 1], [3, 7, 9, 2, 5, 6, 4, 1, 8]);
    Move53();
    MovesStep(cups, k + 3, [3, 7, 9, 2, 5, 6, 4, 1, 8], [5, 6, 4, 1, 7, 9, 2, 8, 3]);
    Move54();
    MovesStep(cups, k + 4, [5, 6, 4, 1, 7, 9, 2, 8, 3], [7, 9, 2, 8, 3, 6, 4, 1, 5]);
    Move55();
    MovesStep(cups, k + 5, [7, 9, 2, 8, 3, 6, 4, 1, 5], [3, 6, 9, 2, 8, 4, 1, 5, 7]);
    Move56();
    MovesStep(cups, k + 6, [3, 6, 9, 2, 8, 4, 1, 5, 7], [8, 4, 1, 6, 9, 2, 5, 7, 3]);
    Move57();
    MovesStep(cups, k + 7, [8, 4, 1, 6, 9, 2, 5, 7, 3], [9, 2, 5, 7, 4, 1, 6, 3, 8]);
    Move58();
    MovesStep(cups, k + 8, [9, 2, 5, 7, 4, 1, 6, 3, 8], [4, 1, 6, 3, 8, 2, 5, 7, 9]);
    Move59();
    MovesStep(cups, k + 9, [4, 1, 6, 3, 8, 2, 5, 7, 9], [8, 2, 1, 6, 3, 5, 7, 9, 4]);
  }

  lemma Chain6(cups: seq<nat>, k: nat, k': nat)
    requires k' == k + 10 && Moves(cups, k) == Ok([8, 2, 1, 6, 3, 5, 7, 9, 4])
    ensures Moves(cups, k') == Ok([2, 9, 5, 1, 7, 4, 8, 6, 3])
  {
    Move60();
    MovesStep(cups, k + 0, [8, 2, 1, 6, 3, 5, 7, 9, 4], [3, 5, 7, 2, 1, 6, 9, 4, 8]);
    Move61();
    MovesStep(cups, k + 1, [3, 5, 7, 2, 1, 6, 9, 4, 8], [1, 5, 7, 2, 6, 9, 4, 8, 3]);
    Move62();
    MovesStep(cups, k + 2, [1, 5, 7, 2, 6, 9, 4, 8, 3], [6, 9, 5, 7, 2, 4, 8, 3, 1]);
    Move63();
    MovesStep(cups, k + 3, [6, 9, 5, 7, 2, 4, 8, 3, 1], [2, 4, 9, 5, 7, 8, 3, 1, 6]);
    Move64();
    MovesStep(cups, k + 4, [2, 4, 9, 5, 7, 8, 3, 1, 6], [7, 8, 3, 1, 4, 9, 5, 6, 2]);
    Move65();
    MovesStep(cups, k + 5, [7, 8, 3, 1, 4, 9, 5, 6, 2], [4, 9, 5, 6, 8, 3, 1, 2, 7]);
    Move66();
    MovesStep(cups, k + 6, [4, 9, 5, 6, 8, 3, 1, 2, 7], [8, 3, 9, 5, 6, 1, 2, 7, 4]);
    Move67();
    MovesStep(cups, k + 7, [8, 3, 9, 5, 6, 1, 2, 7, 4], [6, 1, 2, 7, 3, 9, 5, 4, 8]);
    Move68();
    MovesStep(cups, k + 8, [6, 1, 2, 7, 3, 9, 5, 4, 8], [3, 9, 5, 1, 2, 7, 4, 8, 6]);
    Move69();
    MovesStep(cups, k + 9, [3, 9, 5, 1, 2, 7, 4, 8, 6], [2, 9, 5, 1, 7, 4, 8, 6, 3]);
  }

  lemma Chain7(cups: seq<nat>, k: nat, k': nat)
    requires k' == k + 10 && Moves(cups, k) == Ok([2, 9, 5, 1, 7, 4, 8, 6, 3])
    ensures Moves(cups, k') == Ok([7, 8, 4, 6, 9, 2, 3, 1, 5])
  {
    Move70();
    MovesStep(cups, k + 0, [2, 9, 5, 1, 7, 4, 8, 6, 3], [7, 4, 8, 9, 5, 1, 6, 3, 2]);
    Move71();
    MovesStep(cups, k + 1, [7, 4, 8, 9, 5, 1, 6, 3, 2], [5, 1, 6, 4, 8, 9, 3, 2, 7]);
    Move72();
    MovesStep(cups, k + 2, [5, 1, 6, 4, 8, 9, 3, 2, 7], [8, 9, 3, 1, 6, 4, 2, 7, 5]);
    Move73();
    MovesStep(cups, k + 3, [8, 9, 3, 1, 6, 4, 2, 7, 5], [6, 4, 2, 7, 9, 3, 1, 5, 8]);
    Move74();
    MovesStep(cups, k + 4, [6, 4, 2, 7, 9, 3, 1, 5, 8], [9, 3, 1, 5, 4, 2, 7, 8, 6]);
    Move75();
    MovesStep(cups, k + 5, [9, 3, 1, 5, 4, 2, 7, 8, 6], [4, 2, 7, 8, 3, 1, 5, 6, 9]);
    Move76();
    MovesStep(cups, k + 6, [4, 2, 7, 8, 3, 1, 5, 6, 9], [3, 2, 7, 8, 1, 5, 6, 9, 4]);
    Move77();
    MovesStep(cups, k + 7, [3, 2, 7, 8, 1, 5, 6, 9, 4], [1, 2, 7, 8, 5, 6, 9, 4, 3]);
    Move78();
    MovesStep(cups, k + 8, [1, 2, 7, 8, 5, 6, 9, 4, 3], [5, 6, 9, 2, 7, 8, 4, 3, 1]);
    Move79();
    MovesStep(cups, k + 9, [5, 6, 9, 2, 7, 8, 4, 3, 1], [7, 8, 4, 6, 9, 2, 3, 1, 5]);
  }

  lemma Chain8(cups: seq<nat>, k: nat, k': nat)
    requires k' == k + 10 && Moves(cups, k) == Ok([7, 8, 4, 6, 9, 2, 3, 1, 5])
    ensures Moves(cups, k') == Ok([5, 1, 6, 4, 7, 8, 3, 9, 2])
  {
    Move80();
    MovesStep(cups, k + 0, [7, 8, 4, 6, 9, 2, 3, 1, 5], [9, 2, 3, 1, 5, 8, 4, 6, 7]);
    Move81();
    MovesStep(cups, k + 1, [9, 2, 3, 1, 5, 8, 4, 6, 7], [5, 8, 2, 3, 1, 4, 6, 7, 9]);
    Move82();
    MovesStep(cups, k + 2, [5, 8, 2, 3, 1, 4, 6, 7, 9], [1, 4, 8, 2, 3, 6, 7, 9, 5]);
    Move83();
    MovesStep(cups, k + 3, [1, 4, 8, 2, 3, 6, 7, 9, 5], [3, 6, 7, 9, 4, 8, 2, 5, 1]);
    Move84();
    MovesStep(cups, k + 4, [3, 6, 7, 9, 4, 8, 2, 5, 1], [4, 8, 2, 6, 7, 9, 5, 1, 3]);
    Move85();
    MovesStep(cups, k + 5, [4, 8, 2, 6, 7, 9, 5, 1, 3], [7, 9, 5, 1, 3, 8, 2, 6, 4]);
    Move86();
    MovesStep(cups, k + 6, [7, 9, 5, 1, 3, 8, 2, 6, 4], [3, 8, 2, 6, 9, 5, 1, 4, 7]);
    Move87();
    MovesStep(cups, k + 7, [3, 8, 2, 6, 9, 5, 1, 4, 7], [9, 5, 1, 8, 2, 6, 4, 7, 3]);
    Move88();
    MovesStep(cups, k + 8, [9, 5, 1, 8, 2, 6, 4, 7, 3], [2, 6, 4, 7, 5, 1, 8, 3, 9]);
    Move89();
    MovesStep(cups, k + 9, [2, 6, 4, 7, 5, 1, 8, 3, 9], [5, 1, 6, 4, 7, 8, 3, 9, 2]);
  }

  lemma Chain9(cups: seq<nat>, k: nat, k': nat)
    requires k' == k + 10 && Moves(cups, k) == Ok([5, 1, 6, 4, 7, 8, 3, 9, 2])
    ensures Moves(cups, k') == Ok([1, 6, 7, 3, 8, 4, 5, 2, 9])
  {
    Move90();
    MovesStep(cups, k + 0, [5, 1, 6, 4, 7, 8, 3, 9, 2], [7, 8, 3, 1, 6, 4, 9, 2, 5]);
    Move91();
    MovesStep(cups, k + 1, [7, 8, 3, 1, 6, 4, 9, 2, 5], [6, 8, 3, 1, 4, 9, 2, 5, 7]);
    Move92();
    MovesStep(cups, k + 2, [6, 8, 3, 1, 4, 9, 2, 5, 7], [4, 9, 2, 5, 8, 3, 1, 7, 6]);
    Move93();
    MovesStep(cups, k + 3, [4, 9, 2, 5, 8, 3, 1, 7, 6], [8, 3, 9, 2, 5, 1, 7, 6, 4]);
    Move94();
    MovesStep(cups, k + 4, [8, 3, 9, 2, 5, 1, 7, 6, 4], [5, 1, 7, 3, 9, 2, 6, 4, 8]);
    Move95();
    MovesStep(cups, k + 5, [5, 1, 7, 3, 9, 2, 6, 4, 8], [9, 2, 6, 4, 1, 7, 3, 8, 5]);
    Move96();
    MovesStep(cups, k + 6, [9, 2, 6, 4, 1, 7, 3, 8, 5], [1, 7, 3, 8, 2, 6, 4, 5, 9]);
    Move97();
    MovesStep(cups, k + 7, [1, 7, 3, 8, 2, 6, 4, 5, 9], [2, 6, 4, 5, 9, 7, 3, 8, 1]);
    Move98();
    MovesStep(cups, k + 8, [2, 6, 4, 5, 9, 7, 3, 8, 1], [9, 7, 3, 8, 1, 6, 4, 5, 2]);
    Move99();
    MovesStep(cups, k + 9, [9, 7, 3, 8, 1, 6, 4, 5, 2], [1, 6, 7, 3, 8, 4, 5, 2, 9]);
  }

  lemma Group0(cups: seq<nat>, k: nat, k': nat)
    requires k' == k + 20 && Moves(cups, k) == Ok([3, 8, 9, 1, 2, 5, 4, 6, 7])
    ensures Moves(cups, k') == Ok([9, 3, 7, 2, 5, 8, 1, 6, 4])
  {
    Chain0(cups, k + 0, k + 10);
    Chain1(cups, k + 10, k + 20);
  }

  lemma Group1(cups: seq<nat>, k: nat, k': nat)
    requires k' == k + 20 && Moves(cups, k) == Ok([9, 3, 7, 2, 5, 8, 1, 6, 4])
    ensures Moves(cups, k') == Ok([5, 4, 9, 7, 2, 3, 8, 1, 6])
  {
    Chain2(cups, k + 0, k + 10);
    Chain3(cups, k + 10, k + 20);
  }

  lemma Group2(cups: seq<nat>, k: nat, k': nat)
    requires k' == k + 20 && Moves(cups, k) == Ok([5, 4, 9, 7, 2, 3, 8, 1, 6])
    ensures Moves(cups, k') == Ok([8, 2, 1, 6, 3, 5, 7, 9, 4])
  {
    Chain4(cups, k + 0, k + 10);
    Chain5(cups, k + 10, k + 20);
  }

  lemma Group3(cups: seq<nat>, k: nat, k': nat)
    requires k' == k + 20 && Moves(cups, k) == Ok([8, 2, 1, 6, 3, 5, 7, 9, 4])
    ensures Moves(cups, k') == Ok([7, 8, 4, 6, 9, 2, 3, 1, 5])
  {
    Chain6(cups, k + 0, k + 10);
    Chain7(cups, k + 10, k + 20);
  }

  lemma Group4(cups: seq<nat>, k: nat, k': nat)
    requires k' == k + 20 && Moves(cups, k) == Ok([7, 8, 4, 6, 9, 2, 3, 1, 5])
    ensures Moves(cups, k') == Ok([1, 6, 7, 3, 8, 4, 5, 2, 9])
  {
    Chain8(cups, k + 0, k + 10);
    Chain9(cups, k + 10, k + 20);
  }

  /** The sample cups after 100 moves. */
  lemma SampleMoves(cups: seq<nat>, k: nat)
    requires Moves(cups, k) == Ok(SampleCups)
    ensures Moves(cups, k + 100) == Ok([1, 6, 7, 3, 8, 4, 5, 2, 9])
  {
    Group0(cups, k + 0, k + 20);
    Group1(cups, k + 20, k + 40);
    Group2(cups, k + 40, k + 60);
    Group3(cups, k + 60, k + 80);
    Group4(cups, k + 80, k + 100);
  }

  /** `test_day23_part1`. */
  lemma SamplePart1(cups: seq<nat>, k: nat)
    requires cups == SampleCups && k == 0
    ensures AfterMoves(cups, k + 100) == Ok([6, 7, 3, 8, 4, 5, 2, 9])
  {
    assert Moves(cups, k) == Ok(cups);
    SampleMoves(cups, k);
    var last := [1, 6, 7, 3, 8, 4, 5, 2, 9];
    assert OneAt(last) == 0;
    assert AfterOne(last) == [6, 7, 3, 8, 4, 5, 2, 9];
  }
}
