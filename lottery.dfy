// The prize classifier `calculate_reward` of the "Double Color Ball"
// predictor: a guess and a draw are seven numbers each, six red numbers
// compared as sets and one blue number at index 6.

module Lottery {

  /** The red numbers of a guess or draw: its first six entries, as a set. */
  function Reds(s: seq<int>): set<int>
    requires |s| >= 6
  {
    set x | x in s[..6]
  }

  /** How many red numbers the guess shares with the draw. */
  function Overlap(predicted: seq<int>, actual: seq<int>): nat
    requires |predicted| >= 6 && |actual| >= 6
  {
    |Reds(predicted) * Reds(actual)|
  }

  predicate BlueMatch(predicted: seq<int>, actual: seq<int>)
    requires |predicted| >= 7 && |actual| >= 7
  {
    predicted[6] == actual[6]
  }

  /** A real draw: six different red numbers. */
  predicate DistinctReds(s: seq<int>)
    requires |s| >= 6
  {
    forall i, j :: 0 <= i < j < 6 ==> s[i] != s[j]
  }

  /** `calculate_reward`, branch by branch. */
  function Reward(predicted: seq<int>, actual: seq<int>): (r: nat)
    requires |predicted| >= 7 && |actual| >= 7
    ensures r in {7000000, 180000, 3000, 200, 10, 5, 0}
  {
    var sameReds := Reds(predicted) == Reds(actual);
    var blue := BlueMatch(predicted, actual);
    var m := Overlap(predicted, actual);
    if sameReds && blue then 7000000
    else if sameReds then 180000
    else if m == 5 && blue then 3000
    else if m == 5 || (m == 4 && blue) then 200
    else if m == 4 || (m == 3 && blue) then 10
    else if m == 2 && blue then 5
    else if m == 1 && blue then 5
    else if blue then 5
    else 0
  }

  /** The prize table of the game: red numbers matched and whether the blue
      one matched give the tier. */
  function TierPrize(matched: nat, blue: bool): nat
    requires matched <= 6
  {
    match (matched, blue)
    case (6, true) => 7000000   // first prize
    case (6, false) => 180000   // second prize
    case (5, true) => 3000      // third prize
    case (5, false) => 200      // fourth prize
    case (4, true) => 200
    case (4, false) => 10       // fifth prize
    case (3, true) => 10
    case (_, true) => 5         // sixth prize
    case (_, false) => 0
  }

  // ---------------------------------------------------------------------
  // Set sizes

  /** A sequence has no more distinct elements than entries. */
  lemma {:induction false} ElementsAtMost(s: seq<int>)
    ensures |set x | x in s| <= |s|
  {
    if s != [] {
      var init := s[..|s| - 1];
      ElementsAtMost(init);
      assert (set x | x in s) == (set x | x in init) + {s[|s| - 1]};
    }
  }

  /** A sequence without repeats has as many distinct elements as entries. */
  lemma {:induction false} ElementsExactly(s: seq<int>)
    requires forall i, j :: 0 <= i < j < |s| ==> s[i] != s[j]
    ensures |set x | x in s| == |s|
  {
    if s != [] {
      var init := s[..|s| - 1];
      ElementsExactly(init);
      assert (set x | x in s) == (set x | x in init) + {s[|s| - 1]};
      assert s[|s| - 1] !in init;
    }
  }

  /** A subset is no larger, and a subset as large as its superset is equal to it. */
  lemma SubsetSize(a: set<int>, b: set<int>)
    requires a <= b
    ensures |a| <= |b|
    ensures |a| == |b| ==> a == b
  {
    assert b == a + (b - a);
    assert a * (b - a) == {};
    assert |b| == |a| + |b - a|;
    if |a| == |b| {
      assert b - a == {};
      assert b == a;
    }
  }

  lemma RedsAtMostSix(s: seq<int>)
    requires |s| >= 6
    ensures |Reds(s)| <= 6
  {
    ElementsAtMost(s[..6]);
  }

  lemma DistinctRedsAreSix(s: seq<int>)
    requires |s| >= 6 && DistinctReds(s)
    ensures |Reds(s)| == 6
  {
    ElementsExactly(s[..6]);
  }

  /** At most six red numbers can match. */
  lemma OverlapAtMostSix(predicted: seq<int>, actual: seq<int>)
    requires |predicted| >= 6 && |actual| >= 6
    ensures Overlap(predicted, actual) <= 6
  {
    RedsAtMostSix(actual);
    SubsetSize(Reds(predicted) * Reds(actual), Reds(actual));
  }

  /** Against a draw of six different reds, equal red sets is six matches. */
  lemma SameRedsIffSixMatch(predicted: seq<int>, actual: seq<int>)
    requires |predicted| >= 6 && |actual| >= 6 && DistinctReds(actual)
    ensures Reds(predicted) == Reds(actual) <==> Overlap(predicted, actual) == 6
  {
    DistinctRedsAreSix(actual);
    RedsAtMostSix(predicted);
    var both := Reds(predicted) * Reds(actual);
    if Reds(predicted) == Reds(actual) {
      assert both == Reds(actual);
    }
    if Overlap(predicted, actual) == 6 {
      SubsetSize(both, Reds(actual));
      SubsetSize(Reds(actual), Reds(predicted));
    }
  }

  // ---------------------------------------------------------------------
  // Properties of the classifier

  /** Against a real draw the classifier is the prize table. */
  lemma RewardFollowsTierTable(predicted: seq<int>, actual: seq<int>)
    requires |predicted| >= 7 && |actual| >= 7 && DistinctReds(actual)
    ensures Overlap(predicted, actual) <= 6
    ensures Reward(predicted, actual) == TierPrize(Overlap(predicted, actual), BlueMatch(predicted, actual))
  {
    OverlapAtMostSix(predicted, actual);
    SameRedsIffSixMatch(predicted, actual);
  }

  /** First prize exactly when the red sets are equal and blue matches. */
  lemma JackpotIff(predicted: seq<int>, actual: seq<int>)
    requires |predicted| >= 7 && |actual| >= 7
    ensures Reward(predicted, actual) == 7000000
            <==> Reds(predicted) == Reds(actual) && BlueMatch(predicted, actual)
  {
  }

  /** Second prize exactly when the red sets are equal and blue does not match. */
  lemma SecondPrizeIff(predicted: seq<int>, actual: seq<int>)
    requires |predicted| >= 7 && |actual| >= 7
    ensures Reward(predicted, actual) == 180000
            <==> Reds(predicted) == Reds(actual) && !BlueMatch(predicted, actual)
  {
  }

  /** A blue match always wins something, at least five. */
  lemma BlueMatchPaysAtLeastFive(predicted: seq<int>, actual: seq<int>)
    requires |predicted| >= 7 && |actual| >= 7 && BlueMatch(predicted, actual)
    ensures Reward(predicted, actual) >= 5
  {
  }

  /** Without a blue match the guess wins only with equal red sets or four
      or five shared reds, and then it wins 180000, 200 or 10. */
  lemma BlueMissPays(predicted: seq<int>, actual: seq<int>)
    requires |predicted| >= 7 && |actual| >= 7 && !BlueMatch(predicted, actual)
    ensures Reward(predicted, actual) != 0
            <==> Reds(predicted) == Reds(actual) || Overlap(predicted, actual) in {4, 5}
    ensures Reward(predicted, actual) in {180000, 200, 10, 0}
  {
  }

  /** Nothing is won exactly when neither the blue number nor enough reds match. */
  lemma NothingWonIff(predicted: seq<int>, actual: seq<int>)
    requires |predicted| >= 7 && |actual| >= 7
    ensures Reward(predicted, actual) == 0
            <==> !BlueMatch(predicted, actual) && Reds(predicted) != Reds(actual)
                 && Overlap(predicted, actual) < 4
  {
    OverlapAtMostSix(predicted, actual);
    if Overlap(predicted, actual) == 6 {
      SixMatchesMeanSameReds(predicted, actual);
    }
  }

  /** Six shared reds means equal red sets, whatever the draw. */
  lemma SixMatchesMeanSameReds(predicted: seq<int>, actual: seq<int>)
    requires |predicted| >= 6 && |actual| >= 6 && Overlap(predicted, actual) == 6
    ensures Reds(predicted) == Reds(actual)
  {
    RedsAtMostSix(predicted);
    RedsAtMostSix(actual);
    var both := Reds(predicted) * Reds(actual);
    SubsetSize(both, Reds(actual));
    SubsetSize(both, Reds(predicted));
  }

  /** The reward reads only the first seven entries. */
  lemma OnlyFirstSevenCount(p1: seq<int>, p2: seq<int>, a1: seq<int>, a2: seq<int>)
    requires |p1| >= 7 && |p2| >= 7 && |a1| >= 7 && |a2| >= 7
    requires p1[..7] == p2[..7] && a1[..7] == a2[..7]
    ensures Reward(p1, a1) == Reward(p2, a2)
  {
    assert p1[..6] == p1[..7][..6] && p2[..6] == p2[..7][..6];
    assert a1[..6] == a1[..7][..6] && a2[..6] == a2[..7][..6];
    assert p1[6] == p1[..7][6] && p2[6] == p2[..7][6];
    assert a1[6] == a1[..7][6] && a2[6] == a2[..7][6];
  }

  /** Reordering or repeating red numbers changes nothing as long as the
      red sets and the blue numbers stay the same. */
  lemma OnlyRedSetsCount(p1: seq<int>, p2: seq<int>, a1: seq<int>, a2: seq<int>)
    requires |p1| >= 7 && |p2| >= 7 && |a1| >= 7 && |a2| >= 7
    requires Reds(p1) == Reds(p2) && Reds(a1) == Reds(a2)
    requires p1[6] == p2[6] && a1[6] == a2[6]
    ensures Reward(p1, a1) == Reward(p2, a2)
  {
  }

  /** In particular a permutation of the six reds leaves the reward alone. */
  lemma PermutedRedsCount(p1: seq<int>, p2: seq<int>, actual: seq<int>)
    requires |p1| >= 7 && |p2| >= 7 && |actual| >= 7
    requires multiset(p1[..6]) == multiset(p2[..6]) && p1[6] == p2[6]
    ensures Reward(p1, actual) == Reward(p2, actual)
  {
    assert forall x :: x in p1[..6] <==> x in multiset(p1[..6]);
    assert forall x :: x in p2[..6] <==> x in multiset(p2[..6]);
    assert Reds(p1) == Reds(p2);
  }

  /** The prize table never pays less for more matched reds. */
  lemma TierMonotone(m1: nat, m2: nat, blue: bool)
    requires m1 <= m2 <= 6
    ensures TierPrize(m1, blue) <= TierPrize(m2, blue)
  {
  }

  /** Against a real draw, with the blue outcome fixed, sharing more reds
      never pays less. */
  lemma RewardMonotoneInOverlap(p1: seq<int>, p2: seq<int>, actual: seq<int>)
    requires |p1| >= 7 && |p2| >= 7 && |actual| >= 7 && DistinctReds(actual)
    requires BlueMatch(p1, actual) == BlueMatch(p2, actual)
    requires Overlap(p1, actual) <= Overlap(p2, actual)
    ensures Reward(p1, actual) <= Reward(p2, actual)
  {
    RewardFollowsTierTable(p1, actual);
    RewardFollowsTierTable(p2, actual);
    TierMonotone(Overlap(p1, actual), Overlap(p2, actual), BlueMatch(p1, actual));
  }

  /** Against a real draw, of two guesses sharing as many reds with it, the
      one that matches the blue number never pays less. */
  lemma BlueMatchNeverWorse(p1: seq<int>, p2: seq<int>, actual: seq<int>)
    requires |p1| >= 7 && |p2| >= 7 && |actual| >= 7 && DistinctReds(actual)
    requires Overlap(p1, actual) == Overlap(p2, actual) && BlueMatch(p1, actual) && !BlueMatch(p2, actual)
    ensures Reward(p1, actual) >= Reward(p2, actual)
  {
    RewardFollowsTierTable(p1, actual);
    RewardFollowsTierTable(p2, actual);
  }

  /** Against any draw, of two guesses with the same reds, the one that
      matches the blue number never pays less. */
  lemma SameRedsBlueMatchNeverWorse(p1: seq<int>, p2: seq<int>, actual: seq<int>)
    requires |p1| >= 7 && |p2| >= 7 && |actual| >= 7
    requires Reds(p1) == Reds(p2) && BlueMatch(p1, actual) && !BlueMatch(p2, actual)
    ensures Reward(p1, actual) >= Reward(p2, actual)
  {
    assert Overlap(p1, actual) == Overlap(p2, actual);
  }

  /** Against a draw with a repeated red the table does not apply: the same
      single shared red pays the first prize for one guess and five for
      another. */
  lemma RepeatedDrawRedsLeaveTheTable(predicted: seq<int>, other: seq<int>, actual: seq<int>)
    requires actual == [1, 1, 1, 1, 1, 1, 9]
    requires predicted == [1, 1, 1, 1, 1, 1, 9] && other == [1, 2, 3, 4, 5, 6, 9]
    ensures Overlap(predicted, actual) == 1 && Overlap(other, actual) == 1
    ensures Reward(predicted, actual) == 7000000 && TierPrize(1, true) == 5
    ensures Reward(other, actual) == 5
  {
    assert Reds(actual) == {1} by {
      assert actual[..6] == [1, 1, 1, 1, 1, 1];
    }
    assert Reds(other) == {1, 2, 3, 4, 5, 6} by {
      assert other[..6] == [1, 2, 3, 4, 5, 6];
    }
    assert Reds(other) * Reds(actual) == {1};
  }

  /** Against a draw with a repeated red, equal overlap is not enough for
      `BlueMatchNeverWorse`: a guess that shares one red and the blue number
      pays 5, one that shares one red and misses the blue pays the second
      prize, because its reds equal the draw's as sets. */
  lemma RepeatedDrawBlueMatchPaysLess(p1: seq<int>, p2: seq<int>, actual: seq<int>)
    requires actual == [1, 1, 1, 1, 1, 1, 9]
    requires p1 == [1, 2, 3, 4, 5, 6, 9] && p2 == [1, 1, 1, 1, 1, 1, 0]
    ensures Overlap(p1, actual) == 1 && Overlap(p2, actual) == 1
    ensures BlueMatch(p1, actual) && !BlueMatch(p2, actual)
    ensures Reward(p1, actual) == 5 && Reward(p2, actual) == 180000
  {
    assert Reds(actual) == {1} by {
      assert actual[..6] == [1, 1, 1, 1, 1, 1];
    }
    assert Reds(p2) == {1} by {
      assert p2[..6] == [1, 1, 1, 1, 1, 1];
    }
    assert Reds(p1) == {1, 2, 3, 4, 5, 6} by {
      assert p1[..6] == [1, 2, 3, 4, 5, 6];
    }
    assert Reds(p1) * Reds(actual) == {1};
  }
}
