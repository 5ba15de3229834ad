// What `evalHand` returns, stated in terms of the cards: when the result is
// a flush, a straight, the low-ace straight, or what the pair family found.

module HandFacts {
  import opened SeqUtil
  import opened PokerTypes
  import opened HandEval

  /** The cards of suit `su`, in card order. */
  function CardsOfSuit(cards: seq<Card>, su: Suit): (r: seq<Card>)
    ensures |r| <= |cards|
  {
    if cards == [] then []
    else
      var n := |cards| - 1;
      CardsOfSuit(cards[..n], su) + (if cards[n].suit == su then [cards[n]] else [])
  }

  /** No suit occurs exactly five times. */
  predicate NoFlushSuit(cards: seq<Card>)
  {
    forall su: Suit :: |CardsOfSuit(cards, su)| != 5
  }

  /** Five neighbouring entries of `u`, from position j, step down by one. */
  predicate RunOfFiveAt(u: seq<int>, j: int)
  {
    0 <= j && j + 5 <= |u|
    && u[j + 1] == u[j] - 1 && u[j + 2] == u[j] - 2 && u[j + 3] == u[j] - 3 && u[j + 4] == u[j] - 4
  }

  /** The last four entries of `u` step down by one, and the entry before
      them (if any) does not continue the run. */
  predicate LowFourRun(u: seq<int>)
  {
    |u| >= 4 && u[|u| - 4] == u[|u| - 1] + 3 && u[|u| - 3] == u[|u| - 1] + 2 && u[|u| - 2] == u[|u| - 1] + 1
    && (|u| == 4 || u[|u| - 5] != u[|u| - 4] + 1)
  }

  /** The suit list counts the cards of a suit. */
  lemma {:induction false} SuitCountIsCards(cards: seq<Card>, su: Suit)
    ensures multiset(SuitValues(cards))[su.Value()] == |CardsOfSuit(cards, su)|
  {
    if cards != [] {
      var n := |cards| - 1;
      SuitCountIsCards(cards[..n], su);
      assert SuitValues(cards) == SuitValues(cards[..n]) + [cards[n].suit.Value()];
      assert cards[n].suit.Value() == su.Value() <==> cards[n].suit == su;
    }
  }

  /** The flush loop over the rank and suit lists collects exactly the
      ace-high ranks of the cards of that suit, in card order. */
  lemma {:induction false} FlushRanksAreSuitRanks(cards: seq<Card>, su: Suit)
    ensures FlushRanks(HighRanks(cards), SuitValues(cards), su.Value()) == HighRanks(CardsOfSuit(cards, su))
  {
    if cards != [] {
      var n := |cards| - 1;
      var prev := cards[..n];
      var tail := if cards[n].suit == su then [cards[n]] else [];
      FlushRanksOfLast(cards, su);
      FlushRanksAreSuitRanks(prev, su);
      HighRanksConcat(CardsOfSuit(prev, su), tail);
      assert CardsOfSuit(cards, su) == CardsOfSuit(prev, su) + tail;
    }
  }

  /** One step of the flush loop, on the last card. */
  lemma FlushRanksOfLast(cards: seq<Card>, su: Suit)
    requires cards != []
    ensures var n := |cards| - 1;
      FlushRanks(HighRanks(cards), SuitValues(cards), su.Value())
      == FlushRanks(HighRanks(cards[..n]), SuitValues(cards[..n]), su.Value())
         + HighRanks(if cards[n].suit == su then [cards[n]] else [])
  {
    var n := |cards| - 1;
    var c := cards[n];
    var t, s, v := HighRanks(cards), SuitValues(cards), su.Value();
    FlushRanksLast(t, s, v);
    ListsOfPrefix(cards, n);
    assert s[n] == c.suit.Value() && t[n] == AceHigh(c.rank.Value());
    assert c.suit.Value() == v <==> c.suit == su;
  }

  /** The rank and suit lists of a prefix of the cards are the prefixes of
      the lists. */
  lemma ListsOfPrefix(cards: seq<Card>, n: nat)
    requires n <= |cards|
    ensures HighRanks(cards)[..n] == HighRanks(cards[..n])
    ensures SuitValues(cards)[..n] == SuitValues(cards[..n])
  {
  }

  lemma FlushRanksLast(t: seq<int>, s: seq<int>, v: int)
    requires |t| == |s| > 0
    ensures FlushRanks(t, s, v) == FlushRanks(t[..|t| - 1], s[..|t| - 1], v) + (if s[|t| - 1] == v then [t[|t| - 1]] else [])
  {
  }

  lemma HighRanksConcat(a: seq<Card>, b: seq<Card>)
    ensures HighRanks(a + b) == HighRanks(a) + HighRanks(b)
  {
  }

  /** `5 in frequency` on the suit histogram means some suit has five cards. */
  lemma SuitFrequenciesMeaning(cards: seq<Card>)
    ensures 5 in SuitFrequencies(SuitValues(cards)) <==> exists su: Suit :: |CardsOfSuit(cards, su)| == 5
    ensures forall su: Suit :: SuitFrequencies(SuitValues(cards))[su.Value() - 1] == |CardsOfSuit(cards, su)|
  {
    SuitCountIsCards(cards, Hearts);
    SuitCountIsCards(cards, Diamonds);
    SuitCountIsCards(cards, Clubs);
    SuitCountIsCards(cards, Spades);
    var freq := SuitFrequencies(SuitValues(cards));
    assert freq[0] == |CardsOfSuit(cards, Hearts)|;
    assert freq[1] == |CardsOfSuit(cards, Diamonds)|;
    assert freq[2] == |CardsOfSuit(cards, Clubs)|;
    assert freq[3] == |CardsOfSuit(cards, Spades)|;
  }

  /** A run of four 1-differences is five entries stepping down by one. */
  lemma FourRunIsRunOfFive(u: seq<int>, j: int)
    requires |u| > 0
    ensures FourRunAt(Diffs(u), j) <==> RunOfFiveAt(u, j)
  {
    var d := Diffs(u);
    if FourRunAt(d, j) {
      assert d[j] == u[j] - u[j + 1] && d[j + 1] == u[j + 1] - u[j + 2];
      assert d[j + 2] == u[j + 2] - u[j + 3] && d[j + 3] == u[j + 3] - u[j + 4];
    }
    if RunOfFiveAt(u, j) {
      assert u[j + 1] == u[j] - 1 && u[j + 2] == u[j] - 2 && u[j + 3] == u[j] - 3 && u[j + 4] == u[j] - 4;
    }
  }

  /** When no suit has exactly five cards, the flush step changes nothing. */
  lemma EvaluateNoFlush(cards: seq<Card>)
    requires |cards| > 0 && NoFlushSuit(cards)
    ensures Evaluate(cards) == ApplyStraight(PairFamily(HighRanks(cards)), HighRanks(cards))
  {
    SuitFrequenciesMeaning(cards);
  }

  /** A suit with exactly five cards (among at most nine) makes the hand a
      FLUSH on those five cards' ace-high ranks, highest first, whatever the
      pair family or the straight scan found. */
  lemma EvaluateFlush(cards: seq<Card>, su: Suit)
    requires |CardsOfSuit(cards, su)| == 5 && |cards| <= 9
    ensures |cards| > 0
    ensures Evaluate(cards) == HandResult(Flush, SortDesc(HighRanks(CardsOfSuit(cards, su))))
    ensures NonIncreasing(Evaluate(cards).keys)
    ensures multiset(Evaluate(cards).keys) == multiset(HighRanks(CardsOfSuit(cards, su)))
  {
    var t := HighRanks(cards);
    var s := SuitValues(cards);
    SuitCountIsCards(cards, su);
    var before := ApplyStraight(PairFamily(t), t);
    ApplyFlushOnSuit(before, t, s, su.Value());
    FlushRanksAreSuitRanks(cards, su);
  }

  /** Without a flush, the first place in the descending-sorted ranks
      (duplicates kept) where five neighbours step down by one gives
      STRAIGHT on the top rank of that run. */
  lemma EvaluateStraight(cards: seq<Card>, j: int)
    requires |cards| > 0 && NoFlushSuit(cards)
    requires RunOfFiveAt(SortDesc(HighRanks(cards)), j)
    requires forall k :: 0 <= k < j ==> !RunOfFiveAt(SortDesc(HighRanks(cards)), k)
    ensures Evaluate(cards) == HandResult(Straight, [SortDesc(HighRanks(cards))[j]])
  {
    var t := HighRanks(cards);
    var u := SortDesc(t);
    assert |u| == |t| by {
      assert |u| == |multiset(t)|;
    }
    var d := Diffs(u);
    var sc := StraightScan(d);
    assert sc.count == 4 && sc.index == j by {
      FourRunIsRunOfFive(u, j);
      forall k | 0 <= k < j
        ensures !FourRunAt(d, k)
      {
        FourRunIsRunOfFive(u, k);
      }
    }
    EvaluateNoFlush(cards);
  }

  /** When every card has suit `su`, that suit's cards are all the cards
      and every other suit has none. */
  lemma {:induction false} OneSuitCards(cards: seq<Card>, su: Suit)
    requires forall i :: 0 <= i < |cards| ==> cards[i].suit == su
    ensures CardsOfSuit(cards, su) == cards
    ensures forall other: Suit :: other != su ==> CardsOfSuit(cards, other) == []
  {
    if cards != [] {
      var n := |cards| - 1;
      OneSuitCards(cards[..n], su);
      assert cards == cards[..n] + [cards[n]];
    }
  }

  /** A straight flush spread over six or seven cards of one suit is not
      reported as FLUSH: no suit has exactly five cards, so the straight
      stage decides and the hand is STRAIGHT on its top rank. */
  lemma StraightFlushOfSixOrSeven(cards: seq<Card>, su: Suit)
    requires 6 <= |cards| <= 7 && forall i :: 0 <= i < |cards| ==> cards[i].suit == su
    requires RunOfFiveAt(SortDesc(HighRanks(cards)), 0)
    ensures Evaluate(cards) == HandResult(Straight, [SortDesc(HighRanks(cards))[0]])
  {
    OneSuitCards(cards, su);
    EvaluateStraight(cards, 0);
  }

  /** The same, for cards already given highest first: the sort leaves
      their ranks as they are. */
  lemma StraightFlushSorted(cards: seq<Card>, su: Suit)
    requires 6 <= |cards| <= 7 && forall i :: 0 <= i < |cards| ==> cards[i].suit == su
    requires NonIncreasing(HighRanks(cards)) && RunOfFiveAt(HighRanks(cards), 0)
    ensures Evaluate(cards) == HandResult(Straight, [HighRanks(cards)[0]])
  {
    SortedUnique(SortDesc(HighRanks(cards)), HighRanks(cards));
    StraightFlushOfSixOrSeven(cards, su);
  }

  /** Six hearts from 7 down to 2 give [STRAIGHT, 7], not FLUSH. */
  lemma SixHeartsSevenHigh()
    ensures Evaluate([Card(Hearts, Seven), Card(Hearts, Six), Card(Hearts, Five),
                      Card(Hearts, Four), Card(Hearts, Three), Card(Hearts, Two)])
         == HandResult(Straight, [7])
  {
    var cards := [Card(Hearts, Seven), Card(Hearts, Six), Card(Hearts, Five),
                  Card(Hearts, Four), Card(Hearts, Three), Card(Hearts, Two)];
    assert HighRanks(cards) == [7, 6, 5, 4, 3, 2];
    StraightFlushSorted(cards, Hearts);
  }

  /** The low-ace rule: without a flush and without any run of five, when
      the four lowest sorted ranks step down by one (and the rank above
      them does not continue the run), an ace is present and no rank occurs
      four times, the hand is STRAIGHT on 5. It does not check that those
      four ranks are 5-4-3-2. */
  lemma EvaluateLowAce(cards: seq<Card>)
    requires |cards| > 0 && NoFlushSuit(cards)
    requires forall j :: !RunOfFiveAt(SortDesc(HighRanks(cards)), j)
    requires LowFourRun(SortDesc(HighRanks(cards)))
    requires exists i :: 0 <= i < |cards| && cards[i].rank == Ace
    requires forall z :: multiset(HighRanks(cards))[z] != 4
    ensures Evaluate(cards) == HandResult(Straight, [5])
  {
    var t := HighRanks(cards);
    var u := SortDesc(t);
    assert |u| == |t| by {
      assert |u| == |multiset(t)|;
    }
    var d := Diffs(u);
    var sc := StraightScan(d);
    assert sc.count == 3 by {
      forall k ensures !FourRunAt(d, k) {
        FourRunIsRunOfFive(u, k);
      }
      TrailingThree(u);
    }
    assert 14 in t by {
      var i :| 0 <= i < |cards| && cards[i].rank == Ace;
      HighRanksMeaning(cards);
      assert t[i] == 14;
    }
    assert PairFamily(t).category != FourOfAKind by {
      PairFamilyQuads(t);
    }
    EvaluateNoFlush(cards);
  }

  /** The trailing run of 1-differences has length exactly 3 when the last
      four sorted ranks step down by one and the run stops there. */
  lemma TrailingThree(u: seq<int>)
    requires |u| > 0
    ensures RunEnding(Diffs(u), |u| - 1) == 3 <==> LowFourRun(u)
  {
    if LowFourRun(u) {
      LowFourRunCount(u);
    }
    if RunEnding(Diffs(u), |u| - 1) == 3 {
      CountThreeLowFourRun(u);
    }
  }

  lemma LowFourRunCount(u: seq<int>)
    requires LowFourRun(u)
    ensures RunEnding(Diffs(u), |u| - 1) == 3
  {
    var d := Diffs(u);
    var n := |d|;
    assert d[n - 1] == 1 && d[n - 2] == 1 && d[n - 3] == 1;
    assert n == 3 || d[n - 4] != 1;
    RunEndingExact(d, n, 3);
  }

  lemma CountThreeLowFourRun(u: seq<int>)
    requires |u| > 0 && RunEnding(Diffs(u), |u| - 1) == 3
    ensures LowFourRun(u)
  {
    RunEndingThree(Diffs(u), |u| - 1);
    OnesLowFourRun(u);
  }

  /** Three trailing 1-differences, not continued before them, are the
      last four entries stepping down by one. */
  lemma OnesLowFourRun(u: seq<int>)
    requires |u| >= 4
    requires Diffs(u)[|u| - 2] == 1 && Diffs(u)[|u| - 3] == 1 && Diffs(u)[|u| - 4] == 1
    requires |u| == 4 || Diffs(u)[|u| - 5] != 1
    ensures LowFourRun(u)
  {
    var d := Diffs(u);
    var n := |u| - 1;
    assert d[n - 1] == u[n - 1] - u[n] && d[n - 2] == u[n - 2] - u[n - 1] && d[n - 3] == u[n - 3] - u[n - 2];
    if n > 3 {
      assert d[n - 4] == u[n - 4] - u[n - 3];
    }
  }

  /** A trailing run of length 3 is three 1s preceded by the start or by a
      difference other than 1. */
  lemma RunEndingThree(d: seq<int>, i: nat)
    requires i <= |d| && RunEnding(d, i) == 3
    ensures i >= 3 && d[i - 1] == 1 && d[i - 2] == 1 && d[i - 3] == 1
    ensures i == 3 || d[i - 4] != 1
  {
  }

  /** A run of exactly c ones at the end of d[..i] has length c. */
  lemma {:induction false} RunEndingExact(d: seq<int>, i: nat, c: nat)
    requires c <= i <= |d|
    requires forall k :: i - c <= k < i ==> d[k] == 1
    requires c == i || d[i - 1 - c] != 1
    ensures RunEnding(d, i) == c
  {
    if c > 0 {
      RunEndingExact(d, i - 1, c - 1);
    }
  }

  /** Without a flush, a run of five, or the low-ace rule firing, the
      result is exactly what the pair family found. */
  lemma EvaluatePairFamily(cards: seq<Card>)
    requires |cards| > 0 && NoFlushSuit(cards)
    requires forall j :: !RunOfFiveAt(SortDesc(HighRanks(cards)), j)
    requires !LowFourRun(SortDesc(HighRanks(cards)))
      || (forall i :: 0 <= i < |cards| ==> cards[i].rank != Ace)
      || (exists z :: multiset(HighRanks(cards))[z] == 4)
    ensures Evaluate(cards) == PairFamily(HighRanks(cards))
  {
    var t := HighRanks(cards);
    var u := SortDesc(t);
    assert |u| == |t| by {
      assert |u| == |multiset(t)|;
    }
    var d := Diffs(u);
    var sc := StraightScan(d);
    assert sc.count != 4 && (sc.count == 3 <==> LowFourRun(u)) by {
      forall k ensures !FourRunAt(d, k) {
        FourRunIsRunOfFive(u, k);
      }
      TrailingThree(u);
    }
    assert (forall i :: 0 <= i < |cards| ==> cards[i].rank != Ace) ==> 14 !in t by {
      HighRanksMeaning(cards);
    }
    assert (exists z :: multiset(t)[z] == 4) ==> PairFamily(t).category == FourOfAKind by {
      PairFamilyQuads(t);
    }
    EvaluateNoFlush(cards);
  }

  /** A FLUSH result only comes from a suit with exactly five cards. */
  lemma EvaluateFlushOnlyIf(cards: seq<Card>)
    requires |cards| > 0 && Evaluate(cards).category == Flush
    ensures exists su: Suit :: |CardsOfSuit(cards, su)| == 5
  {
    var t := HighRanks(cards);
    SuitFrequenciesMeaning(cards);
    assert ApplyStraight(PairFamily(t), t).category != Flush;
  }

  /** A STRAIGHT result only comes from a run of five in the sorted ranks,
      or from the low-ace rule: with no suit of exactly five cards, the
      last four sorted ranks stepping down by one, an ace, and no rank four
      times. */
  lemma EvaluateStraightOnlyIf(cards: seq<Card>)
    requires |cards| > 0 && Evaluate(cards).category == Straight
    ensures NoFlushSuit(cards)
    ensures (exists j :: RunOfFiveAt(SortDesc(HighRanks(cards)), j))
      || (LowFourRun(SortDesc(HighRanks(cards)))
          && (exists i :: 0 <= i < |cards| && cards[i].rank == Ace)
          && (forall z :: multiset(HighRanks(cards))[z] != 4))
  {
    var t := HighRanks(cards);
    var u := SortDesc(t);
    assert |u| == |t| by {
      assert |u| == |multiset(t)|;
    }
    var d := Diffs(u);
    var pre := PairFamily(t);
    var sc := StraightScan(d);
    assert NoFlushSuit(cards) by {
      SuitFrequenciesMeaning(cards);
    }
    assert ApplyStraight(pre, t).category == Straight by {
      EvaluateNoFlush(cards);
    }
    if sc.count == 4 {
      FourRunIsRunOfFive(u, sc.index);
    } else {
      assert sc.count == 3 && 14 in t && pre.category != FourOfAKind;
      TrailingThree(u);
      HighRanksMeaning(cards);
      PairFamilyQuads(t);
    }
  }
}
