// The order in which the cards reach `evalHand` does not change its result
// when there are at most seven of them, as in a dealt game: the pair family
// reads counts, `max` and the rank types that occur a given number of
// times, the straight scan reads the descending sort, and the flush check
// reads suit counts and the sorted ranks of one suit. With eight or more
// cards two ranks can both occur four times; `frequency.index(4)` then picks
// the one whose rank type was collected first, so there the order matters.

module Determinism {
  import opened SeqUtil
  import opened PokerTypes
  import opened HandEval
  import opened HandFacts

  /** The ace-high rank of one card, as `t_ranks` holds it. */
  function CardHighRank(c: Card): int
  {
    AceHigh(c.rank.Value())
  }

  /** The suit value of one card, as `t_suits` holds it. */
  function CardSuitValue(c: Card): int
  {
    c.suit.Value()
  }

  /** `t_ranks` and `t_suits` are list comprehensions over the cards. */
  lemma ListsAreMaps(cards: seq<Card>)
    ensures HighRanks(cards) == Map(CardHighRank, cards)
    ensures SuitValues(cards) == Map(CardSuitValue, cards)
  {
  }

  /** The same cards in another order give the same ranks and the same
      suit values, in another order. */
  lemma ListsPermutation(c1: seq<Card>, c2: seq<Card>)
    requires multiset(c1) == multiset(c2)
    ensures multiset(HighRanks(c1)) == multiset(HighRanks(c2))
    ensures multiset(SuitValues(c1)) == multiset(SuitValues(c2))
  {
    ListsAreMaps(c1);
    ListsAreMaps(c2);
    MapPermutation(CardHighRank, c1, c2);
    MapPermutation(CardSuitValue, c1, c2);
  }

  /** `sort(reverse=True)` depends only on the elements. */
  lemma SortDescPermutation(t1: seq<int>, t2: seq<int>)
    requires multiset(t1) == multiset(t2)
    ensures SortDesc(t1) == SortDesc(t2)
  {
    SortedUnique(SortDesc(t1), SortDesc(t2));
  }

  /** With at most seven cards the pair family depends only on how often
      each rank occurs: a quad and a full house's triple are then the only
      ones, and every other key is a maximum. */
  lemma PairFamilyPermutation(t1: seq<int>, t2: seq<int>)
    requires multiset(t1) == multiset(t2) && 0 < |t1| <= 7
    ensures |t2| == |t1| && PairFamily(t1) == PairFamily(t2)
  {
    assert |t2| == |multiset(t2)| == |multiset(t1)| == |t1|;
    var m := multiset(t1);
    if x :| m[x] == 4 {
      PairFamilyFourOfAKind(t1, x);
      PairFamilyFourOfAKind(t2, x);
    } else if x :| m[x] == 3 {
      if y :| m[y] == 2 {
        FullHousePermutation(t1, t2, x, y);
      } else {
        ThreeOfAKindPermutation(t1, t2, x);
      }
    } else if x :| m[x] == 2 {
      if y :| m[y] == 2 && y != x {
        TwoPairPermutation(t1, t2, x, y);
      } else {
        PairFamilyOnePair(t1, x);
        PairFamilyOnePair(t2, x);
      }
    } else {
      HighCardPermutation(t1, t2);
    }
  }

  lemma FullHousePermutation(t1: seq<int>, t2: seq<int>, x: int, y: int)
    requires multiset(t1) == multiset(t2) && |t1| == |t2| <= 7
    requires multiset(t1)[x] == 3 && multiset(t1)[y] == 2
    requires forall z :: multiset(t1)[z] != 4
    ensures PairFamily(t1) == PairFamily(t2)
  {
    PairFamilyFullHouse(t1, x, y);
    PairFamilyFullHouse(t2, x, y);
    var k1, k2 := PairFamily(t1).keys, PairFamily(t2).keys;
    assert k1[1] <= k2[1] && k2[1] <= k1[1];
    assert k1 == [k1[0], k1[1]] && k2 == [k2[0], k2[1]];
  }

  lemma ThreeOfAKindPermutation(t1: seq<int>, t2: seq<int>, x: int)
    requires multiset(t1) == multiset(t2)
    requires multiset(t1)[x] == 3
    requires forall z :: multiset(t1)[z] != 4 && multiset(t1)[z] != 2
    ensures PairFamily(t1) == PairFamily(t2)
  {
    PairFamilyThreeOfAKind(t1, x);
    PairFamilyThreeOfAKind(t2, x);
    var k1, k2 := PairFamily(t1).keys, PairFamily(t2).keys;
    assert k1[0] <= k2[0] && k2[0] <= k1[0];
    assert k1 == [k1[0]] && k2 == [k2[0]];
  }

  lemma TwoPairPermutation(t1: seq<int>, t2: seq<int>, x: int, y: int)
    requires multiset(t1) == multiset(t2)
    requires x != y && multiset(t1)[x] == 2 && multiset(t1)[y] == 2
    requires forall z :: multiset(t1)[z] != 4 && multiset(t1)[z] != 3
    ensures PairFamily(t1) == PairFamily(t2)
  {
    PairFamilyTwoPair(t1, x, y);
    PairFamilyTwoPair(t2, x, y);
    var k1, k2 := PairFamily(t1).keys, PairFamily(t2).keys;
    assert k1[0] == k2[0] by {
      assert k1[0] <= k2[0] && k2[0] <= k1[0];
    }
    assert k1[1] == k2[1] by {
      assert k1[1] <= k2[1] && k2[1] <= k1[1];
    }
    assert k1 == [k1[0], k1[1]] && k2 == [k2[0], k2[1]];
  }

  lemma HighCardPermutation(t1: seq<int>, t2: seq<int>)
    requires multiset(t1) == multiset(t2) && |t1| > 0
    requires forall z :: multiset(t1)[z] != 4 && multiset(t1)[z] != 3 && multiset(t1)[z] != 2
    ensures |t2| > 0 && PairFamily(t1) == PairFamily(t2)
  {
    assert |t2| == |multiset(t2)| == |multiset(t1)| == |t1|;
    PairFamilyHighCard(t1);
    PairFamilyHighCard(t2);
    var k1, k2 := PairFamily(t1).keys, PairFamily(t2).keys;
    assert k1[0] <= k2[0] by {
      assert k1[0] in multiset(t2);
      var i :| 0 <= i < |t2| && t2[i] == k1[0];
    }
    assert k2[0] <= k1[0] by {
      assert k2[0] in multiset(t1);
      var i :| 0 <= i < |t1| && t1[i] == k2[0];
    }
    assert k1 == [k1[0]] && k2 == [k2[0]];
  }

  /** The straight stage reads the descending sort and whether an ace is
      present, so it depends only on the elements. */
  lemma ApplyStraightPermutation(pre: HandResult, t1: seq<int>, t2: seq<int>)
    requires |t1| > 0 && multiset(t1) == multiset(t2)
    ensures |t2| > 0 && ApplyStraight(pre, t1) == ApplyStraight(pre, t2)
  {
    assert |t2| == |multiset(t2)| == |multiset(t1)| == |t1|;
    SortDescPermutation(t1, t2);
    assert 14 in t1 <==> 14 in t2 by {
      assert 14 in t1 <==> 14 in multiset(t1);
      assert 14 in t2 <==> 14 in multiset(t2);
    }
  }

  /** A card is among those of suit `su` as often as it is among all the
      cards when it has that suit, and never otherwise. */
  lemma {:induction false} CardsOfSuitCount(cards: seq<Card>, su: Suit, c: Card)
    ensures multiset(CardsOfSuit(cards, su))[c] == if c.suit == su then multiset(cards)[c] else 0
  {
    if cards != [] {
      var n := |cards| - 1;
      var prev, last := cards[..n], cards[n];
      CardsOfSuitCount(prev, su, c);
      assert multiset(cards) == multiset(prev) + multiset{last} by {
        assert cards == prev + [last];
      }
      if last.suit == su {
        assert multiset(CardsOfSuit(cards, su)) == multiset(CardsOfSuit(prev, su)) + multiset{last};
      } else {
        assert CardsOfSuit(cards, su) == CardsOfSuit(prev, su);
      }
    }
  }

  lemma CardsOfSuitPermutation(c1: seq<Card>, c2: seq<Card>, su: Suit)
    requires multiset(c1) == multiset(c2)
    ensures multiset(CardsOfSuit(c1, su)) == multiset(CardsOfSuit(c2, su))
  {
    forall c
      ensures multiset(CardsOfSuit(c1, su))[c] == multiset(CardsOfSuit(c2, su))[c]
    {
      CardsOfSuitCount(c1, su, c);
      CardsOfSuitCount(c2, su, c);
    }
  }

  /** The flush stage reads the suit counts and the sorted ranks of one
      suit, so it depends only on which cards there are. */
  lemma ApplyFlushPermutation(pre: HandResult, c1: seq<Card>, c2: seq<Card>)
    requires multiset(c1) == multiset(c2)
    ensures ApplyFlush(pre, HighRanks(c1), SuitValues(c1)) == ApplyFlush(pre, HighRanks(c2), SuitValues(c2))
  {
    var t1, s1, t2, s2 := HighRanks(c1), SuitValues(c1), HighRanks(c2), SuitValues(c2);
    ListsPermutation(c1, c2);
    var freq := SuitFrequencies(s1);
    assert freq == SuitFrequencies(s2);
    if 5 in freq && pre.category != StraightFlush {
      var v := IndexOf(freq, 5) + 1;
      var su := Suits[v - 1];
      assert su.Value() == v by {
        EnumOrder();
      }
      ApplyFlushTaken(pre, t1, s1);
      ApplyFlushTaken(pre, t2, s2);
      FlushRanksAreSuitRanks(c1, su);
      FlushRanksAreSuitRanks(c2, su);
      CardsOfSuitPermutation(c1, c2, su);
      ListsPermutation(CardsOfSuit(c1, su), CardsOfSuit(c2, su));
      SortDescPermutation(HighRanks(CardsOfSuit(c1, su)), HighRanks(CardsOfSuit(c2, su)));
    } else {
      ApplyFlushSkipped(pre, t1, s1);
      ApplyFlushSkipped(pre, t2, s2);
    }
  }

  /** The same seven or fewer cards, in any order, evaluate to the same
      result. */
  lemma EvaluatePermutation(c1: seq<Card>, c2: seq<Card>)
    requires multiset(c1) == multiset(c2) && 0 < |c1| <= 7
    ensures |c2| == |c1| && Evaluate(c1) == Evaluate(c2)
  {
    assert |c2| == |multiset(c2)| == |multiset(c1)| == |c1|;
    var t1, t2 := HighRanks(c1), HighRanks(c2);
    ListsPermutation(c1, c2);
    PairFamilyPermutation(t1, t2);
    var pre := PairFamily(t1);
    ApplyStraightPermutation(pre, t1, t2);
    ApplyFlushPermutation(ApplyStraight(pre, t1), c1, c2);
  }

  /** Which of seven or fewer cards are community cards and which are hole
      cards does not change the evaluation. */
  lemma EvaluateSwapsHoleCards(community: seq<Card>, hand: seq<Card>)
    requires 0 < |community + hand| <= 7
    ensures Evaluate(community + hand) == Evaluate(hand + community)
  {
    EvaluatePermutation(community + hand, hand + community);
  }
}
