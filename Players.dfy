// The `Player` class: a hand of cards, a bankroll that bets are taken from,
// and `evalHand`, which walks the combined community and hole cards with
// the loops of lines 138-144, 197-206 and 231-234. Each loop is a method
// proved against the function of HandEval that states what it computes,
// and `EvalHand` is proved to return exactly `Evaluate` of the cards.

module Players {
  import opened SeqUtil
  import opened PokerTypes
  import opened HandEval

  /** Lines 138-144: `rank_types` collects each rank the first time it is
      seen, so it holds every rank of `t` once, in order of appearance. */
  method CollectRankTypes(t: seq<int>) returns (rankTypes: seq<int>)
    ensures rankTypes == Dedup(t)
  {
    rankTypes := [];
    for i := 0 to |t|
      invariant rankTypes == Dedup(t[..i])
    {
      assert t[..i + 1][..i] == t[..i];
      if t[i] !in rankTypes {
        rankTypes := rankTypes + [t[i]];
      }
    }
    assert t[..|t|] == t;
  }

  /** Lines 195-206: walk the differences, counting consecutive 1s and
      remembering where the current run started; stop at a run of four.
      The final `count` and `index` are what `StraightScan` says. */
  method ScanRuns(d: seq<int>) returns (count: int, index: int)
    ensures Scan(count, index) == StraightScan(d)
  {
    index, count := -1, 0;
    var i := 0;
    while i < |d|
      invariant 0 <= i <= |d|
      invariant count == RunEnding(d, i) && count <= 3
      invariant count > 0 ==> index == i - count
      invariant count == 0 ==> index == -1
      invariant forall j :: 0 <= j && j + 4 <= i ==> !FourRunAt(d, j)
    {
      if d[i] == 1 {
        if count == 0 {
          index := i;
        }
        count := count + 1;
      } else {
        count := 0;
        index := -1;
      }
      if count == 4 {
        assert FourRunAt(d, index);
        return;
      }
      assert i + 1 >= 4 ==> !FourRunAt(d, i - 3) by {
        if i + 1 >= 4 && count < 4 {
          assert d[i - count] != 1;
        }
      }
      i := i + 1;
    }
  }

  /** Lines 231-234: `flush_cards` collects, in card order, the ranks of
      the cards whose suit value is `suit`. */
  method CollectFlush(t: seq<int>, s: seq<int>, suit: int) returns (flush: seq<int>)
    requires |t| == |s|
    ensures flush == FlushRanks(t, s, suit)
  {
    flush := [];
    for i := 0 to |t|
      invariant flush == FlushRanks(t[..i], s[..i], suit)
    {
      assert t[..i + 1][..i] == t[..i] && s[..i + 1][..i] == s[..i];
      if s[i] == suit {
        flush := flush + [t[i]];
      }
    }
    assert t[..|t|] == t && s[..|s|] == s;
  }

  class Player {
    var hand: seq<Card>
    var bankroll: int
    var strategy: int

    /** `Player(bankroll, strategy)`: an empty hand. */
    constructor (bankroll: int, strategy: int)
      ensures this.hand == [] && this.bankroll == bankroll && this.strategy == strategy
    {
      this.hand := [];
      this.bankroll := bankroll;
      this.strategy := strategy;
    }

    /** `setHand`: replaces the hand. */
    method SetHand(hand: seq<Card>)
      modifies this
      ensures this.hand == hand
      ensures bankroll == old(bankroll) && strategy == old(strategy)
    {
      this.hand := hand;
    }

    /** `getHand`. */
    method GetHand() returns (h: seq<Card>)
      ensures h == hand
    {
      h := hand;
    }

    /** `setBet(bet)`: takes the bet from the bankroll and reports whether
        the bankroll is now used up (zero or below). */
    method SetBet(bet: int) returns (broke: bool)
      modifies this
      ensures bankroll == old(bankroll) - bet
      ensures broke <==> bankroll <= 0
      ensures hand == old(hand) && strategy == old(strategy)
    {
      bankroll := bankroll - bet;
      broke := bankroll <= 0;
    }

    /** `evalHand(community_cards)`: evaluates `community_cards + hand` step
        by step and returns exactly `Evaluate` of those cards. With no card
        at all, `max` of the empty rank list raises ValueError. */
    method EvalHand(community: seq<Card>) returns (r: Result<HandResult>)
      ensures |community + hand| == 0 ==> r == Err(ValueError)
      ensures |community + hand| > 0 ==> r == Ok(Evaluate(community + hand))
    {
      var allCards := community + hand;
      var s := SuitValues(allCards);
      var t := HighRanks(allCards);

      var rankTypes := CollectRankTypes(t);
      var frequency := Frequencies(rankTypes, t);
      if t == [] {
        return Err(ValueError);
      }
      // Lines 154-183: HIGH_CARD first, then the first matching case of the
      // histogram built from the collected rank types.
      var ret := HandResult(HighCard, [Max(t)]);
      if 4 in frequency {
        ret := HandResult(FourOfAKind, [rankTypes[IndexOf(frequency, 4)]]);
      } else if 3 in frequency {
        ret := TripleFamily(rankTypes, t, frequency);
      } else if 2 in frequency {
        ret := PairOfPairs(rankTypes, t, frequency);
      }
      assert ret == PairFamily(t);
      ret := StraightSteps(ret, t);
      ret := FlushSteps(ret, t, s);
      r := Ok(ret);
    }
  }

  /** Lines 187-214 as statements: sort the ranks highest first, scan their
      differences, then apply the low-ace rule and the run-of-five rule. */
  method StraightSteps(pre: HandResult, t: seq<int>) returns (ret: HandResult)
    requires |t| > 0
    ensures ret == ApplyStraight(pre, t)
  {
    ret := pre;
    var sorted := SortDesc(t);
    assert |sorted| == |multiset(t)| == |t|;
    var count, index := ScanRuns(Diffs(sorted));
    if count == 3 && 14 in t && ret.category != FourOfAKind {
      ret := HandResult(Straight, [5]);
    }
    if count == 4 {
      ret := HandResult(Straight, [sorted[index]]);
    }
  }

  /** Lines 221-237 as statements: the suit histogram, then the flush
      cards of the first suit that occurs exactly five times. */
  method FlushSteps(pre: HandResult, t: seq<int>, s: seq<int>) returns (ret: HandResult)
    requires |t| == |s|
    ensures ret == ApplyFlush(pre, t, s)
  {
    var suitFrequency := SuitFrequencies(s);
    if 5 in suitFrequency && pre.category != StraightFlush {
      var maxSuit := IndexOf(suitFrequency, 5) + 1;
      var flush := CollectFlush(t, s, maxSuit);
      ApplyFlushTaken(pre, t, s);
      assert maxSuit == IndexOf(SuitFrequencies(s), 5) + 1;
      assert flush == FlushRanks(t, s, IndexOf(SuitFrequencies(s), 5) + 1);
      ret := HandResult(Flush, SortDesc(flush));
      assert ret == HandResult(Flush, SortDesc(FlushRanks(t, s, IndexOf(SuitFrequencies(s), 5) + 1)));
      assert ret == ApplyFlush(pre, t, s);
    } else {
      ApplyFlushSkipped(pre, t, s);
      ret := pre;
      assert ret == ApplyFlush(pre, t, s);
    }
  }
}
