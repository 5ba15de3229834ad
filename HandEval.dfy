// What `Player.evalHand` computes, stated as functions over the card list:
// the ace-high rank list and the suit list (lines 125-135), the rank
// histogram and the pair family (138-183), the straight scan over the
// descending-sorted ranks (187-214) and the flush check (221-237).
// The lemmas say what each step means for the cards.

module HandEval {
  import opened SeqUtil
  import opened PokerTypes

  // ---------------------------------------------------------------------
  // The two lists the evaluator works on

  /** `t_ranks` after the ace line: each card's rank value, with the ace
      (value 1) counted as 14. */
  function HighRanks(cards: seq<Card>): (t: seq<int>)
    ensures |t| == |cards|
  {
    seq(|cards|, i requires 0 <= i < |cards| => AceHigh(cards[i].rank.Value()))
  }

  /** Every ace-high rank is in 2..14; it is 14 exactly for an ace, and any
      other card keeps its rank's enum value. */
  lemma HighRanksMeaning(cards: seq<Card>)
    ensures forall i :: 0 <= i < |cards| ==> 2 <= HighRanks(cards)[i] <= 14
    ensures forall i :: 0 <= i < |cards| ==> (HighRanks(cards)[i] == 14 <==> cards[i].rank == Ace)
    ensures forall i :: 0 <= i < |cards| && cards[i].rank != Ace ==> HighRanks(cards)[i] == cards[i].rank.Value()
  {
  }

  /** `14 if x == 1 else x`. */
  function AceHigh(x: int): int
  {
    if x == 1 then 14 else x
  }

  /** `t_suits`: each card's suit value. */
  function SuitValues(cards: seq<Card>): (s: seq<int>)
    ensures |s| == |cards|
    ensures forall i :: 0 <= i < |cards| ==> 1 <= s[i] <= 4
  {
    seq(|cards|, i requires 0 <= i < |cards| => cards[i].suit.Value())
  }

  // ---------------------------------------------------------------------
  // The rank histogram and the pair family

  /** `frequency`: for each entry of `rank_types`, how often it occurs in `t`. */
  function Frequencies(rt: seq<int>, t: seq<int>): (freq: seq<int>)
    ensures |freq| == |rt|
  {
    seq(|rt|, k requires 0 <= k < |rt| => multiset(t)[rt[k]])
  }

  /** `[rank_types[i] for i in matches]` where `matches` holds the indices
      at which `frequency` is n: the rank types that occur n times, in order. */
  function Matches(rt: seq<int>, t: seq<int>, n: int): (m: seq<int>)
    ensures forall x :: x in m <==> x in rt && multiset(t)[x] == n
    ensures Distinct(rt) ==> Distinct(m)
  {
    if rt == [] then []
    else
      var rest := Matches(rt[1..], t, n);
      assert forall x :: x in rt <==> x == rt[0] || x in rt[1..] by {
        assert rt == [rt[0]] + rt[1..];
      }
      (if multiset(t)[rt[0]] == n then [rt[0]] else []) + rest
  }

  /** `frequency.count(n)` is the number of rank types `Matches` picks for n. */
  lemma {:induction false} MatchesCount(rt: seq<int>, t: seq<int>, n: int)
    ensures |Matches(rt, t, n)| == multiset(Frequencies(rt, t))[n]
  {
    if rt != [] {
      MatchesCount(rt[1..], t, n);
      assert Frequencies(rt, t) == [multiset(t)[rt[0]]] + Frequencies(rt[1..], t);
    }
  }

  /** The number of tie-break keys each category carries. */
  function KeyCount(h: Hand): nat
  {
    match h
    case HighCard | OnePair | ThreeOfAKind | FourOfAKind | Straight => 1
    case TwoPair | FullHouse => 2
    case Flush => 5
    case StraightFlush | RoyalStraightFlush => 0
  }

  /** Lines 154-183: high card by default, then four of a kind, full house
      or three of a kind, then one pair or two pair, from the histogram. */
  function PairFamily(t: seq<int>): (r: HandResult)
    requires |t| > 0
    ensures r.category != Straight && r.category != Flush
    ensures WellShaped(r)
  {
    var rt := Dedup(t);
    var freq := Frequencies(rt, t);
    if 4 in freq then HandResult(FourOfAKind, [rt[IndexOf(freq, 4)]])
    else if 3 in freq then TripleFamily(rt, t, freq)
    else if 2 in freq then PairOfPairs(rt, t, freq)
    else HandResult(HighCard, [Max(t)])
  }

  /** Lines 159-169, some rank occurring three times: FULL_HOUSE on the
      first triple and the highest pair when a pair exists, otherwise
      THREE_OF_A_KIND on the highest triple. */
  function TripleFamily(rt: seq<int>, t: seq<int>, freq: seq<int>): (r: HandResult)
    requires freq == Frequencies(rt, t) && 3 in freq
    ensures r.category == FullHouse || r.category == ThreeOfAKind
    ensures |r.keys| == KeyCount(r.category)
  {
    if 2 in freq then
      assert Matches(rt, t, 2) != [] by {
        MatchesCount(rt, t, 2);
        assert 2 in multiset(freq);
      }
      HandResult(FullHouse, [rt[IndexOf(freq, 3)], Max(Matches(rt, t, 2))])
    else
      assert Matches(rt, t, 3) != [] by {
        MatchesCount(rt, t, 3);
        assert 3 in multiset(freq);
      }
      HandResult(ThreeOfAKind, [Max(Matches(rt, t, 3))])
  }

  /** Lines 170-183, some rank occurring twice: ONE_PAIR when only one rank
      does, otherwise TWO_PAIR on the two highest paired ranks. */
  function PairOfPairs(rt: seq<int>, t: seq<int>, freq: seq<int>): (r: HandResult)
    requires freq == Frequencies(rt, t) && 2 in freq
    ensures r.category == OnePair || r.category == TwoPair
    ensures |r.keys| == KeyCount(r.category)
  {
    if multiset(freq)[2] == 1 then
      HandResult(OnePair, [rt[IndexOf(freq, 2)]])
    else
      var temp := Matches(rt, t, 2);
      assert |temp| >= 2 by {
        MatchesCount(rt, t, 2);
        assert 2 in multiset(freq);
      }
      var first := Max(temp);
      HandResult(TwoPair, [first, Max(RemoveAt(temp, IndexOf(temp, first)))])
  }

  /** The histogram describes `t`: a count n > 0 appears in `frequency`
      exactly when some rank occurs n times, and the ranks `Matches` picks
      for n are exactly the ranks occurring n times, each once. */
  lemma FrequencyMeaning(t: seq<int>, n: int)
    requires n > 0
    ensures n in Frequencies(Dedup(t), t) <==> exists x :: x in t && multiset(t)[x] == n
    ensures forall x :: x in Matches(Dedup(t), t, n) <==> multiset(t)[x] == n
    ensures Distinct(Matches(Dedup(t), t, n))
    ensures forall k :: 0 <= k < |Dedup(t)| ==> multiset(t)[Dedup(t)[k]] == Frequencies(Dedup(t), t)[k]
  {
    var rt := Dedup(t);
    var freq := Frequencies(rt, t);
    forall x | multiset(t)[x] == n
      ensures x in rt && exists i :: 0 <= i < |rt| && rt[i] == x && freq[i] == n
    {
      assert x in t;
      var i :| 0 <= i < |rt| && rt[i] == x;
      assert freq[i] == n;
    }
    if n in freq {
      var i :| 0 <= i < |freq| && freq[i] == n;
      assert rt[i] in t;
    }
  }

  /** The pair family reports FOUR_OF_A_KIND exactly when some rank occurs
      four times. */
  lemma PairFamilyQuads(t: seq<int>)
    requires |t| > 0
    ensures PairFamily(t).category == FourOfAKind <==> exists z :: multiset(t)[z] == 4
  {
    FrequencyMeaning(t, 4);
    if exists z :: multiset(t)[z] == 4 {
      var z :| multiset(t)[z] == 4;
      assert z in t;
    }
  }

  /** A rank that occurs four times gives FOUR_OF_A_KIND on that rank
      (with at most seven cards, no other rank can occur four times). */
  lemma PairFamilyFourOfAKind(t: seq<int>, x: int)
    requires multiset(t)[x] == 4
    ensures |t| > 0
    ensures PairFamily(t).category == FourOfAKind
    ensures multiset(t)[PairFamily(t).keys[0]] == 4
    ensures |t| <= 7 ==> PairFamily(t).keys == [x]
  {
    assert x in t;
    FrequencyMeaning(t, 4);
    var rt := Dedup(t);
    var freq := Frequencies(rt, t);
    var key := rt[IndexOf(freq, 4)];
    assert multiset(t)[key] == 4;
    if key != x {
      TwoCountsBound(t, key, x);
    }
  }

  /** No rank four times, one rank three times and one twice: FULL_HOUSE
      with the triple's rank and the highest rank occurring twice (with at
      most seven cards the triple is the only one). */
  lemma PairFamilyFullHouse(t: seq<int>, x: int, y: int)
    requires multiset(t)[x] == 3 && multiset(t)[y] == 2
    requires forall z :: multiset(t)[z] != 4
    ensures |t| > 0
    ensures PairFamily(t).category == FullHouse
    ensures multiset(t)[PairFamily(t).keys[0]] == 3 && multiset(t)[PairFamily(t).keys[1]] == 2
    ensures forall z :: multiset(t)[z] == 2 ==> z <= PairFamily(t).keys[1]
    ensures |t| <= 7 ==> PairFamily(t).keys[0] == x
  {
    assert x in t;
    FrequencyMeaning(t, 4);
    FrequencyMeaning(t, 3);
    FrequencyMeaning(t, 2);
    var r := PairFamily(t);
    assert multiset(t)[r.keys[0]] == 3;
    if r.keys[0] != x {
      ThreeCountsBound(t, r.keys[0], x, y);
    }
  }

  /** No rank four times, none twice, some rank three times:
      THREE_OF_A_KIND with the highest rank occurring three times. */
  lemma PairFamilyThreeOfAKind(t: seq<int>, x: int)
    requires multiset(t)[x] == 3
    requires forall z :: multiset(t)[z] != 4 && multiset(t)[z] != 2
    ensures |t| > 0
    ensures PairFamily(t).category == ThreeOfAKind
    ensures multiset(t)[PairFamily(t).keys[0]] == 3
    ensures forall z :: multiset(t)[z] == 3 ==> z <= PairFamily(t).keys[0]
  {
    assert x in t;
    FrequencyMeaning(t, 4);
    FrequencyMeaning(t, 3);
    FrequencyMeaning(t, 2);
  }

  /** No rank three or four times and exactly one rank twice: ONE_PAIR on it. */
  lemma PairFamilyOnePair(t: seq<int>, x: int)
    requires multiset(t)[x] == 2
    requires forall z :: multiset(t)[z] != 4 && multiset(t)[z] != 3
    requires forall z :: multiset(t)[z] == 2 ==> z == x
    ensures |t| > 0
    ensures PairFamily(t) == HandResult(OnePair, [x])
  {
    assert x in t;
    var rt := Dedup(t);
    var freq := Frequencies(rt, t);
    var m := Matches(rt, t, 2);
    assert 4 !in freq && 3 !in freq && 2 in freq by {
      FrequencyMeaning(t, 4);
      FrequencyMeaning(t, 3);
      FrequencyMeaning(t, 2);
    }
    assert m == [x] by {
      FrequencyMeaning(t, 2);
      DistinctSingleton(m, x);
    }
    assert multiset(freq)[2] == 1 by {
      MatchesCount(rt, t, 2);
    }
    assert multiset(t)[rt[IndexOf(freq, 2)]] == 2 by {
      FrequencyMeaning(t, 2);
    }
  }

  /** A list without repetitions whose only value is x is [x]. */
  lemma DistinctSingleton(m: seq<int>, x: int)
    requires Distinct(m) && x in m
    requires forall z :: z in m ==> z == x
    ensures m == [x]
  {
    DistinctCount(m, x);
    AllSameCount(m, x);
    assert m[0] in m;
  }

  lemma {:induction false} AllSameCount(m: seq<int>, x: int)
    requires forall z :: z in m ==> z == x
    ensures multiset(m)[x] == |m|
  {
    if m != [] {
      assert m == [m[0]] + m[1..];
      assert m[0] in m;
      assert forall z :: z in m[1..] ==> z in m;
      AllSameCount(m[1..], x);
      assert m[0] == x;
      assert multiset(m) == multiset{x} + multiset(m[1..]);
      assert multiset(m)[x] == 1 + multiset(m[1..])[x];
    }
  }

  /** No rank three or four times and at least two ranks twice: TWO_PAIR
      with the two highest ranks that occur twice, the higher first. */
  lemma PairFamilyTwoPair(t: seq<int>, x: int, y: int)
    requires x != y && multiset(t)[x] == 2 && multiset(t)[y] == 2
    requires forall z :: multiset(t)[z] != 4 && multiset(t)[z] != 3
    ensures |t| > 0
    ensures PairFamily(t).category == TwoPair
    ensures PairFamily(t).keys[0] > PairFamily(t).keys[1]
    ensures multiset(t)[PairFamily(t).keys[0]] == 2 && multiset(t)[PairFamily(t).keys[1]] == 2
    ensures forall z :: multiset(t)[z] == 2 ==> z <= PairFamily(t).keys[0]
    ensures forall z :: multiset(t)[z] == 2 ==> z == PairFamily(t).keys[0] || z <= PairFamily(t).keys[1]
  {
    assert x in t;
    var rt := Dedup(t);
    var freq := Frequencies(rt, t);
    var m := Matches(rt, t, 2);
    assert 4 !in freq && 3 !in freq && 2 in freq && x in m && y in m by {
      FrequencyMeaning(t, 4);
      FrequencyMeaning(t, 3);
      FrequencyMeaning(t, 2);
    }
    assert Distinct(m) && forall z :: z in m <==> multiset(t)[z] == 2 by {
      FrequencyMeaning(t, 2);
    }
    assert |m| >= 2;
    assert multiset(freq)[2] != 1 by {
      MatchesCount(rt, t, 2);
    }
    TopTwo(m);
    assert PairFamily(t).keys == [Max(m), Max(RemoveAt(m, IndexOf(m, Max(m))))];
  }

  /** In a list without repetitions, the maximum of what is left after
      removing the maximum is the second-highest element. */
  lemma TopTwo(m: seq<int>)
    requires Distinct(m) && |m| >= 2
    ensures var first := Max(m);
      var second := Max(RemoveAt(m, IndexOf(m, first)));
      second < first && second in m &&
      forall z :: z in m ==> z == first || z <= second
  {
    var first := Max(m);
    var rest := RemoveAt(m, IndexOf(m, first));
    assert multiset(rest) == multiset(m) - multiset{first};
    assert first !in rest by {
      DistinctCount(m, first);
      assert multiset(rest)[first] == 0;
    }
    var second := Max(rest);
    assert second in m by {
      assert second in multiset(rest);
      assert second in multiset(m);
    }
    forall z | z in m
      ensures z == first || z <= second
    {
      if z != first {
        assert z in rest by {
          assert z in multiset(m);
          assert z in multiset(rest);
        }
      }
    }
  }

  /** No rank occurs two, three or four times: HIGH_CARD with the highest rank. */
  lemma PairFamilyHighCard(t: seq<int>)
    requires |t| > 0
    requires forall z :: multiset(t)[z] != 4 && multiset(t)[z] != 3 && multiset(t)[z] != 2
    ensures PairFamily(t).category == HighCard
    ensures PairFamily(t).keys[0] in t
    ensures forall i :: 0 <= i < |t| ==> t[i] <= PairFamily(t).keys[0]
  {
    FrequencyMeaning(t, 4);
    FrequencyMeaning(t, 3);
    FrequencyMeaning(t, 2);
  }

  /** Three different values together occur at most |s| times. */
  lemma {:induction false} ThreeCountsBound(s: seq<int>, x: int, y: int, z: int)
    requires x != y && y != z && x != z
    ensures multiset(s)[x] + multiset(s)[y] + multiset(s)[z] <= |s|
  {
    if s != [] {
      assert s == [s[0]] + s[1..];
      ThreeCountsBound(s[1..], x, y, z);
    }
  }

  // ---------------------------------------------------------------------
  // The straight scan

  /** `ranks_diff`: the differences of neighbouring entries. */
  function Diffs(u: seq<int>): (d: seq<int>)
    requires |u| > 0
    ensures |d| == |u| - 1
  {
    seq(|u| - 1, i requires 0 <= i < |u| - 1 => u[i] - u[i + 1])
  }

  /** Four differences equal to 1 start at position j. */
  predicate FourRunAt(d: seq<int>, j: int)
  {
    0 <= j && j + 4 <= |d| && d[j] == 1 && d[j + 1] == 1 && d[j + 2] == 1 && d[j + 3] == 1
  }

  /** The first position at or after `from` where four 1-differences start,
      or -1 when there is none. */
  function FindFourRun(d: seq<int>, from: nat): (j: int)
    decreases |d| - from
    ensures j == -1 || (from <= j && FourRunAt(d, j))
    ensures forall k :: from <= k && (j == -1 || k < j) ==> !FourRunAt(d, k)
  {
    if from + 4 > |d| then -1
    else if FourRunAt(d, from) then from
    else FindFourRun(d, from + 1)
  }

  /** How many 1-differences end the first i differences. */
  function RunEnding(d: seq<int>, i: nat): (c: nat)
    requires i <= |d|
    ensures c <= i
    ensures forall k :: i - c <= k < i ==> d[k] == 1
    ensures c < i ==> d[i - 1 - c] != 1
  {
    if i == 0 then 0
    else if d[i - 1] == 1 then RunEnding(d, i - 1) + 1
    else 0
  }

  /** The values `count` and `index` hold after the loop at lines 197-206. */
  datatype Scan = Scan(count: int, index: int)

  /** The loop stops at the first run of four 1-differences, with count 4
      and index at the run's start; otherwise it runs to the end and count
      is the length of the trailing run of 1-differences, never above 3. */
  function StraightScan(d: seq<int>): (sc: Scan)
    ensures sc.count == 4 <==> exists j :: FourRunAt(d, j)
    ensures sc.count == 4 ==> FourRunAt(d, sc.index) && forall k :: 0 <= k < sc.index ==> !FourRunAt(d, k)
    ensures sc.count != 4 ==> 0 <= sc.count <= 3 && sc.count == RunEnding(d, |d|)
  {
    var j := FindFourRun(d, 0);
    if j >= 0 then Scan(4, j)
    else
      var c := RunEnding(d, |d|);
      assert c >= 4 ==> FourRunAt(d, |d| - 4);
      Scan(c, if c == 0 then -1 else |d| - c)
  }

  /** Lines 187-214: a run of four 1-differences in the descending-sorted
      ranks gives STRAIGHT on the run's top rank; failing that, a trailing
      run of exactly three with an ace present gives STRAIGHT on 5, unless
      the pair family found four of a kind. */
  function ApplyStraight(pre: HandResult, t: seq<int>): (r: HandResult)
    requires |t| > 0
    ensures r == pre || (r.category == Straight && |r.keys| == 1)
    ensures WellShaped(pre) ==> WellShaped(r)
  {
    var sorted := SortDesc(t);
    assert |sorted| == |multiset(t)| == |t|;
    var sc := StraightScan(Diffs(sorted));
    var r := if sc.count == 3 && 14 in t && pre.category != FourOfAKind then HandResult(Straight, [5]) else pre;
    if sc.count == 4 then HandResult(Straight, [sorted[sc.index]]) else r
  }

  // ---------------------------------------------------------------------
  // The flush check

  /** `[t_suits.count(x) for x in [1, 2, 3, 4]]`. */
  function SuitFrequencies(s: seq<int>): (freq: seq<int>)
    ensures |freq| == 4
    ensures forall k :: 0 <= k < 4 ==> freq[k] == multiset(s)[k + 1]
  {
    [multiset(s)[1], multiset(s)[2], multiset(s)[3], multiset(s)[4]]
  }

  /** `flush_cards` after the loop at lines 231-234: the ranks of the cards
      whose suit value is `suit`, in card order. */
  function FlushRanks(t: seq<int>, s: seq<int>, suit: int): (f: seq<int>)
    requires |t| == |s|
    ensures |f| == multiset(s)[suit]
    decreases |t|
  {
    if t == [] then []
    else
      var n := |t| - 1;
      assert s == s[..n] + [s[n]];
      FlushRanks(t[..n], s[..n], suit) + (if s[n] == suit then [t[n]] else [])
  }

  /** Lines 221-237: when some suit occurs exactly five times, the result is
      FLUSH followed by that suit's ranks, highest first. */
  function ApplyFlush(r: HandResult, t: seq<int>, s: seq<int>): (f: HandResult)
    requires |t| == |s|
    ensures f == r || (f.category == Flush && |f.keys| == 5 && NonIncreasing(f.keys))
    ensures WellShaped(r) ==> WellShaped(f)
  {
    var freq := SuitFrequencies(s);
    if 5 in freq && r.category != StraightFlush then
      var maxSuit := IndexOf(freq, 5) + 1;
      var flush := FlushRanks(t, s, maxSuit);
      assert |flush| == 5 by {
        assert freq[maxSuit - 1] == multiset(s)[maxSuit];
      }
      var sorted := SortDesc(flush);
      assert |sorted| == 5 by {
        assert |sorted| == |multiset(sorted)| == |multiset(flush)| == |flush|;
      }
      HandResult(Flush, sorted)
    else r
  }

  /** When suit value v occurs exactly five times among at most nine cards,
      the flush step returns FLUSH on the ranks of that suit, highest first. */
  lemma ApplyFlushOnSuit(r: HandResult, t: seq<int>, s: seq<int>, v: int)
    requires |t| == |s| <= 9 && 1 <= v <= 4 && multiset(s)[v] == 5
    requires r.category != StraightFlush
    ensures ApplyFlush(r, t, s) == HandResult(Flush, SortDesc(FlushRanks(t, s, v)))
  {
    var freq := SuitFrequencies(s);
    assert freq[v - 1] == 5;
    assert 5 in freq;
    var other := IndexOf(freq, 5) + 1;
    assert other == v by {
      assert multiset(s)[other] == 5;
      if other != v {
        TwoCountsBound(s, other, v);
      }
    }
    ApplyFlushTaken(r, t, s);
  }

  /** When `5 in frequency`, the flush stage takes the first suit with five cards. */
  lemma ApplyFlushTaken(r: HandResult, t: seq<int>, s: seq<int>)
    requires |t| == |s| && 5 in SuitFrequencies(s) && r.category != StraightFlush
    ensures ApplyFlush(r, t, s) == HandResult(Flush, SortDesc(FlushRanks(t, s, IndexOf(SuitFrequencies(s), 5) + 1)))
  {
  }

  /** Without `5 in frequency`, or on a STRAIGHT_FLUSH, the flush stage
      changes nothing. */
  lemma ApplyFlushSkipped(r: HandResult, t: seq<int>, s: seq<int>)
    requires |t| == |s| && !(5 in SuitFrequencies(s) && r.category != StraightFlush)
    ensures ApplyFlush(r, t, s) == r
  {
  }

  // ---------------------------------------------------------------------
  // The evaluator

  /** Never STRAIGHT_FLUSH or ROYAL_STRAIGHT_FLUSH, and the number of keys
      the category calls for. */
  predicate WellShaped(r: HandResult)
  {
    r.category != StraightFlush && r.category != RoyalStraightFlush && |r.keys| == KeyCount(r.category)
  }

  /** `evalHand` on `community_cards + self.hand`. Python's `max` fails on
      an empty list, so at least one card is needed. No path produces
      STRAIGHT_FLUSH or ROYAL_STRAIGHT_FLUSH, and every result carries the
      number of keys its category calls for. */
  function Evaluate(cards: seq<Card>): (r: HandResult)
    requires |cards| > 0
    ensures WellShaped(r)
  {
    var t := HighRanks(cards);
    var s := SuitValues(cards);
    ApplyFlush(ApplyStraight(PairFamily(t), t), t, s)
  }
}
