// The `Deck` class: a Python list of cards used as a stack. It is built by
// two nested loops, dealt and burned by `pop()` from the end of the list,
// and shuffled by `random.shuffle`.

module Decks {
  import opened SeqUtil
  import opened PokerTypes

  /** The deck in construction order: position 13 * i + j holds
      (list(Suit)[i], list(Rank)[j]). */
  function FreshDeck(): (d: seq<Card>)
    ensures |d| == 52
  {
    seq(52, k requires 0 <= k < 52 => Card(Suits[k / 13], Ranks[k % 13]))
  }

  /** Position 13 * i + j of the fresh deck holds the i-th suit and the
      j-th rank, so each suit fills a block of 13 cards, Ace to King. */
  lemma FreshDeckPosition(i: nat, j: nat)
    requires i < 4 && j < 13
    ensures 13 * i + j < 52
    ensures FreshDeck()[13 * i + j] == Card(Suits[i], Ranks[j])
    ensures FreshDeck()[13 * i + j].suit.Value() == i + 1 && FreshDeck()[13 * i + j].rank.Value() == j + 1
  {
    EnumOrder();
    var k := 13 * i + j;
    assert k / 13 == i && k % 13 == j;
  }

  /** Appending (list(Suit)[i], list(Rank)[j]) to the first 13 * i + j cards
      of the fresh deck gives its first 13 * i + j + 1. */
  lemma FreshDeckAt(i: nat, j: nat)
    requires i < 4 && j < 13
    ensures FreshDeck()[..13 * i + j + 1] == FreshDeck()[..13 * i + j] + [Card(Suits[i], Ranks[j])]
  {
    var k := 13 * i + j;
    assert k / 13 == i && k % 13 == j;
  }

  /** The unshuffled deck holds every one of the 52 cards exactly once. */
  lemma FreshDeckComplete(c: Card)
    ensures multiset(FreshDeck())[c] == 1
  {
    var d := FreshDeck();
    var i, j := c.suit.Value() - 1, c.rank.Value() - 1;
    assert c == Card(Suits[i], Ranks[j]) && i < 4 && j < 13 by {
      EnumOrder();
    }
    FreshDeckPosition(i, j);
    forall p, q | 0 <= p < q < 52
      ensures d[p] != d[q]
    {
      FreshDeckPosition(p / 13, p % 13);
      FreshDeckPosition(q / 13, q % 13);
    }
    DistinctCount(d, c);
  }

  class Deck {
    /** `card_deck`; its last element is the top of the deck. */
    var cards: seq<Card>

    /** No card is held twice (every `Card` value is one of the 52): the
        constructor sets this up and every method that changes the deck
        keeps it. */
    ghost predicate Valid()
      reads this
    {
      forall c: Card :: multiset(cards)[c] <= 1
    }

    /** `Deck(isShuffled)`: the 52 cards appended suit by suit, rank by rank,
        then shuffled when asked. */
    constructor (isShuffled: bool)
      ensures Valid() && |cards| == 52
      ensures multiset(cards) == multiset(FreshDeck())
      ensures !isShuffled ==> cards == FreshDeck()
    {
      cards := [];
      new;
      for i := 0 to 4
        invariant cards == FreshDeck()[..13 * i]
      {
        for j := 0 to 13
          invariant cards == FreshDeck()[..13 * i + j]
        {
          FreshDeckAt(i, j);
          cards := cards + [Card(Suits[i], Ranks[j])];
        }
      }
      assert cards == FreshDeck()[..52] == FreshDeck();
      forall c: Card
        ensures multiset(cards)[c] <= 1
      {
        FreshDeckComplete(c);
      }
      if isShuffled {
        Shuffle();
      }
      assert |cards| == |multiset(cards)| == |multiset(FreshDeck())| == 52;
    }

    /** `random.shuffle`: some permutation of the cards, which one is not modelled. */
    method Shuffle()
      requires Valid()
      modifies this
      ensures multiset(cards) == multiset(old(cards))
      ensures Valid()
    {
      var shuffled :| multiset(shuffled) == multiset(cards);
      cards := shuffled;
    }

    /** `getCount`: the number of cards left. */
    method GetCount() returns (n: int)
      ensures n == |cards|
    {
      n := |cards|;
    }

    /** `dealCards(n)`: pops n cards, one at a time, into a new list. Popping
        an empty deck raises IndexError; the cards popped before that are
        lost with the discarded list. A negative n deals nothing. */
    method DealCards(n: int) returns (r: Result<seq<Card>>)
      requires Valid()
      modifies this
      ensures n <= |old(cards)| ==>
        var k := if n < 0 then 0 else n;
        r == Ok(Reverse(old(cards)[|old(cards)| - k..])) && cards == old(cards)[..|old(cards)| - k]
      ensures n > |old(cards)| ==> r == Err(IndexError) && cards == []
      ensures Valid()
    {
      ghost var start := cards;
      var ret: seq<Card> := [];
      var i := 0;
      while i < n
        invariant 0 <= i <= |start| && (i <= n || n < 0)
        invariant n < 0 ==> i == 0
        invariant cards == start[..|start| - i]
        invariant ret == Reverse(start[|start| - i..])
      {
        if cards == [] {
          r := Err(IndexError);
          return;
        }
        assert start[|start| - (i + 1)..] == [cards[|cards| - 1]] + start[|start| - i..];
        ret := ret + [cards[|cards| - 1]];
        cards := cards[..|cards| - 1];
        i := i + 1;
      }
      PrefixWithin(start, |start| - i);
      r := Ok(ret);
    }

    /** `getCard(value, suit)`: ignores its arguments and returns a copy of
        the whole deck. */
    method GetCard(value: Rank, suit: Suit) returns (r: seq<Card>)
      ensures r == cards
    {
      r := cards;
    }

    /** `burnCard`: pops the top card and drops it; IndexError on an empty deck. */
    method BurnCard() returns (r: Result<()>)
      requires Valid()
      modifies this
      ensures |old(cards)| > 0 ==> r == Ok(()) && cards == old(cards)[..|old(cards)| - 1]
      ensures |old(cards)| == 0 ==> r == Err(IndexError) && cards == []
      ensures Valid()
    {
      if cards == [] {
        r := Err(IndexError);
        return;
      }
      PrefixWithin(cards, |cards| - 1);
      cards := cards[..|cards| - 1];
      r := Ok(());
    }
  }

  /** What is left after popping cards from the top is among the cards
      there were. */
  lemma PrefixWithin(s: seq<Card>, m: nat)
    requires m <= |s|
    ensures multiset(s[..m]) <= multiset(s)
  {
    assert s == s[..m] + s[m..];
  }

  /** Dealing moves cards and never copies one: the dealt cards and the cards
      left are together exactly the cards there were. */
  lemma {:induction false} DealConserves(before: seq<Card>, k: nat)
    requires k <= |before|
    ensures multiset(before[..|before| - k]) + multiset(Reverse(before[|before| - k..])) == multiset(before)
  {
    ReverseSameElements(before[|before| - k..]);
    assert before == before[..|before| - k] + before[|before| - k..];
  }

  lemma {:induction false} ReverseSameElements<T>(s: seq<T>)
    ensures multiset(Reverse(s)) == multiset(s)
  {
    if s != [] {
      ReverseSameElements(s[1..]);
      assert s == [s[0]] + s[1..];
    }
  }
}
