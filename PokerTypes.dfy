// The value types of the poker library: suits, ranks, cards, the hand
// categories, the evaluator's result list, and the test-card decoder.

module PokerTypes {
  import opened SeqUtil

  /** Python exceptions the modelled code can raise. */
  datatype Error = IndexError | ValueError

  datatype Result<T> = Ok(value: T) | Err(error: Error)

  datatype Suit = Hearts | Diamonds | Clubs | Spades
  {
    /** The enum value, 1 to 4. */
    function Value(): (v: int)
      ensures 1 <= v <= 4
    {
      match this
      case Hearts => 1
      case Diamonds => 2
      case Clubs => 3
      case Spades => 4
    }
  }

  datatype Rank = Ace | Two | Three | Four | Five | Six | Seven | Eight | Nine | Ten | Jack | Queen | King
  {
    /** The enum value: Ace is 1, King is 13. */
    function Value(): (v: int)
      ensures 1 <= v <= 13
    {
      match this
      case Ace => 1
      case Two => 2
      case Three => 3
      case Four => 4
      case Five => 5
      case Six => 6
      case Seven => 7
      case Eight => 8
      case Nine => 9
      case Ten => 10
      case Jack => 11
      case Queen => 12
      case King => 13
    }
  }

  /** `list(Suit)` and `list(Rank)`: the members in declaration order. */
  const Suits: seq<Suit> := [Hearts, Diamonds, Clubs, Spades]
  const Ranks: seq<Rank> := [Ace, Two, Three, Four, Five, Six, Seven, Eight, Nine, Ten, Jack, Queen, King]

  /** The member at position k of `list(Suit)` / `list(Rank)` has value k + 1. */
  lemma EnumOrder()
    ensures |Suits| == 4 && |Ranks| == 13
    ensures forall k :: 0 <= k < 4 ==> Suits[k].Value() == k + 1
    ensures forall k :: 0 <= k < 13 ==> Ranks[k].Value() == k + 1
    ensures forall s: Suit :: s == Suits[s.Value() - 1]
    ensures forall r: Rank :: r == Ranks[r.Value() - 1]
  {
  }

  datatype Card = Card(suit: Suit, rank: Rank)

  /** The hand categories, weakest first. */
  datatype Hand =
    | HighCard | OnePair | TwoPair | ThreeOfAKind | Straight | Flush
    | FullHouse | FourOfAKind | StraightFlush | RoyalStraightFlush
  {
    /** The enum value, 1 to 10, used to compare categories at a showdown. */
    function Value(): (v: int)
      ensures 1 <= v <= 10
    {
      match this
      case HighCard => 1
      case OnePair => 2
      case TwoPair => 3
      case ThreeOfAKind => 4
      case Straight => 5
      case Flush => 6
      case FullHouse => 7
      case FourOfAKind => 8
      case StraightFlush => 9
      case RoyalStraightFlush => 10
    }
  }

  /** `list(Hand)`: the categories in declaration order, weakest first. */
  const Hands: seq<Hand> :=
    [HighCard, OnePair, TwoPair, ThreeOfAKind, Straight, Flush, FullHouse, FourOfAKind, StraightFlush, RoyalStraightFlush]

  /** The category at position k of `list(Hand)` has value k + 1, so the
      values rise strictly from HIGH_CARD to ROYAL_STRAIGHT_FLUSH and two
      categories with the same value are the same category. */
  lemma HandOrder()
    ensures |Hands| == 10
    ensures forall k :: 0 <= k < 10 ==> Hands[k].Value() == k + 1
    ensures forall h: Hand :: h == Hands[h.Value() - 1]
    ensures forall h1: Hand, h2: Hand :: h1.Value() == h2.Value() <==> h1 == h2
  {
    assert forall h: Hand :: h == Hands[h.Value() - 1];
  }

  /** The list that `evalHand` returns: element 0 is the category, the rest
      are the integer tie-break keys. */
  datatype HandResult = HandResult(category: Hand, keys: seq<int>)

  /** The card characters `createCard` accepts. */
  const RankChars: string := "a23456789tjqk"
  const SuitChars: string := "hdcs"

  /** `createCard(rank, suit)`: the rank character's position in "a23456789tjqk"
      picks the rank and the suit character's position in "hdcs" the suit; any
      other character raises ValueError. */
  function CreateCard(rank: char, suit: char): (r: Result<Card>)
    ensures r.Ok? <==> rank in RankChars && suit in SuitChars
    ensures r.Err? ==> r.error == ValueError
    ensures r.Ok? ==> RankChars[r.value.rank.Value() - 1] == rank
    ensures r.Ok? ==> SuitChars[r.value.suit.Value() - 1] == suit
  {
    if suit !in SuitChars || rank !in RankChars then Err(ValueError)
    else
      EnumOrder();
      Ok(Card(Suits[IndexOf(SuitChars, suit)], Ranks[IndexOf(RankChars, rank)]))
  }

  /** Every card is created from its own two characters: the decoder is onto
      and its inverse is "take the characters at value - 1". */
  lemma CreateCardRoundTrip(c: Card)
    ensures CreateCard(RankChars[c.rank.Value() - 1], SuitChars[c.suit.Value() - 1]) == Ok(c)
  {
    EnumOrder();
    RankCharPosition(c.rank);
    SuitCharPosition(c.suit);
  }

  lemma RankCharPosition(r: Rank)
    ensures IndexOf(RankChars, RankChars[r.Value() - 1]) == r.Value() - 1
  {
    var k := r.Value() - 1;
    assert forall i :: 0 <= i < k ==> RankChars[i] != RankChars[k];
  }

  lemma SuitCharPosition(s: Suit)
    ensures IndexOf(SuitChars, SuitChars[s.Value() - 1]) == s.Value() - 1
  {
    var k := s.Value() - 1;
    assert forall i :: 0 <= i < k ==> SuitChars[i] != SuitChars[k];
  }

  /** 'a' is the ace and 't' the ten, whatever the suit character. */
  lemma CreateCardLetters(s: Suit)
    ensures CreateCard('a', SuitChars[s.Value() - 1]) == Ok(Card(s, Ace))
    ensures CreateCard('t', SuitChars[s.Value() - 1]) == Ok(Card(s, Ten))
  {
    var sc := SuitChars[s.Value() - 1];
    assert RankChars[Ace.Value() - 1] == 'a';
    assert RankChars[Ten.Value() - 1] == 't';
    CreateCardRoundTrip(Card(s, Ace));
    CreateCardRoundTrip(Card(s, Ten));
  }
}
