# Poker hand evaluation, tie-breaking and the deck, in Dafny

This project models the poker library `poker.py` of the Poker Probability
Calculator. The library simulates heads-up Texas Hold'em.

- A `Deck` of 52 cards is built by two nested loops and optionally shuffled.
  Cards are dealt and burned by popping from the end of the list.
- A `Player` holds a hand and a bankroll. `evalHand` rates the player's hole
  cards together with the community cards. It returns a list whose first
  element is a `Hand` category. The remaining elements are integer
  tie-break keys, with the ace counted as 14.
- `breakTie` compares two results of the same category key by key.
  The showdown in `Game` first compares the category values, then calls
  `breakTie`.
- `createCard` decodes a rank character and a suit character into a card.

The modules follow the program's structure.

- `PokerTypes`: the enums `Suit`, `Rank` and `Hand`, the card, and the
  evaluator's result list. It also holds `createCard`, and Python's
  IndexError and ValueError as `Result` errors.
- `SeqUtil`: the Python built-ins the evaluator relies on: `max`,
  `list.index`, `sort(reverse=True)`, the "append if not present" loop,
  `list.pop(k)`, and the order in which a stack pops.
- `Decks`: the `Deck` class. Its `cards` field is the Python list.
- `HandEval`: `evalHand` written as functions, one per stage. These are the
  ace-high rank list, the histogram and pair family, the straight scan and
  the flush check. The module also holds the lemmas about the pair family.
- `HandFacts`: what `evalHand` returns, stated in terms of the cards. It
  covers when the result is a flush, a straight, the low-ace straight, or
  what the pair family found.
- `Players`: the `Player` class. `EvalHand` runs the source's three loops.
  It is proved to return exactly `HandEval.Evaluate` of the combined cards.
- `Determinism`: for up to seven cards, the result does not depend on the
  order of the cards.
- `TieBreak`: `breakTie` as a method with the flush loop, and the function
  that specifies it. Its reference is the lexicographic order, and it comes
  with the showdown decision.

The evaluator is modelled as written, including its departures from the
rules of poker:

- A rank that appears twice inside a run gives a 0 difference in the sorted
  rank list, and the straight scan restarts.
- The low-ace rule gives `[STRAIGHT, 5]` whenever the sorted ranks end in
  exactly three 1-differences and an ace is present, unless the hand is four
  of a kind. It never checks that those ranks are 5-4-3-2, so A-9-8-7-6 also
  counts.
- A flush needs a suit that occurs exactly five times. Six cards of one suit
  give no flush.
- Two triples and a single card give THREE_OF_A_KIND.
- STRAIGHT_FLUSH and ROYAL_STRAIGHT_FLUSH are never produced. A straight
  flush is reported as FLUSH when its suit has exactly five cards. With six
  or seven cards of that suit it gets whatever the straight and pair stages
  found: six hearts from 7 down to 2 give [STRAIGHT, 7].

For up to seven cards, which is what a game deals, the result does not
depend on the order of the cards, nor on which of them are hole cards. With
eight or more cards, two ranks can each occur four times. `frequency.index(4)`
then reports the rank that was collected first, so the order matters there.

The comment above `setBet` (poker.py:117) says the method returns False when
the bankroll is used up. The code returns `bankroll <= 0`, which is True in
that case. The model follows the code.

## Model

| member | source | states |
|---|---|---|
| PokerTypes.EnumOrder | poker.py:15-34 | `list(Suit)` and `list(Rank)` hold the members in declaration order: position k has enum value k + 1, and every member sits at its value minus one |
| PokerTypes.Suit.Value | poker.py:15-19 | each suit's enum value lies in 1..4 (its position in `list(Suit)` plus one, by `EnumOrder`) |
| PokerTypes.Rank.Value | poker.py:21-34 | each rank's enum value lies in 1..13, the ace being 1 (its position in `list(Rank)` plus one, by `EnumOrder`) |
| PokerTypes.Hand.Value | poker.py:36-46 | each category's enum value lies in 1..10 |
| PokerTypes.HandOrder | poker.py:36-46 | the category at position k of `list(Hand)` has value k + 1, so the values rise strictly from HIGH_CARD to ROYAL_STRAIGHT_FLUSH, and two categories have the same value exactly when they are the same category, which is what lets the showdown's equal-value branch treat both results as one category |
| PokerTypes.CreateCard | poker.py:361-362 | decoding succeeds exactly when the rank character is in "a23456789tjqk" and the suit character is in "hdcs"; otherwise it fails with ValueError; a decoded card's rank and suit sit at their value minus one in those strings |
| PokerTypes.CreateCardRoundTrip | poker.py:361-362 | every card is decoded from its own two characters, so the decoder is onto the 52 cards |
| PokerTypes.CreateCardLetters | poker.py:362 | 'a' decodes to the ace and 't' to the ten, whatever the suit |
| Decks.FreshDeck | poker.py:64-72 | the deck in construction order has 52 cards |
| Decks.FreshDeckPosition | poker.py:70-72 | position 13*i+j of the unshuffled deck holds `list(Suit)[i]` and `list(Rank)[j]`, with suit value i+1 and rank value j+1 |
| Decks.FreshDeckAt | poker.py:70-72 | the append at step (i, j) of the nested loops extends the first 13*i+j cards of the deck to the first 13*i+j+1 |
| Decks.FreshDeckComplete | poker.py:67-72 | every one of the 52 suit/rank pairs occurs in the fresh deck exactly once |
| Decks.Deck.constructor | poker.py:64-76 | the new deck holds 52 cards, none twice, is a permutation of the fresh deck, and is the fresh deck in order when not shuffled |
| Decks.Deck.Shuffle | poker.py:78-79 | the cards are permuted: the multiset of cards is unchanged, so the deck still holds no card twice and only cards of the 52 |
| Decks.Deck.GetCount | poker.py:81-82 | returns the number of cards left |
| Decks.Deck.DealCards | poker.py:84-88 | for n up to the count, returns the last max(n, 0) cards in pop order and leaves the first count-n cards untouched; for n above the count, empties the deck and raises IndexError; never adds a card |
| Decks.DealConserves | poker.py:84-88 | the cards dealt and the cards left together are exactly the cards before the deal |
| Decks.Deck.GetCard | poker.py:90-92 | ignores its arguments and returns the whole deck |
| Decks.Deck.BurnCard | poker.py:94-95 | removes exactly the last card; on an empty deck raises IndexError and changes nothing |
| SeqUtil.Max | poker.py:154 | the result is an element of the list and no element exceeds it |
| SeqUtil.IndexOf | poker.py:158 | the result is the position of the first occurrence |
| SeqUtil.Dedup | poker.py:138-142 | the collected rank types are exactly the values of the list, each once |
| SeqUtil.SortDesc | poker.py:187-188 | the result is non-increasing and a permutation of the input |
| SeqUtil.SortedUnique | poker.py:188 | two non-increasing lists with the same elements are equal, so the sorted list depends only on the multiset of ranks |
| SeqUtil.RemoveAt | poker.py:181 | `pop(k)` removes one occurrence of the element at k and nothing else |
| SeqUtil.Map | poker.py:127-135 | a list comprehension has one element per input element, the function applied to it |
| SeqUtil.MapPermutation | poker.py:127-135 | mapping two lists that hold the same elements gives lists that hold the same elements |
| SeqUtil.Reverse | poker.py:86-87 | element i of the popped list is element count-1-i of the popped segment |
| HandEval.HighRanks | poker.py:128-135 | one ace-high rank per card |
| HandEval.HighRanksMeaning | poker.py:128-135 | every ace-high rank is in 2..14, it is 14 exactly for an ace, and any other card keeps its rank's enum value |
| HandEval.SuitValues | poker.py:127 | one suit value per card, each in 1..4 |
| HandEval.Frequencies | poker.py:144 | one count per rank type |
| HandEval.FrequencyMeaning | poker.py:138-144 | a count n > 0 is in the histogram exactly when some rank occurs n times; entry k counts rank type k |
| HandEval.Matches | poker.py:177-178 | the ranks selected for count n are exactly the rank types that occur n times, without repetition |
| HandEval.MatchesCount | poker.py:171 | `frequency.count(n)` equals the number of rank types selected for n |
| HandEval.PairFamily | poker.py:154-183 | the pair family only yields HIGH_CARD, ONE_PAIR, TWO_PAIR, THREE_OF_A_KIND, FULL_HOUSE or FOUR_OF_A_KIND, with one key each, or two for TWO_PAIR and FULL_HOUSE |
| HandEval.TripleFamily | poker.py:159-169 | with a count of 3 in the histogram, the result is FULL_HOUSE with two keys or THREE_OF_A_KIND with one |
| HandEval.PairOfPairs | poker.py:170-183 | with a count of 2 in the histogram, the result is ONE_PAIR with one key or TWO_PAIR with two |
| HandEval.PairFamilyQuads | poker.py:157-158 | the pair family gives FOUR_OF_A_KIND exactly when some rank occurs four times |
| HandEval.PairFamilyFourOfAKind | poker.py:157-158 | a rank occurring four times gives FOUR_OF_A_KIND on a quad rank, which is that rank when there are at most seven cards |
| HandEval.PairFamilyFullHouse | poker.py:159-164 | a triple and a pair with no quad give FULL_HOUSE on a triple rank and the highest paired rank; with at most seven cards the triple is the given one |
| HandEval.PairFamilyThreeOfAKind | poker.py:165-169 | a triple with no pair and no quad gives THREE_OF_A_KIND on the highest triple rank, including two triples and a single card |
| HandEval.PairFamilyOnePair | poker.py:170-173 | exactly one paired rank, with no triple or quad, gives ONE_PAIR on that rank |
| HandEval.PairFamilyTwoPair | poker.py:174-183 | two or more paired ranks, with no triple or quad, give TWO_PAIR on the highest paired rank and the highest of the others; the first key is greater |
| HandEval.TopTwo | poker.py:180-182 | taking the maximum, popping it and taking the maximum again gives the second-highest value |
| HandEval.PairFamilyHighCard | poker.py:154 | no rank occurring 2, 3 or 4 times gives HIGH_CARD on the highest rank |
| HandEval.Diffs | poker.py:189 | one difference per pair of neighbouring ranks |
| HandEval.FindFourRun | poker.py:197-206 | finds the first position from which four differences equal 1, or -1 when there is none |
| HandEval.RunEnding | poker.py:197-204 | the length of the run of 1-differences that ends the first i differences: the run is all 1s and the difference before it is not 1 |
| HandEval.StraightScan | poker.py:195-206 | the scan ends with count 4 exactly when a run of four 1-differences exists, with the index at the first such run; otherwise count is the trailing run length, at most 3 |
| HandEval.ApplyStraight | poker.py:187-214 | the straight stage either keeps the earlier result or gives STRAIGHT with one key, so a well-formed result stays well-formed |
| HandEval.SuitFrequencies | poker.py:221-222 | one count per suit value 1..4 |
| HandEval.FlushRanks | poker.py:227-234 | the flush loop collects as many ranks as there are cards of the chosen suit |
| HandEval.ApplyFlush | poker.py:221-237 | the flush stage either keeps the earlier result or gives FLUSH with five keys, highest first, so a well-formed result stays well-formed |
| HandEval.ApplyFlushOnSuit | poker.py:228-237 | with at most nine cards and a suit occurring exactly five times, the flush stage gives FLUSH on that suit's ranks, sorted highest first |
| HandEval.Evaluate | poker.py:123-240 | the evaluator never returns STRAIGHT_FLUSH or ROYAL_STRAIGHT_FLUSH, and each result carries the number of keys its category calls for |
| HandFacts.SuitCountIsCards | poker.py:222 | `t_suits.count(v)` is the number of cards of the suit with value v |
| HandFacts.FlushRanksAreSuitRanks | poker.py:231-234 | the flush loop collects the ace-high ranks of exactly the cards of the chosen suit, in card order |
| HandFacts.FlushRanksOfLast | poker.py:231-234 | one iteration of the flush loop, on the last card, appends that card's ace-high rank exactly when it has the chosen suit |
| HandFacts.SuitFrequenciesMeaning | poker.py:221-228 | `5 in frequency` holds exactly when some suit has five cards; entry v-1 counts the cards of suit v |
| HandFacts.FourRunIsRunOfFive | poker.py:189-206 | four 1-differences from position j are exactly five sorted ranks from j, each one below the previous |
| HandFacts.EvaluateNoFlush | poker.py:228-237 | with no suit occurring exactly five times, including six or seven of a suit, the flush stage changes nothing |
| HandFacts.EvaluateFlush | poker.py:228-237 | a suit with exactly five cards, among at most nine, makes the hand FLUSH on those five ace-high ranks, highest first, whatever came before, a straight flush included |
| HandFacts.EvaluateFlushOnlyIf | poker.py:228-237 | a FLUSH result only comes from a suit with exactly five cards |
| HandFacts.EvaluateStraight | poker.py:212-214 | without a flush, the first run of five sorted ranks stepping down by one, duplicates kept, gives STRAIGHT on the run's top rank |
| HandFacts.OneSuitCards | poker.py:231-234 | when every card has one suit, that suit's cards are all the cards and every other suit has none |
| HandFacts.StraightFlushOfSixOrSeven | poker.py:212-237 | six or seven cards of one suit, in any order, whose ranks sorted highest first open with a run of five are STRAIGHT on the top rank of that sort, not FLUSH, because `5 in frequency` fails |
| HandFacts.StraightFlushSorted | poker.py:187-237 | for six or seven cards of one suit already given highest first and opening with a run of five, the sort keeps them as they are and the hand is STRAIGHT on the first card's rank |
| HandFacts.SixHeartsSevenHigh | poker.py:212-237 | six hearts from 7 down to 2 give [STRAIGHT, 7] |
| HandFacts.EvaluateLowAce | poker.py:208-210 | without a flush or run of five: when the last four sorted ranks step down by one and the run stops there, an ace is present and no rank occurs four times, the hand is STRAIGHT on 5 |
| HandFacts.TrailingThree | poker.py:197-210 | the trailing run of 1-differences has length 3 exactly when the last four sorted ranks step down by one and the rank before them does not continue the run |
| HandFacts.RunEndingExact | poker.py:197-204 | a trailing run of exactly c 1-differences has length c |
| HandFacts.RunEndingThree | poker.py:197-204 | a trailing run of length 3 means the last three differences are 1 and the one before them, if any, is not |
| HandFacts.LowFourRunCount | poker.py:197-208 | when the last four sorted ranks step down by one and the run stops there, the trailing run of 1-differences has length 3 |
| HandFacts.CountThreeLowFourRun | poker.py:197-208 | a trailing run of length 3 means the last four sorted ranks step down by one and the run stops there |
| HandFacts.OnesLowFourRun | poker.py:189-208 | three trailing 1-differences, not continued before them, are four sorted ranks stepping down by one |
| HandFacts.EvaluatePairFamily | poker.py:154-214 | without a flush, a run of five or the low-ace rule, the result is what the pair family found |
| HandFacts.EvaluateStraightOnlyIf | poker.py:187-214 | a STRAIGHT result only comes from a run of five, or from the low-ace rule, and never with a flush suit |
| Players.CollectRankTypes | poker.py:138-142 | the histogram loop leaves in `rank_types` each rank once, in order of first appearance |
| Players.ScanRuns | poker.py:195-206 | the loop's final count and index are those of `StraightScan` |
| Players.CollectFlush | poker.py:227-234 | the loop collects exactly `FlushRanks`, the ranks of the chosen suit in card order |
| Players.StraightSteps | poker.py:187-214 | the sort, the scan and the two straight rules give the straight stage's result |
| Players.FlushSteps | poker.py:221-237 | the suit histogram and flush loop give the flush stage's result |
| Players.Player.constructor | poker.py:105-109 | a new player has an empty hand and the given bankroll and strategy |
| Players.Player.SetHand | poker.py:111-112 | replaces the hand and nothing else |
| Players.Player.GetHand | poker.py:114-115 | returns the hand |
| Players.Player.SetBet | poker.py:118-120 | lowers the bankroll by the bet and returns true exactly when the bankroll is then zero or below |
| Players.Player.EvalHand | poker.py:123-240 | evaluating the community cards plus the hand returns `Evaluate` of those cards; with no card at all it raises ValueError |
| Determinism.ListsAreMaps | poker.py:127-135 | `t_ranks` and `t_suits` are comprehensions over the cards |
| Determinism.ListsPermutation | poker.py:127-135 | the same cards in another order give the same ranks and suit values in another order |
| Determinism.SortDescPermutation | poker.py:187-188 | the descending sort depends only on the elements |
| Determinism.PairFamilyPermutation | poker.py:138-183 | for at most seven ranks, the pair family gives the same result for any order of the same ranks |
| Determinism.FullHousePermutation | poker.py:159-164 | with at most seven ranks, FULL_HOUSE has the same keys for any order |
| Determinism.ThreeOfAKindPermutation | poker.py:165-169 | THREE_OF_A_KIND has the same key for any order |
| Determinism.TwoPairPermutation | poker.py:174-183 | TWO_PAIR has the same keys for any order |
| Determinism.HighCardPermutation | poker.py:154 | HIGH_CARD has the same key for any order |
| Determinism.ApplyStraightPermutation | poker.py:187-214 | the straight stage gives the same result for any order of the same ranks |
| Determinism.CardsOfSuitCount | poker.py:231-234 | a card is among those of a suit as often as among all the cards when it has that suit, never otherwise |
| Determinism.CardsOfSuitPermutation | poker.py:231-234 | the cards of one suit are the same cards whatever the order of the hand |
| Determinism.ApplyFlushPermutation | poker.py:221-237 | the flush stage gives the same result for any order of the same cards |
| Determinism.EvaluatePermutation | poker.py:123-240 | the same seven or fewer cards in any order evaluate to the same result |
| Determinism.EvaluateSwapsHoleCards | poker.py:125 | for seven or fewer cards, `community_cards + self.hand` and `self.hand + community_cards` evaluate alike |
| TieBreak.Order | poker.py:330-335 | 1 when the first key is larger, 2 when the second is, 3 when they are equal |
| TieBreak.FlushScan | poker.py:349-355 | the flush loop returns 1, 2 or 3; it raises IndexError only when the second list is shorter |
| TieBreak.TieBreak | poker.py:326-356 | `breakTie` returns only 1, 2 or 3, or IndexError when a key it reads is missing |
| TieBreak.BreakTie | poker.py:326-356 | the statements, including the flush loop with its early returns, compute `TieBreak` |
| TieBreak.FlushScanIsLex | poker.py:349-355 | on lists of equal length the flush loop is the lexicographic order: 1 exactly when the first is greater, 2 exactly when the second is, 3 exactly when they are equal |
| TieBreak.TieBreakIsLex | poker.py:326-356 | for keys of the length the category calls for, `breakTie` compares index 1, indices 1 then 2, or all five keys lexicographically, and returns 3 for the other categories; 3 exactly when the keys are equal |
| TieBreak.TieBreakAntisymmetric | poker.py:326-356 | for two results of the same category whose key lists have the same length, `breakTie(a,b)==1` iff `breakTie(b,a)==2`, and `breakTie(a,b)==3` iff `breakTie(b,a)==3` |
| TieBreak.TieBreakSelf | poker.py:326-356 | `breakTie(a,a)` is 3 exactly when the category is FLUSH or the keys are at least as many as the category reads; otherwise it raises IndexError |
| TieBreak.Showdown | poker.py:301-312 | a higher category value wins outright; equal categories are decided by `breakTie`, with 1 the first, 2 the second and 3 a tie |
| TieBreak.ShowdownOfWellShaped | poker.py:301-312 | between two results that carry their category's number of keys, the showdown never raises, swapping them swaps the winner, and it is a tie exactly when they are equal |
| TieBreak.ShowdownOfEvaluated | poker.py:301-312 | between two evaluated hands the showdown never raises, swapping the hands swaps the winner, and it is a tie exactly when the two results are equal |

## Left out

- `Game()` (poker.py:253-322) is not modelled: its random deals, the win and hand statistics, the float ratios, and the screen clearing and printing. Only its per-showdown decision (poker.py:301-312) is modelled, as `TieBreak.Showdown`.
- Decks.Deck.Shuffle: `random.shuffle` is modelled as an arbitrary permutation of the cards. Which permutation it picks, and its randomness, are not modelled.
- The `Player.id_iter` counter and the `id` field (poker.py:103, 106) are not modelled. They are process-wide identity bookkeeping with no behaviour to state.
- `getMove` (poker.py:247-248) is an empty stub, and the `Strategy` enum and the `time` and `pygame` imports are unused. The `os` import only clears the screen inside `Game` (poker.py:317), which is left out above. The `strategy` field is kept as a plain integer.
- `Card.__str__` (poker.py:58-59) is display formatting and is not modelled.
- PokerTypes.CreateCard: takes one character for each argument. Python's `str.index` also accepts longer or empty strings, which it looks up as substrings (`"hdcs".index("")` is 0). That case is not modelled.
- Decks.Deck.DealCards: Python would also accept a non-integer count and raise TypeError. The model takes an integer.
- HandEval.Evaluate: needs at least one card, because `max` of an empty list raises ValueError (poker.py:154). `Players.Player.EvalHand` returns that ValueError on empty input.
- HandFacts.EvaluateFlush: assumes at most nine cards, so that only one suit can occur exactly five times. `Game` deals seven.
- HandEval.PairFamilyFourOfAKind: names the quad rank only for hands of at most seven cards, where a second quad is impossible.
- HandEval.PairFamilyFullHouse: names the triple rank only for hands of at most seven cards, where a second triple alongside a pair is impossible.
- TieBreak.TieBreakIsLex: states the lexicographic reading only for key lists of the length the category calls for, which is what `evalHand` produces. For other lengths `TieBreak` gives the source's result, including IndexError.
- Python's enum members are compared by identity (`res1[0] == Hand.HIGH_CARD`). The model compares datatype values, which behaves the same here.
