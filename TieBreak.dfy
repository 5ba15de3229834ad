// `breakTie(res1, res2)` and the showdown that calls it: two evaluated
// hands are first compared by category value, and only when the values are
// equal does `breakTie` compare the keys. The result 1 means the first hand
// wins, 2 the second, 3 a tie. Reading a key past the end of either list
// raises IndexError, modelled as `Err(IndexError)`.

module TieBreak {
  import opened PokerTypes
  import opened HandEval

  /** Comparison of one key of each hand: 1, 2 or 3. */
  function Order(x: int, y: int): (r: int)
    ensures r == 1 <==> x > y
    ensures r == 2 <==> y > x
    ensures r == 3 <==> x == y
  {
    if x > y then 1 else if y > x then 2 else 3
  }

  /** The flush loop (lines 350-355) over the keys: for each key of the first
      hand in turn, the first difference decides; a key missing in the
      second hand before a difference is found is an IndexError. */
  function FlushScan(x: seq<int>, y: seq<int>): (r: Result<int>)
    ensures r.Ok? ==> 1 <= r.value <= 3
    ensures r.Err? ==> r.error == IndexError && |y| < |x|
  {
    if x == [] then Ok(3)
    else if y == [] then Err(IndexError)
    else if x[0] > y[0] then Ok(1)
    else if y[0] > x[0] then Ok(2)
    else FlushScan(x[1..], y[1..])
  }

  /** `breakTie(res1, res2)`, dispatching on the first hand's category. */
  function TieBreak(a: HandResult, b: HandResult): (r: Result<int>)
    ensures r.Ok? ==> 1 <= r.value <= 3
    ensures r.Err? ==> r.error == IndexError
  {
    match a.category
    case HighCard | OnePair | ThreeOfAKind | FourOfAKind | Straight =>
      if |a.keys| < 1 || |b.keys| < 1 then Err(IndexError)
      else Ok(Order(a.keys[0], b.keys[0]))
    case TwoPair | FullHouse =>
      if |a.keys| < 1 || |b.keys| < 1 then Err(IndexError)
      else if a.keys[0] != b.keys[0] then Ok(Order(a.keys[0], b.keys[0]))
      else if |a.keys| < 2 || |b.keys| < 2 then Err(IndexError)
      else Ok(Order(a.keys[1], b.keys[1]))
    case Flush => FlushScan(a.keys, b.keys)
    case StraightFlush | RoyalStraightFlush => Ok(3)
  }

  /** `breakTie` as the source writes it, with the flush comparison as a
      loop that returns at the first differing key. */
  method BreakTie(res1: HandResult, res2: HandResult) returns (r: Result<int>)
    ensures r == TieBreak(res1, res2)
  {
    var c := res1.category;
    if c == HighCard || c == OnePair || c == ThreeOfAKind || c == FourOfAKind || c == Straight {
      if |res1.keys| < 1 || |res2.keys| < 1 {
        return Err(IndexError);
      }
      if res1.keys[0] > res2.keys[0] {
        return Ok(1);
      } else if res2.keys[0] > res1.keys[0] {
        return Ok(2);
      }
      return Ok(3);
    }
    if c == TwoPair || c == FullHouse {
      if |res1.keys| < 1 || |res2.keys| < 1 {
        return Err(IndexError);
      }
      if res1.keys[0] > res2.keys[0] {
        return Ok(1);
      } else if res2.keys[0] > res1.keys[0] {
        return Ok(2);
      }
      if |res1.keys| < 2 || |res2.keys| < 2 {
        return Err(IndexError);
      }
      if res1.keys[1] > res2.keys[1] {
        return Ok(1);
      } else if res2.keys[1] > res1.keys[1] {
        return Ok(2);
      }
      return Ok(3);
    }
    if c == Flush {
      var x, y := res1.keys, res2.keys;
      var i := 0;
      while i < |x|
        invariant 0 <= i <= |x| && i <= |y|
        invariant FlushScan(x, y) == FlushScan(x[i..], y[i..])
      {
        if i >= |y| {
          return Err(IndexError);
        }
        if x[i] > y[i] {
          return Ok(1);
        }
        if y[i] > x[i] {
          return Ok(2);
        }
        assert x[i..][1..] == x[i + 1..] && y[i..][1..] == y[i + 1..];
        i := i + 1;
      }
      return Ok(3);
    }
    return Ok(3);
  }

  /** x comes after y in lexicographic order: at the first place where they
      differ, x holds the larger key. */
  ghost predicate LexGreater(x: seq<int>, y: seq<int>)
  {
    exists i :: 0 <= i < |x| && i < |y| && x[..i] == y[..i] && x[i] > y[i]
  }

  lemma LexGreaterTail(x: seq<int>, y: seq<int>)
    requires |x| > 0 && |y| > 0 && x[0] == y[0]
    ensures LexGreater(x, y) <==> LexGreater(x[1..], y[1..])
  {
    if LexGreater(x, y) {
      var i :| 0 <= i < |x| && i < |y| && x[..i] == y[..i] && x[i] > y[i];
      assert i > 0;
      assert x[1..][..i - 1] == y[1..][..i - 1] by {
        assert x[1..][..i - 1] == x[..i][1..] && y[1..][..i - 1] == y[..i][1..];
      }
      assert x[1..][i - 1] > y[1..][i - 1];
    }
    if LexGreater(x[1..], y[1..]) {
      var i :| 0 <= i < |x| - 1 && i < |y| - 1 && x[1..][..i] == y[1..][..i] && x[1..][i] > y[1..][i];
      assert x[..i + 1] == y[..i + 1] by {
        assert x[..i + 1] == [x[0]] + x[1..][..i] && y[..i + 1] == [y[0]] + y[1..][..i];
      }
      assert x[i + 1] > y[i + 1];
    }
  }

  lemma LexGreaterHead(x: seq<int>, y: seq<int>)
    requires |x| > 0 && |y| > 0 && x[0] > y[0]
    ensures LexGreater(x, y) && !LexGreater(y, x)
  {
    assert x[..0] == y[..0];
    PrefixHeads(x, y);
  }

  /** Lists that share a non-empty prefix share their first element. */
  lemma PrefixHeads(x: seq<int>, y: seq<int>)
    ensures forall i :: 0 < i <= |x| && i <= |y| && x[..i] == y[..i] ==> x[0] == y[0]
  {
    forall i | 0 < i <= |x| && i <= |y| && x[..i] == y[..i]
      ensures x[0] == y[0]
    {
      assert x[..i][0] == y[..i][0];
    }
  }

  /** On lists of equal length the flush loop is the lexicographic order:
      1 exactly when the first list is greater, 2 when the second is, and
      3 exactly when they are equal. */
  lemma {:induction false} FlushScanIsLex(x: seq<int>, y: seq<int>)
    requires |x| == |y|
    ensures FlushScan(x, y).Ok?
    ensures FlushScan(x, y).value == 1 <==> LexGreater(x, y)
    ensures FlushScan(x, y).value == 2 <==> LexGreater(y, x)
    ensures FlushScan(x, y).value == 3 <==> x == y
  {
    if x == [] {
      assert !LexGreater(x, y) && !LexGreater(y, x);
    } else if x[0] > y[0] {
      LexGreaterHead(x, y);
    } else if y[0] > x[0] {
      LexGreaterHead(y, x);
    } else {
      FlushScanIsLex(x[1..], y[1..]);
      LexGreaterTail(x, y);
      LexGreaterTail(y, x);
      assert x == [x[0]] + x[1..] && y == [y[0]] + y[1..];
    }
  }

  /** When both hands carry the number of keys their category calls for,
      `breakTie` compares exactly those keys lexicographically, for every
      category. */
  lemma TieBreakIsLex(a: HandResult, b: HandResult)
    requires |a.keys| == |b.keys| == KeyCount(a.category)
    ensures TieBreak(a, b).Ok?
    ensures TieBreak(a, b).value == 1 <==> LexGreater(a.keys, b.keys)
    ensures TieBreak(a, b).value == 2 <==> LexGreater(b.keys, a.keys)
    ensures TieBreak(a, b).value == 3 <==> a.keys == b.keys
  {
    FlushScanIsLex(a.keys, b.keys);
    var x, y := a.keys, b.keys;
    if |x| == 1 {
      assert FlushScan(x, y) == Ok(Order(x[0], y[0])) by {
        assert x[1..] == [] && y[1..] == [];
      }
    } else if |x| == 2 {
      assert FlushScan(x, y) == (if x[0] != y[0] then Ok(Order(x[0], y[0])) else Ok(Order(x[1], y[1]))) by {
        assert x[1..][1..] == [] && y[1..][1..] == [];
      }
    }
  }

  /** For two results of the same category with key lists of the same
      length: the first wins exactly when the second loses with the roles
      swapped, and a tie is a tie either way round. */
  lemma TieBreakAntisymmetric(a: HandResult, b: HandResult)
    requires a.category == b.category && |a.keys| == |b.keys|
    ensures TieBreak(a, b) == Ok(1) <==> TieBreak(b, a) == Ok(2)
    ensures TieBreak(a, b) == Ok(3) <==> TieBreak(b, a) == Ok(3)
  {
    FlushScanIsLex(a.keys, b.keys);
    FlushScanIsLex(b.keys, a.keys);
  }

  /** A result ties with itself exactly when `breakTie` finds every key it
      reads: a flush always does, the other categories need their number
      of keys; a missing key raises IndexError. */
  lemma TieBreakSelf(a: HandResult)
    ensures TieBreak(a, a) == if a.category == Flush || |a.keys| >= KeyCount(a.category) then Ok(3) else Err(IndexError)
  {
    FlushScanIsLex(a.keys, a.keys);
  }

  /** Who takes the pot at lines 301-312. */
  datatype Outcome = FirstWins | SecondWins | Tie

  /** The higher category value wins; equal values go to `breakTie`. */
  function Showdown(r1: HandResult, r2: HandResult): (o: Result<Outcome>)
    ensures r1.category.Value() > r2.category.Value() ==> o == Ok(FirstWins)
    ensures r2.category.Value() > r1.category.Value() ==> o == Ok(SecondWins)
    ensures r1.category == r2.category ==>
      o == match TieBreak(r1, r2)
           case Ok(1) => Ok(FirstWins)
           case Ok(2) => Ok(SecondWins)
           case Ok(_) => Ok(Tie)
           case Err(e) => Err(e)
  {
    if r1.category.Value() > r2.category.Value() then Ok(FirstWins)
    else if r2.category.Value() > r1.category.Value() then Ok(SecondWins)
    else
      assert r1.category == r2.category;
      match TieBreak(r1, r2)
      case Ok(w) => Ok(if w == 1 then FirstWins else if w == 2 then SecondWins else Tie)
      case Err(e) => Err(e)
  }

  /** A showdown between two results that each carry their category's
      number of keys never fails, is decided the same way whichever result
      is named first, and is a tie exactly when the results are equal. */
  lemma ShowdownOfWellShaped(r1: HandResult, r2: HandResult)
    requires WellShaped(r1) && WellShaped(r2)
    ensures Showdown(r1, r2).Ok?
    ensures Showdown(r1, r2) == Ok(FirstWins) <==> Showdown(r2, r1) == Ok(SecondWins)
    ensures Showdown(r1, r2) == Ok(Tie) <==> r1 == r2
  {
    if r1.category == r2.category {
      TieBreakAntisymmetric(r1, r2);
      TieBreakIsLex(r1, r2);
    }
  }

  /** The same for any two evaluated hands. */
  lemma ShowdownOfEvaluated(cards1: seq<Card>, cards2: seq<Card>)
    requires |cards1| > 0 && |cards2| > 0
    ensures var r1, r2 := Evaluate(cards1), Evaluate(cards2);
      Showdown(r1, r2).Ok?
      && (Showdown(r1, r2) == Ok(FirstWins) <==> Showdown(r2, r1) == Ok(SecondWins))
      && (Showdown(r1, r2) == Ok(Tie) <==> r1 == r2)
  {
    ShowdownOfWellShaped(Evaluate(cards1), Evaluate(cards2));
  }
}
