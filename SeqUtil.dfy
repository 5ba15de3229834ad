// Sequence operations that the evaluator takes from Python's built-ins:
// max, list.index, sort(reverse=True), the "append if not already present"
// histogram loop, list.pop(k), list comprehensions and the pop-order of a
// stack. Python's `list.count(x)` is the multiset lookup `multiset(s)[x]`.

module SeqUtil {

  /** Python's `max` over a non-empty list. */
  function Max(s: seq<int>): (m: int)
    requires |s| > 0
    ensures m in s
    ensures forall i :: 0 <= i < |s| ==> s[i] <= m
  {
    if |s| == 1 then s[0]
    else
      var rest := Max(s[1..]);
      if s[0] >= rest then s[0] else rest
  }

  /** Python's `list.index(x)`: the position of the first occurrence. */
  function IndexOf<T(==)>(s: seq<T>, x: T): (i: nat)
    requires x in s
    ensures i < |s| && s[i] == x
    ensures forall k :: 0 <= k < i ==> s[k] != x
  {
    if s[0] == x then 0 else 1 + IndexOf(s[1..], x)
  }

  /** Python's `list.pop(k)` on a copy: `s` without its element at `k`. */
  function RemoveAt<T>(s: seq<T>, k: nat): (r: seq<T>)
    requires k < |s|
    ensures |r| == |s| - 1
    ensures multiset(r) == multiset(s) - multiset{s[k]}
  {
    assert s == s[..k] + [s[k]] + s[k + 1..];
    s[..k] + s[k + 1..]
  }

  /** The distinct values of `s` in order of first appearance: what the loop
      "for x in s: if x not in d: d.append(x)" leaves in `d`. */
  function Dedup(s: seq<int>): (d: seq<int>)
    ensures forall x :: x in d <==> x in s
    ensures Distinct(d)
  {
    if s == [] then []
    else
      var p := Dedup(s[..|s| - 1]);
      assert forall x :: x in s <==> x in s[..|s| - 1] || x == s[|s| - 1] by {
        assert s == s[..|s| - 1] + [s[|s| - 1]];
      }
      if s[|s| - 1] in p then p else p + [s[|s| - 1]]
  }

  predicate Distinct<T(==)>(s: seq<T>)
  {
    forall i, j :: 0 <= i < j < |s| ==> s[i] != s[j]
  }

  predicate NonIncreasing(s: seq<int>)
  {
    forall i, j :: 0 <= i < j < |s| ==> s[i] >= s[j]
  }

  /** Insertion of `x` into a non-increasing list, keeping it non-increasing. */
  function Insert(x: int, s: seq<int>): (r: seq<int>)
    requires NonIncreasing(s)
    ensures NonIncreasing(r)
    ensures multiset(r) == multiset(s) + multiset{x}
    ensures r[0] == if s == [] || x >= s[0] then x else s[0]
  {
    if s == [] || x >= s[0] then
      PrependLargest(x, s);
      [x] + s
    else
      assert s == [s[0]] + s[1..];
      assert NonIncreasing(s[1..]) by {
        forall i, j | 0 <= i < j < |s| - 1 ensures s[1..][i] >= s[1..][j] {
          assert s[1..][i] == s[i + 1] && s[1..][j] == s[j + 1];
        }
      }
      var tail := Insert(x, s[1..]);
      assert tail[0] <= s[0] by {
        if |s| > 1 { assert s[1..][0] == s[1]; }
      }
      PrependLargest(s[0], tail);
      [s[0]] + tail
  }

  /** Putting a value no smaller than its head in front of a non-increasing
      list keeps it non-increasing. */
  lemma PrependLargest(y: int, s: seq<int>)
    requires NonIncreasing(s) && (s == [] || y >= s[0])
    ensures NonIncreasing([y] + s)
  {
    forall i, j | 0 <= i < j < |[y] + s| ensures ([y] + s)[i] >= ([y] + s)[j] {
      assert ([y] + s)[j] == s[j - 1];
      if i > 0 {
        assert ([y] + s)[i] == s[i - 1];
      } else {
        assert s[0] >= s[j - 1];
      }
    }
  }

  /** Python's `sort(reverse=True)` on a list of integers. */
  function SortDesc(s: seq<int>): (r: seq<int>)
    ensures NonIncreasing(r)
    ensures multiset(r) == multiset(s)
  {
    if s == [] then []
    else
      assert s == [s[0]] + s[1..];
      Insert(s[0], SortDesc(s[1..]))
  }

  /** Two non-increasing lists with the same elements are equal: the sorted
      order of a multiset does not depend on the order it was given in. */
  lemma {:induction false} SortedUnique(a: seq<int>, b: seq<int>)
    requires NonIncreasing(a) && NonIncreasing(b)
    requires multiset(a) == multiset(b)
    ensures a == b
  {
    assert |a| == |multiset(a)| == |multiset(b)| == |b|;
    if a != [] {
      var x := a[0];
      assert b[0] == x by {
        SameHead(a, b);
      }
      assert NonIncreasing(a[1..]) && NonIncreasing(b[1..]) && multiset(a[1..]) == multiset(b[1..]) by {
        DropHead(a);
        DropHead(b);
      }
      SortedUnique(a[1..], b[1..]);
      assert a == [x] + a[1..];
      assert b == [x] + b[1..];
    }
  }

  /** Non-increasing non-empty lists with the same elements start alike. */
  lemma SameHead(a: seq<int>, b: seq<int>)
    requires NonIncreasing(a) && NonIncreasing(b)
    requires multiset(a) == multiset(b) && |a| > 0 && |b| > 0
    ensures a[0] == b[0]
  {
    assert a[0] in multiset(b) && b[0] in multiset(a);
    HeadIsLargest(b, a[0]);
    HeadIsLargest(a, b[0]);
  }

  /** The tail of a non-empty non-increasing list is non-increasing and
      holds its elements less one occurrence of the head. */
  lemma DropHead(a: seq<int>)
    requires NonIncreasing(a) && |a| > 0
    ensures NonIncreasing(a[1..])
    ensures multiset(a[1..]) == multiset(a) - multiset{a[0]}
  {
    assert a == [a[0]] + a[1..];
    forall i, j | 0 <= i < j < |a| - 1 ensures a[1..][i] >= a[1..][j] {
      assert a[1..][i] == a[i + 1] && a[1..][j] == a[j + 1];
    }
  }

  lemma HeadIsLargest(s: seq<int>, x: int)
    requires NonIncreasing(s) && x in s
    ensures x <= s[0]
  {
    var k :| 0 <= k < |s| && s[k] == x;
  }

  /** `s` in the order a stack pops it. */
  function Reverse<T>(s: seq<T>): (r: seq<T>)
    ensures |r| == |s|
    ensures forall i :: 0 <= i < |s| ==> r[i] == s[|s| - 1 - i]
  {
    if s == [] then [] else Reverse(s[1..]) + [s[0]]
  }

  /** In a list without repetitions, each member occurs exactly once. */
  lemma {:induction false} DistinctCount<T>(s: seq<T>, x: T)
    requires Distinct(s)
    ensures multiset(s)[x] == if x in s then 1 else 0
  {
    if s != [] {
      assert s == [s[0]] + s[1..];
      assert Distinct(s[1..]);
      assert x == s[0] ==> x !in s[1..];
      DistinctCount(s[1..], x);
    }
  }

  /** Two different values together occur at most |s| times. */
  lemma {:induction false} TwoCountsBound<T>(s: seq<T>, x: T, y: T)
    requires x != y
    ensures multiset(s)[x] + multiset(s)[y] <= |s|
  {
    if s != [] {
      assert s == [s[0]] + s[1..];
      TwoCountsBound(s[1..], x, y);
    }
  }

  /** `[f(x) for x in s]`. */
  function Map<A, B>(f: A -> B, s: seq<A>): (r: seq<B>)
    ensures |r| == |s|
    ensures forall i :: 0 <= i < |s| ==> r[i] == f(s[i])
  {
    if s == [] then [] else [f(s[0])] + Map(f, s[1..])
  }

  lemma {:induction false} MapConcat<A, B>(f: A -> B, a: seq<A>, b: seq<A>)
    ensures Map(f, a + b) == Map(f, a) + Map(f, b)
  {
    if a == [] {
      assert a + b == b;
    } else {
      assert (a + b)[1..] == a[1..] + b;
      MapConcat(f, a[1..], b);
    }
  }

  /** Mapping two lists that hold the same elements gives two lists that
      hold the same elements. */
  lemma {:induction false} MapPermutation<A, B>(f: A -> B, a: seq<A>, b: seq<A>)
    requires multiset(a) == multiset(b)
    ensures multiset(Map(f, a)) == multiset(Map(f, b))
  {
    if a == [] {
      assert |b| == |multiset(b)| == 0;
    } else {
      var x, tail := a[0], a[1..];
      assert multiset(a) == multiset{x} + multiset(tail) by {
        assert a == [x] + tail;
      }
      var before, after := SplitAt(b, x);
      MultisetCancel(multiset(tail), multiset(before + after), x);
      MapPermutation(f, tail, before + after);
      MapSplice(f, before, x, after);
      MapConcat(f, [x], tail);
      assert a == [x] + tail;
    }
  }

  /** A list holding x is some list, then x, then some list; the two
      outer parts hold the other elements. */
  lemma SplitAt<A>(b: seq<A>, x: A) returns (before: seq<A>, after: seq<A>)
    requires x in multiset(b)
    ensures b == before + [x] + after
    ensures multiset(before + after) + multiset{x} == multiset(b)
  {
    var k :| 0 <= k < |b| && b[k] == x;
    before, after := b[..k], b[k + 1..];
    assert b == before + [x] + after;
  }

  /** Mapping a list with x spliced in adds f(x) to the mapped elements. */
  lemma MapSplice<A, B>(f: A -> B, before: seq<A>, x: A, after: seq<A>)
    ensures multiset(Map(f, before + [x] + after)) == multiset(Map(f, before + after)) + multiset{f(x)}
  {
    MapConcat(f, before + [x], after);
    MapConcat(f, before, [x]);
    MapConcat(f, before, after);
    assert Map(f, [x]) == [f(x)];
  }

  lemma MultisetCancel<A>(p: multiset<A>, q: multiset<A>, x: A)
    requires p + multiset{x} == q + multiset{x}
    ensures p == q
  {
    forall y
      ensures p[y] == q[y]
    {
      assert (p + multiset{x})[y] == (q + multiset{x})[y];
    }
  }
}
