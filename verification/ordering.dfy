/** Sorting a table by an integer column and summing that column: the two
    things the formatter asks of its dataframe library. */
module Ordering {

  /** `a` may precede `b` in a table sorted ascending (or descending). */
  predicate InOrder(a: int, b: int, ascending: bool) {
    if ascending then a <= b else b <= a
  }

  /** Every earlier element's key is in order with every later one's. */
  ghost predicate SortedBy<T>(xs: seq<T>, key: T -> int, ascending: bool) {
    forall i, j {:trigger InOrder(key(xs[i]), key(xs[j]), ascending)} ::
      0 <= i < j < |xs| ==> InOrder(key(xs[i]), key(xs[j]), ascending)
  }

  /** An element in order with the head of a sorted sequence can go in front of it. */
  lemma ConsSorted<T>(x: T, xs: seq<T>, key: T -> int, ascending: bool)
    requires SortedBy(xs, key, ascending)
    requires |xs| > 0 ==> InOrder(key(x), key(xs[0]), ascending)
    ensures SortedBy([x] + xs, key, ascending)
  {
    var r := [x] + xs;
    forall i, j | 0 <= i < j < |r|
      ensures InOrder(key(r[i]), key(r[j]), ascending)
    {
      if i == 0 && j > 1 {
        assert InOrder(key(xs[0]), key(xs[j - 1]), ascending);
      }
    }
  }

  lemma SortedTail<T>(xs: seq<T>, key: T -> int, ascending: bool)
    requires |xs| > 0 && SortedBy(xs, key, ascending)
    ensures SortedBy(xs[1..], key, ascending)
    ensures |xs| > 1 ==> InOrder(key(xs[0]), key(xs[1]), ascending)
  {
    var t := xs[1..];
    forall i, j | 0 <= i < j < |t| ensures InOrder(key(t[i]), key(t[j]), ascending) {
      assert t[i] == xs[i + 1] && t[j] == xs[j + 1];
    }
  }

  /** When `x` belongs after the head of the sorted `xs`, the head can go in
      front of `x` placed into the tail. */
  lemma InsertBehindHead<T>(x: T, xs: seq<T>, rest: seq<T>, key: T -> int, ascending: bool)
    requires |xs| > 0 && SortedBy(xs, key, ascending)
    requires !InOrder(key(x), key(xs[0]), ascending)
    requires multiset(rest) == multiset(xs[1..]) + multiset{x}
    requires SortedBy(rest, key, ascending)
    requires |rest| > 0 && (rest[0] == x || (|xs| > 1 && rest[0] == xs[1]))
    ensures multiset([xs[0]] + rest) == multiset(xs) + multiset{x}
    ensures SortedBy([xs[0]] + rest, key, ascending)
  {
    SortedTail(xs, key, ascending);
    assert InOrder(key(xs[0]), key(rest[0]), ascending);
    ConsSorted(xs[0], rest, key, ascending);
    assert xs[..1] + xs[1..] == xs && xs[..1] == [xs[0]];
  }

  /** `x` placed into the sorted `xs` before the first element it may precede. */
  function Insert<T>(x: T, xs: seq<T>, key: T -> int, ascending: bool): (r: seq<T>)
    requires SortedBy(xs, key, ascending)
    ensures multiset(r) == multiset(xs) + multiset{x}
    ensures SortedBy(r, key, ascending)
    ensures |r| == |xs| + 1
    ensures r[0] == x || (|xs| > 0 && r[0] == xs[0])
  {
    if |xs| == 0 then [x]
    else if InOrder(key(x), key(xs[0]), ascending) then
      ConsSorted(x, xs, key, ascending);
      [x] + xs
    else
      SortedTail(xs, key, ascending);
      var rest := Insert(x, xs[1..], key, ascending);
      InsertBehindHead(x, xs, rest, key, ascending);
      [xs[0]] + rest
  }

  /** A rearrangement of `xs` ordered by `key`. Which of several equal keys
      comes first is not promised: the formatter's table sort is not stable. */
  function Sort<T>(xs: seq<T>, key: T -> int, ascending: bool): (r: seq<T>)
    ensures multiset(r) == multiset(xs)
    ensures SortedBy(r, key, ascending)
  {
    if |xs| == 0 then []
    else
      assert xs[..1] + xs[1..] == xs && xs[..1] == [xs[0]];
      Insert(xs[0], Sort(xs[1..], key, ascending), key, ascending)
  }

  /** The column total, Python's `sum(df.value)`. */
  function SumBy<T>(xs: seq<T>, key: T -> int): int {
    if |xs| == 0 then 0 else key(xs[0]) + SumBy(xs[1..], key)
  }

  /** A column of counts that are never negative has a total that is not
      negative and no smaller than any one count. */
  lemma {:induction false} SumByBounds<T>(xs: seq<T>, key: T -> int)
    requires forall i :: 0 <= i < |xs| ==> key(xs[i]) >= 0
    ensures SumBy(xs, key) >= 0
    ensures forall i :: 0 <= i < |xs| ==> key(xs[i]) <= SumBy(xs, key)
    decreases |xs|
  {
    if |xs| > 0 {
      var tail := xs[1..];
      assert forall i :: 0 <= i < |tail| ==> key(tail[i]) >= 0 by {
        forall i | 0 <= i < |tail| ensures key(tail[i]) >= 0 {
          assert tail[i] == xs[i + 1];
        }
      }
      SumByBounds(tail, key);
      forall i | 1 <= i < |xs| ensures key(xs[i]) <= SumBy(xs, key) {
        assert xs[i] == tail[i - 1];
      }
    }
  }

  lemma {:induction false} SumByAppend<T>(a: seq<T>, b: seq<T>, key: T -> int)
    ensures SumBy(a + b, key) == SumBy(a, key) + SumBy(b, key)
    decreases |a|
  {
    if |a| == 0 {
      assert a + b == b;
    } else {
      assert (a + b)[1..] == a[1..] + b;
      SumByAppend(a[1..], b, key);
    }
  }

  /** Taking one row out of a column takes its key out of the total. */
  lemma SumByRemove<T>(ys: seq<T>, k: nat, key: T -> int)
    requires k < |ys|
    ensures SumBy(ys, key) == key(ys[k]) + SumBy(ys[..k] + ys[k + 1..], key)
  {
    var front, rest, back := ys[..k], ys[k..], ys[k + 1..];
    assert front + rest == ys;
    assert rest[1..] == back;
    SumByAppend(front, rest, key);
    SumByAppend(front, back, key);
  }

  /** Taking one element out of a sequence takes it out of its multiset. */
  lemma MultisetRemove<T>(ys: seq<T>, k: nat)
    requires k < |ys|
    ensures multiset(ys) == multiset(ys[..k] + ys[k + 1..]) + multiset{ys[k]}
  {
    assert ys == ys[..k] + [ys[k]] + ys[k + 1..];
  }

  /** Removing the first element of `xs` and an equal element of its
      rearrangement `ys` leaves two rearrangements of each other. */
  lemma PermutationRemove<T>(xs: seq<T>, ys: seq<T>, k: nat)
    requires multiset(xs) == multiset(ys)
    requires 0 < |xs| && k < |ys| && ys[k] == xs[0]
    ensures multiset(xs[1..]) == multiset(ys[..k] + ys[k + 1..])
  {
    MultisetRemove(ys, k);
    assert xs == [xs[0]] + xs[1..];
    var a := multiset(xs[1..]);
    var b := multiset(ys[..k] + ys[k + 1..]);
    var x := multiset{xs[0]};
    assert a + x == b + x;
    assert a == (a + x) - x;
    assert b == (b + x) - x;
  }

  /** A column total does not depend on the order of the rows. */
  lemma {:induction false} SumByPermutation<T>(xs: seq<T>, ys: seq<T>, key: T -> int)
    requires multiset(xs) == multiset(ys)
    ensures SumBy(xs, key) == SumBy(ys, key)
    decreases |xs|
  {
    if |xs| == 0 {
      assert |ys| == |multiset(ys)| == 0;
    } else {
      assert xs[0] in multiset(ys) by {
        assert xs[0] in multiset(xs);
      }
      var k :| 0 <= k < |ys| && ys[k] == xs[0];
      SumByRemove(ys, k, key);
      PermutationRemove(xs, ys, k);
      SumByPermutation(xs[1..], ys[..k] + ys[k + 1..], key);
    }
  }

  /** Two columns that agree row by row have the same total. */
  lemma {:induction false} SumByPointwise<T, U>(xs: seq<T>, kx: T -> int, ys: seq<U>, ky: U -> int)
    requires |xs| == |ys|
    requires forall i :: 0 <= i < |xs| ==> kx(xs[i]) == ky(ys[i])
    ensures SumBy(xs, kx) == SumBy(ys, ky)
    decreases |xs|
  {
    if |xs| > 0 {
      SumByPointwise(xs[1..], kx, ys[1..], ky);
    }
  }
}
