/** A stable sort by an integer key. */
module Sorting {

  /** Places `x` after everything whose key is not greater. */
  function Insert<T>(xs: seq<T>, x: T, key: T -> int): (r: seq<T>)
    ensures |r| == |xs| + 1 && multiset(r) == multiset(xs) + multiset{x}
  {
    if xs == [] then [x]
    else
      var last := xs[|xs| - 1];
      assert xs == xs[..|xs| - 1] + [last];
      if key(last) <= key(x) then xs + [x]
      else Insert(xs[..|xs| - 1], x, key) + [last]
  }

  function SortBy<T>(xs: seq<T>, key: T -> int): (r: seq<T>)
    ensures |r| == |xs| && multiset(r) == multiset(xs)
  {
    if xs == [] then []
    else
      assert xs == xs[..|xs| - 1] + [xs[|xs| - 1]];
      Insert(SortBy(xs[..|xs| - 1], key), xs[|xs| - 1], key)
  }

  predicate Ascending<T(!new)>(xs: seq<T>, key: T -> int) {
    forall i, j | 0 <= i < j < |xs| :: key(xs[i]) <= key(xs[j])
  }

  lemma {:induction false} InsertAscending<T(!new)>(xs: seq<T>, x: T, key: T -> int)
    requires Ascending(xs, key)
    ensures Ascending(Insert(xs, x, key), key)
  {
    if xs != [] && key(xs[|xs| - 1]) > key(x) {
      var front, last := xs[..|xs| - 1], xs[|xs| - 1];
      InsertAscending(front, x, key);
      var r := Insert(front, x, key);
      forall i | 0 <= i < |r| ensures key(r[i]) <= key(last) {
        assert r[i] in multiset(front) + multiset{x};
      }
    }
  }

  lemma {:induction false} SortAscending<T(!new)>(xs: seq<T>, key: T -> int)
    ensures Ascending(SortBy(xs, key), key)
  {
    if xs != [] {
      SortAscending(xs[..|xs| - 1], key);
      InsertAscending(SortBy(xs[..|xs| - 1], key), xs[|xs| - 1], key);
    }
  }

  /** Every key of `xs` is at most every key of `ys`. */
  ghost predicate Below<T(!new)>(xs: seq<T>, ys: seq<T>, key: T -> int) {
    forall x, y | x in xs && y in ys :: key(x) <= key(y)
  }

  lemma InsertSnoc<T(!new)>(xs: seq<T>, last: T, y: T, key: T -> int)
    ensures Insert(xs + [last], y, key)
            == if key(last) <= key(y) then xs + [last] + [y] else Insert(xs, y, key) + [last]
  {
    assert (xs + [last])[..|xs|] == xs;
  }

  ghost predicate AtMost<T(!new)>(xs: seq<T>, y: T, key: T -> int) {
    forall x | x in xs :: key(x) <= key(y)
  }

  lemma InsertLast<T(!new)>(xs: seq<T>, y: T, key: T -> int)
    requires AtMost(xs, y, key)
    ensures Insert(xs, y, key) == xs + [y]
  {
    if xs != [] {
      assert xs[|xs| - 1] in xs;
    }
  }

  lemma Associates<T>(a: seq<T>, b: seq<T>, c: seq<T>)
    ensures a + (b + c) == (a + b) + c
  {
  }

  lemma InsertAfterSnoc<T(!new)>(xs: seq<T>, front: seq<T>, last: T, y: T, key: T -> int)
    requires Insert(xs + front, y, key) == xs + Insert(front, y, key)
    ensures Insert(xs + (front + [last]), y, key) == xs + Insert(front + [last], y, key)
  {
    hide Insert;
    Associates(xs, front, [last]);
    InsertSnoc(front, last, y, key);
    InsertSnoc(xs + front, last, y, key);
    Associates(xs, Insert(front, y, key), [last]);
    Associates(xs, front + [last], [y]);
  }

  lemma InsertAfterNothing<T(!new)>(xs: seq<T>, y: T, key: T -> int)
    requires AtMost(xs, y, key)
    ensures Insert(xs + [], y, key) == xs + Insert([], y, key)
  {
    assert xs + [] == xs;
    InsertLast(xs, y, key);
    hide AtMost;
  }

  lemma {:induction false} InsertAfter<T(!new)>(xs: seq<T>, ys: seq<T>, y: T, key: T -> int)
    requires AtMost(xs, y, key)
    ensures Insert(xs + ys, y, key) == xs + Insert(ys, y, key)
  {
    hide Insert, AtMost;
    if ys == [] {
      InsertAfterNothing(xs, y, key);
    } else {
      var front, last := ys[..|ys| - 1], ys[|ys| - 1];
      InsertAfter(xs, front, y, key);
      InsertAfterSnoc(xs, front, last, y, key);
      assert ys == front + [last];
    }
  }

  lemma SortedMembers<T(!new)>(xs: seq<T>, key: T -> int)
    ensures forall x :: x in SortBy(xs, key) <==> x in xs
  {
    hide SortBy;
    forall x ensures x in SortBy(xs, key) <==> x in xs {
      assert x in SortBy(xs, key) <==> x in multiset(SortBy(xs, key));
      assert x in xs <==> x in multiset(xs);
    }
  }

  /** Appending later elements appends them, sorted, to the sorted earlier ones. */
  lemma {:induction false} SortAppends<T(!new)>(xs: seq<T>, ys: seq<T>, key: T -> int)
    requires Below(xs, ys, key)
    ensures SortBy(xs + ys, key) == SortBy(xs, key) + SortBy(ys, key)
  {
    hide Insert;
    if ys == [] {
      assert xs + ys == xs;
    } else {
      var front, last := ys[..|ys| - 1], ys[|ys| - 1];
      assert (xs + ys)[|xs + ys| - 1] == last && (xs + ys)[..|xs + ys| - 1] == xs + front;
      BelowFront(xs, ys, key);
      SortAppends(xs, front, key);
      SortedMembers(xs, key);
      assert AtMost(SortBy(xs, key), last, key);
      InsertAfter(SortBy(xs, key), SortBy(front, key), last, key);
    }
  }

  lemma BelowFront<T(!new)>(xs: seq<T>, ys: seq<T>, key: T -> int)
    requires Below(xs, ys, key) && ys != []
    ensures Below(xs, ys[..|ys| - 1], key)
    ensures AtMost(xs, ys[|ys| - 1], key)
  {
  }

  lemma AppendsLast<T(!new)>(xs: seq<T>, x: T, key: T -> int)
    requires Ascending(xs + [x], key)
    ensures Insert(xs, x, key) == xs + [x]
  {
    if xs != [] {
      assert (xs + [x])[|xs| - 1] == xs[|xs| - 1] && (xs + [x])[|xs|] == x;
    }
  }

  lemma FrontAscending<T(!new)>(xs: seq<T>, x: T, key: T -> int)
    requires Ascending(xs + [x], key)
    ensures Ascending(xs, key)
  {
    forall i, j | 0 <= i < j < |xs| ensures key(xs[i]) <= key(xs[j]) {
      assert (xs + [x])[i] == xs[i] && (xs + [x])[j] == xs[j];
    }
  }

  lemma SortOfSnoc<T(!new)>(xs: seq<T>, x: T, key: T -> int)
    ensures SortBy(xs + [x], key) == Insert(SortBy(xs, key), x, key)
  {
    hide Insert;
    assert (xs + [x])[..|xs|] == xs;
  }

  /** A list that is already in order is left as it is. */
  lemma {:induction false} SortOfAscending<T(!new)>(xs: seq<T>, key: T -> int)
    requires Ascending(xs, key)
    ensures SortBy(xs, key) == xs
  {
    if xs != [] {
      hide Insert, Ascending, SortBy;
      var front, last := xs[..|xs| - 1], xs[|xs| - 1];
      assert xs == front + [last];
      FrontAscending(front, last, key);
      SortOfAscending(front, key);
      SortOfSnoc(front, last, key);
      AppendsLast(front, last, key);
    }
  }

  /** No key occurs twice. */
  ghost predicate DistinctKeys<T(!new)>(xs: seq<T>, key: T -> int) {
    forall i, j | 0 <= i < j < |xs| :: key(xs[i]) != key(xs[j])
  }

  ghost predicate Without<T(!new)>(xs: seq<T>, k: int, key: T -> int) {
    forall i | 0 <= i < |xs| :: key(xs[i]) != k
  }

  lemma DistinctSnoc<T(!new)>(xs: seq<T>, x: T, key: T -> int)
    ensures DistinctKeys(xs + [x], key) <==> DistinctKeys(xs, key) && Without(xs, key(x), key)
  {
    var all := xs + [x];
    assert forall i | 0 <= i < |xs| :: all[i] == xs[i];
    if DistinctKeys(all, key) {
      forall i | 0 <= i < |xs| ensures key(xs[i]) != key(x) {
        assert key(all[i]) != key(all[|xs|]);
      }
      forall i, j | 0 <= i < j < |xs| ensures key(xs[i]) != key(xs[j]) {
        assert key(all[i]) != key(all[j]);
      }
    }
  }

  lemma WithoutSnoc<T(!new)>(xs: seq<T>, x: T, k: int, key: T -> int)
    ensures Without(xs + [x], k, key) <==> Without(xs, k, key) && key(x) != k
  {
    var all := xs + [x];
    assert forall i | 0 <= i < |xs| :: all[i] == xs[i];
    if Without(all, k, key) {
      assert all[|xs|] == x;
      forall i | 0 <= i < |xs| ensures key(xs[i]) != k {
        assert key(all[i]) != k;
      }
    }
  }

  lemma {:induction false} InsertDistinct<T(!new)>(xs: seq<T>, x: T, k: int, key: T -> int)
    ensures Without(Insert(xs, x, key), k, key) <==> Without(xs, k, key) && key(x) != k
    ensures DistinctKeys(Insert(xs, x, key), key) <==> DistinctKeys(xs, key) && Without(xs, key(x), key)
  {
    if xs == [] {
      assert [] + [x] == [x];
    } else {
      var front, last := xs[..|xs| - 1], xs[|xs| - 1];
      assert xs == front + [last];
      hide DistinctKeys, Without;
      DistinctSnoc(front, last, key);
      WithoutSnoc(front, last, k, key);
      WithoutSnoc(front, last, key(x), key);
      if key(last) <= key(x) {
        DistinctSnoc(xs, x, key);
        WithoutSnoc(xs, x, k, key);
      } else {
        InsertDistinct(front, x, k, key);
        InsertDistinct(front, x, key(last), key);
        DistinctSnoc(Insert(front, x, key), last, key);
        WithoutSnoc(Insert(front, x, key), last, k, key);
      }
    }
  }

  /** Sorting neither makes nor loses a repeated key. */
  lemma {:induction false} SortDistinct<T(!new)>(xs: seq<T>, k: int, key: T -> int)
    ensures Without(SortBy(xs, key), k, key) <==> Without(xs, k, key)
    ensures DistinctKeys(SortBy(xs, key), key) <==> DistinctKeys(xs, key)
  {
    if xs != [] {
      var front, last := xs[..|xs| - 1], xs[|xs| - 1];
      assert xs == front + [last];
      hide DistinctKeys, Without, Insert;
      SortDistinct(front, k, key);
      SortDistinct(front, key(last), key);
      InsertDistinct(SortBy(front, key), last, k, key);
      DistinctSnoc(front, last, key);
      WithoutSnoc(front, last, k, key);
    }
  }
}
