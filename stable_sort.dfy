/**
 * `Array.prototype.sort` with a numeric comparator, which the application uses
 * to rank keywords, personality traits and focus areas. The ECMAScript
 * sort is stable, and a stable sort's result is determined by its input,
 * so it is modelled here by insertion sort, proved to be the only
 * ordering that is sorted, a permutation and stable.
 *
 * `SortDesc(xs, key)` is `xs.sort((a, b) => key(b) - key(a))`; an
 * ascending sort `(a, b) => f(a) - f(b)` is `SortDesc` with key `-f`.
 */
module StableSort {

  /** Place x before the first element whose key is not greater than x's. */
  function Insert<T(==)>(x: T, ys: seq<T>, key: T -> int): (r: seq<T>)
    ensures multiset(r) == multiset(ys) + multiset{x}
    ensures |r| == |ys| + 1
  {
    if ys == [] || key(ys[0]) <= key(x) then [x] + ys
    else
      assert ys == [ys[0]] + ys[1..];
      [ys[0]] + Insert(x, ys[1..], key)
  }

  function SortDesc<T(==)>(xs: seq<T>, key: T -> int): (r: seq<T>)
    ensures multiset(r) == multiset(xs)
    ensures |r| == |xs|
  {
    if xs == [] then [] else
      assert xs == [xs[0]] + xs[1..];
      Insert(xs[0], SortDesc(xs[1..], key), key)
  }

  ghost predicate NonIncreasing<T>(xs: seq<T>, key: T -> int)
  {
    forall i, j :: 0 <= i < j < |xs| ==> key(xs[i]) >= key(xs[j])
  }

  /** The elements of xs with key k, in their order in xs. */
  function WithKey<T>(xs: seq<T>, key: T -> int, k: int): seq<T>
  {
    if xs == [] then []
    else (if key(xs[0]) == k then [xs[0]] else []) + WithKey(xs[1..], key, k)
  }

  /** Stability: for every key, the elements with that key keep their relative order. */
  ghost predicate Stable<T>(r: seq<T>, xs: seq<T>, key: T -> int)
  {
    forall k :: WithKey(r, key, k) == WithKey(xs, key, k)
  }

  /** Inserting below a bound keeps every key below it. */
  lemma {:induction false} InsertBounded<T>(x: T, ys: seq<T>, key: T -> int, bound: int)
    requires key(x) <= bound
    requires forall i :: 0 <= i < |ys| ==> key(ys[i]) <= bound
    ensures forall i :: 0 <= i < |Insert(x, ys, key)| ==> key(Insert(x, ys, key)[i]) <= bound
    decreases |ys|
  {
    if ys == [] || key(ys[0]) <= key(x) {
    } else {
      InsertBounded(x, ys[1..], key, bound);
      var r := Insert(x, ys, key);
      forall i | 0 <= i < |r| ensures key(r[i]) <= bound {
        if i > 0 {
          assert r[i] == Insert(x, ys[1..], key)[i - 1];
        }
      }
    }
  }

  lemma {:induction false} InsertSorted<T>(x: T, ys: seq<T>, key: T -> int)
    requires NonIncreasing(ys, key)
    ensures NonIncreasing(Insert(x, ys, key), key)
    decreases |ys|
  {
    if ys == [] || key(ys[0]) <= key(x) {
    } else {
      var rest := Insert(x, ys[1..], key);
      SortedTail(ys, key);
      InsertSorted(x, ys[1..], key);
      InsertBounded(x, ys[1..], key, key(ys[0]));
      ConsSorted(ys[0], rest, key);
    }
  }

  /** A head whose key bounds a sorted tail's keys gives a sorted sequence. */
  lemma {:induction false} ConsSorted<T>(y: T, rest: seq<T>, key: T -> int)
    requires NonIncreasing(rest, key)
    requires forall i :: 0 <= i < |rest| ==> key(rest[i]) <= key(y)
    ensures NonIncreasing([y] + rest, key)
  {
    var r := [y] + rest;
    forall i, j | 0 <= i < j < |r|
      ensures key(r[i]) >= key(r[j])
    {
      assert r[j] == rest[j - 1];
      if i > 0 {
        assert r[i] == rest[i - 1];
      }
    }
  }

  /** The ranking has non-increasing keys. */
  lemma {:induction false} SortDescSorted<T>(xs: seq<T>, key: T -> int)
    ensures NonIncreasing(SortDesc(xs, key), key)
    decreases |xs|
  {
    if xs != [] {
      SortDescSorted(xs[1..], key);
      InsertSorted(xs[0], SortDesc(xs[1..], key), key);
    }
  }

  lemma {:induction false} WithKeyAppend<T>(a: seq<T>, b: seq<T>, key: T -> int, k: int)
    ensures WithKey(a + b, key, k) == WithKey(a, key, k) + WithKey(b, key, k)
    decreases |a|
  {
    if a == [] {
      assert a + b == b;
    } else {
      assert (a + b)[1..] == a[1..] + b;
      WithKeyAppend(a[1..], b, key, k);
    }
  }

  lemma {:induction false} InsertWithKey<T>(x: T, ys: seq<T>, key: T -> int, k: int)
    ensures WithKey(Insert(x, ys, key), key, k)
         == (if key(x) == k then [x] else []) + WithKey(ys, key, k)
    decreases |ys|
  {
    if ys == [] || key(ys[0]) <= key(x) {
      assert ([x] + ys)[1..] == ys;
    } else {
      var rest := Insert(x, ys[1..], key);
      assert ([ys[0]] + rest)[1..] == rest;
      InsertWithKey(x, ys[1..], key, k);
      var hx: seq<T> := if key(x) == k then [x] else [];
      var hy: seq<T> := if key(ys[0]) == k then [ys[0]] else [];
      assert hx == [] || hy == [];
      assert hy + (hx + WithKey(ys[1..], key, k)) == hx + (hy + WithKey(ys[1..], key, k));
    }
  }

  /** The ranking is stable: equal keys appear in input order. */
  lemma {:induction false} SortDescStable<T>(xs: seq<T>, key: T -> int)
    ensures Stable(SortDesc(xs, key), xs, key)
    decreases |xs|
  {
    if xs != [] {
      SortDescStable(xs[1..], key);
      forall k {
        InsertWithKey(xs[0], SortDesc(xs[1..], key), key, k);
      }
    }
  }

  // ---------------------------------------------------------------------
  // Uniqueness: any sorted, stable rearrangement is the insertion sort.
  // ---------------------------------------------------------------------

  lemma {:induction false} WithKeyEmpty<T>(xs: seq<T>, key: T -> int, k: int)
    requires WithKey(xs, key, k) == []
    ensures forall i :: 0 <= i < |xs| ==> key(xs[i]) != k
    decreases |xs|
  {
    if xs != [] {
      WithKeyEmpty(xs[1..], key, k);
      forall i | 1 <= i < |xs| ensures key(xs[i]) != k {
        assert xs[i] == xs[1..][i - 1];
      }
    }
  }

  lemma {:induction false} WithKeyHead<T>(xs: seq<T>, key: T -> int)
    requires xs != []
    ensures WithKey(xs, key, key(xs[0])) == [xs[0]] + WithKey(xs[1..], key, key(xs[0]))
  {
  }

  lemma {:induction false} WithKeyTail<T>(xs: seq<T>, key: T -> int, k: int)
    requires xs != [] && key(xs[0]) != k
    ensures WithKey(xs, key, k) == WithKey(xs[1..], key, k)
  {
  }

  /**
   * Two orderings with non-increasing keys whose elements of each key
   * appear in the same order are the same ordering.
   */
  lemma {:induction false} SortedStableUnique<T>(a: seq<T>, b: seq<T>, key: T -> int)
    requires NonIncreasing(a, key) && NonIncreasing(b, key)
    requires forall k :: WithKey(a, key, k) == WithKey(b, key, k)
    ensures a == b
    decreases |a| + |b|
  {
    if a == [] {
      if b != [] {
        WithKeyHead(b, key);
      }
    } else if b == [] {
      WithKeyHead(a, key);
    } else {
      var ka, kb := key(a[0]), key(b[0]);
      WithKeyHead(a, key);
      WithKeyHead(b, key);
      // b holds an element with key ka, so kb >= ka; symmetrically ka >= kb.
      KeyBelowHead(b, key, ka);
      KeyBelowHead(a, key, kb);
      assert ka == kb;
      assert a[0] == b[0];
      forall k ensures WithKey(a[1..], key, k) == WithKey(b[1..], key, k) {
        if k != ka {
          WithKeyTail(a, key, k);
          WithKeyTail(b, key, k);
        } else {
          assert WithKey(a[1..], key, k) == WithKey(a, key, k)[1..];
          assert WithKey(b[1..], key, k) == WithKey(b, key, k)[1..];
        }
      }
      SortedTail(a, key);
      SortedTail(b, key);
      SortedStableUnique(a[1..], b[1..], key);
      assert a == [a[0]] + a[1..] && b == [b[0]] + b[1..];
    }
  }

  lemma {:induction false} SortedTail<T>(xs: seq<T>, key: T -> int)
    requires xs != [] && NonIncreasing(xs, key)
    ensures NonIncreasing(xs[1..], key)
  {
    forall i, j | 0 <= i < j < |xs[1..]| ensures key(xs[1..][i]) >= key(xs[1..][j]) {
      assert xs[1..][i] == xs[i + 1] && xs[1..][j] == xs[j + 1];
    }
  }

  /** In a sorted non-empty sequence holding an element with key k, the head's key is at least k. */
  lemma {:induction false} KeyBelowHead<T>(xs: seq<T>, key: T -> int, k: int)
    requires xs != [] && NonIncreasing(xs, key)
    requires WithKey(xs, key, k) != []
    ensures key(xs[0]) >= k
  {
    if key(xs[0]) < k {
      WithKeyTail(xs, key, k);
      WithKeyEmptyBelow(xs[1..], key, k, key(xs[0]));
    }
  }

  /** No element of xs has a key above bound, so none has key k > bound. */
  lemma {:induction false} WithKeyEmptyBelow<T>(xs: seq<T>, key: T -> int, k: int, bound: int)
    requires forall i :: 0 <= i < |xs| ==> key(xs[i]) <= bound
    requires bound < k
    ensures WithKey(xs, key, k) == []
    decreases |xs|
  {
    if xs != [] {
      WithKeyEmptyBelow(xs[1..], key, k, bound);
    }
  }

  /**
   * SortDesc is THE stable descending sort: any result that is sorted and
   * stable with respect to xs is equal to it. So every correct stable sort
   * implementation, such as the engine's, returns this ordering.
   */
  lemma {:induction false} SortDescIsTheStableSort<T>(xs: seq<T>, r: seq<T>, key: T -> int)
    requires NonIncreasing(r, key) && Stable(r, xs, key)
    ensures r == SortDesc(xs, key)
  {
    SortDescSorted(xs, key);
    SortDescStable(xs, key);
    SortedStableUnique(r, SortDesc(xs, key), key);
  }

  /** When all keys are equal, sorting changes nothing. */
  lemma {:induction false} SortDescConstant<T>(xs: seq<T>, key: T -> int, k: int)
    requires forall i :: 0 <= i < |xs| ==> key(xs[i]) == k
    ensures SortDesc(xs, key) == xs
  {
    assert NonIncreasing(xs, key);
    assert Stable(xs, xs, key);
    SortDescIsTheStableSort(xs, xs, key);
  }

  function Take<T>(xs: seq<T>, n: nat): (r: seq<T>)
    ensures |r| == if |xs| < n then |xs| else n
    ensures r == xs[..|r|]
  {
    if |xs| <= n then xs else xs[..n]
  }
}
