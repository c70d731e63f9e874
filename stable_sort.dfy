/**
 * Python's `sorted(xs, key=key, reverse=True)` followed by the slice `[:limit]`.
 * Python's sort is stable also when `reverse=True`: items with equal keys keep
 * the order they had in `xs`. The sort is given here as an insertion sort, and
 * what `sorted` promises is proved about it: the result is a permutation of the
 * input, non-increasing in the key, and stable.
 */
module StableSort {
  import opened Python

  /** Non-increasing in the key. */
  predicate SortedDesc<T>(s: seq<T>, key: T -> int)
  {
    forall i, j :: 0 <= i < j < |s| ==> key(s[i]) >= key(s[j])
  }

  /**
   * Puts `x` into the non-increasing `s` before the first element whose key is
   * not larger than its own, so that `x` precedes the elements of `s` it ties with.
   */
  function Insert<T>(x: T, s: seq<T>, key: T -> int): (r: seq<T>)
    ensures |r| == |s| + 1
    ensures multiset(r) == multiset(s) + multiset{x}
    ensures r[0] == x || (s != [] && r[0] == s[0])
  {
    if s == [] || key(s[0]) <= key(x) then [x] + s
    else
      assert s == [s[0]] + s[1..];
      [s[0]] + Insert(x, s[1..], key)
  }

  lemma {:induction false} InsertSorted<T>(x: T, s: seq<T>, key: T -> int)
    requires SortedDesc(s, key)
    ensures SortedDesc(Insert(x, s, key), key)
  {
    if s != [] && key(s[0]) > key(x) {
      var rest := Insert(x, s[1..], key);
      InsertSorted(x, s[1..], key);
      var r := [s[0]] + rest;
      assert key(rest[0]) <= key(s[0]) by {
        if rest[0] != x {
          assert rest[0] == s[1];
        }
      }
      forall i, j | 0 <= i < j < |r| ensures key(r[i]) >= key(r[j]) {
        assert r[j] == rest[j - 1];
        if i > 0 {
          assert r[i] == rest[i - 1];
        }
      }
    }
  }

  /** `sorted(s, key=key, reverse=True)`. */
  function SortDesc<T>(s: seq<T>, key: T -> int): (r: seq<T>)
    ensures multiset(r) == multiset(s)
    ensures SortedDesc(r, key)
  {
    if s == [] then []
    else
      assert s == [s[0]] + s[1..];
      InsertSorted(s[0], SortDesc(s[1..], key), key);
      Insert(s[0], SortDesc(s[1..], key), key)
  }

  /** The elements of `s` whose key is `k`, in their order in `s`. */
  function WithKey<T>(s: seq<T>, key: T -> int, k: int): seq<T>
  {
    if s == [] then []
    else Matching(s[0], key, k) + WithKey(s[1..], key, k)
  }

  /** `[x]` if `x` has key `k`, else nothing. */
  function Matching<T>(x: T, key: T -> int, k: int): seq<T>
  {
    if key(x) == k then [x] else []
  }

  lemma {:induction false} WithKeyAppend<T>(a: seq<T>, b: seq<T>, key: T -> int, k: int)
    ensures WithKey(a + b, key, k) == WithKey(a, key, k) + WithKey(b, key, k)
  {
    if a == [] {
      assert a + b == b;
    } else {
      var h := Matching(a[0], key, k);
      assert (a + b)[0] == a[0] && (a + b)[1..] == a[1..] + b;
      assert WithKey(a + b, key, k) == h + WithKey(a[1..] + b, key, k);
      WithKeyAppend(a[1..], b, key, k);
      assert h + (WithKey(a[1..], key, k) + WithKey(b, key, k))
          == (h + WithKey(a[1..], key, k)) + WithKey(b, key, k);
    }
  }

  lemma SortedDescTail<T>(s: seq<T>, key: T -> int)
    requires s != [] && SortedDesc(s, key)
    ensures SortedDesc(s[1..], key)
  {
    forall i, j | 0 <= i < j < |s| - 1 ensures key(s[1..][i]) >= key(s[1..][j]) {
      assert s[1..][i] == s[i + 1] && s[1..][j] == s[j + 1];
    }
  }

  lemma WithKeyCons<T>(x: T, s: seq<T>, key: T -> int, k: int)
    ensures WithKey([x] + s, key, k) == Matching(x, key, k) + WithKey(s, key, k)
  {
    assert ([x] + s)[0] == x && ([x] + s)[1..] == s;
  }

  /** Inserting `x` puts it in front of every element it ties with. */
  lemma {:induction false} InsertWithKey<T>(x: T, s: seq<T>, key: T -> int, k: int)
    requires SortedDesc(s, key)
    ensures WithKey(Insert(x, s, key), key, k) == Matching(x, key, k) + WithKey(s, key, k)
  {
    if s == [] || key(s[0]) <= key(x) {
      WithKeyCons(x, s, key, k);
    } else {
      SortedDescTail(s, key);
      InsertWithKey(x, s[1..], key, k);
      WithKeyCons(s[0], Insert(x, s[1..], key), key, k);
      WithKeyCons(s[0], s[1..], key, k);
      assert s == [s[0]] + s[1..];
      assert key(x) == k ==> Matching(s[0], key, k) == [];
    }
  }

  /** Stability: sorting keeps the input order among items with equal keys. */
  lemma {:induction false} SortDescStable<T>(s: seq<T>, key: T -> int, k: int)
    ensures WithKey(SortDesc(s, key), key, k) == WithKey(s, key, k)
  {
    if s != [] {
      SortDescStable(s[1..], key, k);
      InsertWithKey(s[0], SortDesc(s[1..], key), key, k);
    }
  }

  /** `sorted(s, key=key, reverse=True)[:limit]`. */
  function TopK<T>(s: seq<T>, key: T -> int, limit: int): seq<T>
  {
    SliceTo(SortDesc(s, key), limit)
  }

  /** Every item the selection leaves out has a key no larger than any selected item's. */
  lemma TopKBound<T>(s: seq<T>, key: T -> int, limit: int)
    ensures forall x, i | x in multiset(s) - multiset(TopK(s, key, limit)) && 0 <= i < |TopK(s, key, limit)| ::
              key(x) <= key(TopK(s, key, limit)[i])
  {
    var sorted := SortDesc(s, key);
    var top := TopK(s, key, limit);
    var rest := sorted[|top|..];
    assert sorted == top + rest;
    assert multiset(s) - multiset(top) == multiset(rest);
    forall x, i | x in multiset(rest) && 0 <= i < |top|
      ensures key(x) <= key(top[i])
    {
      var j :| 0 <= j < |rest| && rest[j] == x;
      assert sorted[|top| + j] == x && sorted[i] == top[i];
    }
  }

  /** Among items with equal keys, the selected ones are the first of them in input order. */
  lemma TopKStable<T>(s: seq<T>, key: T -> int, limit: int, k: int)
    ensures WithKey(TopK(s, key, limit), key, k) <= WithKey(s, key, k)
  {
    var sorted := SortDesc(s, key);
    var top := TopK(s, key, limit);
    assert sorted == top + sorted[|top|..];
    WithKeyAppend(top, sorted[|top|..], key, k);
    SortDescStable(s, key, k);
  }

  /**
   * What the selection keeps: `min(limit, |s|)` items for a non-negative limit
   * (a negative limit drops that many from the end, as Python's slice does),
   * each taken from `s` and none twice, in non-increasing key order; no item
   * left out has a larger key than a selected one; and among items with equal
   * keys the selected ones are the first of them in input order, in that order.
   */
  lemma TopKSpec<T>(s: seq<T>, key: T -> int, limit: int)
    ensures |TopK(s, key, limit)| == if limit >= 0 then Min(limit, |s|) else Max(0, |s| + limit)
    ensures multiset(TopK(s, key, limit)) <= multiset(s)
    ensures SortedDesc(TopK(s, key, limit), key)
    ensures forall x, i | x in multiset(s) - multiset(TopK(s, key, limit)) && 0 <= i < |TopK(s, key, limit)| ::
              key(x) <= key(TopK(s, key, limit)[i])
    ensures forall k :: WithKey(TopK(s, key, limit), key, k) <= WithKey(s, key, k)
  {
    var sorted := SortDesc(s, key);
    var top := TopK(s, key, limit);
    assert sorted == top + sorted[|top|..];
    TopKBound(s, key, limit);
    forall k ensures WithKey(top, key, k) <= WithKey(s, key, k) {
      TopKStable(s, key, limit, k);
    }
  }
}
