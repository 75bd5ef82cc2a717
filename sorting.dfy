/** Stable sorting by a two-part key, as Python's `sorted(..., key=...)` and
    JavaScript's `Array.prototype.sort` (stable since ES2019) order records.
    A comparator `a - b` over integer fields becomes the key of each element. */
module Sorting {

  /** A sort key compared lexicographically: first `major`, then `minor`. */
  datatype Key = Key(major: int, minor: int)

  predicate KeyLe(a: Key, b: Key) {
    a.major < b.major || (a.major == b.major && a.minor <= b.minor)
  }

  predicate SortedBy<T>(s: seq<T>, key: T -> Key) {
    forall i, j :: 0 <= i < j < |s| ==> KeyLe(key(s[i]), key(s[j]))
  }

  /** The elements of `s` whose key is `k`, in their order in `s`. */
  function WithKey<T>(s: seq<T>, key: T -> Key, k: Key): seq<T> {
    if |s| == 0 then []
    else WithKey(s[..|s| - 1], key, k) + (if key(s[|s| - 1]) == k then [s[|s| - 1]] else [])
  }

  lemma {:induction false} WithKeyConcat<T>(a: seq<T>, b: seq<T>, key: T -> Key, k: Key)
    ensures WithKey(a + b, key, k) == WithKey(a, key, k) + WithKey(b, key, k)
    decreases |b|
  {
    if |b| == 0 {
      assert a + b == a;
    } else {
      assert (a + b)[..|a + b| - 1] == a + b[..|b| - 1];
      WithKeyConcat(a, b[..|b| - 1], key, k);
    }
  }

  /** Places `x` after every element whose key is not greater than its own. */
  function Insert<T>(t: seq<T>, x: T, key: T -> Key): seq<T> {
    if |t| == 0 then [x]
    else if KeyLe(key(t[|t| - 1]), key(x)) then t + [x]
    else Insert(t[..|t| - 1], x, key) + [t[|t| - 1]]
  }

  lemma {:induction false} InsertLength<T>(t: seq<T>, x: T, key: T -> Key)
    ensures |Insert(t, x, key)| == |t| + 1
    ensures multiset(Insert(t, x, key)) == multiset(t) + multiset{x}
    decreases |t|
  {
    if |t| > 0 && !KeyLe(key(t[|t| - 1]), key(x)) {
      var p, l := t[..|t| - 1], t[|t| - 1];
      InsertLength(p, x, key);
      assert t == p + [l];
    }
  }

  lemma WithKeySnoc<T>(q: seq<T>, l: T, key: T -> Key, k: Key)
    ensures WithKey(q + [l], key, k) == WithKey(q, key, k) + (if key(l) == k then [l] else [])
  {
    assert (q + [l])[..|q + [l]| - 1] == q;
  }

  lemma {:induction false} InsertWithKey<T>(t: seq<T>, x: T, key: T -> Key, k: Key)
    ensures WithKey(Insert(t, x, key), key, k) == WithKey(t, key, k) + (if key(x) == k then [x] else [])
    decreases |t|
  {
    if |t| == 0 {
      WithKeySnoc([], x, key, k);
      assert [] + [x] == [x];
    } else if KeyLe(key(t[|t| - 1]), key(x)) {
      WithKeySnoc(t, x, key, k);
    } else {
      var p, l := t[..|t| - 1], t[|t| - 1];
      InsertWithKey(p, x, key, k);
      WithKeySnoc(Insert(p, x, key), l, key, k);
      WithKeySnoc(p, l, key, k);
      assert t == p + [l];
      assert key(x) != key(l);
    }
  }

  lemma {:induction false} InsertBounded<T>(t: seq<T>, x: T, key: T -> Key, b: Key)
    requires forall i :: 0 <= i < |t| ==> KeyLe(key(t[i]), b)
    requires KeyLe(key(x), b)
    ensures forall i :: 0 <= i < |Insert(t, x, key)| ==> KeyLe(key(Insert(t, x, key)[i]), b)
    decreases |t|
  {
    if |t| > 0 && !KeyLe(key(t[|t| - 1]), key(x)) {
      InsertBounded(t[..|t| - 1], x, key, b);
    }
  }

  lemma {:induction false} InsertSorted<T>(t: seq<T>, x: T, key: T -> Key)
    requires SortedBy(t, key)
    ensures SortedBy(Insert(t, x, key), key)
    decreases |t|
  {
    if |t| > 0 && !KeyLe(key(t[|t| - 1]), key(x)) {
      var p, l := t[..|t| - 1], t[|t| - 1];
      InsertSorted(p, x, key);
      InsertBounded(p, x, key, key(l));
    }
  }

  /** Insertion sort that keeps elements with equal keys in input order. */
  function StableSort<T(==)>(s: seq<T>, key: T -> Key): (r: seq<T>)
    ensures SortedBy(r, key)
    ensures multiset(r) == multiset(s)
    ensures forall k :: WithKey(r, key, k) == WithKey(s, key, k)
    decreases |s|
  {
    if |s| == 0 then []
    else
      var p, x := s[..|s| - 1], s[|s| - 1];
      var t := StableSort(p, key);
      InsertSorted(t, x, key);
      InsertLength(t, x, key);
      assert forall k :: WithKey(Insert(t, x, key), key, k) == WithKey(t, key, k) + (if key(x) == k then [x] else []) by {
        forall k { InsertWithKey(t, x, key, k); }
      }
      assert s == p + [x];
      Insert(t, x, key)
  }

  /** Where `s[i]` sits among the elements of its key. */
  lemma {:induction false} WithKeyHas<T>(s: seq<T>, key: T -> Key, i: nat) returns (p: nat)
    requires i < |s|
    ensures p < |WithKey(s, key, key(s[i]))| && WithKey(s, key, key(s[i]))[p] == s[i]
    decreases |s|
  {
    var init := s[..|s| - 1];
    if i == |s| - 1 {
      p := |WithKey(init, key, key(s[i]))|;
    } else {
      assert init[i] == s[i];
      p := WithKeyHas(init, key, i);
    }
  }

  /** Two elements with the same key keep their relative order in `WithKey`. */
  lemma {:induction false} WithKeyBefore<T>(s: seq<T>, key: T -> Key, i: nat, j: nat) returns (p: nat, q: nat)
    requires i < j < |s| && key(s[i]) == key(s[j])
    ensures p < q < |WithKey(s, key, key(s[j]))|
    ensures WithKey(s, key, key(s[j]))[p] == s[i] && WithKey(s, key, key(s[j]))[q] == s[j]
    decreases |s|
  {
    var init := s[..|s| - 1];
    assert init[i] == s[i];
    if j == |s| - 1 {
      p := WithKeyHas(init, key, i);
      q := |WithKey(init, key, key(s[j]))|;
    } else {
      assert init[j] == s[j];
      p, q := WithKeyBefore(init, key, i, j);
    }
  }

  /** Picking the elements of one key out of a sequence ordered by `rank`
      keeps it ordered by `rank`. */
  lemma {:induction false} WithKeyRanked<T>(s: seq<T>, key: T -> Key, k: Key, rank: T -> int)
    requires forall i, j :: 0 <= i < j < |s| ==> rank(s[i]) < rank(s[j])
    ensures forall x :: x in WithKey(s, key, k) ==> x in s
    ensures var w := WithKey(s, key, k); forall p, q :: 0 <= p < q < |w| ==> rank(w[p]) < rank(w[q])
    decreases |s|
  {
    if |s| > 0 {
      var init, last := s[..|s| - 1], s[|s| - 1];
      WithKeyRanked(init, key, k, rank);
      assert s == init + [last];
      WithKeySnoc(init, last, key, k);
      var wi, w := WithKey(init, key, k), WithKey(s, key, k);
      forall p, q | 0 <= p < q < |w|
        ensures rank(w[p]) < rank(w[q])
      {
        if q == |wi| {
          assert w[p] == wi[p] && wi[p] in init;
          var i :| 0 <= i < |init| && init[i] == wi[p];
          assert s[i] == init[i];
        } else {
          assert w[p] == wi[p] && w[q] == wi[q];
        }
      }
    }
  }

  /** A stable sort of a sequence ordered by `rank` leaves the elements of
      equal key in `rank` order. */
  lemma StableTies<T>(s: seq<T>, r: seq<T>, key: T -> Key, rank: T -> int)
    requires forall i, j :: 0 <= i < j < |s| ==> rank(s[i]) < rank(s[j])
    requires forall k :: WithKey(r, key, k) == WithKey(s, key, k)
    ensures forall i, j :: 0 <= i < j < |r| && key(r[i]) == key(r[j]) ==> rank(r[i]) < rank(r[j])
  {
    forall i, j | 0 <= i < j < |r| && key(r[i]) == key(r[j])
      ensures rank(r[i]) < rank(r[j])
    {
      StableTie(s, r, key, rank, i, j);
    }
  }

  lemma StableTie<T>(s: seq<T>, r: seq<T>, key: T -> Key, rank: T -> int, i: nat, j: nat)
    requires forall i, j :: 0 <= i < j < |s| ==> rank(s[i]) < rank(s[j])
    requires i < j < |r| && key(r[i]) == key(r[j])
    requires WithKey(r, key, key(r[j])) == WithKey(s, key, key(r[j]))
    ensures rank(r[i]) < rank(r[j])
  {
    var p, q := WithKeyBefore(r, key, i, j);
    WithKeyRanked(s, key, key(r[j]), rank);
  }
}
