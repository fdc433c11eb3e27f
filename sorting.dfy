/**
 * A stable sort in descending order of an integer key. It models the library calls
 * `Vec::sort_by(|a, b| key(b).cmp(&key(a)))` and Itertools' `sorted_by`, both of which are stable.
 */
module Sorting {

  /** Places `x` in front of the first element whose key is not greater than its own. */
  function Insert<T>(x: T, s: seq<T>, key: T -> int): (r: seq<T>)
    ensures |r| == |s| + 1
  {
    if s == [] || key(s[0]) <= key(x) then [x] + s else [s[0]] + Insert(x, s[1..], key)
  }

  function SortDesc<T>(s: seq<T>, key: T -> int): (r: seq<T>)
    ensures |r| == |s|
  {
    if s == [] then [] else Insert(s[0], SortDesc(s[1..], key), key)
  }

  ghost predicate SortedDesc<T>(s: seq<T>, key: T -> int) {
    forall i, j :: 0 <= i < j < |s| ==> key(s[i]) >= key(s[j])
  }

  /** The elements of `s` whose key is `v`, in order. */
  function WithKey<T>(s: seq<T>, key: T -> int, v: int): seq<T> {
    if s == [] then [] else (if key(s[0]) == v then [s[0]] else []) + WithKey(s[1..], key, v)
  }

  function MapSeq<T, U>(s: seq<T>, f: T -> U): (r: seq<U>)
    ensures |r| == |s| && forall i :: 0 <= i < |s| ==> r[i] == f(s[i])
  {
    if s == [] then [] else [f(s[0])] + MapSeq(s[1..], f)
  }

  lemma {:induction false} InsertSorted<T>(x: T, s: seq<T>, key: T -> int)
    requires SortedDesc(s, key)
    ensures SortedDesc(Insert(x, s, key), key)
  {
    if s != [] && key(s[0]) > key(x) {
      InsertSorted(x, s[1..], key);
      InsertAll(x, s[1..], key, y => key(y) <= key(s[0]));
    }
  }

  /** A property held by `x` and by every element of `s` is held by every element of `Insert(x, s)`. */
  lemma {:induction false} InsertAll<T>(x: T, s: seq<T>, key: T -> int, p: T -> bool)
    requires p(x) && forall i :: 0 <= i < |s| ==> p(s[i])
    ensures forall i :: 0 <= i < |s| + 1 ==> p(Insert(x, s, key)[i])
  {
    if s != [] && key(s[0]) > key(x) {
      InsertAll(x, s[1..], key, p);
    }
  }

  /** A property held by every element of `s` is held by every element of `SortDesc(s)`. */
  lemma {:induction false} SortDescAll<T>(s: seq<T>, key: T -> int, p: T -> bool)
    requires forall i :: 0 <= i < |s| ==> p(s[i])
    ensures forall i :: 0 <= i < |s| ==> p(SortDesc(s, key)[i])
  {
    if s != [] {
      SortDescAll(s[1..], key, p);
      InsertAll(s[0], SortDesc(s[1..], key), key, p);
    }
  }

  /** The result is ordered by key, largest first. */
  lemma {:induction false} SortDescSorted<T>(s: seq<T>, key: T -> int)
    ensures SortedDesc(SortDesc(s, key), key)
  {
    if s != [] {
      SortDescSorted(s[1..], key);
      InsertSorted(s[0], SortDesc(s[1..], key), key);
    }
  }

  /** The result is a permutation of the input. */
  lemma {:induction false} SortDescPermutation<T>(s: seq<T>, key: T -> int)
    ensures multiset(SortDesc(s, key)) == multiset(s)
  {
    if s != [] {
      SortDescPermutation(s[1..], key);
      InsertPermutation(s[0], SortDesc(s[1..], key), key);
      assert s == [s[0]] + s[1..];
    }
  }

  lemma {:induction false} InsertPermutation<T>(x: T, s: seq<T>, key: T -> int)
    ensures multiset(Insert(x, s, key)) == multiset{x} + multiset(s)
  {
    if s != [] && key(s[0]) > key(x) {
      InsertPermutation(x, s[1..], key);
      assert s == [s[0]] + s[1..];
    }
  }

  /** Stability: the elements sharing one key value keep their input order. */
  lemma {:induction false} SortDescStable<T>(s: seq<T>, key: T -> int, v: int)
    ensures WithKey(SortDesc(s, key), key, v) == WithKey(s, key, v)
  {
    if s != [] {
      SortDescStable(s[1..], key, v);
      InsertWithKey(s[0], SortDesc(s[1..], key), key, v);
    }
  }

  lemma {:induction false} InsertWithKey<T>(x: T, s: seq<T>, key: T -> int, v: int)
    ensures WithKey(Insert(x, s, key), key, v) == (if key(x) == v then [x] else []) + WithKey(s, key, v)
  {
    var r := Insert(x, s, key);
    var own: seq<T> := if key(x) == v then [x] else [];
    if s != [] && key(s[0]) > key(x) {
      InsertWithKey(x, s[1..], key, v);
      assert r[0] == s[0] && r[1..] == Insert(x, s[1..], key);
      var head: seq<T> := if key(s[0]) == v then [s[0]] else [];
      assert WithKey(r, key, v) == head + (own + WithKey(s[1..], key, v));
      assert WithKey(s, key, v) == head + WithKey(s[1..], key, v);
      // `x` and `s[0]` have different keys, so at most one of them is kept.
      if key(x) == v {
        assert head == [];
        assert [] + (own + WithKey(s[1..], key, v)) == own + ([] + WithKey(s[1..], key, v));
      } else {
        assert own == [];
        assert head + ([] + WithKey(s[1..], key, v)) == [] + (head + WithKey(s[1..], key, v));
      }
    } else {
      assert r[0] == x && r[1..] == s;
    }
  }

  /** Sorting commutes with a map that keeps the key. */
  lemma {:induction false} SortDescMap<T, U>(s: seq<T>, f: T -> U, kt: T -> int, ku: U -> int)
    requires forall x :: ku(f(x)) == kt(x)
    ensures SortDesc(MapSeq(s, f), ku) == MapSeq(SortDesc(s, kt), f)
  {
    if s != [] {
      SortDescMap(s[1..], f, kt, ku);
      assert MapSeq(s, f)[1..] == MapSeq(s[1..], f);
      InsertMap(s[0], SortDesc(s[1..], kt), f, kt, ku);
    }
  }

  lemma {:induction false} InsertMap<T, U>(x: T, s: seq<T>, f: T -> U, kt: T -> int, ku: U -> int)
    requires forall x :: ku(f(x)) == kt(x)
    ensures Insert(f(x), MapSeq(s, f), ku) == MapSeq(Insert(x, s, kt), f)
  {
    if s != [] {
      assert MapSeq(s, f)[1..] == MapSeq(s[1..], f);
      if kt(s[0]) > kt(x) {
        InsertMap(x, s[1..], f, kt, ku);
      }
    }
  }

  /** Ordered by key, largest first, with equal keys ordered by `lt`. */
  ghost predicate OrderedBy<T>(s: seq<T>, key: T -> int, lt: (T, T) -> bool) {
    forall i, j :: 0 <= i < j < |s| ==>
      key(s[i]) > key(s[j]) || (key(s[i]) == key(s[j]) && lt(s[i], s[j]))
  }

  ghost predicate IncreasingBy<T>(s: seq<T>, lt: (T, T) -> bool) {
    forall i, j :: 0 <= i < j < |s| ==> lt(s[i], s[j])
  }

  /** When the input is increasing in a secondary order, the result breaks key ties by that order. */
  lemma {:induction false} SortDescTies<T>(s: seq<T>, key: T -> int, lt: (T, T) -> bool)
    requires IncreasingBy(s, lt)
    ensures OrderedBy(SortDesc(s, key), key, lt)
  {
    if s != [] {
      var x := s[0];
      SortDescTies(s[1..], key, lt);
      SortDescAll(s[1..], key, y => lt(x, y));
      InsertOrdered(x, SortDesc(s[1..], key), key, lt);
    }
  }

  lemma {:induction false} InsertOrdered<T>(x: T, s: seq<T>, key: T -> int, lt: (T, T) -> bool)
    requires OrderedBy(s, key, lt)
    requires forall i :: 0 <= i < |s| ==> lt(x, s[i])
    ensures OrderedBy(Insert(x, s, key), key, lt)
  {
    if s != [] && key(s[0]) > key(x) {
      var h := s[0];
      InsertOrdered(x, s[1..], key, lt);
      InsertAll(x, s[1..], key, y => key(h) > key(y) || (key(h) == key(y) && lt(h, y)));
    }
  }
}
