/** Python's `list.sort(key=...)` and `sorted(...)`: a stable sort by an
    integer key. `reverse=True` keeps stability in Python, so a descending
    sort is this sort on the negated key. */
module Sorting {

  /** Keys are non-decreasing along `s`. */
  predicate SortedBy<T>(s: seq<T>, key: T -> int)
  {
    forall i, j :: 0 <= i < j < |s| ==> key(s[i]) <= key(s[j])
  }

  /** `x` placed before the first element whose key is not smaller. */
  function Insert<T>(x: T, t: seq<T>, key: T -> int): (r: seq<T>)
    ensures |r| == |t| + 1
  {
    if t == [] || key(x) <= key(t[0]) then [x] + t
    else [t[0]] + Insert(x, t[1..], key)
  }

  /** Stable insertion sort by `key`. */
  function SortBy<T>(s: seq<T>, key: T -> int): (r: seq<T>)
    ensures |r| == |s|
  {
    if s == [] then [] else Insert(s[0], SortBy(s[1..], key), key)
  }

  /** The elements of `s` whose key is `k`, in their order in `s`. */
  function WithKey<T>(s: seq<T>, key: T -> int, k: int): seq<T>
  {
    if s == [] then [] else (if key(s[0]) == k then [s[0]] else []) + WithKey(s[1..], key, k)
  }

  lemma {:induction false} InsertPermutes<T>(x: T, t: seq<T>, key: T -> int)
    ensures multiset(Insert(x, t, key)) == multiset(t) + multiset{x}
  {
    if !(t == [] || key(x) <= key(t[0])) {
      InsertPermutes(x, t[1..], key);
      assert t == [t[0]] + t[1..];
    }
  }

  /** `SortBy` only reorders. */
  lemma {:induction false} SortByPermutes<T>(s: seq<T>, key: T -> int)
    ensures multiset(SortBy(s, key)) == multiset(s)
  {
    if s != [] {
      SortByPermutes(s[1..], key);
      InsertPermutes(s[0], SortBy(s[1..], key), key);
      assert s == [s[0]] + s[1..];
    }
  }

  lemma {:induction false} InsertKeeps<T>(x: T, t: seq<T>, key: T -> int, P: T -> bool)
    requires P(x) && forall i :: 0 <= i < |t| ==> P(t[i])
    ensures forall i :: 0 <= i < |Insert(x, t, key)| ==> P(Insert(x, t, key)[i])
  {
    if !(t == [] || key(x) <= key(t[0])) {
      InsertKeeps(x, t[1..], key, P);
      var r := Insert(x, t, key);
      forall i | 0 <= i < |r| ensures P(r[i]) {
        if i > 0 {
          assert r[i] == Insert(x, t[1..], key)[i - 1];
        }
      }
    } else {
      var r := Insert(x, t, key);
      forall i | 0 <= i < |r| ensures P(r[i]) {
        if i > 0 {
          assert r[i] == t[i - 1];
        }
      }
    }
  }

  /** Whatever holds of every element still holds of every element after sorting. */
  lemma {:induction false} SortByKeeps<T>(s: seq<T>, key: T -> int, P: T -> bool)
    requires forall i :: 0 <= i < |s| ==> P(s[i])
    ensures forall i :: 0 <= i < |SortBy(s, key)| ==> P(SortBy(s, key)[i])
  {
    if s != [] {
      SortByKeeps(s[1..], key, P);
      InsertKeeps(s[0], SortBy(s[1..], key), key, P);
    }
  }

  /** The first element after an insertion is the inserted one or the old first. */
  lemma InsertHead<T>(x: T, t: seq<T>, key: T -> int)
    ensures Insert(x, t, key)[0] == x || (t != [] && Insert(x, t, key)[0] == t[0])
  {
  }

  lemma {:induction false} InsertSorted<T>(x: T, t: seq<T>, key: T -> int)
    requires SortedBy(t, key)
    ensures SortedBy(Insert(x, t, key), key)
  {
    if !(t == [] || key(x) <= key(t[0])) {
      var tail := Insert(x, t[1..], key);
      InsertSorted(x, t[1..], key);
      InsertHead(x, t[1..], key);
      assert key(t[0]) <= key(tail[0]) by {
        if tail[0] != x {
          assert tail[0] == t[1];
        }
      }
      var r := [t[0]] + tail;
      forall i, j | 0 <= i < j < |r| ensures key(r[i]) <= key(r[j]) {
        assert r[j] == tail[j - 1];
        if i > 0 {
          assert r[i] == tail[i - 1];
        }
      }
    }
  }

  /** The result of `SortBy` is sorted by key. */
  lemma {:induction false} SortBySorted<T>(s: seq<T>, key: T -> int)
    ensures SortedBy(SortBy(s, key), key)
  {
    if s != [] {
      SortBySorted(s[1..], key);
      InsertSorted(s[0], SortBy(s[1..], key), key);
    }
  }

  lemma {:induction false} InsertWithKey<T>(x: T, t: seq<T>, key: T -> int, k: int)
    ensures WithKey(Insert(x, t, key), key, k) == (if key(x) == k then [x] else []) + WithKey(t, key, k)
  {
    var mark := if key(x) == k then [x] else [];
    if t == [] || key(x) <= key(t[0]) {
      var r := [x] + t;
      assert r[0] == x && r[1..] == t;
    } else {
      var tail := Insert(x, t[1..], key);
      var r := [t[0]] + tail;
      var head := if key(t[0]) == k then [t[0]] else [];
      InsertWithKey(x, t[1..], key, k);
      assert r[0] == t[0] && r[1..] == tail;
      assert WithKey(r, key, k) == head + WithKey(tail, key, k);
      assert WithKey(t, key, k) == head + WithKey(t[1..], key, k);
      assert key(x) == k ==> head == [];
    }
  }

  /** Stability: elements with equal keys keep their original relative order. */
  lemma {:induction false} SortByStable<T>(s: seq<T>, key: T -> int, k: int)
    ensures WithKey(SortBy(s, key), key, k) == WithKey(s, key, k)
  {
    if s != [] {
      SortByStable(s[1..], key, k);
      InsertWithKey(s[0], SortBy(s[1..], key), key, k);
    }
  }

  /** Elements of equal key come in increasing `pos`. */
  predicate TiesOrdered<T>(s: seq<T>, key: T -> int, pos: T -> int)
  {
    forall i, j :: 0 <= i < j < |s| && key(s[i]) == key(s[j]) ==> pos(s[i]) < pos(s[j])
  }

  lemma {:induction false} InsertTiesOrdered<T>(x: T, t: seq<T>, key: T -> int, pos: T -> int)
    requires TiesOrdered(t, key, pos)
    requires forall i :: 0 <= i < |t| ==> pos(x) < pos(t[i])
    ensures TiesOrdered(Insert(x, t, key), key, pos)
  {
    var r := Insert(x, t, key);
    if t == [] || key(x) <= key(t[0]) {
      forall i, j | 0 <= i < j < |r| && key(r[i]) == key(r[j]) ensures pos(r[i]) < pos(r[j]) {
        assert r[j] == t[j - 1];
        if i > 0 {
          assert r[i] == t[i - 1];
        }
      }
    } else {
      var tail := Insert(x, t[1..], key);
      InsertTiesOrdered(x, t[1..], key, pos);
      var P := (y: T) => key(y) == key(t[0]) ==> pos(t[0]) < pos(y);
      forall m | 0 <= m < |t[1..]| ensures P(t[1..][m]) {
        assert t[1..][m] == t[m + 1];
      }
      InsertKeeps(x, t[1..], key, P);
      forall i, j | 0 <= i < j < |r| && key(r[i]) == key(r[j]) ensures pos(r[i]) < pos(r[j]) {
        assert r[j] == tail[j - 1];
        if i > 0 {
          assert r[i] == tail[i - 1];
        } else {
          assert P(tail[j - 1]);
        }
      }
    }
  }

  /** Stability by position: when `s` is in increasing `pos`, elements of
      equal key are still in increasing `pos` after sorting. */
  lemma {:induction false} SortByTiesOrdered<T>(s: seq<T>, key: T -> int, pos: T -> int)
    requires forall i, j :: 0 <= i < j < |s| ==> pos(s[i]) < pos(s[j])
    ensures TiesOrdered(SortBy(s, key), key, pos)
  {
    if s != [] {
      var rest := s[1..];
      assert forall i, j :: 0 <= i < j < |rest| ==> rest[i] == s[i + 1] && rest[j] == s[j + 1];
      SortByTiesOrdered(rest, key, pos);
      var P := (y: T) => pos(s[0]) < pos(y);
      assert forall i :: 0 <= i < |rest| ==> rest[i] == s[i + 1];
      SortByKeeps(rest, key, P);
      InsertTiesOrdered(s[0], SortBy(rest, key), key, pos);
    }
  }

  /** No element occurs twice. */
  predicate Unique<T(==)>(s: seq<T>)
  {
    forall i, j :: 0 <= i < j < |s| ==> s[i] != s[j]
  }

  lemma {:induction false} InsertUnique<T>(x: T, t: seq<T>, key: T -> int)
    requires Unique(t) && x !in t
    ensures Unique(Insert(x, t, key))
  {
    var r := Insert(x, t, key);
    if t == [] || key(x) <= key(t[0]) {
      forall i, j | 0 <= i < j < |r| ensures r[i] != r[j] {
        assert r[j] == t[j - 1];
        if i > 0 {
          assert r[i] == t[i - 1];
        }
      }
    } else {
      var tail := Insert(x, t[1..], key);
      InsertUnique(x, t[1..], key);
      InsertPermutes(x, t[1..], key);
      assert t[0] !in multiset(t[1..]);
      assert t[0] !in multiset(tail);
      forall i, j | 0 <= i < j < |r| ensures r[i] != r[j] {
        assert r[j] == tail[j - 1];
        if i > 0 {
          assert r[i] == tail[i - 1];
        } else {
          assert r[j] in multiset(tail);
        }
      }
    }
  }

  /** Sorting a list without repeats gives a list without repeats. */
  lemma {:induction false} SortByUnique<T>(s: seq<T>, key: T -> int)
    requires Unique(s)
    ensures Unique(SortBy(s, key))
  {
    if s != [] {
      SortByUnique(s[1..], key);
      SortByPermutes(s[1..], key);
      assert s[0] !in multiset(s[1..]);
      InsertUnique(s[0], SortBy(s[1..], key), key);
    }
  }

  /** `[x for x in s if keep(x)]` */
  function Filter<T>(s: seq<T>, keep: T -> bool): (r: seq<T>)
    ensures |r| <= |s|
  {
    if s == [] then []
    else Filter(s[..|s| - 1], keep) + (if keep(s[|s| - 1]) then [s[|s| - 1]] else [])
  }

  /** Every element kept passes the test. */
  lemma {:induction false} FilterAll<T>(s: seq<T>, keep: T -> bool)
    ensures forall j :: 0 <= j < |Filter(s, keep)| ==> keep(Filter(s, keep)[j])
  {
    if s != [] {
      FilterAll(s[..|s| - 1], keep);
    }
  }

  /** An element survives the filter exactly when it is in `s` and kept. */
  lemma {:induction false} FilterMember<T>(s: seq<T>, keep: T -> bool)
    ensures forall x :: x in Filter(s, keep) ==> x in s && keep(x)
    ensures forall x :: x in s && keep(x) ==> x in Filter(s, keep)
  {
    if s != [] {
      FilterMember(s[..|s| - 1], keep);
      assert s == s[..|s| - 1] + [s[|s| - 1]];
    }
  }

  /** Nothing is dropped exactly when every element is kept. */
  lemma {:induction false} FilterKeepsAll<T>(s: seq<T>, keep: T -> bool)
    ensures |Filter(s, keep)| == |s| <==> forall i :: 0 <= i < |s| ==> keep(s[i])
  {
    if s != [] {
      var init := s[..|s| - 1];
      FilterKeepsAll(init, keep);
      assert forall i :: 0 <= i < |init| ==> init[i] == s[i];
    }
  }

  /** Filtering keeps the relative order: a sequence that descends by `key`
      still descends after the filter. */
  lemma {:induction false} FilterDescending<T>(s: seq<T>, keep: T -> bool, key: T -> real)
    requires forall i, j :: 0 <= i < j < |s| ==> key(s[i]) >= key(s[j])
    ensures forall i, j :: 0 <= i < j < |Filter(s, keep)| ==>
      key(Filter(s, keep)[i]) >= key(Filter(s, keep)[j])
  {
    if s != [] {
      var init := s[..|s| - 1];
      var x := s[|s| - 1];
      FilterDescending(init, keep, key);
      FilterMember(init, keep);
      var r := Filter(init, keep);
      forall i | 0 <= i < |r|
        ensures key(r[i]) >= key(x)
      {
        assert r[i] in init;
        var p :| 0 <= p < |init| && init[p] == r[i];
        assert s[p] == r[i];
      }
    }
  }
}
