/** `Array.prototype.sort` with a comparator `(a, b) => Key(a) - Key(b)`:
    since ECMAScript 2019 the sort is stable, so it puts the elements in
    non-decreasing key order and keeps elements of equal key in their input
    order. A descending sort (`Key(b) - Key(a)`) is the ascending sort by the
    negated key. Modelled as a left-to-right insertion sort on values. */
module StableSort {

  ghost predicate SortedBy<T>(s: seq<T>, key: T -> int)
  {
    forall i, j :: 0 <= i < j < |s| ==> key(s[i]) <= key(s[j])
  }

  /** The elements of `s` whose key is `k`, in order. */
  function OfKey<T>(s: seq<T>, key: T -> int, k: int): seq<T>
  {
    if s == [] then []
    else OfKey(s[..|s| - 1], key, k) + (if key(s[|s| - 1]) == k then [s[|s| - 1]] else [])
  }

  /** Inserts `x` into the sorted `s` after every element whose key is at most `key(x)`. */
  function Insert<T>(s: seq<T>, x: T, key: T -> int): seq<T>
  {
    if s == [] || key(s[|s| - 1]) <= key(x) then s + [x]
    else Insert(s[..|s| - 1], x, key) + [s[|s| - 1]]
  }

  function SortBy<T>(s: seq<T>, key: T -> int): seq<T>
  {
    if s == [] then [] else Insert(SortBy(s[..|s| - 1], key), s[|s| - 1], key)
  }

  lemma {:induction false} InsertLength<T>(s: seq<T>, x: T, key: T -> int)
    ensures |Insert(s, x, key)| == |s| + 1
  {
    if !(s == [] || key(s[|s| - 1]) <= key(x)) {
      InsertLength(s[..|s| - 1], x, key);
    }
  }

  lemma {:induction false} InsertMultiset<T>(s: seq<T>, x: T, key: T -> int)
    ensures multiset(Insert(s, x, key)) == multiset(s) + multiset{x}
  {
    if !(s == [] || key(s[|s| - 1]) <= key(x)) {
      var s' := s[..|s| - 1];
      InsertMultiset(s', x, key);
      assert s == s' + [s[|s| - 1]];
    }
  }

  lemma {:induction false} InsertSorted<T>(s: seq<T>, x: T, key: T -> int)
    requires SortedBy(s, key)
    ensures SortedBy(Insert(s, x, key), key)
  {
    if !(s == [] || key(s[|s| - 1]) <= key(x)) {
      var s', last := s[..|s| - 1], s[|s| - 1];
      InsertSorted(s', x, key);
      InsertMultiset(s', x, key);
      var t := Insert(s', x, key);
      forall y | y in t ensures key(y) <= key(last) {
        assert y in multiset(t);
        if y != x {
          assert y in multiset(s');
          var i :| 0 <= i < |s'| && s'[i] == y;
          assert s[i] == y;
        }
      }
      var r := t + [last];
      forall i, j | 0 <= i < j < |r| ensures key(r[i]) <= key(r[j]) {
        if j == |r| - 1 {
          assert r[i] in t;
        }
      }
    }
  }

  lemma {:induction false} OfKeyAppend<T>(a: seq<T>, b: seq<T>, key: T -> int, k: int)
    ensures OfKey(a + b, key, k) == OfKey(a, key, k) + OfKey(b, key, k)
    decreases |b|
  {
    if b == [] {
      assert a + b == a;
    } else {
      var b' := b[..|b| - 1];
      assert (a + b)[..|a + b| - 1] == a + b';
      OfKeyAppend(a, b', key, k);
    }
  }

  lemma {:induction false} InsertOfKey<T>(s: seq<T>, x: T, key: T -> int, k: int)
    ensures OfKey(Insert(s, x, key), key, k) == OfKey(s, key, k) + (if key(x) == k then [x] else [])
  {
    if s == [] || key(s[|s| - 1]) <= key(x) {
      OfKeyAppend(s, [x], key, k);
      assert [x][..0] == [];
    } else {
      var s', last := s[..|s| - 1], s[|s| - 1];
      InsertOfKey(s', x, key, k);
      OfKeyAppend(Insert(s', x, key), [last], key, k);
      OfKeyAppend(s', [last], key, k);
      assert s == s' + [last];
      assert [last][..0] == [];
      assert [x][..0] == [];
    }
  }

  /** The sort yields a permutation of its input in non-decreasing key order,
      and it is stable: for every key, the elements with that key appear in
      the output in the same order as in the input. */
  lemma {:induction false} SortByCorrect<T>(s: seq<T>, key: T -> int)
    ensures |SortBy(s, key)| == |s|
    ensures multiset(SortBy(s, key)) == multiset(s)
    ensures SortedBy(SortBy(s, key), key)
    ensures forall k :: OfKey(SortBy(s, key), key, k) == OfKey(s, key, k)
  {
    if s != [] {
      var s', x := s[..|s| - 1], s[|s| - 1];
      SortByCorrect(s', key);
      var t := SortBy(s', key);
      InsertLength(t, x, key);
      InsertMultiset(t, x, key);
      InsertSorted(t, x, key);
      assert s == s' + [x];
      forall k ensures OfKey(SortBy(s, key), key, k) == OfKey(s, key, k) {
        InsertOfKey(t, x, key, k);
      }
    }
  }
}
