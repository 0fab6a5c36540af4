/** Small shared vocabulary: optional values, results carrying the source's
    error message, order-preserving filtering, and JavaScript's `a || b`
    fallback on strings. */
module Common {

  datatype Option<+T> = None | Some(value: T)

  /** A computation that either produces a value or fails with the message of
      the `Error` the source would throw. */
  datatype Result<+T> = Ok(value: T) | Err(message: string)

  /** JavaScript truthiness of an optional string: `undefined`/`null` and the
      empty string are falsy. */
  predicate Truthy(s: Option<string>)
  {
    s.Some? && s.value != ""
  }

  /** `s || fallback` for an optional string. */
  function MessageOr(s: Option<string>, fallback: string): (r: string)
    ensures Truthy(s) ==> r == s.value
    ensures !Truthy(s) ==> r == fallback
  {
    if Truthy(s) then s.value else fallback
  }

  /** `Array.prototype.filter`: the elements satisfying `p`, in their order. */
  function Filter<T>(s: seq<T>, p: T -> bool): (r: seq<T>)
    ensures |r| <= |s|
    ensures forall i :: 0 <= i < |r| ==> r[i] in s && p(r[i])
    ensures forall i :: 0 <= i < |s| && p(s[i]) ==> s[i] in r
  {
    if s == [] then [] else Filter(s[..|s| - 1], p) + (if p(s[|s| - 1]) then [s[|s| - 1]] else [])
  }

  lemma {:induction false} FilterAppend<T>(a: seq<T>, b: seq<T>, p: T -> bool)
    ensures Filter(a + b, p) == Filter(a, p) + Filter(b, p)
    decreases |b|
  {
    if b == [] {
      assert a + b == a;
    } else {
      var b' := b[..|b| - 1];
      assert (a + b)[..|a + b| - 1] == a + b';
      FilterAppend(a, b', p);
    }
  }

  /** Two complementary filters split a sequence's multiset between them. */
  lemma {:induction false} FilterPartition<T>(s: seq<T>, p: T -> bool, q: T -> bool)
    requires forall x :: p(x) != q(x)
    ensures multiset(Filter(s, p)) + multiset(Filter(s, q)) == multiset(s)
  {
    if s != [] {
      var s', x := s[..|s| - 1], s[|s| - 1];
      FilterPartition(s', p, q);
      MultisetSnoc(s);
    }
  }

  /** A non-empty sequence is its front followed by its last element. */
  lemma LastSplit<T>(s: seq<T>)
    requires s != []
    ensures s == s[..|s| - 1] + [s[|s| - 1]]
  {
  }

  lemma MultisetSnoc<T>(s: seq<T>)
    requires s != []
    ensures multiset(s) == multiset(s[..|s| - 1]) + multiset{s[|s| - 1]}
  {
    assert s == s[..|s| - 1] + [s[|s| - 1]];
  }

  /** A filter keeps order: its result is a subsequence, so any pairwise
      relation that holds on `s` in order holds on the result in order. */
  lemma {:induction false} FilterKeepsOrder<T>(s: seq<T>, p: T -> bool, le: (T, T) -> bool)
    requires forall i, j :: 0 <= i < j < |s| ==> le(s[i], s[j])
    ensures forall i, j :: 0 <= i < j < |Filter(s, p)| ==> le(Filter(s, p)[i], Filter(s, p)[j])
  {
    if s != [] {
      var s' := s[..|s| - 1];
      FilterKeepsOrder(s', p, le);
      var r' := Filter(s', p);
      var x := s[|s| - 1];
      assert Filter(s, p) == r' + (if p(x) then [x] else []);
      forall i, j | 0 <= i < j < |Filter(s, p)|
        ensures le(Filter(s, p)[i], Filter(s, p)[j])
      {
        if j >= |r'| {
          assert Filter(s, p)[j] == x;
          assert Filter(s, p)[i] == r'[i];
          assert r'[i] in s';
          var k :| 0 <= k < |s'| && s'[k] == r'[i];
          assert s[k] == s'[k];
          assert k < |s| - 1;
          assert le(s[k], s[|s| - 1]);
        } else {
          assert Filter(s, p)[i] == r'[i] && Filter(s, p)[j] == r'[j];
          assert le(r'[i], r'[j]);
        }
      }
    }
  }
}
