/**
 * JavaScript's Array.prototype.sort is stable. It is modelled here as a stable
 * insertion sort over values. `le(a, b)` means "a may come before b", which is a
 * comparator's `cmp(a, b) <= 0`.
 */
module Sorting {

  /** A comparator that is total and transitive, so that sorting is well defined. */
  ghost predicate TotalPreorder<T(!new)>(le: (T, T) -> bool)
  {
    (forall a, b :: le(a, b) || le(b, a))
    && (forall a, b, c :: le(a, b) && le(b, c) ==> le(a, c))
  }

  ghost predicate SortedBy<T>(s: seq<T>, le: (T, T) -> bool)
  {
    forall i, j :: 0 <= i < j < |s| ==> le(s[i], s[j])
  }

  /** Puts x before the first element it may precede. */
  function Insert<T>(x: T, s: seq<T>, le: (T, T) -> bool): (r: seq<T>)
    ensures |r| == |s| + 1
    ensures multiset(r) == multiset(s) + multiset{x}
  {
    if s == [] || le(x, s[0]) then [x] + s
    else
      var tail := Insert(x, s[1..], le);
      assert s == [s[0]] + s[1..];
      [s[0]] + tail
  }

  /** The sort: an element is inserted ahead of every later element it ties with. */
  function SortBy<T>(s: seq<T>, le: (T, T) -> bool): (r: seq<T>)
    ensures |r| == |s|
    ensures multiset(r) == multiset(s)
  {
    if s == [] then []
    else
      assert s == [s[0]] + s[1..];
      Insert(s[0], SortBy(s[1..], le), le)
  }

  lemma {:induction false} InsertSorted<T(!new)>(x: T, s: seq<T>, le: (T, T) -> bool)
    requires TotalPreorder(le)
    requires SortedBy(s, le)
    ensures SortedBy(Insert(x, s, le), le)
    decreases |s|
  {
    if s == [] || le(x, s[0]) {
    } else {
      var tail := Insert(x, s[1..], le);
      InsertSorted(x, s[1..], le);
      var r := [s[0]] + tail;
      InsertMembers(x, s[1..], le);
      forall j | 1 <= j < |r|
        ensures le(s[0], r[j])
      {
        assert r[j] == tail[j - 1] && r[j] in tail;
        if r[j] != x {
          assert r[j] in s[1..];
          var k :| 0 <= k < |s[1..]| && s[1..][k] == r[j];
          assert s[k + 1] == r[j];
        }
      }
    }
  }

  /** Insert adds x and nothing else. */
  lemma InsertMembers<T>(x: T, s: seq<T>, le: (T, T) -> bool)
    ensures forall y :: y in Insert(x, s, le) ==> y == x || y in s
  {
    var r := Insert(x, s, le);
    forall y | y in r
      ensures y == x || y in s
    {
      assert y in multiset(r);
    }
  }

  /** The sorted result is ordered by le. */
  lemma {:induction false} SortBySorted<T(!new)>(s: seq<T>, le: (T, T) -> bool)
    requires TotalPreorder(le)
    ensures SortedBy(SortBy(s, le), le)
    decreases |s|
  {
    if s != [] {
      SortBySorted(s[1..], le);
      InsertSorted(s[0], SortBy(s[1..], le), le);
    }
  }

  /** Sorting an already ordered sequence leaves it as it is. */
  lemma {:induction false} SortBySortedIdentity<T>(s: seq<T>, le: (T, T) -> bool)
    requires SortedBy(s, le)
    ensures SortBy(s, le) == s
    decreases |s|
  {
    if s != [] {
      assert SortedBy(s[1..], le);
      SortBySortedIdentity(s[1..], le);
      assert SortBy(s[1..], le) == s[1..];
      if |s| > 1 {
        assert le(s[0], s[1]);
      }
      assert [s[0]] + s[1..] == s;
    }
  }
  /** a and x compare equal: each may come before the other. */
  predicate Tied<T>(a: T, x: T, le: (T, T) -> bool)
  {
    le(a, x) && le(x, a)
  }

  /** The elements of s that tie with x, in their order in s. */
  function TiesOf<T>(s: seq<T>, x: T, le: (T, T) -> bool): (r: seq<T>)
    ensures |r| <= |s|
  {
    if s == [] then []
    else (if Tied(s[0], x, le) then [s[0]] else []) + TiesOf(s[1..], x, le)
  }

  /** Inserting y puts it ahead of every element it ties with. */
  lemma {:induction false} InsertTies<T(!new)>(y: T, s: seq<T>, x: T, le: (T, T) -> bool)
    requires TotalPreorder(le)
    ensures TiesOf(Insert(y, s, le), x, le)
            == (if Tied(y, x, le) then [y] else []) + TiesOf(s, x, le)
    decreases |s|
  {
    var ty := if Tied(y, x, le) then [y] else [];
    if s == [] || le(y, s[0]) {
      assert ([y] + s)[0] == y && ([y] + s)[1..] == s;
    } else {
      var tail := Insert(y, s[1..], le);
      var t0 := if Tied(s[0], x, le) then [s[0]] else [];
      InsertTies(y, s[1..], x, le);
      assert ([s[0]] + tail)[0] == s[0] && ([s[0]] + tail)[1..] == tail;
      assert TiesOf(Insert(y, s, le), x, le) == t0 + (ty + TiesOf(s[1..], x, le));
      assert TiesOf(s, x, le) == t0 + TiesOf(s[1..], x, le);
      // y and s[0] cannot both tie with x: that would give le(y, s[0]).
      NotBothTied(y, s[0], x, le);
      assert t0 + ty == ty + t0;
    }
  }

  lemma NotBothTied<T(!new)>(y: T, z: T, x: T, le: (T, T) -> bool)
    requires TotalPreorder(le)
    requires !le(y, z)
    ensures !(Tied(y, x, le) && Tied(z, x, le))
  {
  }

  /** The sort is stable: elements that compare equal keep their input order. */
  lemma {:induction false} SortByStable<T(!new)>(s: seq<T>, x: T, le: (T, T) -> bool)
    requires TotalPreorder(le)
    ensures TiesOf(SortBy(s, le), x, le) == TiesOf(s, x, le)
    decreases |s|
  {
    if s != [] {
      SortByStable(s[1..], x, le);
      InsertTies(s[0], SortBy(s[1..], le), x, le);
    }
  }

  /** No two elements share a key. */
  ghost predicate DistinctBy<T, K>(s: seq<T>, key: T -> K)
  {
    forall i, j :: 0 <= i < j < |s| ==> key(s[i]) != key(s[j])
  }

  lemma {:induction false} InsertDistinct<T, K>(x: T, s: seq<T>, le: (T, T) -> bool, key: T -> K)
    requires DistinctBy(s, key)
    requires forall y :: y in s ==> key(y) != key(x)
    ensures DistinctBy(Insert(x, s, le), key)
    decreases |s|
  {
    if s != [] && !le(x, s[0]) {
      var tail := Insert(x, s[1..], le);
      assert forall y :: y in s[1..] ==> y in s;
      InsertDistinct(x, s[1..], le, key);
      var r := [s[0]] + tail;
      forall j | 1 <= j < |r|
        ensures key(s[0]) != key(r[j])
      {
        assert r[j] in multiset(tail);
        if r[j] != x {
          assert r[j] in multiset(s[1..]);
          var k :| 0 <= k < |s[1..]| && s[1..][k] == r[j];
          assert s[k + 1] == r[j];
        }
      }
    }
  }

  /** Sorting keeps keys distinct. */
  lemma {:induction false} SortByDistinct<T, K>(s: seq<T>, le: (T, T) -> bool, key: T -> K)
    requires DistinctBy(s, key)
    ensures DistinctBy(SortBy(s, le), key)
    decreases |s|
  {
    if s != [] {
      SortByDistinct(s[1..], le, key);
      var sorted := SortBy(s[1..], le);
      forall y | y in sorted
        ensures key(y) != key(s[0])
      {
        assert y in multiset(sorted);
        var k :| 0 <= k < |s[1..]| && s[1..][k] == y;
        assert s[k + 1] == y;
      }
      InsertDistinct(s[0], sorted, le, key);
    }
  }
}
