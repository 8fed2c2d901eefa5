/** Stable sorting by an order on keys, as `sorted` does it, and when its result is determined. */
module Sorting {

  /** A strict order in which not being before is transitive: elements compare as their keys do. */
  ghost predicate Orders<T(!new)>(before: (T, T) -> bool) {
    && (forall x, y :: before(x, y) ==> !before(y, x))
    && (forall x, y, z :: !before(y, x) && !before(z, y) ==> !before(z, x))
  }

  function Insert<T>(before: (T, T) -> bool, x: T, s: seq<T>): (r: seq<T>)
    ensures multiset(r) == multiset(s) + multiset{x}
  {
    if s == [] || !before(s[0], x) then [x] + s
    else
      assert s == [s[0]] + s[1..];
      [s[0]] + Insert(before, x, s[1..])
  }

  function Sorted<T>(before: (T, T) -> bool, s: seq<T>): (r: seq<T>)
    ensures multiset(r) == multiset(s)
  {
    if s == [] then []
    else
      assert s == [s[0]] + s[1..];
      Insert(before, s[0], Sorted(before, s[1..]))
  }

  /** No element is before one that stands left of it. */
  predicate Ascending<T>(before: (T, T) -> bool, s: seq<T>) {
    forall i, k :: 0 <= i < k < |s| ==> !before(s[k], s[i])
  }

  lemma SameMembers<T>(a: seq<T>, b: seq<T>)
    requires multiset(a) == multiset(b)
    ensures |a| == |b| && forall x :: x in a <==> x in b
  {
    assert |a| == |multiset(a)| && |b| == |multiset(b)|;
    assert forall x :: x in a <==> x in multiset(a);
    assert forall x :: x in b <==> x in multiset(b);
  }

  lemma {:induction false} InsertAscending<T(!new)>(before: (T, T) -> bool, x: T, s: seq<T>)
    requires Orders(before) && Ascending(before, s)
    ensures Ascending(before, Insert(before, x, s))
  {
    if s != [] && before(s[0], x) {
      InsertAscending(before, x, s[1..]);
      var rest := Insert(before, x, s[1..]);
      SameMembers(rest, s[1..] + [x]);
      forall k | 0 <= k < |rest| ensures !before(rest[k], s[0]) {
        assert rest[k] in s[1..] + [x];
      }
    }
  }

  lemma {:induction false} SortedAscending<T(!new)>(before: (T, T) -> bool, s: seq<T>)
    requires Orders(before)
    ensures Ascending(before, Sorted(before, s))
  {
    if s != [] {
      SortedAscending(before, s[1..]);
      InsertAscending(before, s[0], Sorted(before, s[1..]));
    }
  }

  /** Only equal elements have equal keys. */
  predicate Distinguishes<T(==)>(before: (T, T) -> bool, s: seq<T>) {
    forall x, y :: x in s && y in s && !before(x, y) && !before(y, x) ==> x == y
  }

  lemma Tail<T>(before: (T, T) -> bool, s: seq<T>)
    requires s != [] && Ascending(before, s)
    ensures Ascending(before, s[1..]) && multiset(s[1..]) == multiset(s) - multiset{s[0]}
    ensures forall x :: x in s ==> x == s[0] || !before(x, s[0])
  {
    assert s == [s[0]] + s[1..];
  }

  lemma SameFirst<T>(before: (T, T) -> bool, a: seq<T>, b: seq<T>)
    requires a != [] && b != [] && Ascending(before, a) && Ascending(before, b) && Distinguishes(before, a)
    requires forall x :: x in a <==> x in b
    ensures a[0] == b[0]
  {
    Tail(before, a);
    Tail(before, b);
    assert a[0] in b && b[0] in a;
  }

  lemma TailDistinguishes<T>(before: (T, T) -> bool, s: seq<T>)
    requires s != [] && Distinguishes(before, s)
    ensures Distinguishes(before, s[1..])
  {
    assert forall x :: x in s[1..] ==> x in s;
  }

  lemma Rejoin<T>(a: seq<T>, b: seq<T>)
    requires a != [] && b != [] && a[0] == b[0] && a[1..] == b[1..]
    ensures a == b
  {
    assert a == [a[0]] + a[1..] && b == [b[0]] + b[1..];
  }

  /** A sequence in order is determined by its elements. */
  lemma {:induction false} AscendingUnique<T>(before: (T, T) -> bool, a: seq<T>, b: seq<T>)
    requires Ascending(before, a) && Ascending(before, b) && multiset(a) == multiset(b)
    requires Distinguishes(before, a)
    ensures a == b
  {
    SameMembers(a, b);
    if a != [] {
      SameFirst(before, a, b);
      TailDistinguishes(before, a);
      Tail(before, a);
      Tail(before, b);
      hide Ascending, Distinguishes;
      AscendingUnique(before, a[1..], b[1..]);
      Rejoin(a, b);
    }
  }

  /** The order in which elements are given does not matter, if only equal ones have equal keys. */
  lemma SortedIgnoresOrder<T(!new)>(before: (T, T) -> bool, a: seq<T>, b: seq<T>)
    requires Orders(before) && multiset(a) == multiset(b) && Distinguishes(before, a)
    ensures Sorted(before, a) == Sorted(before, b)
  {
    SortedAscending(before, a);
    SortedAscending(before, b);
    SameMembers(Sorted(before, a), a);
    AscendingUnique(before, Sorted(before, a), Sorted(before, b));
  }

  /** What is in order stays as it is. */
  lemma SortedStable<T(!new)>(before: (T, T) -> bool, s: seq<T>)
    requires Orders(before) && Ascending(before, s) && Distinguishes(before, s)
    ensures Sorted(before, s) == s
  {
    SortedAscending(before, s);
    SameMembers(Sorted(before, s), s);
    AscendingUnique(before, s, Sorted(before, s));
  }

  predicate Alike<T>(before: (T, T) -> bool, x: T, y: T) {
    !before(x, y) && !before(y, x)
  }

  /** The elements with the same key as `x`, in their order. */
  function AllAlike<T>(before: (T, T) -> bool, x: T, s: seq<T>): seq<T> {
    if s == [] then []
    else (if Alike(before, x, s[0]) then [s[0]] else []) + AllAlike(before, x, s[1..])
  }

  lemma AlikeNotBefore<T(!new)>(before: (T, T) -> bool, x: T, y: T, z: T)
    requires Orders(before) && Alike(before, x, y) && Alike(before, x, z)
    ensures !before(y, z)
  {
  }

  lemma AlikeFirst<T>(before: (T, T) -> bool, x: T, e: T, s: seq<T>)
    ensures AllAlike(before, x, [e] + s) == (if Alike(before, x, e) then [e] else []) + AllAlike(before, x, s)
  {
    hide Alike;
    assert ([e] + s)[1..] == s;
  }

  lemma Commute<T>(a: seq<T>, b: seq<T>, rest: seq<T>)
    requires a == [] || b == []
    ensures a + (b + rest) == b + (a + rest)
  {
  }

  lemma {:induction false} InsertKeepsOrder<T(!new)>(before: (T, T) -> bool, x: T, y: T, s: seq<T>)
    requires Orders(before)
    ensures AllAlike(before, x, Insert(before, y, s)) == (if Alike(before, x, y) then [y] else []) + AllAlike(before, x, s)
  {
    hide Orders, Alike, AllAlike;
    if s == [] || !before(s[0], y) {
      AlikeFirst(before, x, y, s);
    } else {
      var first, rest := s[0], s[1..];
      InsertKeepsOrder(before, x, y, rest);
      AlikeFirst(before, x, first, Insert(before, y, rest));
      AlikeFirst(before, x, first, rest);
      assert s == [first] + rest;
      if Alike(before, x, first) && Alike(before, x, y) {
        AlikeNotBefore(before, x, first, y);
      }
      Commute(if Alike(before, x, first) then [first] else [], if Alike(before, x, y) then [y] else [], AllAlike(before, x, rest));
    }
  }

  /** Sorting is stable: elements with the same key stay in the order in which they were given. */
  lemma {:induction false} SortedKeepsOrder<T(!new)>(before: (T, T) -> bool, x: T, s: seq<T>)
    requires Orders(before)
    ensures AllAlike(before, x, Sorted(before, s)) == AllAlike(before, x, s)
  {
    if s != [] {
      SortedKeepsOrder(before, x, s[1..]);
      InsertKeepsOrder(before, x, s[0], Sorted(before, s[1..]));
    }
  }
}
