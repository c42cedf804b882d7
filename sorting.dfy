/** The orders the list queries ask of the database (`ORDER BY`), stated as
    a comparison on rows, with insertion sort as a reference for the result
    such a query returns. */
module Sorting {

  /** `le` orders every pair of rows, consistently. */
  ghost predicate IsTotalPreorder<T(!new)>(le: (T, T) -> bool) {
    (forall a, b :: le(a, b) || le(b, a))
    && (forall a, b, c :: le(a, b) && le(b, c) ==> le(a, c))
  }

  predicate SortedBy<T>(s: seq<T>, le: (T, T) -> bool) {
    forall i, j :: 0 <= i < j < |s| ==> le(s[i], s[j])
  }

  /** `y` comes no later than any row of `s`. */
  predicate Below<T>(y: T, s: seq<T>, le: (T, T) -> bool) {
    forall k :: 0 <= k < |s| ==> le(y, s[k])
  }

  /** Puts `x` into a sequence, after the leading rows that come strictly
      before it. */
  function Insert<T>(x: T, s: seq<T>, le: (T, T) -> bool): (r: seq<T>)
    ensures multiset(r) == multiset{x} + multiset(s)
  {
    if s == [] then [x]
    else if le(x, s[0]) then [x] + s
    else
      assert s == [s[0]] + s[1..];
      [s[0]] + Insert(x, s[1..], le)
  }

  /** A row no later than `x` and than every row of `s` stays no later than
      every row once `x` is inserted. */
  lemma {:induction false} InsertBelow<T>(y: T, x: T, s: seq<T>, le: (T, T) -> bool)
    requires le(y, x) && Below(y, s, le)
    ensures Below(y, Insert(x, s, le), le)
  {
    if s != [] && !le(x, s[0]) {
      InsertBelow(y, x, s[1..], le);
    }
  }

  /** Inserting into a sorted sequence keeps it sorted. */
  lemma {:induction false} InsertSorted<T(!new)>(x: T, s: seq<T>, le: (T, T) -> bool)
    requires IsTotalPreorder(le) && SortedBy(s, le)
    ensures SortedBy(Insert(x, s, le), le)
  {
    if s != [] {
      if le(x, s[0]) {
        assert Below(x, s, le);
      } else {
        InsertSorted(x, s[1..], le);
        InsertBelow(s[0], x, s[1..], le);
      }
    }
  }

  /** Insertion sort: the rows of `s`, each once, in `le` order. */
  function Sort<T(!new)>(s: seq<T>, le: (T, T) -> bool): (r: seq<T>)
    requires IsTotalPreorder(le)
    ensures SortedBy(r, le)
    ensures multiset(r) == multiset(s)
  {
    if s == [] then []
    else
      assert s == [s[0]] + s[1..];
      InsertSorted(s[0], Sort(s[1..], le), le);
      Insert(s[0], Sort(s[1..], le), le)
  }
}
