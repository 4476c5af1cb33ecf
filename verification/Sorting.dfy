/** Sorting by an order on the elements, as TaruBot's comparators and queries sort rows. */
module Sorting {
  function Insert<T>(leq: (T, T) -> bool, x: T, s: seq<T>): seq<T> {
    if s == [] || leq(x, s[0]) then [x] + s else [s[0]] + Insert(leq, x, s[1..])
  }

  function Sort<T>(leq: (T, T) -> bool, s: seq<T>): seq<T> {
    if s == [] then [] else Insert(leq, s[0], Sort(leq, s[1..]))
  }

  ghost predicate Order<T(!new)>(leq: (T, T) -> bool) {
    && (forall x, y :: leq(x, y) || leq(y, x))
    && (forall x, y, z :: leq(x, y) && leq(y, z) ==> leq(x, z))
  }

  ghost predicate Sorted<T>(leq: (T, T) -> bool, s: seq<T>) {
    forall i, j :: 0 <= i < j < |s| ==> leq(s[i], s[j])
  }

  lemma {:induction false} InsertSorted<T(!new)>(leq: (T, T) -> bool, x: T, s: seq<T>)
    requires Order(leq) && Sorted(leq, s)
    ensures Sorted(leq, Insert(leq, x, s))
  {
    if s == [] || leq(x, s[0]) {
    } else {
      var rest := Insert(leq, x, s[1..]);
      InsertSorted(leq, x, s[1..]);
      InsertMembers(leq, x, s[1..]);
      forall j | 0 <= j < |rest| ensures leq(s[0], rest[j]) {
        assert rest[j] in rest;
      }
    }
  }

  lemma {:induction false} SortSorts<T(!new)>(leq: (T, T) -> bool, s: seq<T>)
    requires Order(leq)
    ensures Sorted(leq, Sort(leq, s))
  {
    if s != [] {
      SortSorts(leq, s[1..]);
      InsertSorted(leq, s[0], Sort(leq, s[1..]));
    }
  }

  ghost predicate Distinct<T>(s: seq<T>) { forall i, j :: 0 <= i < j < |s| ==> s[i] != s[j] }

  lemma {:induction false} InsertMembers<T(!new)>(leq: (T, T) -> bool, x: T, s: seq<T>)
    ensures forall y :: y in Insert(leq, x, s) <==> y == x || y in s
    ensures |Insert(leq, x, s)| == |s| + 1
    ensures x !in s && Distinct(s) ==> Distinct(Insert(leq, x, s))
  {
    if s == [] || leq(x, s[0]) {
    } else {
      InsertMembers(leq, x, s[1..]);
      assert forall y :: y in s <==> y == s[0] || y in s[1..];
      if x !in s && Distinct(s) {
        assert s[0] !in s[1..];
        assert s[0] !in Insert(leq, x, s[1..]);
      }
    }
  }

  /** Sorting loses no element, makes none up, and repeats none. */
  lemma {:induction false} SortMembers<T(!new)>(leq: (T, T) -> bool, s: seq<T>)
    ensures forall y :: y in Sort(leq, s) <==> y in s
    ensures |Sort(leq, s)| == |s|
    ensures Distinct(s) ==> Distinct(Sort(leq, s))
  {
    if s != [] {
      SortMembers(leq, s[1..]);
      InsertMembers(leq, s[0], Sort(leq, s[1..]));
      assert forall y :: y in s <==> y == s[0] || y in s[1..];
    }
  }
}
