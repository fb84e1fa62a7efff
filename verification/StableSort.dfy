// Sorting that keeps the order of elements that may stand either way, as
// `Array.prototype.sort` does.
module StableSort {

  predicate Sorted<T>(s: seq<T>, before: (T, T) -> bool) {
    forall i, j :: 0 <= i < j < |s| ==> before(s[i], s[j])
  }

  ghost predicate TotalOrder<T(!new)>(before: (T, T) -> bool) {
    && (forall a, b :: before(a, b) || before(b, a))
    && (forall a, b, c :: before(a, b) && before(b, c) ==> before(a, c))
  }

  // Behind everything that may stand before it.
  function Insert<T(==, !new)>(s: seq<T>, x: T, before: (T, T) -> bool): (r: seq<T>)
    ensures multiset(r) == multiset(s) + multiset{x}
    ensures forall y :: y in r <==> y == x || y in s
  {
    if s == [] then [x]
    else if before(s[0], x) then
      assert s == [s[0]] + s[1..];
      [s[0]] + Insert(s[1..], x, before)
    else [x] + s
  }

  function Sort<T(==, !new)>(s: seq<T>, before: (T, T) -> bool): (r: seq<T>)
    ensures multiset(r) == multiset(s)
    ensures forall y :: y in r <==> y in s
  {
    if s == [] then []
    else
      assert s == s[..|s| - 1] + [s[|s| - 1]];
      Insert(Sort(s[..|s| - 1], before), s[|s| - 1], before)
  }

  function Map<T, U>(s: seq<T>, f: T -> U): (r: seq<U>)
    ensures |r| == |s| && forall i :: 0 <= i < |s| ==> r[i] == f(s[i])
  {
    seq(|s|, i requires 0 <= i < |s| => f(s[i]))
  }

  lemma {:induction false} InsertMapped<T(!new)>(s: seq<T>, x: T, before: (T, T) -> bool, f: T -> T)
    requires forall a, b :: before(f(a), f(b)) == before(a, b)
    ensures Insert(Map(s, f), f(x), before) == Map(Insert(s, x, before), f)
  {
    if s == [] {
    } else if before(s[0], x) {
      assert Map(s, f)[1..] == Map(s[1..], f);
      InsertMapped(s[1..], x, before, f);
    } else {
      assert Map([x] + s, f) == [f(x)] + Map(s, f);
    }
  }

  // What does not touch the order may be done before or after sorting.
  lemma {:induction false} SortMapped<T(!new)>(s: seq<T>, before: (T, T) -> bool, f: T -> T)
    requires forall a, b :: before(f(a), f(b)) == before(a, b)
    ensures Sort(Map(s, f), before) == Map(Sort(s, before), f)
  {
    if s != [] {
      var front, x := s[..|s| - 1], s[|s| - 1];
      assert Map(s, f)[..|s| - 1] == Map(front, f);
      SortMapped(front, before, f);
      InsertMapped(Sort(front, before), x, before, f);
    }
  }

  lemma {:induction false} InsertSorted<T(!new)>(s: seq<T>, x: T, before: (T, T) -> bool)
    requires Sorted(s, before) && TotalOrder(before)
    ensures Sorted(Insert(s, x, before), before)
  {
    if s == [] {
    } else if before(s[0], x) {
      InsertSorted(s[1..], x, before);
      var rest := Insert(s[1..], x, before);
      assert forall y :: y in rest ==> before(s[0], y);
    } else {
      assert before(x, s[0]);
      assert forall i :: 0 < i < |s| ==> before(s[0], s[i]);
    }
  }

  lemma {:induction false} SortIsSorted<T(!new)>(s: seq<T>, before: (T, T) -> bool)
    requires TotalOrder(before)
    ensures Sorted(Sort(s, before), before)
  {
    if s != [] {
      SortIsSorted(s[..|s| - 1], before);
      InsertSorted(Sort(s[..|s| - 1], before), s[|s| - 1], before);
    }
  }

  predicate Distinct<T>(s: seq<T>, id: T -> string) {
    forall i, j :: 0 <= i < j < |s| ==> id(s[i]) != id(s[j])
  }

  lemma {:induction false} InsertDistinct<T(!new)>(s: seq<T>, x: T, before: (T, T) -> bool, id: T -> string)
    requires Distinct(s, id) && forall y :: y in s ==> id(y) != id(x)
    ensures Distinct(Insert(s, x, before), id)
  {
    if s != [] && before(s[0], x) {
      InsertDistinct(s[1..], x, before, id);
      var rest := Insert(s[1..], x, before);
      assert forall y :: y in rest ==> id(y) != id(s[0]);
    }
  }

  lemma {:induction false} SortDistinct<T(!new)>(s: seq<T>, before: (T, T) -> bool, id: T -> string)
    requires Distinct(s, id)
    ensures Distinct(Sort(s, before), id)
  {
    if s != [] {
      SortDistinct(s[..|s| - 1], before, id);
      InsertDistinct(Sort(s[..|s| - 1], before), s[|s| - 1], before, id);
    }
  }
}
