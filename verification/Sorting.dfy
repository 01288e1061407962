/** Sorting, as far as anything relies on it: the result is a sorted permutation. */
module Sorting {
  /** Any two elements compare, and comparing is transitive; different elements may tie. */
  ghost predicate Orders<T(!new)>(le: (T, T) -> bool) {
    && (forall x, y :: le(x, y) || le(y, x))
    && (forall x, y, z :: le(x, y) && le(y, z) ==> le(x, z))
  }

  ghost predicate HasNoTies<T(!new)>(le: (T, T) -> bool) {
    forall x, y :: le(x, y) && le(y, x) ==> x == y
  }

  ghost predicate Sorted<T>(le: (T, T) -> bool, s: seq<T>) {
    forall i, j :: 0 <= i < j < |s| ==> le(s[i], s[j])
  }

  lemma SortedFront<T>(le: (T, T) -> bool, s: seq<T>)
    requires Sorted(le, s) && s != []
    ensures Sorted(le, s[..|s| - 1])
    ensures multiset(s[..|s| - 1]) == multiset(s) - multiset{s[|s| - 1]}
  {
    assert s == s[..|s| - 1] + [s[|s| - 1]];
  }

  lemma LastOfSorted<T(!new)>(le: (T, T) -> bool, s: seq<T>, t: seq<T>)
    requires Orders(le) && HasNoTies(le)
    requires Sorted(le, s) && Sorted(le, t) && multiset(s) == multiset(t) && s != [] && t != []
    ensures s[|s| - 1] == t[|t| - 1]
  {
    var a, b := s[|s| - 1], t[|t| - 1];
    assert a in multiset(t) && b in multiset(s);
    var i :| 0 <= i < |t| && t[i] == a;
    var j :| 0 <= j < |s| && s[j] == b;
    assert le(a, b) || le(b, a);
  }

  /** If no two elements tie, a bag of them has one sorted list. */
  lemma {:induction false} SortedIsUnique<T(!new)>(le: (T, T) -> bool, s: seq<T>, t: seq<T>)
    requires Orders(le) && HasNoTies(le)
    requires Sorted(le, s) && Sorted(le, t) && multiset(s) == multiset(t)
    ensures s == t
    decreases |s|
  {
    hide Sorted, Orders, HasNoTies;
    assert |multiset(s)| == |s| && |multiset(t)| == |t|;
    if s != [] {
      LastOfSorted(le, s, t);
      SortedFront(le, s);
      SortedFront(le, t);
      SortedIsUnique(le, s[..|s| - 1], t[..|t| - 1]);
      assert s == s[..|s| - 1] + [s[|s| - 1]] && t == t[..|t| - 1] + [t[|t| - 1]];
    }
  }

  lemma InsertedSorted<T(!new)>(le: (T, T) -> bool, sorted: seq<T>, i: nat, x: T)
    requires Orders(le) && Sorted(le, sorted) && i <= |sorted|
    requires (i > 0 ==> le(sorted[i - 1], x)) && (i < |sorted| ==> le(x, sorted[i]))
    ensures Sorted(le, sorted[..i] + [x] + sorted[i..])
  {
    var r := sorted[..i] + [x] + sorted[i..];
    assert forall j :: 0 <= j < i ==> le(sorted[j], x);
    assert forall j :: i <= j < |sorted| ==> le(x, sorted[j]);
    forall j, k | 0 <= j < k < |r| ensures le(r[j], r[k]) {
      assert r[j] == if j < i then sorted[j] else if j == i then x else sorted[j - 1];
      assert r[k] == if k < i then sorted[k] else if k == i then x else sorted[k - 1];
    }
  }

  method Insert<T(!new)>(le: (T, T) -> bool, sorted: seq<T>, x: T) returns (r: seq<T>)
    requires Orders(le) && Sorted(le, sorted)
    ensures Sorted(le, r) && multiset(r) == multiset(sorted) + multiset{x}
  {
    hide Sorted;
    var i := |sorted|;
    while i > 0 && !le(sorted[i - 1], x)
      invariant 0 <= i <= |sorted|
      invariant i < |sorted| ==> le(x, sorted[i])
    {
      i := i - 1;
    }
    r := sorted[..i] + [x] + sorted[i..];
    InsertedSorted(le, sorted, i, x);
    assert sorted == sorted[..i] + sorted[i..];
  }

  method Sort<T(!new)>(le: (T, T) -> bool, values: seq<T>) returns (sorted: seq<T>)
    requires Orders(le)
    ensures Sorted(le, sorted) && multiset(sorted) == multiset(values)
  {
    sorted := [];
    for i := 0 to |values|
      invariant Sorted(le, sorted) && multiset(sorted) == multiset(values[..i])
    {
      hide Orders, Sorted;
      assert values[..i + 1] == values[..i] + [values[i]];
      sorted := Insert(le, sorted, values[i]);
    }
    assert values[..|values|] == values;
  }
}
