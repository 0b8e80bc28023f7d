/**
 Python's `sorted` as a specification: a stable insertion sort by a total preorder.
 The one fact the callers need beyond "sorted permutation" is `SortKeepsGroup`: elements that
 were already in order keep exactly the sequence they had.
 */
module StableSort {

  ghost predicate TotalPreorder<T(!new)>(leq: (T, T) -> bool) {
    && (forall x, y :: leq(x, y) || leq(y, x))
    && (forall x, y, z :: leq(x, y) && leq(y, z) ==> leq(x, z))
  }

  ghost predicate Ordered<T>(leq: (T, T) -> bool, s: seq<T>) {
    forall i, j :: 0 <= i < j < |s| ==> leq(s[i], s[j])
  }

  /** The elements of `s` that satisfy `keep`, in their order. */
  function Filter<T>(keep: T -> bool, s: seq<T>): seq<T> {
    if s == [] then []
    else Filter(keep, s[..|s| - 1]) + (if keep(s[|s| - 1]) then [s[|s| - 1]] else [])
  }

  /** Puts `x` behind every element that may precede it. */
  function Insert<T>(leq: (T, T) -> bool, s: seq<T>, x: T): seq<T> {
    if s == [] || leq(s[|s| - 1], x) then s + [x]
    else Insert(leq, s[..|s| - 1], x) + [s[|s| - 1]]
  }

  function SortBy<T>(leq: (T, T) -> bool, s: seq<T>): seq<T> {
    if s == [] then [] else Insert(leq, SortBy(leq, s[..|s| - 1]), s[|s| - 1])
  }

  lemma {:induction false} InsertElements<T>(leq: (T, T) -> bool, s: seq<T>, x: T)
    ensures multiset(Insert(leq, s, x)) == multiset(s) + multiset{x}
  {
    if s != [] && !leq(s[|s| - 1], x) {
      InsertElements(leq, s[..|s| - 1], x);
      assert s == s[..|s| - 1] + [s[|s| - 1]];
    }
  }

  lemma {:induction false} InsertOrdered<T(!new)>(leq: (T, T) -> bool, s: seq<T>, x: T)
    requires TotalPreorder(leq) && Ordered(leq, s)
    ensures Ordered(leq, Insert(leq, s, x))
  {
    if s != [] && !leq(s[|s| - 1], x) {
      var front, last := s[..|s| - 1], s[|s| - 1];
      InsertOrdered(leq, front, x);
      InsertElements(leq, front, x);
      var r := Insert(leq, front, x);
      forall i | 0 <= i < |r| ensures leq(r[i], last) {
        assert r[i] in multiset(r);
        assert r[i] in multiset(front) || r[i] == x;
        assert r[i] in front || r[i] == x;
      }
    } else if s != [] {
      forall i | 0 <= i < |s| ensures leq(s[i], x) {
        assert i < |s| - 1 ==> leq(s[i], s[|s| - 1]);
      }
    }
  }

  lemma {:induction false} SortIsOrderedPermutation<T(!new)>(leq: (T, T) -> bool, s: seq<T>)
    requires TotalPreorder(leq)
    ensures Ordered(leq, SortBy(leq, s))
    ensures multiset(SortBy(leq, s)) == multiset(s)
    ensures |SortBy(leq, s)| == |s|
  {
    if s != [] {
      var front := s[..|s| - 1];
      SortIsOrderedPermutation(leq, front);
      InsertOrdered(leq, SortBy(leq, front), s[|s| - 1]);
      InsertElements(leq, SortBy(leq, front), s[|s| - 1]);
      assert s == front + [s[|s| - 1]];
      assert |multiset(SortBy(leq, s))| == |multiset(s)|;
    }
  }

  lemma {:induction false} FilterMember<T>(keep: T -> bool, s: seq<T>, x: T)
    ensures x in Filter(keep, s) <==> x in s && keep(x)
  {
    if s != [] {
      FilterMember(keep, s[..|s| - 1], x);
    }
  }

  lemma FilterAppend<T>(keep: T -> bool, s: seq<T>, x: T)
    ensures Filter(keep, s + [x]) == Filter(keep, s) + (if keep(x) then [x] else [])
  {
    assert (s + [x])[..|s|] == s;
  }

  lemma {:induction false} InsertKeepsGroup<T>(leq: (T, T) -> bool, s: seq<T>, x: T, keep: T -> bool)
    requires keep(x) ==> forall y :: y in s && keep(y) ==> leq(y, x)
    ensures Filter(keep, Insert(leq, s, x)) == Filter(keep, s) + (if keep(x) then [x] else [])
  {
    if s == [] || leq(s[|s| - 1], x) {
      FilterAppend(keep, s, x);
    } else {
      InsertKeepsGroup(leq, s[..|s| - 1], x, keep);
      FilterAppend(keep, Insert(leq, s[..|s| - 1], x), s[|s| - 1]);
    }
  }

  /** Stability: a group whose members were already in order is left exactly as it was. */
  lemma {:induction false} SortKeepsGroup<T(!new)>(leq: (T, T) -> bool, s: seq<T>, keep: T -> bool)
    requires TotalPreorder(leq)
    requires forall i, j :: 0 <= i < j < |s| && keep(s[i]) && keep(s[j]) ==> leq(s[i], s[j])
    ensures Filter(keep, SortBy(leq, s)) == Filter(keep, s)
  {
    if s != [] {
      var front, x := s[..|s| - 1], s[|s| - 1];
      SortKeepsGroup(leq, front, keep);
      SortIsOrderedPermutation(leq, front);
      forall y | y in SortBy(leq, front) && keep(y) && keep(x) ensures leq(y, x) {
        assert y in multiset(SortBy(leq, front));
        assert y in front;
        var i :| 0 <= i < |front| && front[i] == y;
        assert s[i] == y && s[|s| - 1] == x;
      }
      InsertKeepsGroup(leq, SortBy(leq, front), x, keep);
    }
  }

  /** The element at position `i` is the next one of the group its prefix has reached. */
  lemma {:induction false} FilterPosition<T>(keep: T -> bool, s: seq<T>, i: nat)
    requires i < |s| && keep(s[i])
    ensures |Filter(keep, s[..i])| < |Filter(keep, s)|
    ensures Filter(keep, s)[|Filter(keep, s[..i])|] == s[i]
  {
    if i == |s| - 1 {
    } else {
      FilterPosition(keep, s[..|s| - 1], i);
      assert s[..|s| - 1][..i] == s[..i];
    }
  }
}
