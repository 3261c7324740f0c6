/** Stable sorting by a "comes before" relation, as Python's `sorted` does with a key. */
module Ordering {

  /** What comparing keys guarantees of a relation. */
  ghost predicate StrictWeakOrder<T(!new)>(before: (T, T) -> bool) {
    && (forall a, b :: before(a, b) ==> !before(b, a))
    && (forall a, b, c :: before(a, c) ==> before(a, b) || before(b, c))
  }

  ghost predicate Sorted<T>(s: seq<T>, before: (T, T) -> bool) {
    forall i, j :: 0 <= i < j < |s| ==> !before(s[j], s[i])
  }

  /** No two different elements of `s` tie. */
  ghost predicate Separates<T>(s: seq<T>, before: (T, T) -> bool) {
    forall i, j :: 0 <= i < |s| && 0 <= j < |s| && s[i] != s[j] ==> before(s[i], s[j]) || before(s[j], s[i])
  }

  function Insert<T>(x: T, s: seq<T>, before: (T, T) -> bool): seq<T> {
    if s == [] || before(x, s[0]) then [x] + s else [s[0]] + Insert(x, s[1..], before)
  }

  function Sort<T>(s: seq<T>, before: (T, T) -> bool): seq<T> {
    if s == [] then [] else Insert(s[|s| - 1], Sort(s[..|s| - 1], before), before)
  }

  lemma {:induction false} InsertPermutes<T>(x: T, s: seq<T>, before: (T, T) -> bool)
    ensures multiset(Insert(x, s, before)) == multiset(s) + multiset{x}
  {
    if s == [] || before(x, s[0]) {
    } else {
      InsertPermutes(x, s[1..], before);
      assert s == [s[0]] + s[1..];
    }
  }

  lemma {:induction false} InsertSorts<T(!new)>(x: T, s: seq<T>, before: (T, T) -> bool)
    requires StrictWeakOrder(before) && Sorted(s, before)
    ensures Sorted(Insert(x, s, before), before)
  {
    if s == [] || before(x, s[0]) {
    } else {
      InsertSorts(x, s[1..], before);
      InsertPermutes(x, s[1..], before);
      var tail := Insert(x, s[1..], before);
      forall j | 0 <= j < |tail|
        ensures !before(tail[j], s[0])
      {
        assert tail[j] in multiset(tail);
        assert tail[j] == x || tail[j] in s[1..];
      }
    }
  }

  lemma {:induction false} SortPermutes<T>(s: seq<T>, before: (T, T) -> bool)
    ensures multiset(Sort(s, before)) == multiset(s)
    ensures |Sort(s, before)| == |s|
    ensures forall x :: x in Sort(s, before) <==> x in s
  {
    if s == [] {
    } else {
      var last := |s| - 1;
      SortPermutes(s[..last], before);
      InsertPermutes(s[last], Sort(s[..last], before), before);
      assert s == s[..last] + [s[last]];
    }
    assert |multiset(Sort(s, before))| == |multiset(s)|;
    forall x
      ensures x in Sort(s, before) <==> x in s
    {
      assert x in multiset(Sort(s, before)) <==> x in multiset(s);
    }
  }

  lemma {:induction false} SortSorts<T(!new)>(s: seq<T>, before: (T, T) -> bool)
    requires StrictWeakOrder(before)
    ensures Sorted(Sort(s, before), before)
  {
    if s == [] {
    } else {
      SortSorts(s[..|s| - 1], before);
      InsertSorts(s[|s| - 1], Sort(s[..|s| - 1], before), before);
    }
  }

  /** The head of a sorted list is least: nothing in the input comes before it. */
  lemma SortHead<T(!new)>(s: seq<T>, before: (T, T) -> bool)
    requires StrictWeakOrder(before) && s != []
    ensures |Sort(s, before)| == |s|
    ensures Sort(s, before)[0] in s
    ensures forall x :: x in s ==> !before(x, Sort(s, before)[0])
  {
    SortPermutes(s, before);
    SortSorts(s, before);
    var r := Sort(s, before);
    assert r[0] in r;
    forall x | x in s
      ensures !before(x, r[0])
    {
      assert x in r;
      var i :| 0 <= i < |r| && r[i] == x;
      assert i == 0 || !before(r[i], r[0]);
    }
  }

  lemma SortedHeadsAgree<T>(s: seq<T>, t: seq<T>, before: (T, T) -> bool)
    requires Sorted(s, before) && Sorted(t, before) && Separates(s, before)
    requires multiset(s) == multiset(t) && s != [] && t != []
    ensures s[0] == t[0]
  {
    assert s[0] in multiset(t) && t[0] in multiset(s);
    var i :| 0 <= i < |t| && t[i] == s[0];
    var j :| 0 <= j < |s| && s[j] == t[0];
    if i > 0 && j > 0 {
      assert !before(t[i], t[0]) && !before(s[j], s[0]);
    }
  }

  lemma TailSeparates<T>(s: seq<T>, before: (T, T) -> bool)
    requires Separates(s, before) && s != []
    ensures Separates(s[1..], before)
  {
    var tail := s[1..];
    forall i, j | 0 <= i < |tail| && 0 <= j < |tail| && tail[i] != tail[j]
      ensures before(tail[i], tail[j]) || before(tail[j], tail[i])
    {
      assert tail[i] == s[i + 1] && tail[j] == s[j + 1];
    }
  }

  lemma TailSorted<T>(s: seq<T>, before: (T, T) -> bool)
    requires Sorted(s, before) && s != []
    ensures Sorted(s[1..], before)
  {
  }

  lemma {:induction false} SortedPermutationsAgree<T>(s: seq<T>, t: seq<T>, before: (T, T) -> bool)
    requires Sorted(s, before) && Sorted(t, before) && Separates(s, before)
    requires multiset(s) == multiset(t)
    ensures s == t
  {
    assert |multiset(s)| == |s| && |multiset(t)| == |t|;
    if s != [] {
      SortedHeadsAgree(s, t, before);
      var s1, t1 := s[1..], t[1..];
      assert s == [s[0]] + s1 && t == [t[0]] + t1;
      assert multiset(s1) == multiset(s) - multiset{s[0]} && multiset(t1) == multiset(t) - multiset{t[0]};
      TailSeparates(s, before);
      TailSorted(s, before);
      TailSorted(t, before);
      hide *;
      SortedPermutationsAgree(s1, t1, before);
    }
  }

  /** Sorting does not depend on the order of its input when no two elements tie. */
  lemma SortIgnoresInputOrder<T(!new)>(s: seq<T>, t: seq<T>, before: (T, T) -> bool)
    requires StrictWeakOrder(before) && Separates(s, before)
    requires multiset(s) == multiset(t)
    ensures Sort(s, before) == Sort(t, before)
  {
    SortPermutes(s, before);
    SortPermutes(t, before);
    SortSorts(s, before);
    SortSorts(t, before);
    var r := Sort(s, before);
    forall i, j | 0 <= i < |r| && 0 <= j < |r| && r[i] != r[j]
      ensures before(r[i], r[j]) || before(r[j], r[i])
    {
      assert r[i] in r && r[j] in r;
      assert r[i] in s && r[j] in s;
      var k :| 0 <= k < |s| && s[k] == r[i];
      var l :| 0 <= l < |s| && s[l] == r[j];
    }
    SortedPermutationsAgree(r, Sort(t, before), before);
  }

  /** Order-preserving filter. */
  function Filter<T(!new)>(s: seq<T>, keep: T -> bool): (r: seq<T>)
    ensures forall x :: x in r <==> x in s && keep(x)
  {
    if s == [] then [] else
    var rest := Filter(s[..|s| - 1], keep);
    assert s == s[..|s| - 1] + [s[|s| - 1]];
    if keep(s[|s| - 1]) then rest + [s[|s| - 1]] else rest
  }

  lemma {:induction false} FilterPermutes<T(!new)>(s: seq<T>, t: seq<T>, keep: T -> bool)
    requires multiset(s) == multiset(t)
    ensures multiset(Filter(s, keep)) == multiset(Filter(t, keep))
  {
    forall x
      ensures multiset(Filter(s, keep))[x] == multiset(Filter(t, keep))[x]
    {
      FilterCount(s, keep, x);
      FilterCount(t, keep, x);
    }
  }

  lemma {:induction false} FilterCount<T(!new)>(s: seq<T>, keep: T -> bool, x: T)
    ensures multiset(Filter(s, keep))[x] == if keep(x) then multiset(s)[x] else 0
  {
    if s != [] {
      FilterCount(s[..|s| - 1], keep, x);
      assert s == s[..|s| - 1] + [s[|s| - 1]];
    }
  }

  lemma {:induction false} FilterAll<T(!new)>(s: seq<T>, keep: T -> bool)
    requires forall x :: x in s ==> keep(x)
    ensures Filter(s, keep) == s
  {
    if s != [] {
      FilterAll(s[..|s| - 1], keep);
      assert s == s[..|s| - 1] + [s[|s| - 1]];
    }
  }

  /** Filters that agree on the elements give the same list. */
  lemma {:induction false} FilterCongruence<T(!new)>(s: seq<T>, keep: T -> bool, other: T -> bool)
    requires forall x :: x in s ==> keep(x) == other(x)
    ensures Filter(s, keep) == Filter(s, other)
  {
    if s != [] {
      var front := s[..|s| - 1];
      assert forall x :: x in front ==> x in s;
      assert s[|s| - 1] in s;
      FilterCongruence(front, keep, other);
    }
  }

  lemma {:induction false} FilterTwice<T(!new)>(s: seq<T>, first: T -> bool, second: T -> bool, both: T -> bool)
    requires forall x :: x in s ==> both(x) == (first(x) && second(x))
    ensures Filter(Filter(s, first), second) == Filter(s, both)
  {
    if s != [] {
      var front, last := s[..|s| - 1], s[|s| - 1];
      assert forall x :: x in front ==> x in s;
      assert last in s;
      FilterTwice(front, first, second, both);
      var kept := Filter(front, first);
      if first(last) {
        assert (kept + [last])[..|kept|] == kept;
      }
    }
  }

  function Map<T, U>(s: seq<T>, f: T -> U): (r: seq<U>)
    ensures |r| == |s|
    ensures forall i :: 0 <= i < |s| ==> r[i] == f(s[i])
  {
    seq(|s|, i requires 0 <= i < |s| => f(s[i]))
  }

  /** Filtering images is filtering first and mapping after. */
  lemma {:induction false} FilterMap<T(!new), U(!new)>(s: seq<T>, f: T -> U, keep: U -> bool, keepSource: T -> bool)
    requires forall x :: x in s ==> keepSource(x) == keep(f(x))
    ensures Filter(Map(s, f), keep) == Map(Filter(s, keepSource), f)
  {
    if s != [] {
      var front, last := s[..|s| - 1], s[|s| - 1];
      assert forall x :: x in front ==> x in s;
      assert last in s;
      FilterMap(front, f, keep, keepSource);
      assert Map(s, f)[..|s| - 1] == Map(front, f);
      assert Map(s, f)[|s| - 1] == f(last);
    }
  }

  // ---- stability ----

  lemma {:induction false} FilterBoth<T(!new)>(a: seq<T>, b: seq<T>, keep: T -> bool)
    ensures Filter(a + b, keep) == Filter(a, keep) + Filter(b, keep)
  {
    if b == [] {
      assert a + b == a;
    } else {
      FilterBoth(a, b[..|b| - 1], keep);
      assert (a + b)[..|a + b| - 1] == a + b[..|b| - 1];
    }
  }

  lemma FilterNone<T(!new)>(s: seq<T>, keep: T -> bool)
    requires forall x :: x in s ==> !keep(x)
    ensures Filter(s, keep) == []
  {
    if Filter(s, keep) != [] {
      assert Filter(s, keep)[0] in Filter(s, keep);
    }
  }

  /** A new element goes behind all that tie with it. */
  lemma {:induction false} InsertGoesBehind<T(!new)>(x: T, s: seq<T>, before: (T, T) -> bool, tied: T -> bool)
    requires StrictWeakOrder(before) && Sorted(s, before)
    requires forall y, z :: tied(y) && tied(z) ==> !before(y, z)
    ensures Filter(Insert(x, s, before), tied) == Filter(s, tied) + if tied(x) then [x] else []
  {
    hide Filter;
    FilterOne(x, tied);
    if s == [] || before(x, s[0]) {
      FilterBoth([x], s, tied);
      if tied(x) {
        NothingTies(x, s, before, tied);
      }
    } else {
      var head, tail := [s[0]], s[1..];
      InsertGoesBehind(x, tail, before, tied);
      FilterBoth(head, Insert(x, tail, before), tied);
      FilterBoth(head, tail, tied);
      assert s == head + tail;
    }
  }

  lemma FilterOne<T(!new)>(x: T, keep: T -> bool)
    ensures Filter([x], keep) == if keep(x) then [x] else []
  {
    assert [x][..0] == [];
  }

  lemma NothingTies<T(!new)>(x: T, s: seq<T>, before: (T, T) -> bool, tied: T -> bool)
    requires StrictWeakOrder(before) && Sorted(s, before) && tied(x) && (s == [] || before(x, s[0]))
    requires forall y, z :: tied(y) && tied(z) ==> !before(y, z)
    ensures Filter(s, tied) == []
  {
    forall i | 0 <= i < |s|
      ensures !tied(s[i])
    {
      assert i == 0 || !before(s[i], s[0]);
      assert before(x, s[i]);
    }
    FilterNone(s, tied);
  }

  /** Elements that tie keep the order they came in. */
  lemma {:induction false} SortIsStable<T(!new)>(s: seq<T>, before: (T, T) -> bool, tied: T -> bool)
    requires StrictWeakOrder(before)
    requires forall y, z :: tied(y) && tied(z) ==> !before(y, z)
    ensures Filter(Sort(s, before), tied) == Filter(s, tied)
  {
    if s != [] {
      var front, last := s[..|s| - 1], s[|s| - 1];
      SortIsStable(front, before, tied);
      SortSorts(front, before);
      InsertGoesBehind(last, Sort(front, before), before, tied);
    }
  }
}
