/**
 Functions on sequences that serve as logs. They recurse on the last element, because a log
 grows at its end.
 */
module Sequences {

  function Flatten<T>(ss: seq<seq<T>>): seq<T> {
    if ss == [] then [] else Flatten(ss[..|ss| - 1]) + ss[|ss| - 1]
  }

  function Filter<T>(s: seq<T>, keep: T -> bool): seq<T> {
    if s == [] then []
    else Filter(s[..|s| - 1], keep) + (if keep(s[|s| - 1]) then [s[|s| - 1]] else [])
  }

  function Map<T, U>(s: seq<T>, f: T -> U): (r: seq<U>)
    ensures |r| == |s|
    ensures forall i {:trigger r[i]} :: 0 <= i < |s| ==> r[i] == f(s[i])
  {
    seq(|s|, i requires 0 <= i < |s| => f(s[i]))
  }

  function Reversed<T>(s: seq<T>): (r: seq<T>)
    ensures |r| == |s| && forall i :: 0 <= i < |r| ==> r[i] == s[|s| - 1 - i]
  {
    seq(|s|, i requires 0 <= i < |s| => s[|s| - 1 - i])
  }

  function Occurrences<T(==)>(s: seq<T>, x: T): nat {
    if s == [] then 0
    else Occurrences(s[..|s| - 1], x) + (if s[|s| - 1] == x then 1 else 0)
  }

  predicate NoDuplicates<T(==)>(s: seq<T>) {
    forall i, j :: 0 <= i < j < |s| ==> s[i] != s[j]
  }

  lemma ConcatAssociative<T>(a: seq<T>, b: seq<T>, c: seq<T>)
    ensures (a + b) + c == a + (b + c)
  {
  }

  lemma FlattenAppend<T>(ss: seq<seq<T>>, s: seq<T>)
    ensures Flatten(ss + [s]) == Flatten(ss) + s
  {
    assert (ss + [s])[..|ss|] == ss;
  }

  lemma FilterAppend<T>(s: seq<T>, x: T, keep: T -> bool)
    ensures Filter(s + [x], keep) == Filter(s, keep) + (if keep(x) then [x] else [])
  {
    assert (s + [x])[..|s|] == s;
  }

  lemma {:induction false} FilterConcat<T>(a: seq<T>, b: seq<T>, keep: T -> bool)
    ensures Filter(a + b, keep) == Filter(a, keep) + Filter(b, keep)
  {
    if b == [] {
      assert a + b == a;
    } else {
      var init, last := b[..|b| - 1], b[|b| - 1];
      FilterConcat(a, init, keep);
      assert a + b == (a + init) + [last];
      FilterAppend(a + init, last, keep);
    }
  }

  /** A sequence without duplicates that draws its elements from a finite set is no longer than it. */
  lemma {:induction false} NoDuplicatesBound<T>(s: seq<T>, universe: set<T>)
    requires NoDuplicates(s)
    requires forall x :: x in s ==> x in universe
    ensures |s| <= |universe|
  {
    if s != [] {
      var last := s[|s| - 1];
      NoDuplicatesBound(s[..|s| - 1], universe - {last});
    }
  }

  lemma MultisetInserted<T>(p: seq<T>, x: T, q: seq<T>)
    ensures multiset(p + [x] + q) == multiset(p + q) + multiset{x}
  {
  }

  lemma MultisetCancels<T>(a: multiset<T>, b: multiset<T>, x: T)
    requires a + multiset{x} == b + multiset{x}
    ensures a == b
  {
    assert a == (a + multiset{x}) - multiset{x};
    assert b == (b + multiset{x}) - multiset{x};
  }

  /** The last element of one arrangement occurs in any other, and what is left arranges the same elements. */
  lemma TakeOut<T>(a: seq<T>, b: seq<T>) returns (p: seq<T>, q: seq<T>)
    requires a != [] && multiset(a) == multiset(b)
    ensures b == p + [a[|a| - 1]] + q
    ensures multiset(a[..|a| - 1]) == multiset(p + q)
  {
    var init, x := a[..|a| - 1], a[|a| - 1];
    assert x in multiset(b) by { assert x in a; }
    var i :| 0 <= i < |b| && b[i] == x;
    p, q := b[..i], b[i + 1..];
    assert b == p + [x] + q;
    assert a == init + [x] + [] && init == init + [];
    MultisetInserted(p, x, q);
    MultisetInserted(init, x, []);
    MultisetCancels(multiset(init), multiset(p + q), x);
  }

  lemma {:induction false} FilterMembers<T>(s: seq<T>, keep: T -> bool)
    ensures forall x :: x in Filter(s, keep) <==> x in s && keep(x)
    ensures NoDuplicates(s) ==> NoDuplicates(Filter(s, keep))
  {
    if s != [] {
      var init, last := s[..|s| - 1], s[|s| - 1];
      assert s == init + [last];
      FilterMembers(init, keep);
      if NoDuplicates(s) {
        assert last !in init;
        var kept := Filter(init, keep);
        assert forall i :: 0 <= i < |kept| ==> kept[i] in kept;
      }
    }
  }

  /** Filtering keeps the order. */
  lemma {:induction false} FilterPlaces<T>(s: seq<T>, keep: T -> bool, i: nat, j: nat) returns (p: nat, q: nat)
    requires i <= j < |Filter(s, keep)|
    ensures p <= q < |s| && s[p] == Filter(s, keep)[i] && s[q] == Filter(s, keep)[j] && (i < j ==> p < q)
  {
    var init := s[..|s| - 1];
    if j < |Filter(init, keep)| {
      p, q := FilterPlaces(init, keep, i, j);
    } else {
      q := |s| - 1;
      if i < j {
        var p', q' := FilterPlaces(init, keep, i, i);
        p := p';
      } else {
        p := q;
      }
    }
  }

  lemma SplitDistinct<T>(s: seq<T>, k: nat)
    requires NoDuplicates(s) && k <= |s|
    ensures NoDuplicates(s[..k]) && NoDuplicates(s[k..])
    ensures forall x :: x in s <==> x in s[..k] || x in s[k..]
    ensures forall x :: x in s[..k] ==> x !in s[k..]
  {
    assert s == s[..k] + s[k..];
  }

  lemma AppendDistinct<T>(a: seq<T>, b: seq<T>)
    requires NoDuplicates(a) && NoDuplicates(b) && forall x :: x in a ==> x !in b
    ensures NoDuplicates(a + b)
  {
    forall i, j | 0 <= i < j < |a + b| ensures (a + b)[i] != (a + b)[j] {
      if i < |a| <= j {
        assert a[i] in a && b[j - |a|] in b;
      }
    }
  }
}
