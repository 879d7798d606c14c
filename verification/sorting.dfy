/**
 PHP's `sort()` on a list of plugin file names, as an insertion sort, and the
 fact the change detector depends on: the sorted list depends only on the
 multiset of names, so any ordering of the same active set sorts alike.
 */
module Sorting {
  import opened Strings

  predicate Sorted(s: seq<string>) {
    forall i, j :: 0 <= i < j < |s| ==> Le(s[i], s[j])
  }

  /** Places `x` before the first element it does not exceed. */
  function Insert(x: string, s: seq<string>): (r: seq<string>)
    requires Sorted(s)
    ensures multiset(r) == multiset(s) + multiset{x}
    ensures Sorted(r)
    decreases |s|
  {
    if s == [] then [x]
    else if Le(x, s[0]) then
      LeAfterHead(x, s);
      [x] + s
    else
      LeTotal(x, s[0]);
      var rest := Insert(x, s[1..]);
      assert s == [s[0]] + s[1..];
      HeadBoundsTail(s);
      BoundPassesToPermutation(s[0], rest, s[1..], x);
      ConsSorted(s[0], rest);
      [s[0]] + rest
  }

  /** The head of a sorted list is no larger than any element of its tail. */
  lemma HeadBoundsTail(s: seq<string>)
    requires Sorted(s) && |s| > 0
    ensures forall k :: 0 <= k < |s[1..]| ==> Le(s[0], s[1..][k])
  {
  }

  /** A lower bound of `s` and `x` bounds every rearrangement of them. */
  lemma BoundPassesToPermutation(y: string, r: seq<string>, s: seq<string>, x: string)
    requires multiset(r) == multiset(s) + multiset{x}
    requires Le(y, x) && forall k :: 0 <= k < |s| ==> Le(y, s[k])
    ensures forall k :: 0 <= k < |r| ==> Le(y, r[k])
  {
    forall k | 0 <= k < |r|
      ensures Le(y, r[k])
    {
      assert r[k] in multiset(r);
      if r[k] != x {
        assert r[k] in multiset(s);
        var j :| 0 <= j < |s| && s[j] == r[k];
      }
    }
  }

  /** Prefixing a sorted list with a lower bound keeps it sorted. */
  lemma ConsSorted(y: string, r: seq<string>)
    requires Sorted(r) && forall k :: 0 <= k < |r| ==> Le(y, r[k])
    ensures Sorted([y] + r)
  {
  }

  /** A value no larger than the head of a sorted list is no larger than any of it. */
  lemma LeAfterHead(x: string, s: seq<string>)
    requires Sorted(s) && |s| > 0 && Le(x, s[0])
    ensures Sorted([x] + s)
  {
    forall k | 0 < k < |s|
      ensures Le(x, s[k])
    {
      LeTransitive(x, s[0], s[k]);
    }
  }

  /** `sort( $data )`: a sorted permutation of the input. */
  function Sort(s: seq<string>): (r: seq<string>)
    ensures Sorted(r)
    ensures multiset(r) == multiset(s)
    ensures |r| == |s|
    decreases |s|
  {
    if s == [] then []
    else
      assert s == [s[0]] + s[1..];
      Insert(s[0], Sort(s[1..]))
  }

  /** Two sorted lists holding the same names are the same list. */
  lemma {:induction false} SortedUnique(a: seq<string>, b: seq<string>)
    requires Sorted(a) && Sorted(b)
    requires multiset(a) == multiset(b)
    ensures a == b
    decreases |a|
  {
    if a == [] {
      assert |multiset(b)| == 0;
    } else {
      assert |b| > 0 by {
        assert a[0] in multiset(b);
      }
      assert Le(b[0], a[0]) by {
        assert a[0] in multiset(b);
        var j :| 0 <= j < |b| && b[j] == a[0];
        if j == 0 { LeReflexive(b[0]); }
      }
      assert Le(a[0], b[0]) by {
        assert b[0] in multiset(a);
        var j :| 0 <= j < |a| && a[j] == b[0];
        if j == 0 { LeReflexive(a[0]); }
      }
      LeAntisymmetric(a[0], b[0]);
      assert a == [a[0]] + a[1..];
      assert b == [b[0]] + b[1..];
      assert multiset(a) == multiset{a[0]} + multiset(a[1..]);
      assert multiset(b) == multiset{b[0]} + multiset(b[1..]);
      assert multiset(a[1..]) == multiset(a) - multiset{a[0]};
      assert multiset(b[1..]) == multiset(b) - multiset{b[0]};
      SortedUnique(a[1..], b[1..]);
    }
  }

  /** Sorting forgets the order it was given: permutations sort to the same list. */
  lemma SortIgnoresOrder(a: seq<string>, b: seq<string>)
    requires multiset(a) == multiset(b)
    ensures Sort(a) == Sort(b)
  {
    SortedUnique(Sort(a), Sort(b));
  }
}
