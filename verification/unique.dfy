/**
 * `np.unique` on integer labels: the distinct values, in ascending order.
 * Both `groupby` (which sorts its groups) and the prediction index
 * reconstruction order instances this way.
 */
module Unique {

  predicate StrictlySorted(s: seq<int>) {
    forall i, j :: 0 <= i < j < |s| ==> s[i] < s[j]
  }

  /** Inserts `x` into a strictly sorted sequence, dropping it if already present. */
  function Insert(x: int, s: seq<int>): (r: seq<int>)
    requires StrictlySorted(s)
    ensures StrictlySorted(r)
    ensures forall y :: y in r <==> y == x || y in s
    decreases |s|
  {
    if s == [] then [x]
    else if x < s[0] then [x] + s
    else if x == s[0] then s
    else
      var t := Insert(x, s[1..]);
      forall i | 0 <= i < |t| ensures s[0] < t[i] {
        assert t[i] in t;
        if t[i] != x {
          var k :| 0 <= k < |s[1..]| && s[1..][k] == t[i];
          assert s[k + 1] == t[i];
        }
      }
      [s[0]] + t
  }

  /** `np.unique(s)` */
  function SortedUnique(s: seq<int>): (r: seq<int>)
    ensures StrictlySorted(r)
    ensures forall y :: y in r <==> y in s
    ensures |r| <= |s|
  {
    if s == [] then []
    else
      var n := |s| - 1;
      var r := Insert(s[n], SortedUnique(s[..n]));
      assert s == s[..n] + [s[n]];
      DistinctBound(r, s);
      r
  }

  /** The first element of a strictly sorted sequence is its least. */
  lemma FirstLeast(s: seq<int>, y: int)
    requires StrictlySorted(s) && y in s
    ensures s[0] <= y
  {
    var k :| 0 <= k < |s| && s[k] == y;
  }

  /** The tail of a strictly sorted sequence holds all its elements but the first. */
  lemma TailMembers(s: seq<int>, y: int)
    requires StrictlySorted(s) && s != []
    ensures y in s[1..] <==> y in s && y != s[0]
  {
    if y in s[1..] {
      var k :| 0 <= k < |s[1..]| && s[1..][k] == y;
      assert s[k + 1] == y;
    }
    if y in s && y != s[0] {
      var k :| 0 <= k < |s| && s[k] == y;
      assert s[1..][k - 1] == y;
    }
  }

  /** A strictly sorted sequence is fixed by its elements. */
  lemma {:induction false} SortedDetermined(a: seq<int>, b: seq<int>)
    requires StrictlySorted(a) && StrictlySorted(b)
    requires forall y :: y in a <==> y in b
    ensures a == b
    decreases |a|
  {
    SameEmptiness(a, b);
    if a != [] {
      assert a[0] in a;
      assert b[0] in b;
      FirstLeast(a, b[0]);
      FirstLeast(b, a[0]);
      forall y ensures y in a[1..] <==> y in b[1..] {
        TailMembers(a, y);
        TailMembers(b, y);
      }
      SortedDetermined(a[1..], b[1..]);
      assert a == [a[0]] + a[1..] && b == [b[0]] + b[1..];
    }
  }

  /** Two sequences with the same elements are empty together. */
  lemma SameEmptiness(a: seq<int>, b: seq<int>)
    requires forall y :: y in a <==> y in b
    ensures a == [] <==> b == []
  {
    if a != [] {
      MemberNonEmpty(a, b, a[0]);
    }
    if b != [] {
      MemberNonEmpty(b, a, b[0]);
    }
  }

  /** A value of `a` is in `b` too when both have the same elements, so `b` is not empty. */
  lemma MemberNonEmpty(a: seq<int>, b: seq<int>, x: int)
    requires forall y :: y in a <==> y in b
    requires x in a
    ensures b != []
  {
    assert x in b;
  }

  /** `np.unique` of already sorted distinct labels returns them unchanged. */
  lemma SortedUniqueOfSorted(s: seq<int>)
    requires StrictlySorted(s)
    ensures SortedUnique(s) == s
  {
    SortedDetermined(SortedUnique(s), s);
  }

  /** A sequence of distinct values drawn from `s` is no longer than `s`. */
  lemma {:induction false} DistinctBound(r: seq<int>, s: seq<int>)
    requires StrictlySorted(r)
    requires forall y :: y in r ==> y in s
    ensures |r| <= |s|
  {
    var rs := set y | y in r;
    var ss := set y | y in s;
    forall y | y in rs ensures y in ss {
      assert y in r;
    }
    DistinctCard(r);
    CardBound(s);
    SubsetCard(rs, ss);
  }

  lemma {:induction false} DistinctCard(r: seq<int>)
    requires StrictlySorted(r)
    ensures |set y | y in r| == |r|
  {
    if r != [] {
      DistinctCard(r[1..]);
      assert (set y | y in r) == {r[0]} + (set y | y in r[1..]);
      assert r[0] !in (set y | y in r[1..]);
    }
  }

  lemma {:induction false} CardBound(s: seq<int>)
    ensures |set y | y in s| <= |s|
  {
    if s != [] {
      CardBound(s[1..]);
      assert (set y | y in s) == {s[0]} + (set y | y in s[1..]);
    }
  }

  lemma SubsetCard(a: set<int>, b: set<int>)
    requires a <= b
    ensures |a| <= |b|
  {
    assert b == a + (b - a);
  }
}
