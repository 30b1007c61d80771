/**
 * Python's slice `s[start:stop]` on a sequence (lists, NumPy axes and tensor
 * axes all slice alike): a negative bound counts from the end, every bound is
 * clamped into `0..len(s)`, and a slice whose start passes its stop is empty.
 * Nothing is raised for bounds out of range.
 */
module PySlice {

  /** Where a slice bound `i` lands in a sequence of length `n`. */
  function Bound(i: int, n: nat): (b: nat)
    ensures b <= n
  {
    if i < 0 then (if i + n < 0 then 0 else i + n)
    else if i > n then n
    else i
  }

  /** `s[start:stop]` */
  function Slice<T>(s: seq<T>, start: int, stop: int): (r: seq<T>)
    ensures |r| <= |s|
    ensures 0 <= start <= stop <= |s| ==> r == s[start..stop]
    ensures start == stop ==> r == []
  {
    var a := Bound(start, |s|);
    var b := Bound(stop, |s|);
    if a <= b then s[a..b] else []
  }

  /** Entry `k` of a slice is the entry of `s` that many places after where the start lands. */
  lemma SliceAt<T>(s: seq<T>, start: int, stop: int, k: int)
    requires 0 <= k < |Slice(s, start, stop)|
    ensures Bound(start, |s|) + k < |s| && Slice(s, start, stop)[k] == s[Bound(start, |s|) + k]
  {
  }

  /** Entries `i` to `j` of `s[start..stop]` are entries `start + i` to `start + j` of `s`. */
  lemma SliceOfSlice<T>(s: seq<T>, start: nat, stop: nat, i: nat, j: nat)
    requires start <= stop <= |s| && i <= j <= stop - start
    ensures s[start..stop][i..j] == s[start + i..start + j]
  {
    var a, b := s[start..stop][i..j], s[start + i..start + j];
    assert |a| == |b|;
    forall k | 0 <= k < |a| ensures a[k] == b[k] {
      assert a[k] == s[start..stop][i + k] == s[start + i + k];
    }
  }

  /** Entries `i` to `j` of the tail of `s` are entries `i + 1` to `j + 1` of `s`. */
  lemma TailSlice<T>(s: seq<T>, i: nat, j: nat)
    requires 0 < |s| && i <= j <= |s| - 1
    ensures s[1..][i..j] == s[i + 1..j + 1]
  {
    var a, b := s[1..][i..j], s[i + 1..j + 1];
    assert |a| == |b|;
    forall k | 0 <= k < |a| ensures a[k] == b[k] {
      assert a[k] == s[1..][i + k] == s[i + 1 + k];
    }
  }

  /** `s[-k:]`: note that `s[-0:]` is `s[0:]`, the whole sequence. */
  function Last<T>(s: seq<T>, k: nat): (r: seq<T>)
    ensures 0 < k <= |s| ==> r == s[|s| - k..]
    ensures k == 0 || k >= |s| ==> r == s
    ensures |r| == if k == 0 || k >= |s| then |s| else k
  {
    Slice(s, -(k as int), |s|)
  }

  /** `s[:k]` */
  function First<T>(s: seq<T>, k: nat): (r: seq<T>)
    ensures k <= |s| ==> r == s[..k]
    ensures k >= |s| ==> r == s
  {
    Slice(s, 0, k)
  }
}
