/**
 * Sequence helpers for the array operations the adapters rely on:
 * concatenation of a list of arrays (`torch.cat`, `np.concatenate`),
 * splitting into consecutive pieces (`reshape`, data-loader batches), and
 * boolean-mask selection (`frame.loc[mask]`).
 */
module Seqs {
  import opened Arith

  /** Concatenation of a list of sequences, in list order. */
  function Flatten<T>(ss: seq<seq<T>>): (r: seq<T>)
  {
    if ss == [] then [] else ss[0] + Flatten(ss[1..])
  }

  lemma {:induction false} FlattenAppend<T>(a: seq<seq<T>>, b: seq<seq<T>>)
    ensures Flatten(a + b) == Flatten(a) + Flatten(b)
  {
    if a == [] {
      assert a + b == b;
    } else {
      assert (a + b)[1..] == a[1..] + b;
      FlattenAppend(a[1..], b);
    }
  }

  /** Appending one more piece appends its elements. */
  lemma FlattenSnoc<T>(ss: seq<seq<T>>, x: seq<T>)
    ensures Flatten(ss + [x]) == Flatten(ss) + x
  {
    FlattenAppend(ss, [x]);
    assert Flatten([x]) == x + Flatten([x][1..]);
  }

  /** Flattening pieces that all have `size` elements puts piece `i` at `i * size`. */
  lemma {:induction false} FlattenUniform<T>(ss: seq<seq<T>>, size: nat, i: nat, k: nat)
    requires forall j :: 0 <= j < |ss| ==> |ss[j]| == size
    requires i < |ss| && k < size
    ensures |Flatten(ss)| == |ss| * size
    ensures i * size + k < |Flatten(ss)| && Flatten(ss)[i * size + k] == ss[i][k]
  {
    FlattenLength(ss, size);
    if i > 0 {
      FlattenUniform(ss[1..], size, i - 1, k);
      assert i * size + k == size + ((i - 1) * size + k);
    }
  }

  lemma {:induction false} FlattenLength<T>(ss: seq<seq<T>>, size: nat)
    requires forall j :: 0 <= j < |ss| ==> |ss[j]| == size
    ensures |Flatten(ss)| == |ss| * size
  {
    if ss != [] {
      FlattenLength(ss[1..], size);
    }
  }

  /**
   * Consecutive pieces of `size` elements, the last one possibly shorter:
   * the batches of a data loader that neither shuffles nor drops the last batch,
   * and `reshape(-1, size, ...)` when `size` divides `|s|`.
   */
  function Chunks<T>(s: seq<T>, size: nat): (r: seq<seq<T>>)
    requires size > 0
    ensures forall i :: 0 <= i < |r| ==> 0 < |r[i]| <= size
    ensures forall i, x :: 0 <= i < |r| && x in r[i] ==> x in s
    decreases |s|
  {
    if |s| == 0 then []
    else if |s| <= size then [s]
    else
      assert forall x :: x in s[size..] ==> x in s;
      [s[..size]] + Chunks(s[size..], size)
  }

  /** Batching loses and reorders nothing. */
  lemma {:induction false} FlattenChunks<T>(s: seq<T>, size: nat)
    requires size > 0
    ensures Flatten(Chunks(s, size)) == s
    decreases |s|
  {
    if |s| == 0 {
    } else if |s| <= size {
      assert Flatten([s]) == s + Flatten([s][1..]);
    } else {
      var rest := Chunks(s[size..], size);
      FlattenChunks(s[size..], size);
      assert ([s[..size]] + rest)[1..] == rest;
      assert s[..size] + s[size..] == s;
    }
  }

  /** The number of pieces is the length divided by `size`, rounded up. */
  lemma {:induction false} ChunksCount<T>(s: seq<T>, size: nat)
    requires size > 0
    ensures |Chunks(s, size)| == (|s| + size - 1) / size
    decreases |s|
  {
    if |s| == 0 {
    } else if |s| <= size {
      assert (|s| + size - 1) / size == 1;
    } else {
      ChunksCount(s[size..], size);
      assert |s| + size - 1 == (|s[size..]| + size - 1) + size;
      DivStep(|s[size..]| + size - 1, size);
    }
  }

  /** A sequence of at least `size` elements splits into its first piece and the pieces of the rest. */
  lemma ChunksCons<T>(s: seq<T>, size: nat)
    requires 0 < size <= |s|
    ensures Chunks(s, size) == [s[..size]] + Chunks(s[size..], size)
  {
    if |s| == size {
      assert s[..size] == s && s[size..] == [];
    }
  }

  /** Where piece `b` of `n` elements cut into pieces of `size` ends: the next multiple of `size`, or `n`. */
  function ChunkEnd(n: nat, size: nat, b: nat): nat {
    if (b + 1) * size <= n then (b + 1) * size else n
  }

  /** Piece `b` holds the elements from `b * size` up to the next multiple of `size`, or to the end. */
  lemma {:induction false} ChunkAt<T>(s: seq<T>, size: nat, b: nat)
    requires size > 0 && b < |Chunks(s, size)|
    ensures b * size < |s| && b * size <= ChunkEnd(|s|, size, b)
    ensures Chunks(s, size)[b] == s[b * size..ChunkEnd(|s|, size, b)]
    decreases b
  {
    if |s| <= size {
      assert b == 0;
    } else {
      ChunksCons(s, size);
      if b > 0 {
        var t := s[size..];
        assert Chunks(s, size)[b] == Chunks(t, size)[b - 1];
        ChunkAt(t, size, b - 1);
        ChunkEndShift(|s|, size, b);
        DropSlice(s, size, (b - 1) * size, ChunkEnd(|t|, size, b - 1));
      }
    }
  }

  /** Dropping `size` elements shifts every piece boundary after the first back by `size`. */
  lemma ChunkEndShift(n: nat, size: nat, b: nat)
    requires size > 0 && b > 0 && size <= n
    ensures (b - 1) * size + size == b * size
    ensures ChunkEnd(n - size, size, b - 1) + size == ChunkEnd(n, size, b)
  {
    assert (b - 1) * size + size == b * size;
    assert b * size + size == (b + 1) * size;
  }

  /** A slice of the sequence without its first `k` elements is a slice of the sequence. */
  lemma DropSlice<T>(s: seq<T>, k: nat, i: nat, j: nat)
    requires k <= |s| && i <= j <= |s| - k
    ensures s[k..][i..j] == s[k + i..k + j]
  {
  }

  /** When `size` divides `|s|`, every piece is full and there are `|s| / size` of them. */
  lemma {:induction false} ChunksFull<T>(s: seq<T>, size: nat)
    requires size > 0 && |s| % size == 0
    ensures |Chunks(s, size)| * size == |s|
    ensures forall i :: 0 <= i < |Chunks(s, size)| ==> |Chunks(s, size)[i]| == size
    decreases |s|
  {
    if |s| > size {
      DivMod(|s| - size, size, |s| / size - 1, 0);
      ChunksFull(s[size..], size);
      ChunksCons(s, size);
    } else if |s| > 0 {
      if |s| < size {
        DivMod(|s|, size, 0, |s|);
      }
    }
  }

  /** Cutting a concatenation of full pieces back into pieces gives the pieces. */
  lemma {:induction false} ChunksFlatten<T>(ss: seq<seq<T>>, size: nat)
    requires size > 0 && forall i :: 0 <= i < |ss| ==> |ss[i]| == size
    ensures Chunks(Flatten(ss), size) == ss
  {
    if ss != [] {
      FlattenLength(ss, size);
      var all := Flatten(ss);
      ChunksCons(all, size);
      assert all[..size] == ss[0] && all[size..] == Flatten(ss[1..]);
      ChunksFlatten(ss[1..], size);
    }
  }

  /** Number of `true` entries in a mask. */
  function Count(keep: seq<bool>): (n: nat)
    ensures n <= |keep|
  {
    if keep == [] then 0 else Count(keep[..|keep| - 1]) + (if keep[|keep| - 1] then 1 else 0)
  }

  /** Positions of the `true` entries of a mask, in increasing order. */
  function Kept(keep: seq<bool>): (r: seq<nat>)
    ensures |r| == Count(keep)
    ensures forall i :: 0 <= i < |r| ==> r[i] < |keep| && keep[r[i]]
    ensures forall i, j :: 0 <= i < j < |r| ==> r[i] < r[j]
    ensures forall p :: 0 <= p < |keep| && keep[p] ==> p in r
  {
    if keep == [] then []
    else
      var n := |keep| - 1;
      Kept(keep[..n]) + (if keep[n] then [n] else [])
  }

  /** `s.loc[keep]`: the elements whose mask entry is true. */
  function Select<T>(s: seq<T>, keep: seq<bool>): (r: seq<T>)
    requires |s| == |keep|
    ensures |r| == Count(keep)
  {
    if s == [] then []
    else
      var n := |s| - 1;
      Select(s[..n], keep[..n]) + (if keep[n] then [s[n]] else [])
  }

  /** A mask that keeps everything selects the whole sequence. */
  lemma {:induction false} SelectAll<T>(s: seq<T>, keep: seq<bool>)
    requires |s| == |keep| && forall p :: 0 <= p < |keep| ==> keep[p]
    ensures Select(s, keep) == s
  {
    if s != [] {
      var n := |s| - 1;
      SelectAll(s[..n], keep[..n]);
      assert s[..n] + [s[n]] == s;
    }
  }

  /** A mask that keeps nothing selects nothing. */
  lemma {:induction false} SelectNone<T>(s: seq<T>, keep: seq<bool>)
    requires |s| == |keep| && forall p :: 0 <= p < |keep| ==> !keep[p]
    ensures Select(s, keep) == []
  {
    if s != [] {
      var n := |s| - 1;
      SelectNone(s[..n], keep[..n]);
    }
  }

  /** The `j`-th selected element is the element at the `j`-th kept position. */
  lemma {:induction false} SelectAt<T>(s: seq<T>, keep: seq<bool>, j: nat)
    requires |s| == |keep| && j < Count(keep)
    ensures Kept(keep)[j] < |s| && Select(s, keep)[j] == s[Kept(keep)[j]]
  {
    var n := |s| - 1;
    var pre, kp := Select(s[..n], keep[..n]), Kept(keep[..n]);
    assert Select(s, keep) == pre + (if keep[n] then [s[n]] else []);
    assert Kept(keep) == kp + (if keep[n] then [n] else []);
    if j < |pre| {
      SelectAt(s[..n], keep[..n], j);
      assert Select(s, keep)[j] == pre[j] && Kept(keep)[j] == kp[j];
      assert s[..n][kp[j]] == s[kp[j]];
    } else {
      assert keep[n] && Select(s, keep)[j] == s[n] && Kept(keep)[j] == n;
    }
  }

  /** An element is selected exactly when some kept position holds it. */
  lemma SelectMember<T>(s: seq<T>, keep: seq<bool>, x: T)
    requires |s| == |keep|
    ensures x in Select(s, keep) <==> exists p :: 0 <= p < |s| && keep[p] && s[p] == x
  {
    var r := Select(s, keep);
    if x in r {
      var j :| 0 <= j < |r| && r[j] == x;
      SelectAt(s, keep, j);
    }
    if p :| 0 <= p < |s| && keep[p] && s[p] == x {
      var ks := Kept(keep);
      var j :| 0 <= j < |ks| && ks[j] == p;
      SelectAt(s, keep, j);
    }
  }

  /** Selecting from two aligned sequences with one mask keeps them aligned. */
  lemma SelectPaired<A, B>(a: seq<A>, b: seq<B>, keep: seq<bool>)
    requires |a| == |keep| && |b| == |keep|
    ensures |Select(a, keep)| == |Select(b, keep)|
    ensures forall q :: 0 <= q < |Select(a, keep)| ==>
      exists p :: (0 <= p < |keep| && keep[p] && Select(a, keep)[q] == a[p] && Select(b, keep)[q] == b[p])
  {
    forall q | 0 <= q < |Select(a, keep)|
      ensures exists p :: (0 <= p < |keep| && keep[p] && Select(a, keep)[q] == a[p] && Select(b, keep)[q] == b[p])
    {
      SelectAt(a, keep, q);
      SelectAt(b, keep, q);
      var p := Kept(keep)[q];
      assert 0 <= p < |keep| && keep[p] && Select(a, keep)[q] == a[p] && Select(b, keep)[q] == b[p];
    }
  }

  lemma {:induction false} CountAppend(a: seq<bool>, b: seq<bool>)
    ensures Count(a + b) == Count(a) + Count(b)
    decreases |b|
  {
    if b == [] {
      assert a + b == a;
    } else {
      var n := |b| - 1;
      assert (a + b)[..|a + b| - 1] == a + b[..n];
      CountAppend(a, b[..n]);
    }
  }

  /** Selecting from a concatenation selects from each part: order is preserved. */
  lemma {:induction false} SelectAppend<T>(a: seq<T>, b: seq<T>, ka: seq<bool>, kb: seq<bool>)
    requires |a| == |ka| && |b| == |kb|
    ensures Select(a + b, ka + kb) == Select(a, ka) + Select(b, kb)
    decreases |b|
  {
    if b == [] {
      assert a + b == a && ka + kb == ka;
    } else {
      var n := |b| - 1;
      var ab, kab := a + b, ka + kb;
      assert ab[..|ab| - 1] == a + b[..n] && ab[|ab| - 1] == b[n];
      assert kab[..|kab| - 1] == ka + kb[..n] && kab[|kab| - 1] == kb[n];
      var tail := if kb[n] then [b[n]] else [];
      assert Select(ab, kab) == Select(ab[..|ab| - 1], kab[..|kab| - 1]) + tail;
      SelectAppend(a, b[..n], ka, kb[..n]);
      assert Select(b, kb) == Select(b[..n], kb[..n]) + tail;
      calc {
        Select(ab, kab);
        Select(a + b[..n], ka + kb[..n]) + tail;
        Select(a, ka) + Select(b[..n], kb[..n]) + tail;
        Select(a, ka) + Select(b, kb);
      }
    }
  }
}
