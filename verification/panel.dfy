/**
 * Panel data as the forecasting adapters receive it: a pandas DataFrame with
 * either a flat time index (one series) or a two-level (instance, time)
 * MultiIndex, and its dense (instance, time, column) array form.
 *
 * Models `_same_index`, `_frame2numpy` and `_to_multiindex` (identical copies
 * live in sktime/forecasting/base/adapters/_pytorch.py and
 * sktime/forecasting/timesfm_forecaster.py) and `_prepare_data`.
 */
module Panel {
  import opened Common
  import opened Seqs
  import opened Unique
  import opened Arith

  type Row = seq<real>

  /** A row label: a time stamp alone, or an (instance, time) pair. */
  datatype Key = Flat(time: int) | Pair(instance: int, time: int)

  /**
   * A DataFrame: the names of the index levels, the column names, whether the
   * index is a MultiIndex, one label per row and one value row per label.
   */
  datatype Frame = Frame(names: seq<string>, columns: seq<string>, multi: bool, index: seq<Key>, values: seq<Row>)
  {
    predicate Valid() {
      && |index| == |values|
      && (forall p :: 0 <= p < |index| ==> index[p].Pair? == multi)
      && (forall p :: 0 <= p < |values| ==> |values[p]| == |columns|)
    }
  }

  /** A dense array of shape (num, len, width). */
  datatype Cube = Cube(num: nat, len: nat, width: nat, data: seq<seq<Row>>)
  {
    predicate Valid() {
      && |data| == num
      && (forall i :: 0 <= i < |data| ==> |data[i]| == len)
      && (forall i, row :: 0 <= i < |data| && row in data[i] ==> |row| == width)
    }
  }

  /** The last index level: `index.get_level_values(-1)`. */
  function Times(index: seq<Key>): (r: seq<int>)
    ensures |r| == |index|
    ensures forall p :: 0 <= p < |r| ==> r[p] == index[p].time
  {
    seq(|index|, p requires 0 <= p < |index| => index[p].time)
  }

  /** The instance level: `index.droplevel(-1)`. */
  function Instances(index: seq<Key>): (r: seq<int>)
    ensures |r| == |index|
    ensures forall p :: 0 <= p < |r| && index[p].Pair? ==> r[p] == index[p].instance
  {
    seq(|index|, p requires 0 <= p < |index| => if index[p].Pair? then index[p].instance else 0)
  }

  /** Row mask of one instance. */
  function InstanceMask(index: seq<Key>, key: int): (m: seq<bool>)
    ensures |m| == |index|
    ensures forall p :: 0 <= p < |m| ==> (m[p] <==> index[p].Pair? && index[p].instance == key)
  {
    seq(|index|, p requires 0 <= p < |index| => index[p].Pair? && index[p].instance == key)
  }

  /** The index levels of a concatenation are the concatenated levels. */
  lemma IndexAppend(a: seq<Key>, b: seq<Key>, key: int)
    ensures Times(a + b) == Times(a) + Times(b)
    ensures Instances(a + b) == Instances(a) + Instances(b)
    ensures InstanceMask(a + b, key) == InstanceMask(a, key) + InstanceMask(b, key)
  {
  }

  /** The time index of one instance, in row order (one `groupby` group). */
  function Group(f: Frame, key: int): seq<int>
  {
    Select(Times(f.index), InstanceMask(f.index, key))
  }

  /**
   * `_same_index`: all instances must carry the same time index; the common
   * index is returned. `groupby` visits the instances in sorted order and the
   * first group is read with `iloc[0]`, which fails on an empty frame.
   */
  function SameIndex(f: Frame): (r: Result<seq<int>>)
    requires f.Valid() && f.multi
    ensures r.Ok? ==> |r.value| > 0 && forall key :: key in Instances(f.index) ==> Group(f, key) == r.value
    ensures r.Err? ==> (|f.index| == 0 ||
      exists k1, k2 :: k1 in Instances(f.index) && k2 in Instances(f.index) && Group(f, k1) != Group(f, k2))
    ensures r.Err? ==> r.error == (if |f.index| == 0 then EmptySequence else IndexMismatch)
  {
    var keys := SortedUnique(Instances(f.index));
    if keys == [] then Err(EmptySequence)
    else
      assert keys[0] in Instances(f.index);
      GroupNonEmpty(f, keys[0]);
      var first := Group(f, keys[0]);
      if forall key :: key in keys ==> Group(f, key) == first then Ok(first)
      else Err(IndexMismatch)
  }

  /** A group that exists is never empty: its instance labels at least one row. */
  lemma GroupNonEmpty(f: Frame, key: int)
    requires f.Valid() && f.multi && key in Instances(f.index)
    ensures |Group(f, key)| > 0
  {
    var ins := Instances(f.index);
    var p :| 0 <= p < |ins| && ins[p] == key;
    var m := InstanceMask(f.index, key);
    assert m[p];
    assert p in Kept(m);
  }

  /**
   * `_frame2numpy`: after the same-index check, the values are reshaped in row
   * order to (-1, length, columns). NumPy refuses the reshape when the rows do
   * not divide into whole instances and when there are no columns (the `-1`
   * cannot be inferred).
   */
  function Frame2Numpy(f: Frame): (r: Result<Cube>)
    requires f.Valid() && f.multi
    ensures SameIndex(f).Err? ==> r == Err(SameIndex(f).error)
    ensures SameIndex(f).Ok? ==>
      (r.Ok? <==> |f.values| % |SameIndex(f).value| == 0 && |f.columns| > 0)
    ensures r.Ok? ==> (SameIndex(f).Ok? && r.value.Valid()
      && r.value.len == |SameIndex(f).value| && r.value.width == |f.columns|
      && r.value.num * r.value.len == |f.values|
      && Flatten(r.value.data) == f.values)
    ensures r.Err? && SameIndex(f).Ok? ==> r.error == ShapeMismatch
  {
    match SameIndex(f)
    case Err(e) => Err(e)
    case Ok(idx) =>
      if |f.values| % |idx| != 0 || |f.columns| == 0 then Err(ShapeMismatch)
      else
        Reshape(f.values, |idx|, |f.columns|);
        Ok(Cube(|Chunks(f.values, |idx|)|, |idx|, |f.columns|, Chunks(f.values, |idx|)))
  }

  /** Row-major reshape of whole pieces of `len` rows, each of `width` values. */
  lemma Reshape(rows: seq<Row>, len: nat, width: nat)
    requires len > 0 && |rows| % len == 0
    requires forall p :: 0 <= p < |rows| ==> |rows[p]| == width
    ensures Cube(|Chunks(rows, len)|, len, width, Chunks(rows, len)).Valid()
    ensures |Chunks(rows, len)| * len == |rows| && Flatten(Chunks(rows, len)) == rows
  {
    var data := Chunks(rows, len);
    ChunksFull(rows, len);
    FlattenChunks(rows, len);
    forall i, row | 0 <= i < |data| && row in data[i] ensures |row| == width {
      assert row in rows;
      var p :| 0 <= p < |rows| && rows[p] == row;
    }
  }

  /**
   * `_prepare_data`: a single series becomes an array of shape (1, T, columns)
   * holding its values unchanged; a panel goes through `_frame2numpy`.
   */
  function PrepareData(f: Frame): (r: Result<Cube>)
    requires f.Valid()
    ensures !f.multi ==> (r.Ok? && r.value.Valid() && r.value.num == 1 && r.value.len == |f.values|
      && r.value.width == |f.columns| && r.value.data == [f.values])
    ensures f.multi ==> r == Frame2Numpy(f)
  {
    if !f.multi then Ok(Cube(1, |f.values|, |f.columns|, [f.values]))
    else Frame2Numpy(f)
  }

  /** The rows of one instance over the given times. */
  function Block(id: int, times: seq<int>): (b: seq<Key>)
    ensures |b| == |times|
  {
    seq(|times|, t requires 0 <= t < |times| => Pair(id, times[t]))
  }

  /**
   * The index `pd.MultiIndex.from_product([ids, times])`: every instance with
   * every time, instance-major.
   */
  function ProductIndex(ids: seq<int>, times: seq<int>): (index: seq<Key>)
    ensures |index| == |ids| * |times|
    ensures forall p :: 0 <= p < |index| ==> index[p].Pair?
  {
    if ids == [] then [] else Block(ids[0], times) + ProductIndex(ids[1..], times)
  }

  /** Every label of a product pairs one of the ids with one of the times. */
  lemma {:induction false} ProductLabels(ids: seq<int>, times: seq<int>)
    ensures forall p :: 0 <= p < |ProductIndex(ids, times)| ==>
      ProductIndex(ids, times)[p].instance in ids && ProductIndex(ids, times)[p].time in times
  {
    if ids != [] {
      var block, rest := Block(ids[0], times), ProductIndex(ids[1..], times);
      ProductLabels(ids[1..], times);
      assert ProductIndex(ids, times) == block + rest;
      forall p | 0 <= p < |rest| ensures rest[p].instance in ids {
        assert rest[p].instance in ids[1..];
      }
    }
  }

  /** Row `p` of a product index pairs id `p / |times|` with time `p % |times|`. */
  lemma {:induction false} ProductIndexAt(ids: seq<int>, times: seq<int>, p: nat)
    requires p < |ids| * |times|
    ensures |times| > 0 && p / |times| < |ids|
    ensures ProductIndex(ids, times)[p] == Pair(ids[p / |times|], times[p % |times|])
  {
    var h := |times|;
    ProductBounds(p, |ids|, h);
    var head, rest := Block(ids[0], times), ProductIndex(ids[1..], times);
    assert ProductIndex(ids, times) == head + rest;
    if p < h {
      DivMod(p, h, 0, p);
      assert ProductIndex(ids, times)[p] == head[p];
    } else {
      var q := p - h;
      assert |ids| * h == (|ids| - 1) * h + h;
      ProductIndexAt(ids[1..], times, q);
      DivShift(q, h);
      assert ProductIndex(ids, times)[p] == rest[q];
    }
  }

  /** A frame over a product index. */
  function FromProduct(names: seq<string>, columns: seq<string>, ids: seq<int>, times: seq<int>, values: seq<Row>): Frame
  {
    Frame(names, columns, true, ProductIndex(ids, times), values)
  }

  /** The rows of instance `ids[j]` of a panel over the product of `ids` and `times`, in time order. */
  function InstanceRows(ids: seq<int>, times: seq<int>, values: seq<Row>, j: nat): seq<Row>
    requires |values| == |ids| * |times| && j < |ids|
  {
    Select(values, InstanceMask(ProductIndex(ids, times), ids[j]))
  }

  /** Every id labels some row of a product over a non-empty time index. */
  lemma {:induction false} ProductInstances(ids: seq<int>, times: seq<int>)
    requires |times| > 0
    ensures forall y :: y in Instances(ProductIndex(ids, times)) <==> y in ids
  {
    ProductLabels(ids, times);
    if ids != [] {
      var b, rest := Block(ids[0], times), ProductIndex(ids[1..], times);
      ProductInstances(ids[1..], times);
      IndexAppend(b, rest, 0);
      assert Instances(b)[0] == ids[0];
      forall y | y in ids ensures y in Instances(b + rest) {
        if y != ids[0] {
          assert y in ids[1..];
        }
      }
    }
  }

  /** The time level of a product repeats the times once per id. */
  lemma {:induction false} ProductTimes(ids: seq<int>, times: seq<int>, j: nat)
    requires |times| > 0 && j < |ids|
    ensures j < |Chunks(Times(ProductIndex(ids, times)), |times|)|
    ensures Chunks(Times(ProductIndex(ids, times)), |times|)[j] == times
  {
    var b, rest := Block(ids[0], times), ProductIndex(ids[1..], times);
    IndexAppend(b, rest, 0);
    var all := Times(b + rest);
    assert all[..|times|] == Times(b) == times;
    assert all[|times|..] == Times(rest);
    ChunksCons(all, |times|);
    if j > 0 {
      ProductTimes(ids[1..], times, j - 1);
    }
  }

  /** The mask of `key` over a product splits into the first block's mask and the rest's. */
  lemma ProductMask(ids: seq<int>, times: seq<int>, key: int)
    requires ids != []
    ensures InstanceMask(ProductIndex(ids, times), key)
      == InstanceMask(Block(ids[0], times), key) + InstanceMask(ProductIndex(ids[1..], times), key)
    ensures forall p :: 0 <= p < |times| ==> (InstanceMask(Block(ids[0], times), key)[p] <==> ids[0] == key)
  {
    IndexAppend(Block(ids[0], times), ProductIndex(ids[1..], times), key);
  }

  /** An id that is not among the ids labels no row of the product. */
  lemma ProductAbsent<T>(ids: seq<int>, times: seq<int>, s: seq<T>, key: int)
    requires key !in ids && |s| == |ids| * |times|
    ensures Select(s, InstanceMask(ProductIndex(ids, times), key)) == []
  {
    var index := ProductIndex(ids, times);
    ProductLabels(ids, times);
    forall p | 0 <= p < |index| ensures !InstanceMask(index, key)[p] {
      assert index[p].instance in ids;
    }
    SelectNone(s, InstanceMask(index, key));
  }

  /**
   * Over a product index with distinct ids, the rows of instance `ids[j]`
   * are exactly piece `j` when the rows are cut into pieces of `|times|`.
   */
  lemma {:induction false} ProductSelect<T>(ids: seq<int>, times: seq<int>, s: seq<T>, j: nat)
    requires |times| > 0 && StrictlySorted(ids) && j < |ids| && |s| == |ids| * |times|
    ensures j < |Chunks(s, |times|)|
    ensures Select(s, InstanceMask(ProductIndex(ids, times), ids[j])) == Chunks(s, |times|)[j]
  {
    var n, key, rest := |times|, ids[j], ids[1..];
    assert |ids| * n == n + |rest| * n;
    var head, tail := s[..n], s[n..];
    assert s == head + tail;
    ChunksCons(s, n);
    ProductMask(ids, times, key);
    var mh, mt := InstanceMask(Block(ids[0], times), key), InstanceMask(ProductIndex(rest, times), key);
    SelectAppend(head, tail, mh, mt);
    var mask := InstanceMask(ProductIndex(ids, times), key);
    assert Select(s, mask) == Select(head, mh) + Select(tail, mt);
    if j == 0 {
      SelectAll(head, mh);
      assert key !in rest;
      ProductAbsent(rest, times, tail, key);
    } else {
      assert ids[0] < key;
      SelectNone(head, mh);
      assert rest[j - 1] == key;
      assert StrictlySorted(rest) by {
        forall a, b | 0 <= a < b < |rest| ensures rest[a] < rest[b] {
          assert rest[a] == ids[a + 1] && rest[b] == ids[b + 1];
        }
      }
      ProductSelect(rest, times, tail, j - 1);
      assert Select(s, mask) == Select(tail, mt);
      assert Chunks(s, n)[j] == Chunks(tail, n)[j - 1];
    }
  }

  /**
   * A panel laid out as the product of sorted distinct instance labels and
   * one common time index passes the same-index check with that index, and
   * its instances come out of `np.unique` in the given order.
   */
  lemma ProductSameIndex(f: Frame, ids: seq<int>, times: seq<int>)
    requires f.Valid() && f.multi && f.index == ProductIndex(ids, times)
    requires |ids| > 0 && |times| > 0 && StrictlySorted(ids)
    ensures SortedUnique(Instances(f.index)) == ids
    ensures SameIndex(f) == Ok(times)
  {
    ProductInstances(ids, times);
    var keys := SortedUnique(Instances(f.index));
    SortedDetermined(keys, ids);
    forall key | key in Instances(f.index) ensures Group(f, key) == times {
      var j :| 0 <= j < |ids| && ids[j] == key;
      ProductSelect(ids, times, Times(f.index), j);
      ProductTimes(ids, times, j);
    }
    assert keys[0] in Instances(f.index);
  }

  /**
   * On such a panel `_frame2numpy` succeeds with one array entry per
   * instance, and entry `j` holds exactly the rows labelled `ids[j]`, in row
   * order.
   */
  lemma FromProductLayout(names: seq<string>, columns: seq<string>, ids: seq<int>, times: seq<int>, values: seq<Row>)
    requires |values| == |ids| * |times| && |ids| > 0 && |times| > 0 && |columns| > 0
    requires StrictlySorted(ids)
    requires forall p :: 0 <= p < |values| ==> |values[p]| == |columns|
    ensures FromProduct(names, columns, ids, times, values).Valid()
    ensures Frame2Numpy(FromProduct(names, columns, ids, times, values)).Ok?
    ensures Frame2Numpy(FromProduct(names, columns, ids, times, values)).value.num == |ids|
    ensures Frame2Numpy(FromProduct(names, columns, ids, times, values)).value.len == |times|
    ensures forall j :: 0 <= j < |ids| ==>
      Frame2Numpy(FromProduct(names, columns, ids, times, values)).value.data[j]
      == Select(values, InstanceMask(ProductIndex(ids, times), ids[j]))
  {
    var f := FromProduct(names, columns, ids, times, values);
    ProductSameIndex(f, ids, times);
    DivMod(|values|, |times|, |ids|, 0);
    ChunksFull(values, |times|);
    assert |Chunks(values, |times|)| == |ids| by {
      MulCancel(|Chunks(values, |times|)|, |ids|, |times|);
    }
    var data := Frame2Numpy(f).value.data;
    assert data == Chunks(values, |times|);
    forall j | 0 <= j < |ids|
      ensures data[j] == Select(values, InstanceMask(f.index, ids[j]))
    {
      ProductSelect(ids, times, values, j);
    }
  }

  /**
   * `_to_multiindex`: one series becomes a one-instance panel over the same
   * times and values, the instance level named `indexName` in front of the
   * time level.
   */
  function ToMultiindex(f: Frame, indexName: string, instance: int): (g: Frame)
    requires f.Valid() && !f.multi
    ensures g.Valid() && g.multi
    ensures g.columns == f.columns && g.values == f.values && Times(g.index) == Times(f.index)
    ensures forall p :: 0 <= p < |g.index| ==> g.index[p].instance == instance
    ensures g.names == [indexName] + f.names
  {
    var g := FromProduct([indexName] + f.names, f.columns, [instance], Times(f.index), f.values);
    assert g.index == Block(instance, Times(f.index)) + [];
    g
  }

  /**
   * Wrapping one series as a one-instance panel does not change what the
   * network sees: the prepared array is the series itself.
   */
  lemma ToMultiindexPrepare(f: Frame, indexName: string, instance: int)
    requires f.Valid() && !f.multi && |f.values| > 0 && |f.columns| > 0
    ensures PrepareData(ToMultiindex(f, indexName, instance)) == PrepareData(f)
  {
    var g := ToMultiindex(f, indexName, instance);
    var times := Times(f.index);
    FromProductLayout([indexName] + f.names, f.columns, [instance], times, f.values);
    var c := Frame2Numpy(g).value;
    assert c.data == Chunks(f.values, |times|) == [f.values];
  }
}
