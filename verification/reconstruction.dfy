/**
 * How `BaseDeepNetworkPyTorch._predict` turns the stacked network outputs
 * back into a forecast frame: one block of `h` rows per instance (instances
 * in `np.unique` order), labelled with the `h` time points after the cutoff,
 * and then cut down to the requested horizon.
 *
 * Time is an integer index with step one, so the absolute horizon of a
 * relative step `s` is `cutoff + s`.
 */
module Reconstruction {
  import opened Common
  import opened Seqs
  import opened Unique
  import opened Panel

  /** `np.repeat(xs, h)`: each element `h` times in a row. */
  function Repeat(xs: seq<int>, h: nat): (r: seq<int>)
    ensures |r| == |xs| * h
  {
    if xs == [] then [] else seq(h, _ => xs[0]) + Repeat(xs[1..], h)
  }

  /** Python's `list * k`: the list `k` times over. */
  function Tile(xs: seq<int>, k: nat): (r: seq<int>)
    ensures |r| == |xs| * k
  {
    if k == 0 then [] else xs + Tile(xs, k - 1)
  }

  /** `ForecastingHorizon(range(1, h + 1)).to_absolute(cutoff)` on an integer index. */
  function Horizon(cutoff: int, h: nat): (r: seq<int>)
    ensures |r| == h && StrictlySorted(r)
    ensures forall t :: t in r <==> cutoff < t <= cutoff + h
  {
    var r := seq(h, i requires 0 <= i < h => cutoff + i + 1);
    forall t | cutoff < t <= cutoff + h ensures t in r {
      assert r[t - cutoff - 1] == t;
    }
    r
  }

  /** `pd.MultiIndex.from_arrays([ins, times])`: pandas refuses arrays of different lengths. */
  function FromArrays(ins: seq<int>, times: seq<int>): (r: Result<seq<Key>>)
    ensures r.Ok? <==> |ins| == |times|
    ensures r.Err? ==> r.error == LengthMismatch
    ensures r.Ok? ==> |r.value| == |ins|
  {
    if |ins| != |times| then Err(LengthMismatch)
    else Ok(seq(|ins|, p requires 0 <= p < |ins| => Pair(ins[p], times[p])))
  }

  /**
   * Repeating the instances `|times|` times each and tiling the times once
   * per instance pairs up into the product index: instance-major, every
   * instance with every time.
   */
  lemma {:induction false} RepeatTileProduct(ids: seq<int>, times: seq<int>)
    ensures FromArrays(Repeat(ids, |times|), Tile(times, |ids|)) == Ok(ProductIndex(ids, times))
  {
    if ids != [] {
      var h := |times|;
      RepeatTileProduct(ids[1..], times);
      var head := seq(h, _ => ids[0]);
      var ins, ts := head + Repeat(ids[1..], h), times + Tile(times, |ids| - 1);
      assert Repeat(ids, h) == ins && Tile(times, |ids|) == ts;
      var zipped := FromArrays(ins, ts).value;
      var rest := FromArrays(Repeat(ids[1..], h), Tile(times, |ids| - 1)).value;
      assert zipped == Block(ids[0], times) + rest;
    }
  }

  /**
   * Row `p` of the labelled outputs, before the filter: in a panel it is
   * labelled with instance `p / h` in `np.unique` order and time
   * `cutoff + p % h + 1`; in one series with time `cutoff + p + 1`.
   */
  lemma LabelAt(y: Frame, cutoff: int, outputs: seq<seq<Row>>, p: nat)
    requires y.Valid() && LabelPredictions(y, cutoff, outputs).Ok?
    requires p < |LabelPredictions(y, cutoff, outputs).value.index|
    ensures |outputs[0]| > 0
    ensures y.multi ==> (p / |outputs[0]| < |SortedUnique(Instances(y.index))|
      && LabelPredictions(y, cutoff, outputs).value.index[p]
         == Pair(SortedUnique(Instances(y.index))[p / |outputs[0]|], cutoff + p % |outputs[0]| + 1))
    ensures !y.multi ==> LabelPredictions(y, cutoff, outputs).value.index[p] == Flat(cutoff + p + 1)
  {
    var h := |outputs[0]|;
    if y.multi {
      var ids := SortedUnique(Instances(y.index));
      ProductIndexAt(ids, Horizon(cutoff, h), p);
    }
  }

  /** Every network output has `h` rows of `width` values. */
  predicate Rectangular(outputs: seq<seq<Row>>, h: nat, width: nat) {
    && (forall i :: 0 <= i < |outputs| ==> |outputs[i]| == h)
    && (forall i, t :: 0 <= i < |outputs| && 0 <= t < |outputs[i]| ==> |outputs[i][t]| == width)
  }

  /**
   * The frame `_predict` builds from the outputs of the network, one output
   * of `h` rows per window, before the horizon filter. `torch.cat` refuses an
   * empty list and outputs of different shapes; the index is the unique
   * instances repeated against the tiled horizon (a panel) or the horizon
   * itself (one series); `reshape(-1, width)` refuses a zero width; the
   * DataFrame constructor refuses an index or column list that does not fit
   * the rows. An empty forecast (`h == 0`) is taken to have the width of the
   * frame's columns.
   */
  function LabelPredictions(y: Frame, cutoff: int, outputs: seq<seq<Row>>): (r: Result<Frame>)
    requires y.Valid()
    ensures outputs == [] ==> r == Err(EmptyConcat)
    ensures r.Err? ==> r.error == EmptyConcat || r.error == ShapeMismatch || r.error == LengthMismatch
    ensures r.Ok? ==> (r.value.Valid() && r.value.multi == y.multi && r.value.names == y.names
      && r.value.columns == y.columns && r.value.values == Flatten(outputs)
      && Rectangular(outputs, |outputs[0]|, |y.columns|) && |y.columns| > 0)
    ensures r.Ok? && y.multi ==>
      r.value.index == ProductIndex(SortedUnique(Instances(y.index)), Horizon(cutoff, |outputs[0]|))
    ensures r.Ok? && !y.multi ==>
      r.value.index == seq(|outputs[0]|, i requires 0 <= i < |outputs[0]| => Flat(cutoff + i + 1))
    ensures r.Ok? && y.multi && |outputs[0]| > 0 ==> |outputs| == |SortedUnique(Instances(y.index))|
    ensures r.Ok? && !y.multi && |outputs[0]| > 0 ==> |outputs| == 1
  {
    if outputs == [] then Err(EmptyConcat)
    else
      var h := |outputs[0]|;
      var width := if h > 0 then |outputs[0][0]| else |y.columns|;
      if !Rectangular(outputs, h, width) then Err(ShapeMismatch)
      else
        var rows := Flatten(outputs);
        FlattenLength(outputs, h);
        var index :=
          if y.multi then
            var ids := SortedUnique(Instances(y.index));
            FromArrays(Repeat(ids, h), Tile(Horizon(cutoff, h), |outputs|))
          else Ok(seq(h, i requires 0 <= i < h => Flat(cutoff + i + 1)));
        match index
        case Err(e) => Err(e)
        case Ok(index) =>
          if width == 0 || |index| != |rows| || width != |y.columns| then Err(ShapeMismatch)
          else
            if y.multi then
              var ids := SortedUnique(Instances(y.index));
              RepeatTileProduct(ids, Horizon(cutoff, h));
              LengthsAgree(|ids|, |outputs|, h);
              assert |outputs| == |ids| ==> Tile(Horizon(cutoff, h), |outputs|) == Tile(Horizon(cutoff, h), |ids|);
              RowsFit(outputs, h, width);
              Ok(Frame(y.names, y.columns, true, index, rows))
            else
              LengthsAgree(1, |outputs|, h);
              RowsFit(outputs, h, width);
              Ok(Frame(y.names, y.columns, false, index, rows))
  }

  /** Equal products with a common non-zero factor have equal other factors. */
  lemma LengthsAgree(a: nat, b: nat, h: nat)
    ensures a * h == h * b && h > 0 ==> a == b
  {
  }

  /** Every row of rectangular outputs has the common width. */
  lemma RowsFit(outputs: seq<seq<Row>>, h: nat, width: nat)
    requires Rectangular(outputs, h, width)
    ensures forall p :: 0 <= p < |Flatten(outputs)| ==> |Flatten(outputs)[p]| == width
  {
    forall p | 0 <= p < |Flatten(outputs)| ensures |Flatten(outputs)[p]| == width {
      FlattenMember(outputs, Flatten(outputs)[p]);
      var i :| 0 <= i < |outputs| && Flatten(outputs)[p] in outputs[i];
      var t :| 0 <= t < |outputs[i]| && outputs[i][t] == Flatten(outputs)[p];
    }
  }

  /** Something in a concatenation is in one of its parts. */
  lemma {:induction false} FlattenMember<T>(ss: seq<seq<T>>, x: T)
    requires x in Flatten(ss)
    ensures exists i :: 0 <= i < |ss| && x in ss[i]
  {
    if x !in ss[0] {
      FlattenMember(ss[1..], x);
      var i :| 0 <= i < |ss[1..]| && x in ss[1..][i];
      assert x in ss[i + 1];
    }
  }

  /** Over a product of distinct ids and distinct times, label (ids[j], times[t]) sits on output j, row t. */
  lemma {:induction false} ProductValueAt<T>(ids: seq<int>, times: seq<int>, outputs: seq<seq<T>>, p: nat, j: nat, t: nat)
    requires StrictlySorted(ids) && StrictlySorted(times)
    requires |outputs| == |ids| && forall i :: 0 <= i < |outputs| ==> |outputs[i]| == |times|
    requires j < |ids| && t < |times| && p < |ProductIndex(ids, times)|
    requires ProductIndex(ids, times)[p] == Pair(ids[j], times[t])
    ensures |Flatten(outputs)| == |ProductIndex(ids, times)| && Flatten(outputs)[p] == outputs[j][t]
  {
    var h := |times|;
    FlattenLength(outputs, h);
    var block, rest := Block(ids[0], times), ProductIndex(ids[1..], times);
    assert ProductIndex(ids, times) == block + rest;
    assert Flatten(outputs) == outputs[0] + Flatten(outputs[1..]);
    if p < h {
      assert block[p] == Pair(ids[0], times[p]);
      assert t == p && j == 0;
    } else {
      assert rest[p - h] == Pair(ids[j], times[t]);
      ProductLabels(ids[1..], times);
      assert ids[j] in ids[1..];
      assert j > 0;
      assert ids[1..][j - 1] == ids[j];
      assert StrictlySorted(ids[1..]) by {
        forall a, b | 0 <= a < b < |ids[1..]| ensures ids[1..][a] < ids[1..][b] {
          assert ids[1..][a] == ids[a + 1] && ids[1..][b] == ids[b + 1];
        }
      }
      ProductValueAt(ids[1..], times, outputs[1..], p - h, j - 1, t);
    }
  }

  /** Which rows the horizon filter keeps: those at `cutoff + s` for a step `s` of `fh`. */
  function HorizonMask(f: Frame, cutoff: int, fh: seq<int>): (keep: seq<bool>)
    ensures |keep| == |f.index|
  {
    seq(|f.index|, p requires 0 <= p < |f.index| => f.index[p].time - cutoff in fh)
  }

  /**
   * The horizon filter `pred.loc[dateindex]`: keep, in order, the rows whose
   * time is `cutoff + s` for a step `s` of the relative horizon `fh`.
   */
  function FilterHorizon(f: Frame, cutoff: int, fh: seq<int>): (r: Frame)
    requires f.Valid()
    ensures r.Valid() && r.names == f.names && r.columns == f.columns && r.multi == f.multi
  {
    var keep := HorizonMask(f, cutoff, fh);
    SelectPaired(f.index, f.values, keep);
    Frame(f.names, f.columns, f.multi, Select(f.index, keep), Select(f.values, keep))
  }

  /** The filtered frame holds exactly the labels of the frame whose time is in the horizon. */
  lemma FilterLabels(f: Frame, cutoff: int, fh: seq<int>)
    requires f.Valid()
    ensures forall key :: key in FilterHorizon(f, cutoff, fh).index <==> key in f.index && key.time - cutoff in fh
  {
    var keep := HorizonMask(f, cutoff, fh);
    forall key ensures key in Select(f.index, keep) <==> key in f.index && key.time - cutoff in fh {
      SelectMember(f.index, keep, key);
    }
  }

  /** Each label the filter keeps keeps its own row of values, in the original order. */
  lemma FilterPairs(f: Frame, cutoff: int, fh: seq<int>)
    requires f.Valid()
    ensures var r := FilterHorizon(f, cutoff, fh);
      forall q :: 0 <= q < |r.index| ==>
        exists p :: 0 <= p < |f.index| && r.index[q] == f.index[p] && r.values[q] == f.values[p]
  {
    SelectPaired(f.index, f.values, HorizonMask(f, cutoff, fh));
  }

  /**
   * `r` is the forecast of one series from the network output `out`: it is
   * labelled exactly by the requested steps `s` with `1 <= s <= |out|`, and
   * the row at `cutoff + s` is row `s - 1` of `out`.
   */
  ghost predicate SeriesForecastOf(r: Frame, cutoff: int, fh: seq<int>, out: seq<Row>) {
    && |r.values| == |r.index|
    && (forall key :: key in r.index <==> key.Flat? && key.time - cutoff in fh && 1 <= key.time - cutoff <= |out|)
    && (forall q :: 0 <= q < |r.index| ==>
          1 <= r.index[q].time - cutoff <= |out| && r.values[q] == out[r.index[q].time - cutoff - 1])
  }

  /** Labelling one series and filtering it to the horizon gives its forecast from its one output. */
  lemma SeriesForecastRows(y: Frame, cutoff: int, outputs: seq<seq<Row>>, fh: seq<int>)
    requires y.Valid() && !y.multi && LabelPredictions(y, cutoff, outputs).Ok?
    ensures |outputs| > 0
    ensures SeriesForecastOf(FilterHorizon(LabelPredictions(y, cutoff, outputs).value, cutoff, fh), cutoff, fh, outputs[0])
  {
    var f := LabelPredictions(y, cutoff, outputs).value;
    var out := outputs[0];
    if |out| > 0 {
      assert f.values == out by {
        assert Flatten(outputs) == out + Flatten(outputs[1..]);
      }
    } else {
      assert f.index == [];
    }
    FilterSeries(f, cutoff, fh, out);
  }

  /**
   * Filtering a series frame labelled by the horizon `cutoff + 1 ..
   * cutoff + |out|` and holding `out` gives the forecast from `out`.
   */
  lemma FilterSeries(f: Frame, cutoff: int, fh: seq<int>, out: seq<Row>)
    requires f.Valid() && |f.index| == |out|
    requires f.index == seq(|out|, i requires 0 <= i < |out| => Flat(cutoff + i + 1))
    requires f.values == out || out == []
    ensures SeriesForecastOf(FilterHorizon(f, cutoff, fh), cutoff, fh, out)
  {
    var h := |out|;
    FilterLabels(f, cutoff, fh);
    FilterPairs(f, cutoff, fh);
    forall key ensures key in f.index <==> key.Flat? && 1 <= key.time - cutoff <= h {
      if key.Flat? && 1 <= key.time - cutoff <= h {
        assert f.index[key.time - cutoff - 1] == key;
      }
    }
  }

  /** The forecast of a panel after the horizon filter. */
  function PanelForecast(y: Frame, cutoff: int, outputs: seq<seq<Row>>, fh: seq<int>): Frame
    requires y.Valid() && y.multi && LabelPredictions(y, cutoff, outputs).Ok?
  {
    FilterHorizon(LabelPredictions(y, cutoff, outputs).value, cutoff, fh)
  }

  /**
   * The rows of a panel forecast are labelled exactly by the pairs
   * (instance, cutoff + s) with the instance one of the frame's, s a
   * requested step and 1 <= s <= h, where h is the network's output length.
   */
  lemma PanelForecastLabels(y: Frame, cutoff: int, outputs: seq<seq<Row>>, fh: seq<int>)
    requires y.Valid() && y.multi && LabelPredictions(y, cutoff, outputs).Ok?
    ensures forall key :: key in PanelForecast(y, cutoff, outputs, fh).index <==>
      key.Pair? && key.instance in Instances(y.index) && key.time - cutoff in fh
      && 1 <= key.time - cutoff <= |outputs[0]|
  {
    var ids, h := SortedUnique(Instances(y.index)), |outputs[0]|;
    var times := Horizon(cutoff, h);
    FilterLabels(LabelPredictions(y, cutoff, outputs).value, cutoff, fh);
    ProductLabels(ids, times);
    forall key: Key | key.Pair? && key.instance in ids && key.time in times
      ensures key in ProductIndex(ids, times)
    {
      ProductMember(ids, times, key.instance, key.time);
    }
  }

  /**
   * A panel forecast has one network output per instance, and the row
   * labelled (ids[j], cutoff + s), with `ids` the instances in `np.unique`
   * order, holds row s - 1 of the j-th output; outputs of length zero give
   * an empty forecast.
   */
  lemma PanelForecastValues(y: Frame, cutoff: int, outputs: seq<seq<Row>>, fh: seq<int>)
    requires y.Valid() && y.multi && LabelPredictions(y, cutoff, outputs).Ok?
    ensures |outputs[0]| == 0 ==> PanelForecast(y, cutoff, outputs, fh).index == []
    ensures |outputs[0]| > 0 ==> (|outputs| == |SortedUnique(Instances(y.index))|
      && RowsFromOutputs(PanelForecast(y, cutoff, outputs, fh), SortedUnique(Instances(y.index)), cutoff, outputs))
  {
    var ids, h := SortedUnique(Instances(y.index)), |outputs[0]|;
    var f := LabelPredictions(y, cutoff, outputs).value;
    if h == 0 {
      assert |f.index| == |ids| * 0 == 0;
    } else {
      LabelledRows(ids, cutoff, outputs, f);
      FilteredRows(f, ids, cutoff, outputs, fh);
    }
  }

  /**
   * Row of instance `ids[j]` at time `cutoff + s` holds row `s - 1` of output
   * `j`, for every row of `f`.
   */
  predicate RowsFromOutputs(f: Frame, ids: seq<int>, cutoff: int, outputs: seq<seq<Row>>)
    requires outputs != [] && |outputs| == |ids|
    requires forall i :: 0 <= i < |outputs| ==> |outputs[i]| == |outputs[0]|
    requires f.Valid() && f.multi
  {
    forall p, j :: 0 <= p < |f.index| && 0 <= j < |ids| && f.index[p].instance == ids[j] ==>
      1 <= f.index[p].time - cutoff <= |outputs[0]| && f.values[p] == outputs[j][f.index[p].time - cutoff - 1]
  }

  /** The horizon filter keeps each row's values next to its label. */
  lemma FilteredRows(f: Frame, ids: seq<int>, cutoff: int, outputs: seq<seq<Row>>, fh: seq<int>)
    requires outputs != [] && |outputs| == |ids|
    requires forall i :: 0 <= i < |outputs| ==> |outputs[i]| == |outputs[0]|
    requires f.Valid() && f.multi && RowsFromOutputs(f, ids, cutoff, outputs)
    ensures FilterHorizon(f, cutoff, fh).Valid() && FilterHorizon(f, cutoff, fh).multi
    ensures RowsFromOutputs(FilterHorizon(f, cutoff, fh), ids, cutoff, outputs)
  {
    var r := FilterHorizon(f, cutoff, fh);
    FilterPairs(f, cutoff, fh);
    forall q, j | 0 <= q < |r.index| && 0 <= j < |ids| && r.index[q].instance == ids[j]
      ensures 1 <= r.index[q].time - cutoff <= |outputs[0]| && r.values[q] == outputs[j][r.index[q].time - cutoff - 1]
    {
      var p :| 0 <= p < |f.index| && r.index[q] == f.index[p] && r.values[q] == f.values[p];
    }
  }

  /** Every row of the unfiltered panel forecast holds the output row its label names. */
  lemma LabelledRows(ids: seq<int>, cutoff: int, outputs: seq<seq<Row>>, f: Frame)
    requires outputs != [] && StrictlySorted(ids) && |outputs| == |ids|
    requires forall i :: 0 <= i < |outputs| ==> |outputs[i]| == |outputs[0]|
    requires f.Valid() && f.multi
    requires f.index == ProductIndex(ids, Horizon(cutoff, |outputs[0]|)) && f.values == Flatten(outputs)
    ensures RowsFromOutputs(f, ids, cutoff, outputs)
  {
    forall p, j | 0 <= p < |f.index| && 0 <= j < |ids| && f.index[p].instance == ids[j]
      ensures 1 <= f.index[p].time - cutoff <= |outputs[0]| && f.values[p] == outputs[j][f.index[p].time - cutoff - 1]
    {
      LabelledRowAt(ids, cutoff, outputs, f, p, j);
    }
  }

  /** One row of the unfiltered panel forecast: label (ids[j], cutoff + s) holds output j, row s - 1. */
  lemma LabelledRowAt(ids: seq<int>, cutoff: int, outputs: seq<seq<Row>>, f: Frame, p: nat, j: nat)
    requires outputs != [] && StrictlySorted(ids) && |outputs| == |ids|
    requires forall i :: 0 <= i < |outputs| ==> |outputs[i]| == |outputs[0]|
    requires f.index == ProductIndex(ids, Horizon(cutoff, |outputs[0]|)) && f.values == Flatten(outputs)
    requires |f.values| == |f.index|
    requires p < |f.index| && j < |ids| && f.index[p].instance == ids[j]
    ensures 1 <= f.index[p].time - cutoff <= |outputs[0]|
    ensures f.values[p] == outputs[j][f.index[p].time - cutoff - 1]
  {
    var times := Horizon(cutoff, |outputs[0]|);
    ProductLabels(ids, times);
    var s := f.index[p].time - cutoff;
    assert f.index[p].time in times;
    assert times[s - 1] == cutoff + s;
    ProductValueAt(ids, times, outputs, p, j, s - 1);
  }

  /** Every pair of an id and a time labels some row of the product. */
  lemma {:induction false} ProductMember(ids: seq<int>, times: seq<int>, id: int, t: int)
    requires id in ids && t in times
    ensures Pair(id, t) in ProductIndex(ids, times)
  {
    var block, rest := Block(ids[0], times), ProductIndex(ids[1..], times);
    assert ProductIndex(ids, times) == block + rest;
    if id == ids[0] {
      var i :| 0 <= i < |times| && times[i] == t;
      assert block[i] == Pair(id, t);
    } else {
      assert id in ids[1..];
      ProductMember(ids[1..], times, id, t);
    }
  }

  /**
   * Labelling of the concatenated network outputs and the horizon filter,
   * the part of `_predict` after the network has run.
   */
  function Forecast(y: Frame, cutoff: int, fh: seq<int>, outputs: seq<seq<Row>>): (r: Result<Frame>)
    requires y.Valid()
    ensures r.Ok? <==> LabelPredictions(y, cutoff, outputs).Ok?
    ensures r.Err? ==> r.error == LabelPredictions(y, cutoff, outputs).error
    ensures r.Ok? ==> r.value.Valid() && r.value.names == y.names && r.value.columns == y.columns
    ensures r.Ok? && y.multi ==> r.value == PanelForecast(y, cutoff, outputs, fh)
  {
    match LabelPredictions(y, cutoff, outputs)
    case Err(e) => Err(e)
    case Ok(f) => Ok(FilterHorizon(f, cutoff, fh))
  }
}
