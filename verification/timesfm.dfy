/**
 * `TimesFMForecaster`, a zero-shot forecaster around a pretrained decoder.
 * Fitting only fixes the horizon the decoder is asked for; predicting
 * checks the requested horizon against it, turns the series into a matrix
 * of one row per series, cuts or zero-pads every row to the context length
 * with a 0/1 mask marking the padding, calls the decoder, and labels its
 * output rows as the PyTorch adapter does.
 *
 * The decoder itself is a function parameter; loading its weights is not
 * modelled.
 */
module TimesFM {
  import opened Common
  import opened Seqs
  import opened PySlice
  import opened Unique
  import opened Panel
  import opened Reconstruction

  /** `model.decode(inputs, pads, freqs, horizon)`: one forecast row per input row. */
  type Decoder = (seq<seq<real>>, seq<seq<real>>, seq<int>, nat) -> seq<seq<real>>

  /** A matrix of series, one per row, with the number of columns kept even when there are no rows. */
  datatype Matrix = Matrix(rows: seq<seq<real>>, cols: nat)
  {
    predicate Valid() {
      forall i :: 0 <= i < |rows| ==> |rows[i]| == cols
    }
  }

  /** Python's `max` of a non-empty sequence. */
  function Max(xs: seq<int>): (m: int)
    requires xs != []
    ensures m in xs && forall k :: 0 <= k < |xs| ==> xs[k] <= m
  {
    if |xs| == 1 then xs[0]
    else
      var rest := Max(xs[1..]);
      if xs[0] >= rest then xs[0] else rest
  }

  /**
   * `_fit`: the horizon the decoder is asked for. `max(horizon_len, *fh)`
   * with an empty `fh` is `max` of a single integer, which Python refuses.
   */
  function EffectiveHorizon(horizonLen: nat, fh: Option<seq<int>>): (r: Result<nat>)
    ensures fh.None? ==> r == Ok(horizonLen)
    ensures fh.Some? ==> (r.Err? <==> fh.value == [])
    ensures r.Err? ==> r.error == NotIterable
    ensures r.Ok? ==> r.value >= horizonLen
    ensures r.Ok? && fh.Some? ==> forall k :: 0 <= k < |fh.value| ==> fh.value[k] <= r.value
    ensures r.Ok? && fh.Some? ==> r.value == horizonLen || r.value in fh.value
  {
    match fh
    case None => Ok(horizonLen)
    case Some(steps) =>
      if steps == [] then Err(NotIterable)
      else
        var m := Max(steps);
        Ok(if m > horizonLen then m else horizonLen)
  }

  /** Leading zeros of the padded input. */
  function Zeros(n: nat): (z: seq<real>)
    ensures |z| == n && forall k :: 0 <= k < n ==> z[k] == 0.0
  {
    seq(n, _ => 0.0)
  }

  /**
   * One row of the decoder input: the last `contextLen` values of the
   * series, preceded by zeros when the series is shorter. A context length
   * of 0 keeps the whole series, since `s[-0:]` is all of `s`.
   */
  function ContextRow(row: seq<real>, contextLen: nat): (r: seq<real>)
    ensures contextLen > 0 ==> |r| == contextLen
    ensures |row| >= contextLen > 0 ==> r == row[|row| - contextLen..]
    ensures |row| < contextLen ==>
      (r[..contextLen - |row|] == Zeros(contextLen - |row|) && r[contextLen - |row|..] == row)
    ensures contextLen == 0 ==> r == row
  {
    var input := Last(row, contextLen);
    if |row| < contextLen then Zeros(contextLen - |row|) + input else input
  }

  /**
   * One row of the padding mask for series of `t` steps: `contextLen +
   * horizon` entries, 1 where the input is padding and 0 elsewhere.
   */
  function PadRow(contextLen: nat, horizon: nat, t: nat): (r: seq<real>)
    ensures |r| == contextLen + horizon
    ensures forall j :: 0 <= j < |r| ==> (r[j] == 1.0 <==> j < contextLen - t)
    ensures forall j :: 0 <= j < |r| ==> (r[j] == 0.0 <==> j >= contextLen - t)
  {
    var ones := if t < contextLen then contextLen - t else 0;
    seq(ones, _ => 1.0) + seq(contextLen + horizon - ones, _ => 0.0)
  }

  /** The mask marks exactly the padded input positions, and the rest of the input is the series. */
  lemma MaskMarksPadding(row: seq<real>, contextLen: nat, horizon: nat, j: nat)
    requires j < contextLen
    ensures j < |ContextRow(row, contextLen)|
    ensures PadRow(contextLen, horizon, |row|)[j] == 1.0 ==> ContextRow(row, contextLen)[j] == 0.0
    ensures PadRow(contextLen, horizon, |row|)[j] == 0.0 ==>
      ContextRow(row, contextLen)[j] == row[j - (contextLen - |row|)]
  {
    var r := ContextRow(row, contextLen);
    if |row| < contextLen {
      var p := contextLen - |row|;
      if j < p {
        assert r[j] == r[..p][j];
      } else {
        assert r[j] == r[p..][j - p];
      }
    }
  }

  /** A series at least `contextLen` long is not padded: its mask row is all zeros. */
  lemma LongSeriesNoPadding(contextLen: nat, horizon: nat, t: nat)
    requires t >= contextLen
    ensures PadRow(contextLen, horizon, t) == seq(contextLen + horizon, _ => 0.0)
  {
  }

  /** The padding mask, one row per series. */
  function PadRows(n: nat, contextLen: nat, horizon: nat, t: nat): seq<seq<real>>
  {
    seq(n, _ => PadRow(contextLen, horizon, t))
  }

  /** The decoder input, one row per series. */
  function ContextRows(hist: Matrix, contextLen: nat): (rows: seq<seq<real>>)
    ensures |rows| == |hist.rows|
  {
    seq(|hist.rows|, i requires 0 <= i < |hist.rows| => ContextRow(hist.rows[i], contextLen))
  }

  /** `np.full((n, 1), freq)`: the frequency input, `freq` in every row. */
  function FreqColumn(n: nat, freq: int): (col: seq<int>)
    ensures |col| == n && forall i :: 0 <= i < n ==> col[i] == freq
  {
    seq(n, _ => freq)
  }

  /** `squeeze(2)` on one series of single-value rows: the series as a row of values. */
  function Squeeze(rows: seq<Row>): (r: seq<real>)
    ensures |r| == |rows|
    ensures forall t :: 0 <= t < |rows| && |rows[t]| == 1 ==> r[t] == rows[t][0]
  {
    seq(|rows|, t requires 0 <= t < |rows| => if |rows[t]| == 1 then rows[t][0] else 0.0)
  }

  /**
   * The history matrix: the transposed values of one series frame (one row
   * per column), or the panel's cube with its single variable squeezed out;
   * `squeeze(2)` refuses a panel of several variables.
   */
  function HistoryMatrix(y: Frame): (r: Result<Matrix>)
    requires y.Valid()
    ensures r.Ok? ==> r.value.Valid()
    ensures !y.multi ==> (r.Ok? && |r.value.rows| == |y.columns| && r.value.cols == |y.values|
      && forall c, t :: 0 <= c < |y.columns| && 0 <= t < |y.values| ==> r.value.rows[c][t] == y.values[t][c])
    ensures y.multi && Frame2Numpy(y).Err? ==> r == Err(Frame2Numpy(y).error)
    ensures y.multi && Frame2Numpy(y).Ok? ==> (r.Ok? <==> Frame2Numpy(y).value.width == 1)
    ensures y.multi && r.Err? && Frame2Numpy(y).Ok? ==> r.error == ShapeMismatch
    ensures y.multi && r.Ok? ==>
      var c := Frame2Numpy(y).value;
      |r.value.rows| == c.num && r.value.cols == c.len
      && forall n, t :: 0 <= n < c.num && 0 <= t < c.len ==> r.value.rows[n][t] == c.data[n][t][0]
  {
    if !y.multi then
      Ok(Matrix(seq(|y.columns|, c requires 0 <= c < |y.columns| =>
        seq(|y.values|, t requires 0 <= t < |y.values| => y.values[t][c])), |y.values|))
    else
      match Frame2Numpy(y)
      case Err(e) => Err(e)
      case Ok(c) =>
        if c.width != 1 then Err(ShapeMismatch)
        else
          Ok(Matrix(seq(c.num, n requires 0 <= n < c.num =>
            assert forall t :: 0 <= t < c.len ==> c.data[n][t] in c.data[n]; Squeeze(c.data[n])), c.len))
  }

  /** The decoder's forecast matrix as a frame's rows: one single-value row per step. */
  function ForecastRows(pred: seq<seq<real>>): (outputs: seq<seq<Row>>)
    ensures |outputs| == |pred|
    ensures forall j :: 0 <= j < |pred| ==> |outputs[j]| == |pred[j]|
  {
    seq(|pred|, j requires 0 <= j < |pred| => seq(|pred[j]|, t requires 0 <= t < |pred[j]| => [pred[j][t]]))
  }

  /**
   * What `_predict` returns with a fitted horizon `horizon`: the horizon
   * check, which comes before any model call; then the history matrix; then
   * the decoder's forecast, labelled and filtered.
   */
  function PredictResult(y: Frame, cutoff: int, fh: seq<int>, contextLen: nat, horizon: nat, freq: int, decode: Decoder): (r: Result<Frame>)
    requires y.Valid()
    ensures fh == [] ==> r == Err(EmptySequence)
    ensures fh != [] ==> (Max(fh) > horizon <==> r == Err(HorizonExceeded(horizon)))
  {
    if fh == [] then Err(EmptySequence)
    else if Max(fh) > horizon then Err(HorizonExceeded(horizon))
    else
      match HistoryMatrix(y)
      case Err(e) => Err(e)
      case Ok(hist) =>
        var n := |hist.rows|;
        var pred := decode(ContextRows(hist, contextLen), PadRows(n, contextLen, horizon, hist.cols), FreqColumn(n, freq), horizon);
        var r := Forecast(y, cutoff, fh, ForecastRows(pred));
        assert r.Err? ==> r.error != HorizonExceeded(horizon);
        r
  }

  /** A horizon fitted on `fh` is never exceeded by predicting on that same `fh`. */
  lemma FittedHorizonSuffices(horizonLen: nat, fh: seq<int>, y: Frame, cutoff: int, contextLen: nat, freq: int, decode: Decoder)
    requires y.Valid() && EffectiveHorizon(horizonLen, Some(fh)).Ok?
    ensures PredictResult(y, cutoff, fh, contextLen, EffectiveHorizon(horizonLen, Some(fh)).value, freq, decode)
      != Err(HorizonExceeded(EffectiveHorizon(horizonLen, Some(fh)).value))
  {
  }

  /**
   * On a one-variable panel laid out as the product of sorted distinct
   * instance labels and one common time index, the history matrix has one
   * row per instance: row `j` is the values of instance `ids[j]` in time order.
   */
  lemma PanelHistory(names: seq<string>, columns: seq<string>, ids: seq<int>, times: seq<int>, values: seq<Row>)
    requires |values| == |ids| * |times| && |ids| > 0 && |times| > 0 && |columns| == 1
    requires StrictlySorted(ids)
    requires forall p :: 0 <= p < |values| ==> |values[p]| == 1
    ensures FromProduct(names, columns, ids, times, values).Valid()
    ensures HistoryMatrix(FromProduct(names, columns, ids, times, values)).Ok?
    ensures var hist := HistoryMatrix(FromProduct(names, columns, ids, times, values)).value;
      |hist.rows| == |ids| && hist.cols == |times|
      && forall j :: 0 <= j < |ids| ==> hist.rows[j] == Squeeze(InstanceRows(ids, times, values, j))
  {
    var y := FromProduct(names, columns, ids, times, values);
    FromProductLayout(names, columns, ids, times, values);
    var c := Frame2Numpy(y).value;
    assert c.width == 1 && c.num == |ids| && c.len == |times|;
    var hist := HistoryMatrix(y).value;
    forall j | 0 <= j < |ids| ensures hist.rows[j] == Squeeze(InstanceRows(ids, times, values, j)) {
      assert c.data[j] == InstanceRows(ids, times, values, j);
      forall t | 0 <= t < |times| ensures hist.rows[j][t] == Squeeze(c.data[j])[t] {
        assert c.data[j][t] in c.data[j];
      }
    }
  }

  /** On such a panel, decoder input row `j` is the context of instance `ids[j]`. */
  lemma PanelDecoderInput(names: seq<string>, columns: seq<string>, ids: seq<int>, times: seq<int>, values: seq<Row>, contextLen: nat)
    requires |values| == |ids| * |times| && |ids| > 0 && |times| > 0 && |columns| == 1
    requires StrictlySorted(ids)
    requires forall p :: 0 <= p < |values| ==> |values[p]| == 1
    ensures FromProduct(names, columns, ids, times, values).Valid()
    ensures HistoryMatrix(FromProduct(names, columns, ids, times, values)).Ok?
    ensures var inputs := ContextRows(HistoryMatrix(FromProduct(names, columns, ids, times, values)).value, contextLen);
      |inputs| == |ids|
      && forall j :: 0 <= j < |ids| ==> inputs[j] == ContextRow(Squeeze(InstanceRows(ids, times, values, j)), contextLen)
  {
    PanelHistory(names, columns, ids, times, values);
  }

  /**
   * A successful TimesFM forecast of such a panel is labelled exactly by
   * the pairs (id, cutoff + s) with `id` an instance, `s` a requested step
   * and `s` at most the decoder's output length; the row labelled
   * (ids[j], cutoff + s) holds entry `s - 1` of the decoder's row `j`, and
   * decoder row `j` is the forecast for the context of instance `ids[j]`.
   */
  lemma PredictPanel(names: seq<string>, columns: seq<string>, ids: seq<int>, times: seq<int>, values: seq<Row>,
                     cutoff: int, fh: seq<int>, contextLen: nat, horizon: nat, freq: int, decode: Decoder)
    requires |values| == |ids| * |times| && |ids| > 0 && |times| > 0 && |columns| == 1
    requires StrictlySorted(ids)
    requires forall p :: 0 <= p < |values| ==> |values[p]| == 1
    requires FromProduct(names, columns, ids, times, values).Valid()
    requires PredictResult(FromProduct(names, columns, ids, times, values), cutoff, fh, contextLen, horizon, freq, decode).Ok?
    ensures HistoryMatrix(FromProduct(names, columns, ids, times, values)).Ok?
    ensures var y := FromProduct(names, columns, ids, times, values);
      var hist := HistoryMatrix(y).value;
      var pred := decode(ContextRows(hist, contextLen), PadRows(|ids|, contextLen, horizon, |times|), FreqColumn(|ids|, freq), horizon);
      var r := PredictResult(y, cutoff, fh, contextLen, horizon, freq, decode).value;
      && |ContextRows(hist, contextLen)| == |ids|
      && r.Valid() && r.multi && pred != []
      && (forall key :: key in r.index <==>
            key.Pair? && key.instance in ids && key.time - cutoff in fh && 1 <= key.time - cutoff <= |pred[0]|)
      && (|pred[0]| > 0 ==> (|pred| == |ids|
            && (forall j :: 0 <= j < |pred| ==> |ForecastRows(pred)[j]| == |pred[0]|)
            && RowsFromOutputs(r, ids, cutoff, ForecastRows(pred))))
  {
    var y := FromProduct(names, columns, ids, times, values);
    PanelHistory(names, columns, ids, times, values);
    FromProductLayout(names, columns, ids, times, values);
    ProductSameIndex(y, ids, times);
    ProductInstances(ids, times);
    var hist := HistoryMatrix(y).value;
    var pred := decode(ContextRows(hist, contextLen), PadRows(|ids|, contextLen, horizon, |times|), FreqColumn(|ids|, freq), horizon);
    var outs := ForecastRows(pred);
    assert PredictResult(y, cutoff, fh, contextLen, horizon, freq, decode) == Forecast(y, cutoff, fh, outs);
    PanelForecastLabels(y, cutoff, outs, fh);
    PanelForecastValues(y, cutoff, outs, fh);
  }

  /** The history matrix of one single-variable series is that series as one row. */
  lemma SeriesHistory(y: Frame)
    requires y.Valid() && !y.multi && |y.columns| == 1
    ensures HistoryMatrix(y).Ok? && HistoryMatrix(y).value.rows == [Squeeze(y.values)]
  {
    var hist := HistoryMatrix(y).value;
    forall t | 0 <= t < |y.values| ensures hist.rows[0][t] == Squeeze(y.values)[t] {
    }
    assert hist.rows[0] == Squeeze(y.values);
  }

  /**
   * A successful TimesFM forecast of one single-variable series gives the
   * decoder one input row, the series; the forecast is labelled exactly by
   * the requested steps up to the decoder's output length, and the row at
   * cutoff + s holds entry `s - 1` of the decoder's one output row.
   */
  lemma PredictSeries(y: Frame, cutoff: int, fh: seq<int>, contextLen: nat, horizon: nat, freq: int, decode: Decoder)
    requires y.Valid() && !y.multi && |y.columns| == 1
    requires PredictResult(y, cutoff, fh, contextLen, horizon, freq, decode).Ok?
    ensures HistoryMatrix(y).Ok?
    ensures var hist := HistoryMatrix(y).value;
      var pred := decode(ContextRows(hist, contextLen), PadRows(1, contextLen, horizon, |y.values|), FreqColumn(1, freq), horizon);
      var r := PredictResult(y, cutoff, fh, contextLen, horizon, freq, decode).value;
      && pred != [] && |r.values| == |r.index|
      && (forall key :: key in r.index <==> key.Flat? && key.time - cutoff in fh && 1 <= key.time - cutoff <= |pred[0]|)
      && (forall q :: 0 <= q < |r.index| ==>
            1 <= r.index[q].time - cutoff <= |pred[0]| && r.values[q] == [pred[0][r.index[q].time - cutoff - 1]])
  {
    SeriesHistory(y);
    var hist := HistoryMatrix(y).value;
    var pred := decode(ContextRows(hist, contextLen), PadRows(1, contextLen, horizon, |y.values|), FreqColumn(1, freq), horizon);
    var outs := ForecastRows(pred);
    assert PredictResult(y, cutoff, fh, contextLen, horizon, freq, decode) == Forecast(y, cutoff, fh, outs);
    SeriesForecastRows(y, cutoff, outs, fh);
    SingleValueForecast(PredictResult(y, cutoff, fh, contextLen, horizon, freq, decode).value, cutoff, fh, pred);
  }

  /** A series forecast from the first decoder row, as single-value rows, holds that row's entries. */
  lemma SingleValueForecast(r: Frame, cutoff: int, fh: seq<int>, pred: seq<seq<real>>)
    requires pred != [] && SeriesForecastOf(r, cutoff, fh, ForecastRows(pred)[0])
    ensures |r.values| == |r.index|
    ensures forall key :: key in r.index <==> key.Flat? && key.time - cutoff in fh && 1 <= key.time - cutoff <= |pred[0]|
    ensures forall q :: 0 <= q < |r.index| ==>
      1 <= r.index[q].time - cutoff <= |pred[0]| && r.values[q] == [pred[0][r.index[q].time - cutoff - 1]]
  {
    var out := ForecastRows(pred)[0];
    forall q | 0 <= q < |r.index|
      ensures 1 <= r.index[q].time - cutoff <= |pred[0]| && r.values[q] == [pred[0][r.index[q].time - cutoff - 1]]
    {
      assert out[r.index[q].time - cutoff - 1] == [pred[0][r.index[q].time - cutoff - 1]];
    }
  }

  /** The values of a two-dimensional array, row by row. */
  function Grid(a: array2<real>): (rows: seq<seq<real>>)
    reads a
    ensures |rows| == a.Length0
    ensures forall i :: 0 <= i < a.Length0 ==> |rows[i]| == a.Length1
  {
    seq(a.Length0, i requires 0 <= i < a.Length0 reads a => seq(a.Length1, j requires 0 <= j < a.Length1 reads a => a[i, j]))
  }

  class TimesFMForecaster {
    const contextLen: nat
    const horizonLen: nat
    const freq: int
    /** `_horizon_len`: unset until fitted. */
    var horizon: Option<nat>

    constructor(contextLen: nat, horizonLen: nat, freq: int)
      ensures this.contextLen == contextLen && this.horizonLen == horizonLen && this.freq == freq
      ensures horizon == None
    {
      this.contextLen, this.horizonLen, this.freq := contextLen, horizonLen, freq;
      horizon := None;
    }

    /** `_fit` on the relative horizon `fh`, if any. */
    method Fit(fh: Option<seq<int>>) returns (err: Option<Error>)
      modifies this
      ensures EffectiveHorizon(horizonLen, fh).Ok? ==> err == None && horizon == Some(EffectiveHorizon(horizonLen, fh).value)
      ensures EffectiveHorizon(horizonLen, fh).Err? ==> err == Some(NotIterable) && horizon == old(horizon)
    {
      var h := EffectiveHorizon(horizonLen, fh);
      if h.Err? {
        return Some(h.error);
      }
      horizon := Some(h.value);
      return None;
    }

    /**
     * `np.zeros((n, contextLen + h))` with the first `contextLen - t`
     * columns then set to 1 when the series are shorter than the context.
     */
    method BuildPads(n: nat, t: nat, h: nat) returns (pads: array2<real>)
      ensures fresh(pads) && pads.Length0 == n && pads.Length1 == contextLen + h
      ensures forall i, j :: 0 <= i < n && 0 <= j < contextLen + h ==>
        pads[i, j] == PadRow(contextLen, h, t)[j]
    {
      pads := new real[n, contextLen + h]((i, j) => 0.0);
      if t < contextLen {
        var padLen := contextLen - t;
        var i := 0;
        while i < n
          invariant 0 <= i <= n
          invariant forall a, b :: 0 <= a < n && 0 <= b < contextLen + h ==>
            pads[a, b] == (if a < i && b < padLen then 1.0 else 0.0)
        {
          var j := 0;
          while j < padLen
            invariant 0 <= j <= padLen
            invariant forall a, b :: 0 <= a < n && 0 <= b < contextLen + h ==>
              pads[a, b] == (if (a < i || (a == i && b < j)) && b < padLen then 1.0 else 0.0)
          {
            pads[i, j] := 1.0;
            j := j + 1;
          }
          i := i + 1;
        }
      }
    }

    /** `_predict_pytorch`: builds the three decoder inputs and calls the decoder. */
    method PredictPytorch(hist: Matrix, decode: Decoder) returns (pred: seq<seq<real>>)
      requires horizon.Some?
      ensures pred == decode(ContextRows(hist, contextLen),
        PadRows(|hist.rows|, contextLen, horizon.value, hist.cols), FreqColumn(|hist.rows|, freq), horizon.value)
    {
      var n := |hist.rows|;
      var inputs := ContextRows(hist, contextLen);
      var pads := BuildPads(n, hist.cols, horizon.value);
      var freqs := FreqColumn(n, freq);
      var padRows := Grid(pads);
      forall i | 0 <= i < n ensures padRows[i] == PadRow(contextLen, horizon.value, hist.cols) {
        assert forall j :: 0 <= j < contextLen + horizon.value ==> padRows[i][j] == pads[i, j];
      }
      assert padRows == PadRows(n, contextLen, horizon.value, hist.cols);
      pred := decode(inputs, padRows, freqs, horizon.value);
    }

    /** `_predict` on the relative horizon `fh`. */
    method Predict(y: Frame, cutoff: int, fh: seq<int>, decode: Decoder) returns (r: Result<Frame>)
      requires y.Valid()
      ensures horizon.None? ==> r == Err(NotFitted)
      ensures horizon.Some? ==> r == PredictResult(y, cutoff, fh, contextLen, horizon.value, freq, decode)
    {
      if horizon.None? {
        return Err(NotFitted);
      }
      if fh == [] {
        return Err(EmptySequence);
      }
      if Max(fh) > horizon.value {
        return Err(HorizonExceeded(horizon.value));
      }
      var hist := HistoryMatrix(y);
      if hist.Err? {
        return Err(hist.error);
      }
      var pred := PredictPytorch(hist.value, decode);
      r := Forecast(y, cutoff, fh, ForecastRows(pred));
    }
  }
}
