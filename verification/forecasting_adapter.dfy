/**
 * `BaseDeepNetworkPyTorch`, the adapter between sktime forecasters and
 * PyTorch networks: fitting trains the network on every window of the
 * training panel for a fixed number of epochs; predicting runs the network
 * on the last `seq_len` steps of every series and labels its outputs with
 * the instances and the steps after the cutoff, keeping the requested steps.
 *
 * The network is a function from one history window to the window of
 * predicted rows; its weights, and the effect of training on them, are not
 * modelled.
 */
module ForecastingAdapter {
  import opened Common
  import opened Seqs
  import opened PySlice
  import opened Unique
  import opened Panel
  import opened Reconstruction
  import opened Registry
  import opened Training
  import opened ForecastingDatasets

  /** What `_build_network` fixes: the window lengths of the network. */
  datatype Network = Network(seqLen: nat, predLen: nat)

  /** The network's output for every window of the test split, in window order. */
  function TestOutputs(c: Cube, seqLen: nat, net: seq<Row> -> seq<Row>): (outs: seq<seq<Row>>)
    requires c.Valid()
    ensures |outs| == |Windows(TestCube(c, seqLen).data, seqLen, 0)|
  {
    var ws := Windows(TestCube(c, seqLen).data, seqLen, 0);
    seq(|ws|, i requires 0 <= i < |ws| => net(ws[i].history))
  }

  /**
   * What `_predict` returns with a fitted network of history length
   * `seqLen`: the data preparation error, the shuffling data loader's
   * refusal of a test split without windows (its random sampler is built
   * before its batch sampler), its refusal of a batch size below one, or
   * the labelled and filtered outputs of the test windows.
   */
  function PredictResult(y: Frame, cutoff: int, fh: seq<int>, seqLen: nat, batchSize: int, net: seq<Row> -> seq<Row>): Result<Frame>
    requires y.Valid()
  {
    match PrepareData(y)
    case Err(e) => Err(e)
    case Ok(c) =>
      if |Windows(TestCube(c, seqLen).data, seqLen, 0)| == 0 then Err(EmptyDataset)
      else if batchSize <= 0 then Err(InvalidBatchSize)
      else Forecast(y, cutoff, fh, TestOutputs(c, seqLen, net))
  }

  /** When every series is shorter than `seqLen`, the test loader has no windows and `_predict` fails building it. */
  lemma ShortTestSplit(y: Frame, cutoff: int, fh: seq<int>, seqLen: nat, batchSize: int, net: seq<Row> -> seq<Row>)
    requires y.Valid() && PrepareData(y).Ok? && PrepareData(y).value.len < seqLen
    ensures PredictResult(y, cutoff, fh, seqLen, batchSize, net) == Err(EmptyDataset)
  {
    var c := PrepareData(y).value;
    ShortCubeNoWindows(TestCube(c, seqLen), seqLen, 0);
  }

  /**
   * The training data loader of `build_dataloader`: the prepared cube's
   * windows in batches of `batchSize`. The result is the number of batches
   * per epoch, or the data preparation error, or the shuffling loader's
   * refusal of a split without windows, or its refusal of a batch size
   * below one, in that order.
   */
  function TrainBatches(y: Frame, seqLen: nat, predLen: nat, batchSize: int): (r: Result<nat>)
    requires y.Valid()
    ensures PrepareData(y).Err? ==> r == Err(PrepareData(y).error)
    ensures PrepareData(y).Ok? && |Windows(PrepareData(y).value.data, seqLen, predLen)| == 0 ==> r == Err(EmptyDataset)
    ensures PrepareData(y).Ok? && |Windows(PrepareData(y).value.data, seqLen, predLen)| > 0 && batchSize <= 0 ==>
      r == Err(InvalidBatchSize)
    ensures r.Ok? ==> (batchSize > 0 && PrepareData(y).Ok? && r.value > 0
      && r.value == |Chunks(Windows(PrepareData(y).value.data, seqLen, predLen), batchSize)|)
  {
    match PrepareData(y)
    case Err(e) => Err(e)
    case Ok(c) =>
      var n := |Windows(c.data, seqLen, predLen)|;
      if n == 0 then Err(EmptyDataset)
      else if batchSize <= 0 then Err(InvalidBatchSize)
      else
        ChunksCount(Windows(c.data, seqLen, predLen), batchSize);
        Ok((n + batchSize - 1) / batchSize)
  }

  /** When every series is shorter than one window, the training loader has no windows and `_fit` fails building it. */
  lemma ShortTrainSplit(y: Frame, seqLen: nat, predLen: nat, batchSize: int)
    requires y.Valid() && PrepareData(y).Ok? && PrepareData(y).value.len < seqLen + predLen
    ensures TrainBatches(y, seqLen, predLen, batchSize) == Err(EmptyDataset)
  {
    ShortCubeNoWindows(PrepareData(y).value, seqLen, predLen);
  }

  /** Applies the network to the windows at the given item indices. */
  function BatchOutputs(ws: seq<Window>, items: seq<int>, net: seq<Row> -> seq<Row>): (outs: seq<seq<Row>>)
    ensures |outs| == |items|
  {
    seq(|items|, k requires 0 <= k < |items| => if 0 <= items[k] < |ws| then net(ws[items[k]].history) else [])
  }

  /** Adding one batch of outputs extends the outputs of the batches so far by those of that batch. */
  lemma BatchStep(ws: seq<Window>, batches: seq<seq<int>>, b: nat, pred: seq<seq<seq<Row>>>, out: seq<seq<Row>>, net: seq<Row> -> seq<Row>)
    requires b < |batches|
    requires Flatten(pred) == BatchOutputs(ws, Flatten(batches[..b]), net)
    requires out == BatchOutputs(ws, batches[b], net)
    ensures Flatten(pred + [out]) == BatchOutputs(ws, Flatten(batches[..b + 1]), net)
  {
    FlattenSnoc(pred, out);
    assert batches[..b + 1] == batches[..b] + [batches[b]];
    FlattenSnoc(batches[..b], batches[b]);
    BatchOutputsAppend(ws, Flatten(batches[..b]), batches[b], net);
  }

  /** The outputs on two runs of item indices, one after the other, are the outputs on each. */
  lemma BatchOutputsAppend(ws: seq<Window>, a: seq<int>, c: seq<int>, net: seq<Row> -> seq<Row>)
    ensures BatchOutputs(ws, a + c, net) == BatchOutputs(ws, a, net) + BatchOutputs(ws, c, net)
  {
    var l, r := BatchOutputs(ws, a + c, net), BatchOutputs(ws, a, net) + BatchOutputs(ws, c, net);
    forall k | 0 <= k < |l| ensures l[k] == r[k] {
      if k < |a| {
        assert (a + c)[k] == a[k];
      } else {
        assert (a + c)[k] == c[k - |a|];
      }
    }
  }

  /** The network's outputs on the dataset's items are its outputs on the reference windows. */
  lemma ItemOutputs(dataset: WindowDataset, batch: seq<int>, out: seq<seq<Row>>, net: seq<Row> -> seq<Row>)
    requires dataset.Valid() && |out| == |batch|
    requires forall k :: 0 <= k < |batch| ==> 0 <= batch[k] < dataset.Length()
    requires forall k :: 0 <= k < |batch| ==> out[k] == net(dataset.GetItem(batch[k]).history)
    ensures out == BatchOutputs(Windows(dataset.y, dataset.seqLen, dataset.predLen), batch, net)
  {
    var ws := Windows(dataset.y, dataset.seqLen, dataset.predLen);
    forall k | 0 <= k < |batch| ensures out[k] == BatchOutputs(ws, batch, net)[k] {
      dataset.GetItemWindow(batch[k]);
    }
  }

  /** The network's output for the last `seqLen` rows of each instance, in id order. */
  function PanelOutputs(ids: seq<int>, times: seq<int>, values: seq<Row>, seqLen: nat, net: seq<Row> -> seq<Row>): (outs: seq<seq<Row>>)
    requires |values| == |ids| * |times|
    ensures |outs| == |ids|
  {
    seq(|ids|, j requires 0 <= j < |ids| => net(Last(InstanceRows(ids, times, values, j), seqLen)))
  }

  /**
   * On a panel with sorted distinct instance ids and a common time index of
   * at least `seqLen > 0` steps, the network is run once per instance, on
   * that instance's last `seqLen` rows, and the instances come out in id order.
   */
  lemma PredictPanelOutputs(names: seq<string>, columns: seq<string>, ids: seq<int>, times: seq<int>, values: seq<Row>,
                            cutoff: int, fh: seq<int>, seqLen: nat, batchSize: int, net: seq<Row> -> seq<Row>)
    requires |values| == |ids| * |times| && |ids| > 0 && |times| > 0 && |columns| > 0
    requires StrictlySorted(ids)
    requires forall p :: 0 <= p < |values| ==> |values[p]| == |columns|
    requires 0 < seqLen <= |times| && batchSize > 0
    ensures FromProduct(names, columns, ids, times, values).Valid()
    ensures SortedUnique(Instances(ProductIndex(ids, times))) == ids
    ensures PrepareData(FromProduct(names, columns, ids, times, values)).Ok?
    ensures TestOutputs(PrepareData(FromProduct(names, columns, ids, times, values)).value, seqLen, net)
      == PanelOutputs(ids, times, values, seqLen, net)
    ensures PredictResult(FromProduct(names, columns, ids, times, values), cutoff, fh, seqLen, batchSize, net)
      == Forecast(FromProduct(names, columns, ids, times, values), cutoff, fh, PanelOutputs(ids, times, values, seqLen, net))
  {
    var y := FromProduct(names, columns, ids, times, values);
    FromProductLayout(names, columns, ids, times, values);
    ProductSameIndex(y, ids, times);
    var c := Frame2Numpy(y).value;
    assert PrepareData(y) == Ok(c);
    var outs := PanelOutputs(ids, times, values, seqLen, net);
    TestOutputsLast(c, seqLen, net);
    forall j | 0 <= j < |ids| ensures TestOutputs(c, seqLen, net)[j] == outs[j] {
      assert c.data[j] == InstanceRows(ids, times, values, j);
    }
    assert TestOutputs(c, seqLen, net) == outs;
  }

  /** With every series at least `seqLen > 0` long, the test outputs are the network applied to each series' last `seqLen` steps. */
  lemma TestOutputsLast(c: Cube, seqLen: nat, net: seq<Row> -> seq<Row>)
    requires c.Valid() && 0 < seqLen <= c.len
    ensures |TestOutputs(c, seqLen, net)| == c.num
    ensures forall n :: 0 <= n < c.num ==> TestOutputs(c, seqLen, net)[n] == net(Last(c.data[n], seqLen))
  {
    TestWindows(c, seqLen);
  }

  /**
   * A successful panel forecast is labelled exactly by the pairs (id, cutoff
   * + s) with `id` an instance of the panel, `s` a requested step, and `s`
   * at most the length of the network's output.
   */
  lemma PredictPanelLabels(names: seq<string>, columns: seq<string>, ids: seq<int>, times: seq<int>, values: seq<Row>,
                           cutoff: int, fh: seq<int>, seqLen: nat, batchSize: int, net: seq<Row> -> seq<Row>)
    requires |values| == |ids| * |times| && |ids| > 0 && |times| > 0 && |columns| > 0
    requires StrictlySorted(ids)
    requires forall p :: 0 <= p < |values| ==> |values[p]| == |columns|
    requires 0 < seqLen <= |times| && batchSize > 0
    requires FromProduct(names, columns, ids, times, values).Valid()
    requires PredictResult(FromProduct(names, columns, ids, times, values), cutoff, fh, seqLen, batchSize, net).Ok?
    ensures var r := PredictResult(FromProduct(names, columns, ids, times, values), cutoff, fh, seqLen, batchSize, net).value;
      var h := |PanelOutputs(ids, times, values, seqLen, net)[0]|;
      forall key :: key in r.index <==>
        key.Pair? && key.instance in ids && key.time - cutoff in fh && 1 <= key.time - cutoff <= h
  {
    var y := FromProduct(names, columns, ids, times, values);
    var outs := PanelOutputs(ids, times, values, seqLen, net);
    PredictPanelOutputs(names, columns, ids, times, values, cutoff, fh, seqLen, batchSize, net);
    PanelForecastLabels(y, cutoff, outs, fh);
    ProductInstances(ids, times);
  }

  /**
   * In a successful panel forecast the row labelled (ids[j], cutoff + s)
   * holds row `s - 1` of the network's output for the last `seqLen` rows of
   * instance `ids[j]`.
   */
  lemma PredictPanelRows(names: seq<string>, columns: seq<string>, ids: seq<int>, times: seq<int>, values: seq<Row>,
                         cutoff: int, fh: seq<int>, seqLen: nat, batchSize: int, net: seq<Row> -> seq<Row>)
    requires |values| == |ids| * |times| && |ids| > 0 && |times| > 0 && |columns| > 0
    requires StrictlySorted(ids)
    requires forall p :: 0 <= p < |values| ==> |values[p]| == |columns|
    requires 0 < seqLen <= |times| && batchSize > 0
    requires FromProduct(names, columns, ids, times, values).Valid()
    requires PredictResult(FromProduct(names, columns, ids, times, values), cutoff, fh, seqLen, batchSize, net).Ok?
    ensures var r := PredictResult(FromProduct(names, columns, ids, times, values), cutoff, fh, seqLen, batchSize, net).value;
      var outs := PanelOutputs(ids, times, values, seqLen, net);
      && r.Valid() && r.multi
      && (forall j :: 0 <= j < |outs| ==> |outs[j]| == |outs[0]|)
      && RowsFromOutputs(r, ids, cutoff, outs)
  {
    var y := FromProduct(names, columns, ids, times, values);
    var outs := PanelOutputs(ids, times, values, seqLen, net);
    PredictPanelOutputs(names, columns, ids, times, values, cutoff, fh, seqLen, batchSize, net);
    PanelForecastValues(y, cutoff, outs, fh);
    var r := PanelForecast(y, cutoff, outs, fh);
    if |outs[0]| == 0 {
      assert r.index == [];
    }
  }

  /**
   * A successful forecast of one series of at least `seqLen > 0` steps runs
   * the network once, on its last `seqLen` rows, and the row at cutoff + s
   * is row `s - 1` of that output, for exactly the requested steps `s` up to
   * the output's length.
   */
  lemma PredictSeries(y: Frame, cutoff: int, fh: seq<int>, seqLen: nat, batchSize: int, net: seq<Row> -> seq<Row>)
    requires y.Valid() && !y.multi && 0 < seqLen <= |y.values| && batchSize > 0
    requires PredictResult(y, cutoff, fh, seqLen, batchSize, net).Ok?
    ensures SeriesForecastOf(PredictResult(y, cutoff, fh, seqLen, batchSize, net).value, cutoff, fh,
                             net(y.values[|y.values| - seqLen..]))
  {
    var outs := [net(y.values[|y.values| - seqLen..])];
    SeriesTestOutputs(y, seqLen, net);
    assert PredictResult(y, cutoff, fh, seqLen, batchSize, net) == Forecast(y, cutoff, fh, outs);
    SeriesForecastRows(y, cutoff, outs, fh);
  }

  /** One series of at least `seqLen > 0` steps has one test window, its last `seqLen` rows. */
  lemma SeriesTestOutputs(y: Frame, seqLen: nat, net: seq<Row> -> seq<Row>)
    requires y.Valid() && !y.multi && 0 < seqLen <= |y.values|
    ensures PrepareData(y).Ok?
    ensures |Windows(TestCube(PrepareData(y).value, seqLen).data, seqLen, 0)| == 1
    ensures TestOutputs(PrepareData(y).value, seqLen, net) == [net(y.values[|y.values| - seqLen..])]
  {
    var c := PrepareData(y).value;
    var last := y.values[|y.values| - seqLen..];
    TestWindows(c, seqLen);
    assert c.data[0][c.len - seqLen..] == last;
    assert Windows(TestCube(c, seqLen).data, seqLen, 0) == [Window(last, [])];
  }

  /** `order` visits each of the `n` item indices exactly once. */
  predicate IsPermutation(order: seq<int>, n: nat) {
    |order| == n
    && (forall i :: 0 <= i < n ==> 0 <= order[i] < n)
    && (forall i, j :: 0 <= i < j < n ==> order[i] != order[j])
  }

  /**
   * The test outputs as `build_dataloader` actually delivers them for the
   * test split: its loader shuffles, so the windows are visited in some
   * permutation `order` of the item indices.
   */
  function ShuffledTestOutputs(c: Cube, seqLen: nat, net: seq<Row> -> seq<Row>, order: seq<int>): (outs: seq<seq<Row>>)
    requires c.Valid()
    ensures IsPermutation(order, |TestOutputs(c, seqLen, net)|) ==>
      |outs| == |TestOutputs(c, seqLen, net)|
      && forall i :: 0 <= i < |outs| ==> outs[i] == TestOutputs(c, seqLen, net)[order[i]]
  {
    var ins := TestOutputs(c, seqLen, net);
    seq(|order|, i requires 0 <= i < |order| => if 0 <= order[i] < |ins| then ins[order[i]] else [])
  }

  /** Under a permutation, the shuffled outputs are the test outputs in the visiting order. */
  lemma ShuffledVisits(c: Cube, seqLen: nat, net: seq<Row> -> seq<Row>, order: seq<int>, outs: seq<seq<Row>>)
    requires c.Valid() && TestOutputs(c, seqLen, net) == outs && IsPermutation(order, |outs|)
    ensures ShuffledTestOutputs(c, seqLen, net, order) == seq(|outs|, j requires 0 <= j < |outs| => outs[order[j]])
  {
    var v := ShuffledTestOutputs(c, seqLen, net, order);
    assert |v| == |outs|;
    forall j | 0 <= j < |outs| ensures v[j] == outs[order[j]] {
    }
  }

  /** `_predict` as written, with the test windows visited in the shuffled `order`. */
  function ShuffledPredictResult(y: Frame, cutoff: int, fh: seq<int>, seqLen: nat, batchSize: int,
                                 net: seq<Row> -> seq<Row>, order: seq<int>): Result<Frame>
    requires y.Valid()
  {
    match PrepareData(y)
    case Err(e) => Err(e)
    case Ok(c) =>
      if |Windows(TestCube(c, seqLen).data, seqLen, 0)| == 0 then Err(EmptyDataset)
      else if batchSize <= 0 then Err(InvalidBatchSize)
      else Forecast(y, cutoff, fh, ShuffledTestOutputs(c, seqLen, net, order))
  }

  /**
   * With the shuffled test loader, the row labelled (ids[j], cutoff + s)
   * holds row `s - 1` of the network's output for instance
   * `ids[order[j]]`: every instance whose window the loader does not visit
   * in its own position is given another instance's forecast.
   */
  lemma ShuffledPanelRows(names: seq<string>, columns: seq<string>, ids: seq<int>, times: seq<int>, values: seq<Row>,
                          cutoff: int, fh: seq<int>, seqLen: nat, batchSize: int, net: seq<Row> -> seq<Row>, order: seq<int>)
    requires |values| == |ids| * |times| && |ids| > 0 && |times| > 0 && |columns| > 0
    requires StrictlySorted(ids)
    requires forall p :: 0 <= p < |values| ==> |values[p]| == |columns|
    requires 0 < seqLen <= |times| && batchSize > 0
    requires IsPermutation(order, |ids|)
    requires FromProduct(names, columns, ids, times, values).Valid()
    requires ShuffledPredictResult(FromProduct(names, columns, ids, times, values), cutoff, fh, seqLen, batchSize, net, order).Ok?
    ensures var r := ShuffledPredictResult(FromProduct(names, columns, ids, times, values), cutoff, fh, seqLen, batchSize, net, order).value;
      var outs := PanelOutputs(ids, times, values, seqLen, net);
      var visited := seq(|ids|, j requires 0 <= j < |ids| => outs[order[j]]);
      && r.Valid() && r.multi
      && (forall j :: 0 <= j < |visited| ==> |visited[j]| == |visited[0]|)
      && RowsFromOutputs(r, ids, cutoff, visited)
  {
    var y := FromProduct(names, columns, ids, times, values);
    var outs := PanelOutputs(ids, times, values, seqLen, net);
    var visited := seq(|ids|, j requires 0 <= j < |ids| => outs[order[j]]);
    PredictPanelOutputs(names, columns, ids, times, values, cutoff, fh, seqLen, batchSize, net);
    ShuffledPanelForecast(names, columns, ids, times, values, cutoff, fh, seqLen, batchSize, net, order);
    PanelForecastValues(y, cutoff, visited, fh);
    var r := PanelForecast(y, cutoff, visited, fh);
    if |visited[0]| == 0 {
      assert r.index == [];
    }
  }

  /** On a product panel, the shuffled prediction labels the instances' outputs in the visiting order. */
  lemma ShuffledPanelForecast(names: seq<string>, columns: seq<string>, ids: seq<int>, times: seq<int>, values: seq<Row>,
                              cutoff: int, fh: seq<int>, seqLen: nat, batchSize: int, net: seq<Row> -> seq<Row>, order: seq<int>)
    requires |values| == |ids| * |times| && |ids| > 0 && |times| > 0 && |columns| > 0
    requires StrictlySorted(ids)
    requires forall p :: 0 <= p < |values| ==> |values[p]| == |columns|
    requires 0 < seqLen <= |times| && batchSize > 0
    requires IsPermutation(order, |ids|)
    ensures FromProduct(names, columns, ids, times, values).Valid()
    ensures var outs := PanelOutputs(ids, times, values, seqLen, net);
      ShuffledPredictResult(FromProduct(names, columns, ids, times, values), cutoff, fh, seqLen, batchSize, net, order)
      == Forecast(FromProduct(names, columns, ids, times, values), cutoff, fh,
                  seq(|ids|, j requires 0 <= j < |ids| => outs[order[j]]))
  {
    var y := FromProduct(names, columns, ids, times, values);
    var outs := PanelOutputs(ids, times, values, seqLen, net);
    PredictPanelOutputs(names, columns, ids, times, values, cutoff, fh, seqLen, batchSize, net);
    var c := PrepareData(y).value;
    ShuffledVisits(c, seqLen, net, order, outs);
    assert |Windows(TestCube(c, seqLen).data, seqLen, 0)| == |ids|;
  }

  class Forecaster {
    const numEpochs: nat
    const batchSize: int
    /** The history length of the networks this forecaster builds. */
    const seqLen: nat
    const criterion: Option<string>
    const criterionKwargs: Option<map<string, real>>
    const criterions: set<string>
    const optimizer: Option<string>
    const optimizerKwargs: Option<map<string, real>>
    const optimizers: set<string>
    const lr: real

    var network: Option<Network>
    var criterionCall: Option<Call<real>>
    var optimizerCall: Option<Call<real>>
    /** The training calls made so far. */
    var trace: seq<Event>

    constructor(numEpochs: nat, batchSize: int, seqLen: nat,
                criterion: Option<string>, criterionKwargs: Option<map<string, real>>, criterions: set<string>,
                optimizer: Option<string>, optimizerKwargs: Option<map<string, real>>, optimizers: set<string>,
                lr: real)
      ensures this.numEpochs == numEpochs && this.batchSize == batchSize && this.seqLen == seqLen
      ensures this.criterion == criterion && this.criterionKwargs == criterionKwargs && this.criterions == criterions
      ensures this.optimizer == optimizer && this.optimizerKwargs == optimizerKwargs && this.optimizers == optimizers
      ensures this.lr == lr
      ensures network == None && criterionCall == None && optimizerCall == None && trace == []
    {
      this.numEpochs, this.batchSize, this.seqLen := numEpochs, batchSize, seqLen;
      this.criterion, this.criterionKwargs, this.criterions := criterion, criterionKwargs, criterions;
      this.optimizer, this.optimizerKwargs, this.optimizers := optimizer, optimizerKwargs, optimizers;
      this.lr := lr;
      network, criterionCall, optimizerCall, trace := None, None, None, [];
    }

    /** `_instantiate_criterion`, with MSELoss as the default. */
    function CriterionChoice(): (r: Result<Call<real>>)
      ensures r.Err? <==> Truthy(criterion) && criterion.value !in criterions
      ensures !Truthy(criterion) ==> r == Ok(Call(Default("MSELoss"), map[]))
      ensures r.Ok? && Truthy(criterion) ==>
        r.value == Call(Entry(criterion.value), if TruthyMap(criterionKwargs) then criterionKwargs.value else map[])
    {
      Criterion(criterion, criterionKwargs, criterions, "MSELoss")
    }

    /** `_instantiate_optimizer`, with Adam as the default. */
    function OptimizerChoice(): (r: Result<Call<real>>)
      ensures !Truthy(optimizer) ==> r == Ok(Call(Default("Adam"), map[LR := lr]))
      ensures Truthy(optimizer) ==>
        (r.Err? <==> optimizer.value !in optimizers || (TruthyMap(optimizerKwargs) && LR in optimizerKwargs.value))
      ensures r.Ok? ==> LR in r.value.kwargs && r.value.kwargs[LR] == lr
    {
      Optimizer(optimizer, optimizerKwargs, optimizers, "Adam", lr)
    }

    /** `_run_epoch`: the five training calls for each batch, batch after batch. */
    method RunEpoch(epoch: nat, nb: nat)
      modifies this
      ensures trace == old(trace) + EpochEvents(epoch, nb)
      ensures network == old(network) && criterionCall == old(criterionCall) && optimizerCall == old(optimizerCall)
    {
      var b := 0;
      while b < nb
        invariant b <= nb
        invariant trace == old(trace) + EpochEvents(epoch, b)
        invariant network == old(network) && criterionCall == old(criterionCall) && optimizerCall == old(optimizerCall)
      {
        trace := trace + [Forward(epoch, b)];
        trace := trace + [ComputeLoss(epoch, b)];
        trace := trace + [ZeroGrad(epoch, b)];
        trace := trace + [Backward(epoch, b)];
        trace := trace + [Step(epoch, b)];
        b := b + 1;
      }
    }

    /** The epoch loop of `_fit`: `numEpochs` epochs of `nb` batches each. */
    method Train(nb: nat)
      modifies this
      ensures trace == old(trace) + FitEvents(numEpochs, nb)
      ensures network == old(network) && criterionCall == old(criterionCall) && optimizerCall == old(optimizerCall)
    {
      var epoch := 0;
      while epoch < numEpochs
        invariant epoch <= numEpochs
        invariant trace == old(trace) + FitEvents(epoch, nb)
        invariant network == old(network) && criterionCall == old(criterionCall) && optimizerCall == old(optimizerCall)
      {
        RunEpoch(epoch, nb);
        epoch := epoch + 1;
      }
    }

    /**
     * `build_dataloader` for training: prepares the cube, builds the window
     * dataset and batches it; the result is the number of batches.
     */
    method BuildDataloader(y: Frame, predLen: nat) returns (r: Result<nat>)
      requires y.Valid()
      ensures r == TrainBatches(y, seqLen, predLen, batchSize)
    {
      var prepared := PrepareData(y);
      if prepared.Err? {
        return Err(prepared.error);
      }
      var dataset := new WindowDataset(prepared.value, seqLen, predLen);
      dataset.LengthIsWindowCount();
      var n := dataset.Length();
      if n == 0 {
        return Err(EmptyDataset);
      }
      if batchSize <= 0 {
        return Err(InvalidBatchSize);
      }
      ChunksCount(Windows(prepared.value.data, seqLen, predLen), batchSize);
      return Ok((n + batchSize - 1) / batchSize);
    }

    /**
     * `_fit` on the relative horizon `fh`: builds a network predicting up to
     * the last horizon step, instantiates the criterion and then the
     * optimizer, and trains for `numEpochs` epochs over the batches of the
     * training windows. An error leaves the criterion and optimizer that were
     * not yet reached as they were.
     */
    method Fit(y: Frame, fh: seq<int>) returns (err: Option<Error>)
      requires y.Valid()
      requires forall k :: 0 <= k < |fh| ==> fh[k] > 0
      modifies this
      ensures fh == [] ==> err == Some(EmptySequence) && trace == old(trace) && network == old(network)
      ensures fh != [] ==> network == Some(Network(seqLen, fh[|fh| - 1]))
      ensures fh != [] && CriterionChoice().Err? ==> err == Some(CriterionChoice().error) && trace == old(trace)
      ensures fh != [] && CriterionChoice().Ok? ==> criterionCall == Some(CriterionChoice().value)
      ensures (fh == [] || CriterionChoice().Err?) ==> criterionCall == old(criterionCall)
      ensures (fh == [] || CriterionChoice().Err? || OptimizerChoice().Err?) ==> optimizerCall == old(optimizerCall)
      ensures fh != [] && CriterionChoice().Ok? && OptimizerChoice().Err? ==>
        err == Some(OptimizerChoice().error) && trace == old(trace)
      ensures fh != [] && CriterionChoice().Ok? && OptimizerChoice().Ok? ==>
        var batches := TrainBatches(y, seqLen, fh[|fh| - 1], batchSize);
        && optimizerCall == Some(OptimizerChoice().value)
        && (batches.Err? ==> err == Some(batches.error) && trace == old(trace))
        && (batches.Ok? ==> err == None && trace == old(trace) + FitEvents(numEpochs, batches.value))
    {
      if fh == [] {
        return Some(EmptySequence);
      }
      var predLen: nat := fh[|fh| - 1];
      network := Some(Network(seqLen, predLen));
      var c := CriterionChoice();
      if c.Err? {
        return Some(c.error);
      }
      criterionCall := Some(c.value);
      var o := OptimizerChoice();
      if o.Err? {
        return Some(o.error);
      }
      optimizerCall := Some(o.value);
      var loader := BuildDataloader(y, predLen);
      if loader.Err? {
        return Some(loader.error);
      }
      Train(loader.value);
      return None;
    }

    /**
     * The prediction loop of `_predict`: the network's outputs for each batch
     * of the dataset's windows, batch after batch, with the batches taken in
     * item order. Together they are the outputs of every window in order.
     */
    method PredictBatches(dataset: WindowDataset, net: seq<Row> -> seq<Row>) returns (pred: seq<seq<seq<Row>>>)
      requires dataset.Valid() && batchSize > 0
      ensures pred == [] <==> dataset.Length() == 0
      ensures var ws := Windows(dataset.y, dataset.seqLen, dataset.predLen);
        Flatten(pred) == seq(|ws|, i requires 0 <= i < |ws| => net(ws[i].history))
    {
      ghost var ws := Windows(dataset.y, dataset.seqLen, dataset.predLen);
      dataset.LengthIsWindowCount();
      var n := dataset.Length();
      var items := seq(n, i requires 0 <= i < n => i);
      var batches := Chunks(items, batchSize);
      pred := [];
      var b := 0;
      while b < |batches|
        invariant b <= |batches|
        invariant Flatten(pred) == BatchOutputs(ws, Flatten(batches[..b]), net)
        invariant pred == [] <==> b == 0
      {
        var batch := batches[b];
        forall k | 0 <= k < |batch| ensures 0 <= batch[k] < n {
          assert batch[k] in items;
        }
        var out := PredictBatch(dataset, batch, net);
        BatchStep(ws, batches, b, pred, out, net);
        pred := pred + [out];
        b := b + 1;
      }
      assert batches[..|batches|] == batches;
      FlattenChunks(items, batchSize);
      if n > 0 {
        assert items[0] in Flatten(batches);
      }
      assert BatchOutputs(ws, items, net) == seq(|ws|, i requires 0 <= i < |ws| => net(ws[i].history));
    }

    /** One step of the prediction loop: the network's outputs for the items of one batch. */
    method PredictBatch(dataset: WindowDataset, batch: seq<int>, net: seq<Row> -> seq<Row>) returns (out: seq<seq<Row>>)
      requires dataset.Valid()
      requires forall k :: 0 <= k < |batch| ==> 0 <= batch[k] < dataset.Length()
      ensures out == BatchOutputs(Windows(dataset.y, dataset.seqLen, dataset.predLen), batch, net)
    {
      out := seq(|batch|, k requires 0 <= k < |batch| => net(dataset.GetItem(batch[k]).history));
      ItemOutputs(dataset, batch, out, net);
    }

    /**
     * `_predict`: builds the test loader, which refuses a split without
     * windows, runs the network over its batches, concatenates the outputs
     * and labels them.
     */
    method Predict(y: Frame, cutoff: int, fh: seq<int>, net: seq<Row> -> seq<Row>) returns (r: Result<Frame>)
      requires y.Valid()
      ensures network.None? ==> r == Err(NotFitted)
      ensures network.Some? ==> r == PredictResult(y, cutoff, fh, network.value.seqLen, batchSize, net)
    {
      if network.None? {
        return Err(NotFitted);
      }
      var seqLen := network.value.seqLen;
      var prepared := PrepareData(y);
      if prepared.Err? {
        return Err(prepared.error);
      }
      var test := TestCube(prepared.value, seqLen);
      var dataset := new WindowDataset(test, seqLen, 0);
      dataset.LengthIsWindowCount();
      if dataset.Length() == 0 {
        return Err(EmptyDataset);
      }
      if batchSize <= 0 {
        return Err(InvalidBatchSize);
      }
      var pred := PredictBatches(dataset, net);
      var outputs := Flatten(pred);
      assert outputs == TestOutputs(prepared.value, seqLen, net);
      r := Forecast(y, cutoff, fh, outputs);
    }
  }
}
