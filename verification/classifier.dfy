/**
 * `BaseDeepClassifierPytorch` and its dataset: a time series classifier
 * trained on a three-dimensional array of (instance, variable, time)
 * values. The dataset stores the array with its last two axes swapped, so
 * that each item is a (time, variable) matrix, and pairs it with an
 * all-true padding mask and, during fitting, the instance's label.
 */
module Classifier {
  import opened Common
  import opened Seqs
  import opened Arith
  import opened Registry
  import opened Training

  /** A NumPy array of shape (|data|, rows, cols). */
  datatype Array3 = Array3(data: seq<seq<seq<real>>>, rows: nat, cols: nat)
  {
    predicate Valid() {
      forall i :: 0 <= i < |data| ==> |data[i]| == rows && forall r :: 0 <= r < rows ==> |data[i][r]| == cols
    }
  }

  /** `np.transpose(X, (0, 2, 1))`: every instance's matrix transposed. */
  function Transpose(a: Array3): (t: Array3)
    requires a.Valid()
    ensures t.Valid() && |t.data| == |a.data| && t.rows == a.cols && t.cols == a.rows
    ensures forall i, r, c :: 0 <= i < |a.data| && 0 <= r < a.cols && 0 <= c < a.rows ==>
      t.data[i][r][c] == a.data[i][c][r]
  {
    Array3(seq(|a.data|, i requires 0 <= i < |a.data| =>
      seq(a.cols, r requires 0 <= r < a.cols =>
        seq(a.rows, c requires 0 <= c < a.rows => a.data[i][c][r]))), a.cols, a.rows)
  }

  /** Swapping the two axes twice gives back the array. */
  lemma TransposeTwice(a: Array3)
    requires a.Valid()
    ensures Transpose(Transpose(a)) == a
  {
    var b := Transpose(Transpose(a));
    forall i | 0 <= i < |a.data| ensures b.data[i] == a.data[i] {
      forall r | 0 <= r < a.rows ensures b.data[i][r] == a.data[i][r] {
      }
    }
  }

  /** The model inputs of one item: its (time, variable) matrix and the padding mask. */
  datatype Inputs = Inputs(x: seq<seq<real>>, paddingMasks: seq<bool>)

  /** An item: the inputs, with the label when the dataset has labels. */
  datatype Item = Item(inputs: Inputs, target: Option<int>)

  /** `BaseDatasetPytorch` */
  class Dataset {
    /** The instances as (time, variable) matrices. */
    const x: Array3
    const y: Option<seq<int>>

    predicate Valid() {
      x.Valid()
    }

    constructor(X: Array3, y: Option<seq<int>>)
      requires X.Valid()
      ensures Valid() && x == Transpose(X) && this.y == y
    {
      x := Transpose(X);
      this.y := y;
    }

    /** `__len__`: one item per instance. */
    function Length(): (n: nat)
      ensures n == |x.data|
    {
      |x.data|
    }

    /**
     * `__getitem__`: the instance's matrix with a mask that is true at
     * every time step, and its label if there are labels; a label list
     * shorter than the instances fails on indexing.
     */
    function GetItem(i: int): (r: Result<Item>)
      requires Valid() && 0 <= i < Length()
      ensures r.Err? <==> y.Some? && i >= |y.value|
      ensures r.Err? ==> r.error == IndexOutOfRange
      ensures r.Ok? ==> r.value.inputs.x == x.data[i]
      ensures r.Ok? ==> (|r.value.inputs.paddingMasks| == x.rows
        && forall t :: 0 <= t < x.rows ==> r.value.inputs.paddingMasks[t])
      ensures r.Ok? ==> (r.value.target.Some? <==> y.Some?)
      ensures r.Ok? && y.Some? ==> r.value.target == Some(y.value[i])
    {
      var inputs := Inputs(x.data[i], seq(|x.data[i]|, _ => true));
      match y
      case None => Ok(Item(inputs, None))
      case Some(labels) =>
        if i < |labels| then Ok(Item(inputs, Some(labels[i]))) else Err(IndexOutOfRange)
    }

    /** Item `i` holds instance `i` of the original array, variable by variable, as a time-major matrix. */
    lemma GetItemInstance(X: Array3, i: int, t: nat, d: nat)
      requires X.Valid() && Valid() && x == Transpose(X) && 0 <= i < Length() && GetItem(i).Ok?
      requires t < X.cols && d < X.rows
      ensures GetItem(i).value.inputs.x[t][d] == X.data[i][d][t]
    {
    }
  }

  /**
   * The item indices of a data loader that does not shuffle, in batches of
   * `batchSize`; the loader refuses a batch size below one.
   */
  function Loader(n: nat, batchSize: int): (r: Result<seq<seq<int>>>)
    ensures r.Err? <==> batchSize <= 0
    ensures r.Err? ==> r.error == InvalidBatchSize
    ensures r.Ok? ==> Flatten(r.value) == seq(n, i requires 0 <= i < n => i)
    ensures r.Ok? ==> |r.value| == (n + batchSize - 1) / batchSize
    ensures r.Ok? ==> forall b :: 0 <= b < |r.value| ==> 0 < |r.value[b]| <= batchSize
  {
    if batchSize <= 0 then Err(InvalidBatchSize)
    else
      var items := seq(n, i requires 0 <= i < n => i);
      FlattenChunks(items, batchSize);
      ChunksCount(items, batchSize);
      Ok(Chunks(items, batchSize))
  }

  /**
   * With labels for only the first `m < n` instances, every batch of the
   * loader before batch `m / batchSize` holds labelled instances only, and
   * batch `m / batchSize` holds instance `m`, the first without a label.
   */
  lemma FailingBatch(n: nat, batchSize: int, m: nat)
    requires batchSize > 0 && m < n
    ensures Loader(n, batchSize).Ok?
    ensures var batches := Loader(n, batchSize).value;
      && m / batchSize < |batches|
      && m in batches[m / batchSize]
      && forall b, k :: 0 <= b < m / batchSize && 0 <= k < |batches[b]| ==> batches[b][k] < m
  {
    var items := seq(n, i requires 0 <= i < n => i);
    assert Loader(n, batchSize).value == Chunks(items, batchSize);
    UnlabelledBatch(items, batchSize, m);
  }

  /** The batch-level statement of `FailingBatch`, for the item list `0, 1, ..., |items| - 1`. */
  lemma UnlabelledBatch(items: seq<int>, batchSize: nat, m: nat)
    requires batchSize > 0 && m < |items|
    requires forall i :: 0 <= i < |items| ==> items[i] == i
    ensures var batches := Chunks(items, batchSize);
      && m / batchSize < |batches|
      && m in batches[m / batchSize]
      && forall b, k :: 0 <= b < m / batchSize && 0 <= k < |batches[b]| ==> batches[b][k] < m
  {
    var batches := Chunks(items, batchSize);
    var q := m / batchSize;
    InBlock(m, q, batchSize);
    ChunksCount(items, batchSize);
    BatchBelowCount(|items|, batchSize, m);
    ChunkAt(items, batchSize, q);
    assert batches[q][m - q * batchSize] == m;
    forall b, k | 0 <= b < q && 0 <= k < |batches[b]| ensures batches[b][k] < m {
      LabelledBatch(items, batchSize, b, k, q);
    }
  }

  /** The batch of an item index below `n` is below the number of batches. */
  lemma BatchBelowCount(n: nat, batchSize: nat, m: nat)
    requires batchSize > 0 && m < n
    ensures m / batchSize < (n + batchSize - 1) / batchSize
  {
    var q, count := m / batchSize, (n + batchSize - 1) / batchSize;
    InBlock(m, q, batchSize);
    InBlock(n + batchSize - 1, count, batchSize);
    if count <= q {
      MulMono(count + 1, q + 1, batchSize);
    }
  }

  /** An entry of a batch before batch `q` is below `q * batchSize`. */
  lemma LabelledBatch(items: seq<int>, batchSize: nat, b: nat, k: nat, q: nat)
    requires batchSize > 0 && b < q && b < |Chunks(items, batchSize)| && k < |Chunks(items, batchSize)[b]|
    requires forall i :: 0 <= i < |items| ==> items[i] == i
    ensures Chunks(items, batchSize)[b][k] < q * batchSize
  {
    ChunkAt(items, batchSize, b);
    var start := b * batchSize;
    assert Chunks(items, batchSize)[b][k] == items[start + k] == start + k;
    assert start + k < start + batchSize == (b + 1) * batchSize;
    MulMono(b + 1, q, batchSize);
  }

  class DeepClassifier {
    const numEpochs: nat
    const batchSize: int
    const criterion: Option<string>
    const criterionKwargs: Option<map<string, real>>
    const criterions: set<string>
    const optimizer: Option<string>
    const optimizerKwargs: Option<map<string, real>>
    const optimizers: set<string>
    const lr: real

    var criterionCall: Option<Call<real>>
    var optimizerCall: Option<Call<real>>
    /** The training calls made so far. */
    var trace: seq<Event>

    constructor(numEpochs: nat, batchSize: int,
                criterion: Option<string>, criterionKwargs: Option<map<string, real>>, criterions: set<string>,
                optimizer: Option<string>, optimizerKwargs: Option<map<string, real>>, optimizers: set<string>,
                lr: real)
      ensures this.numEpochs == numEpochs && this.batchSize == batchSize
      ensures this.criterion == criterion && this.criterionKwargs == criterionKwargs && this.criterions == criterions
      ensures this.optimizer == optimizer && this.optimizerKwargs == optimizerKwargs && this.optimizers == optimizers
      ensures this.lr == lr
      ensures criterionCall == None && optimizerCall == None && trace == []
    {
      this.numEpochs, this.batchSize := numEpochs, batchSize;
      this.criterion, this.criterionKwargs, this.criterions := criterion, criterionKwargs, criterions;
      this.optimizer, this.optimizerKwargs, this.optimizers := optimizer, optimizerKwargs, optimizers;
      this.lr := lr;
      criterionCall, optimizerCall, trace := None, None, [];
    }

    /** `_instantiate_criterion`, with CrossEntropyLoss as the default. */
    function CriterionChoice(): (r: Result<Call<real>>)
      ensures r.Err? <==> Truthy(criterion) && criterion.value !in criterions
      ensures !Truthy(criterion) ==> r == Ok(Call(Default("CrossEntropyLoss"), map[]))
      ensures r.Ok? && Truthy(criterion) ==>
        r.value == Call(Entry(criterion.value), if TruthyMap(criterionKwargs) then criterionKwargs.value else map[])
    {
      Criterion(criterion, criterionKwargs, criterions, "CrossEntropyLoss")
    }

    /** `_instantiate_optimizer`, with Adam as the default. */
    function OptimizerChoice(): (r: Result<Call<real>>)
      ensures !Truthy(optimizer) ==> r == Ok(Call(Default("Adam"), map[LR := lr]))
      ensures Truthy(optimizer) ==>
        (r.Err? <==> optimizer.value !in optimizers || (TruthyMap(optimizerKwargs) && LR in optimizerKwargs.value))
      ensures r.Ok? ==> LR in r.value.kwargs && r.value.kwargs[LR] == lr
    {
      Optimizer(optimizer, optimizerKwargs, optimizers, "Adam", lr)
    }

    /**
     * `_run_epoch`: the five training calls for each batch, batch after
     * batch, recording one loss per batch.
     */
    method RunEpoch(epoch: nat, nb: nat) returns (losses: seq<LossRef>)
      modifies this
      ensures trace == old(trace) + EpochEvents(epoch, nb)
      ensures |losses| == nb && forall b :: 0 <= b < nb ==> losses[b] == LossRef(epoch, b)
      ensures criterionCall == old(criterionCall) && optimizerCall == old(optimizerCall)
    {
      losses := [];
      var b := 0;
      while b < nb
        invariant b <= nb
        invariant trace == old(trace) + EpochEvents(epoch, b)
        invariant |losses| == b && forall k :: 0 <= k < b ==> losses[k] == LossRef(epoch, k)
        invariant criterionCall == old(criterionCall) && optimizerCall == old(optimizerCall)
      {
        trace := trace + [Forward(epoch, b)];
        trace := trace + [ComputeLoss(epoch, b)];
        trace := trace + [ZeroGrad(epoch, b)];
        trace := trace + [Backward(epoch, b)];
        trace := trace + [Step(epoch, b)];
        losses := losses + [LossRef(epoch, b)];
        b := b + 1;
      }
    }

    /** The epoch loop of `_fit`: `numEpochs` epochs of `nb` batches each. */
    method Train(nb: nat)
      modifies this
      ensures trace == old(trace) + FitEvents(numEpochs, nb)
      ensures criterionCall == old(criterionCall) && optimizerCall == old(optimizerCall)
    {
      var epoch := 0;
      while epoch < numEpochs
        invariant epoch <= numEpochs
        invariant trace == old(trace) + FitEvents(epoch, nb)
        invariant criterionCall == old(criterionCall) && optimizerCall == old(optimizerCall)
      {
        var _ := RunEpoch(epoch, nb);
        epoch := epoch + 1;
      }
    }

    /**
     * `_fit`: instantiates the criterion and then the optimizer, and trains
     * for `numEpochs` epochs over the batches of the labelled instances.
     */
    method Fit(X: Array3, y: seq<int>) returns (err: Option<Error>)
      requires X.Valid()
      modifies this
      ensures CriterionChoice().Err? ==> err == Some(CriterionChoice().error) && trace == old(trace)
      ensures CriterionChoice().Ok? ==> criterionCall == Some(CriterionChoice().value)
      ensures CriterionChoice().Err? ==> criterionCall == old(criterionCall)
      ensures (CriterionChoice().Err? || OptimizerChoice().Err?) ==> optimizerCall == old(optimizerCall)
      ensures CriterionChoice().Ok? && OptimizerChoice().Err? ==> err == Some(OptimizerChoice().error) && trace == old(trace)
      ensures CriterionChoice().Ok? && OptimizerChoice().Ok? ==>
        && optimizerCall == Some(OptimizerChoice().value)
        && (batchSize <= 0 ==> err == Some(InvalidBatchSize) && trace == old(trace))
        && (batchSize > 0 && numEpochs > 0 && |y| < |X.data| ==>
              err == Some(IndexOutOfRange) && trace == old(trace) + EpochEvents(0, |y| / batchSize))
        && (batchSize > 0 && (numEpochs == 0 || |y| >= |X.data|) ==> (err == None
              && trace == old(trace) + FitEvents(numEpochs, (|X.data| + batchSize - 1) / batchSize)))
    {
      var c := CriterionChoice();
      if c.Err? {
        return Some(c.error);
      }
      criterionCall := Some(c.value);
      var o := OptimizerChoice();
      if o.Err? {
        return Some(o.error);
      }
      optimizerCall := Some(o.value);
      var dataset := new Dataset(X, Some(y));
      var loader := Loader(dataset.Length(), batchSize);
      if loader.Err? {
        return Some(loader.error);
      }
      if numEpochs > 0 && |y| < dataset.Length() {
        // The first epoch trains on the batches of labelled instances and
        // fails fetching the first batch that holds an unlabelled one.
        FailingBatch(dataset.Length(), batchSize, |y|);
        var _ := RunEpoch(0, |y| / batchSize);
        return Some(IndexOutOfRange);
      }
      Train(|loader.value|);
      return None;
    }
  }
}
