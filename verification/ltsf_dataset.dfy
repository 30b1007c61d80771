/**
 * `Dataset_Custom`, the encoder/decoder window dataset of the LTSF
 * networks. Fitting reads one split (train, val or test) out of the rows
 * of the data, and each item is an encoder window, a label window that
 * overlaps the encoder's tail and runs on to the prediction, a decoder
 * input made of the label part followed by zero rows, and the target.
 *
 * Rows are given already scaled; the time-mark rows are given one per
 * data row. Every slice follows Python's rules, so out-of-range and
 * negative bounds are modelled as the code meets them.
 */
module LtsfDataset {
  import opened Common
  import opened PySlice

  /** `[seq_len, label_len, pred_len]` */
  datatype Sizes = Sizes(seqLen: int, labelLen: int, predLen: int)

  /** The sizes used when none are given: four days of hourly rows, then one day, then one day. */
  const DefaultSizes := Sizes(24 * 4 * 4, 24 * 4, 24 * 4)

  /** The split names, at the position of their set type. */
  const Flags: seq<string> := ["train", "val", "test"]

  /** The `size` argument of `__init__`: the default when absent, else its first three entries. */
  function ReadSizes(size: Option<seq<int>>): (r: Result<Sizes>)
    ensures size.None? ==> r == Ok(DefaultSizes)
    ensures size.Some? ==> (r.Ok? <==> |size.value| >= 3)
    ensures r.Err? ==> r.error == IndexOutOfRange
    ensures size.Some? && r.Ok? ==>
      r.value.seqLen == size.value[0] && r.value.labelLen == size.value[1] && r.value.predLen == size.value[2]
  {
    match size
    case None => Ok(DefaultSizes)
    case Some(s) => if |s| < 3 then Err(IndexOutOfRange) else Ok(Sizes(s[0], s[1], s[2]))
  }

  /** The `flag` argument of `__init__`: the position of the split name. */
  function SetType(flag: string): (r: Result<nat>)
    ensures r.Ok? <==> flag in Flags
    ensures r.Ok? ==> r.value < |Flags| && Flags[r.value] == flag
    ensures r.Err? ==> r.error == InvalidFlag(flag)
  {
    if flag == "train" then Ok(0)
    else if flag == "val" then Ok(1)
    else if flag == "test" then Ok(2)
    else Err(InvalidFlag(flag))
  }

  /**
   * The rows `[border1, border2)` a split reads out of `n` rows, with
   * `numTrain` training rows and `numTest` test rows; the validation rows
   * are what remains between them.
   */
  function Borders(n: nat, numTrain: int, numTest: int, sizes: Sizes, setType: nat): (b: (int, int))
    requires setType < 3
    ensures setType == 0 ==> b == (0, numTrain)
    ensures setType == 1 ==> b.0 + sizes.seqLen == numTrain && b.1 == n - numTest
    ensures setType == 2 ==> b.0 + sizes.seqLen + sizes.predLen == n && b.1 == n
  {
    var numVali := n - numTrain - numTest;
    var border1s := [0, numTrain - sizes.seqLen, n - sizes.seqLen - sizes.predLen];
    var border2s := [numTrain, numTrain + numVali, n];
    (border1s[setType], border2s[setType])
  }

  /** Zero rows as wide as the given rows. */
  function ZerosLike(rows: seq<seq<real>>): (z: seq<seq<real>>)
    ensures |z| == |rows|
    ensures forall k :: 0 <= k < |z| ==> |z[k]| == |rows[k]| && forall c :: 0 <= c < |z[k]| ==> z[k][c] == 0.0
  {
    seq(|rows|, k requires 0 <= k < |rows| => seq(|rows[k]|, _ => 0.0))
  }

  /** The model inputs of one item and its target. */
  datatype Item = Item(
    xEnc: seq<seq<real>>,
    xMarkEnc: seq<seq<real>>,
    xDec: seq<seq<real>>,
    xMarkDec: seq<seq<real>>,
    target: seq<seq<real>>)

  /** `Dataset_Custom` */
  class DatasetCustom {
    const seqLen: int
    const labelLen: int
    const predLen: int
    const setType: nat
    const dataX: seq<seq<real>>
    const dataY: seq<seq<real>>
    const dataStamp: seq<seq<real>>

    /** The fields `__init__` and `__read_data__` leave for these arguments. */
    predicate ReadFrom(data: seq<seq<real>>, stamps: seq<seq<real>>, sizes: Sizes, setType: nat, numTrain: int, numTest: int) {
      && setType < 3
      && this.setType == setType
      && seqLen == sizes.seqLen && labelLen == sizes.labelLen && predLen == sizes.predLen
      && var b := Borders(|data|, numTrain, numTest, sizes, setType);
      && dataX == Slice(data, b.0, b.1)
      && Valid()
      && dataStamp == Slice(stamps, b.0, b.1)
    }

    /** Both data fields hold the same rows. */
    predicate Valid() {
      dataY == dataX
    }

    /** `__read_data__` for sizes and a set type already checked. */
    constructor(data: seq<seq<real>>, stamps: seq<seq<real>>, sizes: Sizes, setType: nat, numTrain: int, numTest: int)
      requires setType < 3
      ensures ReadFrom(data, stamps, sizes, setType, numTrain, numTest) && Valid()
    {
      this.seqLen, this.labelLen, this.predLen := sizes.seqLen, sizes.labelLen, sizes.predLen;
      this.setType := setType;
      var b := Borders(|data|, numTrain, numTest, sizes, setType);
      var rows := Slice(data, b.0, b.1);
      dataX := rows;
      dataY := rows;
      dataStamp := Slice(stamps, b.0, b.1);
    }

    /**
     * `__len__`: the number of windows of `seqLen + predLen` rows. It is
     * not clamped, so a split shorter than one window has a negative
     * length.
     */
    function Length(): (n: int)
      ensures n > 0 ==> (n - 1) + seqLen + predLen == |dataX|
      ensures n <= 0 <==> |dataX| < seqLen + predLen
      ensures n < 0 <==> |dataX| + 1 < seqLen + predLen
    {
      |dataX| - seqLen - predLen + 1
    }

    /** Item `index` reads whole windows: the sizes are sensible and the rows it needs exist. */
    predicate InRange(index: int) {
      0 <= labelLen <= seqLen && 0 < predLen && 0 <= index && index + seqLen + predLen <= |dataX|
    }

    /**
     * `__getitem__`: the encoder input and its marks, the decoder input
     * (the label part followed by zero rows) and its marks, and the target.
     * Every field is a Python slice of the split, so none holds more rows
     * than the split; an item in range has the window sizes.
     */
    function GetItem(index: int): (r: Item)
      requires Valid()
      ensures |r.xEnc| <= |dataX| && |r.target| <= |dataY| && |r.xMarkEnc| <= |dataStamp| && |r.xMarkDec| <= |dataStamp|
      ensures InRange(index) ==> |r.xEnc| == seqLen && |r.target| == predLen && |r.xDec| == labelLen + predLen
    {
      var sBegin := index;
      var sEnd := sBegin + seqLen;
      var rBegin := sEnd - labelLen;
      var rEnd := rBegin + labelLen + predLen;
      var seqY := Slice(dataY, rBegin, rEnd);
      var decInp := Slice(seqY, 0, labelLen) + ZerosLike(Slice(seqY, -predLen, |seqY|));
      Item(Slice(dataX, sBegin, sEnd), Slice(dataStamp, sBegin, sEnd), decInp,
           Slice(dataStamp, rBegin, rEnd), Slice(seqY, -predLen, |seqY|))
    }

    /** The encoder window of an item in range starts at row `index`, and so do its time marks. */
    lemma ItemEncoder(index: int)
      requires Valid() && InRange(index)
      ensures GetItem(index).xEnc == dataX[index..index + seqLen]
      ensures |dataStamp| == |dataX| ==> GetItem(index).xMarkEnc == dataStamp[index..index + seqLen]
    {
    }

    /** The target of an item in range is the `predLen` rows right after its encoder window. */
    lemma ItemTarget(index: int)
      requires Valid() && InRange(index)
      ensures GetItem(index).target == dataY[index + seqLen..index + seqLen + predLen]
    {
      var rBegin, rEnd := index + seqLen - labelLen, index + seqLen + predLen;
      var seqY := Slice(dataY, rBegin, rEnd);
      assert seqY == dataY[rBegin..rEnd];
      assert Slice(seqY, -predLen, |seqY|) == seqY[labelLen..|seqY|];
      SliceOfSlice(dataY, rBegin, rEnd, labelLen, labelLen + predLen);
    }

    /**
     * The label window of an item in range starts `labelLen` rows before
     * its encoder window ends and runs on to the end of the target; the
     * decoder input is its label part followed by zero rows in place of
     * the target, and the decoder time marks cover the whole label window.
     */
    lemma ItemDecoder(index: int)
      requires Valid() && InRange(index)
      ensures GetItem(index).xDec
        == dataY[index + seqLen - labelLen..index + seqLen] + ZerosLike(dataY[index + seqLen..index + seqLen + predLen])
      ensures |dataStamp| == |dataX| ==>
        GetItem(index).xMarkDec == dataStamp[index + seqLen - labelLen..index + seqLen + predLen]
    {
      var rBegin, rEnd := index + seqLen - labelLen, index + seqLen + predLen;
      var seqY := Slice(dataY, rBegin, rEnd);
      assert seqY == dataY[rBegin..rEnd];
      assert Slice(seqY, -predLen, |seqY|) == seqY[labelLen..|seqY|];
      SliceOfSlice(dataY, rBegin, rEnd, labelLen, labelLen + predLen);
      assert Slice(seqY, 0, labelLen) == seqY[0..labelLen];
      SliceOfSlice(dataY, rBegin, rEnd, 0, labelLen);
    }

    /** Every item below the length reads whole windows. */
    lemma ItemsInRange(index: int)
      requires Valid() && 0 <= labelLen <= seqLen && 0 < predLen
      requires 0 <= index < Length()
      ensures InRange(index)
    {
    }

    /**
     * With `predLen` zero, `seq_y[-0:]` is the whole label window: the
     * target is the label window rather than empty, and the decoder input
     * has a zero row for every label row.
     */
    lemma ZeroPredLen(index: int)
      requires Valid() && predLen == 0 && 0 <= labelLen <= seqLen && 0 <= index && index + seqLen <= |dataX|
      ensures |GetItem(index).target| == labelLen
      ensures forall k :: 0 <= k < labelLen ==> GetItem(index).target[k] == dataY[index + seqLen - labelLen + k]
      ensures |GetItem(index).xDec| == 2 * labelLen
    {
      var seqY := Slice(dataY, index + seqLen - labelLen, index + seqLen);
      assert |seqY| == labelLen;
    }
  }

  /**
   * `__init__`: reads the sizes, then checks the flag, then reads the split
   * out of the data.
   */
  method Create(data: seq<seq<real>>, stamps: seq<seq<real>>, flag: string, size: Option<seq<int>>,
                numTrain: int, numTest: int) returns (r: Result<DatasetCustom>)
    ensures ReadSizes(size).Err? ==> r == Err(ReadSizes(size).error)
    ensures ReadSizes(size).Ok? ==> (r.Err? <==> SetType(flag).Err?)
    ensures ReadSizes(size).Ok? && SetType(flag).Err? ==> r == Err(InvalidFlag(flag))
    ensures r.Ok? ==> (ReadSizes(size).Ok? && SetType(flag).Ok?
      && fresh(r.value)
      && r.value.ReadFrom(data, stamps, ReadSizes(size).value, SetType(flag).value, numTrain, numTest))
  {
    var sizes := ReadSizes(size);
    if sizes.Err? {
      return Err(sizes.error);
    }
    var setType := SetType(flag);
    if setType.Err? {
      return Err(setType.error);
    }
    var ds := new DatasetCustom(data, stamps, sizes.value, setType.value, numTrain, numTest);
    return Ok(ds);
  }

  /** The sizes every split lemma assumes. */
  predicate Sensible(sizes: Sizes) {
    0 <= sizes.labelLen <= sizes.seqLen && 0 < sizes.predLen
  }

  /** The last training item predicts the last `predLen` training rows. */
  lemma TrainTargetsEnd(ds: DatasetCustom, data: seq<seq<real>>, stamps: seq<seq<real>>, sizes: Sizes, numTrain: int, numTest: int)
    requires ds.ReadFrom(data, stamps, sizes, 0, numTrain, numTest) && Sensible(sizes)
    requires sizes.seqLen + sizes.predLen <= numTrain <= |data|
    ensures ds.Length() > 0
    ensures ds.GetItem(ds.Length() - 1).target == data[numTrain - sizes.predLen..numTrain]
  {
    ds.ItemTarget(ds.Length() - 1);
  }

  /**
   * The first validation item predicts the rows right after the training
   * rows: its encoder window is the last `seqLen` training rows.
   */
  lemma ValTargetsStart(ds: DatasetCustom, data: seq<seq<real>>, stamps: seq<seq<real>>, sizes: Sizes, numTrain: int, numTest: int)
    requires ds.ReadFrom(data, stamps, sizes, 1, numTrain, numTest) && Sensible(sizes)
    requires sizes.seqLen <= numTrain && 0 <= numTest && numTrain + sizes.predLen <= |data| - numTest
    ensures ds.Length() > 0
    ensures ds.GetItem(0).xEnc == data[numTrain - sizes.seqLen..numTrain]
    ensures ds.GetItem(0).target == data[numTrain..numTrain + sizes.predLen]
  {
    var start, stop := numTrain - sizes.seqLen, |data| - numTest;
    ValRows(ds, data, stamps, sizes, numTrain, numTest);
    assert ds.InRange(0);
    FirstEncoder(ds, data, start, stop);
    FirstTarget(ds, data, start, stop);
  }

  /** The validation split reads the rows from `seqLen` before the end of the training rows up to the test rows. */
  lemma ValRows(ds: DatasetCustom, data: seq<seq<real>>, stamps: seq<seq<real>>, sizes: Sizes, numTrain: int, numTest: int)
    requires ds.ReadFrom(data, stamps, sizes, 1, numTrain, numTest)
    requires 0 <= sizes.seqLen <= numTrain && 0 <= numTest && numTrain <= |data| - numTest
    ensures ds.dataY == ds.dataX == data[numTrain - sizes.seqLen..|data| - numTest]
  {
    assert Borders(|data|, numTrain, numTest, sizes, 1) == (numTrain - sizes.seqLen, |data| - numTest);
  }

  /** The encoder window of the first item of a split that starts at row `start`. */
  lemma FirstEncoder(ds: DatasetCustom, data: seq<seq<real>>, start: nat, stop: nat)
    requires start <= stop <= |data| && ds.dataY == ds.dataX == data[start..stop] && ds.InRange(0)
    ensures ds.GetItem(0).xEnc == data[start..start + ds.seqLen]
  {
    ds.ItemEncoder(0);
    SliceOfSlice(data, start, stop, 0, ds.seqLen);
  }

  /** The target of the first item of a split that starts at row `start`. */
  lemma FirstTarget(ds: DatasetCustom, data: seq<seq<real>>, start: nat, stop: nat)
    requires start <= stop <= |data| && ds.dataY == ds.dataX == data[start..stop] && ds.InRange(0)
    ensures ds.GetItem(0).target == data[start + ds.seqLen..start + ds.seqLen + ds.predLen]
  {
    var i, j := ds.seqLen, ds.seqLen + ds.predLen;
    ds.ItemTarget(0);
    assert ds.GetItem(0).target == ds.dataY[i..j];
    SliceOfSlice(data, start, stop, i, j);
    assert ds.dataY[i..j] == data[start + i..start + j];
  }

  /**
   * The test split holds exactly one item, whatever `numTest` is: the
   * one that predicts the last `predLen` rows of the data.
   */
  lemma TestSingleItem(ds: DatasetCustom, data: seq<seq<real>>, stamps: seq<seq<real>>, sizes: Sizes, numTrain: int, numTest: int)
    requires ds.ReadFrom(data, stamps, sizes, 2, numTrain, numTest) && Sensible(sizes)
    requires sizes.seqLen + sizes.predLen <= |data|
    ensures ds.Length() == 1
    ensures ds.GetItem(0).target == data[|data| - sizes.predLen..]
  {
    var start, stop := |data| - sizes.seqLen - sizes.predLen, |data|;
    assert Borders(|data|, numTrain, numTest, sizes, 2) == (start, stop);
    assert ds.dataY == ds.dataX == data[start..stop];
    assert ds.InRange(0);
    FirstTarget(ds, data, start, stop);
  }
}
