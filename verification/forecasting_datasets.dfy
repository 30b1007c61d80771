/**
 * The window datasets of the PyTorch forecasting adapter. A dataset is built
 * once from a cube of series and then read item by item; each item is a
 * history window, which the network reads, and the future window that
 * follows it, which the loss compares against.
 *
 * The reference for all three datasets is `SeriesWindows`: every window of
 * one series, by increasing offset, defined by recursion on the series so
 * that it shares no index arithmetic with the datasets it specifies.
 */
module ForecastingDatasets {
  import opened Common
  import opened Arith
  import opened Seqs
  import opened PySlice
  import opened Panel

  /** An item: the network input and the target that follows it. */
  datatype Window = Window(history: seq<Row>, future: seq<Row>)

  /**
   * Every window of `seqLen` history steps followed by `predLen` future
   * steps that fits in `s`, by increasing offset.
   */
  function SeriesWindows(s: seq<Row>, seqLen: nat, predLen: nat): (r: seq<Window>)
    ensures |r| == if |s| < seqLen + predLen then 0 else |s| - seqLen - predLen + 1
    decreases |s|
  {
    if |s| < seqLen + predLen then []
    else [Window(s[..seqLen], s[seqLen..seqLen + predLen])] + (if |s| == 0 then [] else SeriesWindows(s[1..], seqLen, predLen))
  }

  /** Window `m` of a series starts at offset `m`. */
  lemma {:induction false} SeriesWindowAt(s: seq<Row>, seqLen: nat, predLen: nat, m: nat)
    requires m < |SeriesWindows(s, seqLen, predLen)|
    ensures m + seqLen + predLen <= |s|
    ensures SeriesWindows(s, seqLen, predLen)[m] == Window(s[m..m + seqLen], s[m + seqLen..m + seqLen + predLen])
    decreases m
  {
    if m > 0 {
      var t := s[1..];
      assert SeriesWindows(s, seqLen, predLen)[m] == SeriesWindows(t, seqLen, predLen)[m - 1];
      SeriesWindowAt(t, seqLen, predLen, m - 1);
      TailSlice(s, m - 1, m - 1 + seqLen);
      TailSlice(s, m - 1 + seqLen, m - 1 + seqLen + predLen);
    }
  }

  /** The windows of every series of a cube, series after series. */
  function Windows(data: seq<seq<Row>>, seqLen: nat, predLen: nat): seq<Window>
  {
    Flatten(seq(|data|, n requires 0 <= n < |data| => SeriesWindows(data[n], seqLen, predLen)))
  }

  /**
   * `PyTorchDataset`: the windows of every instance of a cube of `num`
   * series of `len` steps. An item index is split into an instance and an
   * offset by the number of windows per series, `lenSingle`.
   */
  class WindowDataset {
    const y: seq<seq<Row>>
    const num: nat
    const len: nat
    const seqLen: nat
    const predLen: nat
    const lenSingle: int

    predicate Valid() {
      |y| == num && (forall n :: 0 <= n < num ==> |y[n]| == len)
      && lenSingle == len - seqLen - predLen + 1
    }

    constructor(cube: Cube, seqLen: nat, predLen: nat)
      requires cube.Valid()
      ensures Valid()
      ensures y == cube.data && num == cube.num && len == cube.len
      ensures this.seqLen == seqLen && this.predLen == predLen
    {
      y := cube.data;
      num, len := cube.num, cube.len;
      this.seqLen := seqLen;
      this.predLen := predLen;
      lenSingle := cube.len - seqLen - predLen + 1;
    }

    /** `__len__`: no windows at all when the series are too short. */
    function Length(): (n: nat)
      requires Valid()
      ensures n == 0 <==> num == 0 || len < seqLen + predLen
      ensures n > 0 ==> lenSingle > 0
    {
      num * (if lenSingle > 0 then lenSingle else 0)
    }

    /** `__getitem__`: instance `i // lenSingle`, offset `i % lenSingle`. */
    function GetItem(i: int): (w: Window)
      requires Valid() && 0 <= i < Length()
      ensures |w.history| == seqLen && |w.future| == predLen
    {
      var n, m := i / lenSingle, i % lenSingle;
      ProductBounds(i, num, lenSingle);
      Window(Slice(y[n], m, m + seqLen), Slice(y[n], m + seqLen, m + seqLen + predLen))
    }

    /** The dataset holds exactly the windows of its series, series after series. */
    lemma LengthIsWindowCount()
      requires Valid()
      ensures Length() == |Windows(y, seqLen, predLen)|
    {
      FlattenLength(WindowLists(), if lenSingle > 0 then lenSingle else 0);
    }

    /** Item `i` is window `i` of the series, series after series. */
    lemma GetItemWindow(i: int)
      requires Valid() && 0 <= i < Length()
      ensures i < |Windows(y, seqLen, predLen)| && GetItem(i) == Windows(y, seqLen, predLen)[i]
    {
      var n, m := i / lenSingle, i % lenSingle;
      IndexSplit(i);
      var ws := WindowLists();
      WindowAt(ws, n, m, i);
      SeriesWindowAt(y[n], seqLen, predLen, m);
      GetItemRows(i);
    }

    /** Item `i` reads its rows at offset `i % lenSingle` of series `i / lenSingle`. */
    lemma GetItemRows(i: int)
      requires Valid() && 0 <= i < Length()
      ensures 0 <= i / lenSingle < num && 0 <= i % lenSingle && i % lenSingle + seqLen + predLen <= len
      ensures var n, m := i / lenSingle, i % lenSingle;
        GetItem(i) == Window(y[n][m..m + seqLen], y[n][m + seqLen..m + seqLen + predLen])
    {
      var n, m := i / lenSingle, i % lenSingle;
      IndexSplit(i);
      assert |y[n]| == len;
      var h, f := Slice(y[n], m, m + seqLen), Slice(y[n], m + seqLen, m + seqLen + predLen);
      assert h == y[n][m..m + seqLen] && f == y[n][m + seqLen..m + seqLen + predLen];
      assert GetItem(i) == Window(h, f);
    }

    lemma WindowAt(ws: seq<seq<Window>>, n: nat, m: nat, i: int)
      requires Valid() && ws == WindowLists() && n < num && 0 <= m < lenSingle && i == n * lenSingle + m
      ensures 0 <= i < |Windows(y, seqLen, predLen)| && Windows(y, seqLen, predLen)[i] == ws[n][m]
    {
      FlattenUniform(ws, lenSingle, n, m);
    }

    /** The windows of each series, each list `lenSingle` long (or empty). */
    function WindowLists(): (ws: seq<seq<Window>>)
      requires Valid()
      ensures |ws| == num
      ensures forall n :: 0 <= n < num ==> |ws[n]| == if lenSingle > 0 then lenSingle else 0
      ensures Flatten(ws) == Windows(y, seqLen, predLen)
    {
      seq(|y|, n requires 0 <= n < |y| => SeriesWindows(y[n], seqLen, predLen))
    }

    /**
     * The split of an item index into (instance, offset) is a bijection
     * between `0 .. Length()` and the pairs below (num, lenSingle).
     */
    lemma IndexSplit(i: int)
      requires Valid() && 0 <= i < Length()
      ensures 0 <= i / lenSingle < num && 0 <= i % lenSingle < lenSingle
      ensures i == (i / lenSingle) * lenSingle + i % lenSingle
    {
      ProductBounds(i, num, lenSingle);
    }

    lemma IndexJoin(n: nat, m: nat)
      requires Valid() && n < num && m < lenSingle
      ensures 0 <= n * lenSingle + m < Length()
      ensures (n * lenSingle + m) / lenSingle == n && (n * lenSingle + m) % lenSingle == m
    {
      BlockIndex(n, m, lenSingle, num);
    }

    /** Distinct items read distinct (instance, offset) pairs. */
    lemma IndexInjective(i: int, j: int)
      requires Valid() && 0 <= i < Length() && 0 <= j < Length()
      requires i / lenSingle == j / lenSingle && i % lenSingle == j % lenSingle
      ensures i == j
    {
      IndexSplit(i);
      IndexSplit(j);
    }
  }

  /** `y[:, -seq_len:, :]`: the test split keeps the last `seqLen` steps of every series. */
  function TestCube(c: Cube, seqLen: nat): (t: Cube)
    requires c.Valid()
    ensures t.Valid() && t.num == c.num && t.width == c.width
    ensures t.len == if seqLen == 0 || seqLen >= c.len then c.len else seqLen
    ensures forall n :: 0 <= n < t.num ==> t.data[n] == Last(c.data[n], seqLen)
  {
    var data := seq(c.num, n requires 0 <= n < c.num => Last(c.data[n], seqLen));
    assert forall n, row :: 0 <= n < c.num && row in data[n] ==> row in c.data[n];
    Cube(c.num, if seqLen == 0 || seqLen >= c.len then c.len else seqLen, c.width, data)
  }

  /**
   * With no future steps, a series of at least `seqLen > 0` steps cut to its
   * last `seqLen` steps has exactly one window: those steps.
   */
  lemma TestSeriesWindow(s: seq<Row>, seqLen: nat)
    requires 0 < seqLen <= |s|
    ensures SeriesWindows(Last(s, seqLen), seqLen, 0) == [Window(s[|s| - seqLen..], [])]
  {
    var t := Last(s, seqLen);
    assert t[..seqLen] == t && t[seqLen..seqLen] == [];
  }

  /**
   * The test split yields one window per instance, holding its last `seqLen`
   * steps, when every series is at least `seqLen > 0` steps long.
   */
  lemma TestWindows(c: Cube, seqLen: nat)
    requires c.Valid() && 0 < seqLen <= c.len
    ensures Windows(TestCube(c, seqLen).data, seqLen, 0)
      == seq(c.num, n requires 0 <= n < c.num => Window(c.data[n][c.len - seqLen..], []))
  {
    var t := TestCube(c, seqLen).data;
    var ws := seq(|t|, n requires 0 <= n < |t| => SeriesWindows(t[n], seqLen, 0));
    var expected := seq(c.num, n requires 0 <= n < c.num => Window(c.data[n][c.len - seqLen..], []));
    forall n | 0 <= n < |ws| ensures ws[n] == [expected[n]] {
      TestSeriesAt(c, seqLen, n);
    }
    SingletonFlatten(ws, expected);
  }

  /** Series `n` of the test split has one window: the last `seqLen` steps of series `n`. */
  lemma TestSeriesAt(c: Cube, seqLen: nat, n: nat)
    requires c.Valid() && 0 < seqLen <= c.len && n < c.num
    ensures SeriesWindows(TestCube(c, seqLen).data[n], seqLen, 0) == [Window(c.data[n][c.len - seqLen..], [])]
  {
    var s := c.data[n];
    assert |s| == c.len && TestCube(c, seqLen).data[n] == Last(s, seqLen);
    TestSeriesWindow(s, seqLen);
  }

  /** A cube whose series are all shorter than one window has no windows at all. */
  lemma ShortCubeNoWindows(c: Cube, seqLen: nat, predLen: nat)
    requires c.Valid() && c.len < seqLen + predLen
    ensures Windows(c.data, seqLen, predLen) == []
  {
    var data := c.data;
    var ws := seq(|data|, n requires 0 <= n < |data| => SeriesWindows(data[n], seqLen, predLen));
    forall n | 0 <= n < |ws| ensures ws[n] == [] {
      assert |data[n]| == c.len;
    }
    FlattenLength(ws, 0);
    assert Windows(data, seqLen, predLen) == Flatten(ws);
  }

  /** Flattening a list of one-element lists gives their elements. */
  lemma {:induction false} SingletonFlatten<T>(ws: seq<seq<T>>, xs: seq<T>)
    requires |ws| == |xs| && forall n :: 0 <= n < |ws| ==> ws[n] == [xs[n]]
    ensures Flatten(ws) == xs
  {
    if ws != [] {
      SingletonFlatten(ws[1..], xs[1..]);
      assert xs == [xs[0]] + xs[1..];
    }
  }

  /**
   * With no future steps, a series shorter than `seqLen` has no window, so
   * the test split of such a panel is empty.
   */
  lemma ShortSeriesNoWindow(s: seq<Row>, seqLen: nat)
    requires |s| < seqLen
    ensures SeriesWindows(Last(s, seqLen), seqLen, 0) == []
  {
  }

  /**
   * `PyTorchTrainDataset`: the windows of one series `y` (the values of a
   * frame, `yWidth` columns) with `fh` future steps. With exogenous values
   * `X` (`xWidth` columns) the input is the history followed by the `X`
   * rows of the target's time range, concatenated along the time axis.
   */
  class TrainDataset {
    const y: seq<Row>
    const yWidth: nat
    const x: Option<seq<Row>>
    const xWidth: nat
    const seqLen: nat
    const fh: nat

    /** `yWidth` and `xWidth` are the column counts of the frames the rows come from. */
    predicate Valid() {
      && (forall k :: 0 <= k < |y| ==> |y[k]| == yWidth)
      && (x.Some? ==> forall k :: 0 <= k < |x.value| ==> |x.value[k]| == xWidth)
    }

    constructor(y: seq<Row>, yWidth: nat, x: Option<seq<Row>>, xWidth: nat, seqLen: nat, fh: nat)
      requires forall k :: 0 <= k < |y| ==> |y[k]| == yWidth
      requires x.Some? ==> forall k :: 0 <= k < |x.value| ==> |x.value[k]| == xWidth
      ensures Valid()
      ensures this.y == y && this.yWidth == yWidth && this.x == x && this.xWidth == xWidth
      ensures this.seqLen == seqLen && this.fh == fh
    {
      this.y, this.yWidth, this.x, this.xWidth := y, yWidth, x, xWidth;
      this.seqLen, this.fh := seqLen, fh;
    }

    /** `__len__`, clamped to zero. */
    function Length(): (n: nat)
      ensures n == |SeriesWindows(y, seqLen, fh)|
    {
      var k := |y| - seqLen - fh + 1;
      if k > 0 then k else 0
    }

    /**
     * `__getitem__`: window `i` of `y`, with the exogenous rows appended to
     * the history; `torch.cat` refuses rows of different widths. An input
     * it accepts has rows of the series' width only.
     */
    function GetItem(i: int): (r: Result<Window>)
      requires Valid() && 0 <= i < Length()
      ensures r.Err? <==> x.Some? && xWidth != yWidth
      ensures r.Ok? ==> forall k :: 0 <= k < |r.value.history| ==> |r.value.history[k]| == yWidth
      ensures r.Err? ==> r.error == ShapeMismatch
      ensures r.Ok? ==> r.value.future == SeriesWindows(y, seqLen, fh)[i].future
      ensures r.Ok? && x.None? ==> r.value.history == SeriesWindows(y, seqLen, fh)[i].history
      ensures r.Ok? && x.Some? ==>
        r.value.history == SeriesWindows(y, seqLen, fh)[i].history + Slice(x.value, i + seqLen, i + seqLen + fh)
    {
      SeriesWindowAt(y, seqLen, fh, i);
      var hist := Slice(y, i, i + seqLen);
      var target := Slice(y, i + seqLen, i + seqLen + fh);
      match x
      case None => Ok(Window(hist, target))
      case Some(xs) =>
        if xWidth != yWidth then Err(ShapeMismatch)
        else Ok(Window(hist + Slice(xs, i + seqLen, i + seqLen + fh), target))
    }
  }

  /**
   * `PyTorchPredDataset`: a single item, the first `seqLen` rows of `y`,
   * with an empty target. Its exogenous branch reads a horizon attribute
   * that this class never sets.
   */
  class PredDataset {
    const y: seq<Row>
    const x: Option<seq<Row>>
    const seqLen: nat

    constructor(y: seq<Row>, x: Option<seq<Row>>, seqLen: nat)
      ensures this.y == y && this.x == x && this.seqLen == seqLen
    {
      this.y, this.x, this.seqLen := y, x, seqLen;
    }

    function Length(): (n: nat)
      ensures n == 1
    {
      1
    }

    function GetItem(i: int): (r: Result<Window>)
      requires 0 <= i < Length()
      ensures r.Err? <==> x.Some?
      ensures r.Err? ==> r.error == MissingAttribute("fh")
      ensures r.Ok? ==> r.value == Window(First(y, seqLen), [])
    {
      var hist := Slice(y, i, i + seqLen);
      if x.Some? then Err(MissingAttribute("fh"))
      else Ok(Window(hist, Slice(y, i + seqLen, i + seqLen)))
    }
  }
}
