/** The windowing, normalisation and parsing pipeline of `BaseWindows`
    (neuralforecast/common/_base_windows.py).

    A temporal batch is `[series][channel][time]`; a window batch is
    `[window][time][channel]`, each window `input_size + h` steps long. Channel positions
    (`y`, `available_mask`, the exogenous lists) are given as indices. */
module Windows {
  import opened Tensors

  datatype Option<T> = None | Some(value: T)

  datatype WindowError =
    | UnknownStep(step: string)  // `_create_windows` called with a step other than train/val/predict
    | UnfoldFailed               // `unfold` with step 0, or a time axis shorter than one window
    | EmptyPopulation            // `np.random.choice(0, size=k)` with k > 0
    | PredictStepSizeUnset       // `predict_step_size` is only assigned by `predict`
    | MissingStatic              // the windows dict carries no `static_cols` / `static` tensor

  datatype Result<T> = Ok(value: T) | Err(error: WindowError)

  /** The attributes of `BaseWindows` that the pipeline reads. */
  datatype Config = Config(
    h: nat,
    inputSize: nat,
    valSize: nat,
    testSize: nat,
    stepSize: nat,
    predictStepSize: Option<nat>,
    windowsBatchSize: Option<nat>,
    futrExogList: seq<string>,
    histExogList: seq<string>,
    statExogList: seq<string>)
  {
    function WindowSize(): nat { inputSize + h }
  }

  /** `batch['temporal']` with its column index and its time length. */
  datatype TemporalBatch = TemporalBatch(temporal: Tensor3, temporalCols: seq<string>, length: nat)
  {
    predicate Valid() { Regular3(temporal, |temporalCols|, length) }
  }

  datatype StaticPart = StaticPart(tensor: Tensor3, staticCols: seq<string>)

  /** The dict `_create_windows` returns: `temporal`, `static` and the column indices. */
  datatype WindowsBatch = WindowsBatch(temporal: Tensor3, statics: Option<StaticPart>, temporalCols: seq<string>)

  /** Channel `c` exists at every time step of window `w`. */
  predicate WindowHasChannel(w: Matrix, c: nat)
  {
    forall t :: 0 <= t < |w| ==> c < |w[t]|
  }

  predicate HasChannel(ws: Tensor3, c: nat)
  {
    forall i :: 0 <= i < |ws| ==> WindowHasChannel(ws[i], c)
  }

  lemma RegularHasChannel(ws: Tensor3, d1: nat, d2: nat, c: nat)
    requires Regular3(ws, d1, d2) && c < d2
    ensures HasChannel(ws, c)
  {
  }

  // ---------------------------------------------------------------------------------------
  // Slicing of one window

  /** `w[:-h, c]`: channel `c` over the lookback. */
  function LookbackColumn(w: Matrix, h: nat, c: nat): (r: seq<real>)
    requires WindowHasChannel(w, c)
    ensures |r| == PyNeg(|w|, h)
  {
    seq(PyNeg(|w|, h), t requires 0 <= t < PyNeg(|w|, h) => w[t][c])
  }

  /** `w[-h:, c]`: channel `c` over the horizon. */
  function HorizonColumn(w: Matrix, h: nat, c: nat): (r: seq<real>)
    requires WindowHasChannel(w, c)
    ensures |r| == |w| - PyNeg(|w|, h)
  {
    var a := PyNeg(|w|, h);
    seq(|w| - a, t requires 0 <= t < |w| - a => w[a + t][c])
  }

  /** `w[from:to, idx]`: the listed channels over a range of time steps. */
  function Gather(w: Matrix, from: nat, to: nat, idx: seq<nat>): (r: Matrix)
    requires from <= to <= |w|
    requires forall k :: 0 <= k < |idx| ==> WindowHasChannel(w, idx[k])
    ensures |r| == to - from && RegularRows(r, |idx|)
  {
    seq(to - from, t requires 0 <= t < to - from =>
      seq(|idx|, k requires 0 <= k < |idx| =>
        assert WindowHasChannel(w, idx[k]); w[from + t][idx[k]]))
  }

  /** `windows[:, :, c]`: channel `c` of every window. */
  function Channel(ws: Tensor3, c: nat): (r: Matrix)
    requires HasChannel(ws, c)
    ensures |r| == |ws| && forall i :: 0 <= i < |ws| ==> |r[i]| == |ws[i]|
  {
    seq(|ws|, i requires 0 <= i < |ws| => seq(|ws[i]|, t requires 0 <= t < |ws[i]| => ws[i][t][c]))
  }

  // ---------------------------------------------------------------------------------------
  // _create_windows

  /** `unfold`, `permute(0, 2, 3, 1)` and `reshape(-1, window_size, C)`; torch refuses a zero
      step and an axis shorter than one window. */
  function Unfolded(x: Tensor3, d1: nat, len: nat, size: nat, step: nat): (r: Result<Tensor3>)
    requires Regular3(x, d1, len)
    ensures r.Ok? <==> 0 < step && size <= len
    ensures r.Ok? ==> |r.value| == |x| * NumWindows(len, size, step) && Regular3(r.value, size, d1)
  {
    if step == 0 || len < size then Err(UnfoldFailed)
    else
      ExtractShape(x, d1, len, size, step);
      Ok(Extract(x, d1, len, size, step))
  }

  /** Time length left by the train cutoff `temporal[:, :, :-(val_size + test_size)]`, which is
      applied only when that sum is positive. */
  function TrainCutLength(cfg: Config, len: nat): nat
  {
    var k := cfg.valSize + cfg.testSize;
    if k > 0 then PyNeg(len, k) else len
  }

  function TrainCut(cfg: Config, b: TemporalBatch): (r: Tensor3)
    requires b.Valid()
    ensures |r| == |b.temporal| && Regular3(r, |b.temporalCols|, TrainCutLength(cfg, b.length))
    ensures forall s, c, t :: 0 <= s < |r| && 0 <= c < |b.temporalCols| && 0 <= t < TrainCutLength(cfg, b.length) ==>
              r[s][c][t] == b.temporal[s][c][t]
  {
    var k := cfg.valSize + cfg.testSize;
    if k > 0 then SliceTime(b.temporal, |b.temporalCols|, b.length, 0, PyNeg(b.length, k))
    else b.temporal
  }

  /** Train windows before filtering: cut, pad `h` zeros, unfold with `step_size`. */
  function TrainRawWindows(cfg: Config, b: TemporalBatch): (r: Result<Tensor3>)
    requires b.Valid()
    ensures r.Ok? <==> 0 < cfg.stepSize && cfg.WindowSize() <= TrainCutLength(cfg, b.length) + cfg.h
    ensures r.Ok? ==>
              && |r.value| == |b.temporal| * NumWindows(TrainCutLength(cfg, b.length) + cfg.h, cfg.WindowSize(), cfg.stepSize)
              && Regular3(r.value, cfg.WindowSize(), |b.temporalCols|)
  {
    var len := TrainCutLength(cfg, b.length);
    var padded := PadTime(TrainCut(cfg, b), |b.temporalCols|, len, cfg.h);
    Unfolded(padded, |b.temporalCols|, len + cfg.h, cfg.WindowSize(), cfg.stepSize)
  }

  /** The horizon of the window carries at least one observed target value. */
  predicate HasObservedHorizon(w: Matrix, h: nat, maskIdx: nat)
    requires WindowHasChannel(w, maskIdx)
  {
    Sum(HorizonColumn(w, h, maskIdx)) > 0.0
  }

  /** Positions, in increasing order, of the windows from `start` on that the availability
      filter keeps. */
  function ObservedFrom(ws: Tensor3, h: nat, maskIdx: nat, start: nat): (idx: seq<nat>)
    requires HasChannel(ws, maskIdx) && start <= |ws|
    ensures forall k :: 0 <= k < |idx| ==> start <= idx[k] < |ws|
    ensures forall k, l :: 0 <= k < l < |idx| ==> idx[k] < idx[l]
    ensures forall i :: start <= i < |ws| ==> (i in idx <==> HasObservedHorizon(ws[i], h, maskIdx))
    decreases |ws| - start
  {
    if start == |ws| then []
    else
      var rest := ObservedFrom(ws, h, maskIdx, start + 1);
      if HasObservedHorizon(ws[start], h, maskIdx) then [start] + rest else rest
  }

  /** `windows[sample_condition]`: keeps the windows with an observed horizon, in order. */
  function FilterObserved(ws: Tensor3, h: nat, maskIdx: nat): (r: Tensor3)
    requires HasChannel(ws, maskIdx)
    ensures |r| == |ObservedFrom(ws, h, maskIdx, 0)| <= |ws|
    ensures forall k :: 0 <= k < |r| ==> r[k] == ws[ObservedFrom(ws, h, maskIdx, 0)[k]]
    ensures forall k :: 0 <= k < |r| ==> WindowHasChannel(r[k], maskIdx) && HasObservedHorizon(r[k], h, maskIdx)
    ensures forall i :: 0 <= i < |ws| && HasObservedHorizon(ws[i], h, maskIdx) ==> ws[i] in r
  {
    var idx := ObservedFrom(ws, h, maskIdx, 0);
    var r := seq(|idx|, k requires 0 <= k < |idx| => ws[idx[k]]);
    assert |idx| <= |ws| by {
      assert forall k :: 0 <= k < |idx| ==> k <= idx[k] by {
        forall k | 0 <= k < |idx| ensures k <= idx[k] {
          IncreasingFromZero(idx, k);
        }
      }
      if |idx| > 0 {
        assert |idx| - 1 <= idx[|idx| - 1] < |ws|;
      }
    }
    forall i | 0 <= i < |ws| && HasObservedHorizon(ws[i], h, maskIdx)
      ensures ws[i] in r
    {
      var k :| 0 <= k < |idx| && idx[k] == i;
      assert r[k] == ws[i];
    }
    r
  }

  lemma {:induction false} IncreasingFromZero(idx: seq<nat>, k: nat)
    requires forall a, b :: 0 <= a < b < |idx| ==> idx[a] < idx[b]
    requires k < |idx|
    ensures k <= idx[k]
  {
    if k > 0 {
      IncreasingFromZero(idx, k - 1);
    }
  }

  /** The draws `np.random.choice(n, size, replace)` can make. */
  predicate ValidDraw(d: seq<nat>, n: nat, size: nat, replace: bool)
  {
    && |d| == size
    && (forall i :: 0 <= i < size ==> d[i] < n)
    && (!replace ==> forall i, j :: 0 <= i < j < size ==> d[i] != d[j])
  }

  /** `choice` behaves like `np.random.choice` on every call numpy accepts. */
  ghost predicate IsChoice(choice: (nat, nat, bool) -> seq<nat>)
  {
    forall n: nat, size: nat, replace: bool ::
      (0 < n || size == 0) && (replace || size <= n) ==> ValidDraw(choice(n, size, replace), n, size, replace)
  }

  /** Lines 119-124: with `windows_batch_size` set, exactly that many windows drawn at
      `choice(n, size, n < size)`; repeats only when there are fewer windows than wanted. */
  function Sample(ws: Tensor3, windowsBatchSize: Option<nat>, choice: (nat, nat, bool) -> seq<nat>): (r: Result<Tensor3>)
    requires IsChoice(choice)
    ensures windowsBatchSize.None? ==> r == Ok(ws)
    ensures windowsBatchSize.Some? ==> (r.Err? <==> |ws| == 0 && windowsBatchSize.value > 0)
    ensures r.Ok? && windowsBatchSize.Some? ==> |r.value| == windowsBatchSize.value
    ensures r.Ok? ==> forall k :: 0 <= k < |r.value| ==> r.value[k] in ws
  {
    match windowsBatchSize
    case None => Ok(ws)
    case Some(size) =>
      var n := |ws|;
      if n == 0 && size > 0 then Err(EmptyPopulation)
      else
        var d := choice(n, size, n < size);
        assert ValidDraw(d, n, size, n < size);
        Ok(seq(size, k requires 0 <= k < size => ws[d[k]]))
  }

  /** Train windows: raw windows, availability filter, then sampling. */
  function TrainWindows(cfg: Config, b: TemporalBatch, maskIdx: nat, choice: (nat, nat, bool) -> seq<nat>): (r: Result<Tensor3>)
    requires b.Valid() && maskIdx < |b.temporalCols| && IsChoice(choice)
  {
    match TrainRawWindows(cfg, b)
    case Err(e) => Err(e)
    case Ok(raw) =>
      RegularHasChannel(raw, cfg.WindowSize(), |b.temporalCols|, maskIdx);
      Sample(FilterObserved(raw, cfg.h, maskIdx), cfg.windowsBatchSize, choice)
  }

  /** Normalised bounds `[a, z)` of the predict slice `[-(input_size + test_size):]` or of the
      val slice `[-(input_size + val_size + test_size):-test_size]` (to the end when
      `test_size == 0`). */
  function EvalBounds(cfg: Config, len: nat, predict: bool): (bounds: (nat, nat))
    ensures bounds.0 <= bounds.1 <= len
  {
    if predict then (PyNeg(len, cfg.inputSize + cfg.testSize), len)
    else
      var a := PyNeg(len, cfg.inputSize + cfg.valSize + cfg.testSize);
      if cfg.testSize > 0 then
        var z := PyNeg(len, cfg.testSize);
        (if a <= z then a else z, z)
      else (a, len)
  }

  /** Predict pads `h` zeros only with no test segment and no future exogenous channels. */
  predicate PadsForPredict(cfg: Config, predict: bool)
  {
    predict && cfg.testSize == 0 && |cfg.futrExogList| == 0
  }

  /** Time length of the val / predict tensor just before `unfold`. */
  function EvalLength(cfg: Config, len: nat, predict: bool): nat
  {
    var bounds := EvalBounds(cfg, len, predict);
    bounds.1 - bounds.0 + (if PadsForPredict(cfg, predict) then cfg.h else 0)
  }

  function EvalCut(cfg: Config, b: TemporalBatch, predict: bool): (r: Tensor3)
    requires b.Valid()
    ensures |r| == |b.temporal| && Regular3(r, |b.temporalCols|, EvalLength(cfg, b.length, predict))
    ensures var a := EvalBounds(cfg, b.length, predict).0;
            forall s, c, t :: 0 <= s < |r| && 0 <= c < |b.temporalCols| && 0 <= t < EvalLength(cfg, b.length, predict) ==>
              r[s][c][t] == if a + t < EvalBounds(cfg, b.length, predict).1 then b.temporal[s][c][a + t] else 0.0
  {
    var bounds := EvalBounds(cfg, b.length, predict);
    var x := SliceTime(b.temporal, |b.temporalCols|, b.length, bounds.0, bounds.1);
    if PadsForPredict(cfg, predict) then PadTime(x, |b.temporalCols|, bounds.1 - bounds.0, cfg.h) else x
  }

  /** The stride of the val windows is `step_size`, that of the predict windows
      `predict_step_size`. */
  function EvalStride(cfg: Config, predict: bool): nat
    requires predict ==> cfg.predictStepSize.Some?
  {
    if predict then cfg.predictStepSize.value else cfg.stepSize
  }

  /** Val and predict windows (lines 132-161): no filtering and no sampling. */
  function EvalWindows(cfg: Config, b: TemporalBatch, predict: bool): (r: Result<Tensor3>)
    requires b.Valid()
    ensures r.Ok? ==> Regular3(r.value, cfg.WindowSize(), |b.temporalCols|)
  {
    if predict && cfg.predictStepSize.None? then Err(PredictStepSizeUnset)
    else
      Unfolded(EvalCut(cfg, b, predict), |b.temporalCols|, EvalLength(cfg, b.length, predict), cfg.WindowSize(),
               EvalStride(cfg, predict))
  }

  /** `_create_windows(batch, step)`. */
  function CreatedWindows(cfg: Config, b: TemporalBatch, step: string, maskIdx: nat, choice: (nat, nat, bool) -> seq<nat>): (r: Result<WindowsBatch>)
    requires b.Valid() && maskIdx < |b.temporalCols| && IsChoice(choice)
    ensures (r.Err? && r.error.UnknownStep?) <==> step != "train" && step != "predict" && step != "val"
    ensures r.Ok? ==> r.value.statics.None? && r.value.temporalCols == b.temporalCols
  {
    var ws :=
      if step == "train" then TrainWindows(cfg, b, maskIdx, choice)
      else if step == "predict" || step == "val" then EvalWindows(cfg, b, step == "predict")
      else Err(UnknownStep(step));
    match ws
    case Err(e) => Err(e)
    case Ok(w) => Ok(WindowsBatch(w, None, b.temporalCols))
  }

  // ---------------------------------------------------------------------------------------
  // _normalization and _inv_normalization

  datatype Moments = Moments(mean: real, std: real)

  function Product(a: seq<real>, b: seq<real>): (r: seq<real>)
    requires |a| == |b|
    ensures |r| == |a|
  {
    seq(|a|, t requires 0 <= t < |a| => a[t] * b[t])
  }

  /** `mask * (y - mean) ** 2`, step by step. */
  function Deviations(ys: seq<real>, ms: seq<real>, mean: real): (r: seq<real>)
    requires |ys| == |ms|
    ensures |r| == |ys|
  {
    seq(|ys|, t requires 0 <= t < |ys| => ms[t] * ((ys[t] - mean) * (ys[t] - mean)))
  }

  /** `mask_safe`: the mask sum, or 1 when it is 0 (lines 179-180). */
  function SafeDenominator(available: real): (r: real)
    ensures r != 0.0
    ensures available != 0.0 ==> r == available
  {
    if available == 0.0 then 1.0 else available
  }

  /** `y_means` for one window (lines 182-183). */
  function MaskedMean(ys: seq<real>, ms: seq<real>): real
    requires |ys| == |ms|
  {
    Sum(Product(ys, ms)) / SafeDenominator(Sum(ms))
  }

  /** `y_stds` for one window before the two clamps (lines 184-185). */
  function MaskedStd(ys: seq<real>, ms: seq<real>, sqrt: real -> real): real
    requires |ys| == |ms|
  {
    sqrt(Sum(Deviations(ys, ms, MaskedMean(ys, ms))) / SafeDenominator(Sum(ms)))
  }

  /** Mask-weighted mean and standard deviation of `ys`, with the denominator clamped to 1
      when the mask sums to 0, and the std forced to 1 when the mask sums to 0 or the std is 0. */
  function MomentsOf(ys: seq<real>, ms: seq<real>, sqrt: real -> real): (m: Moments)
    requires |ys| == |ms|
    ensures m.std != 0.0
    ensures Sum(ms) == 0.0 ==> m.std == 1.0 && m.mean == Sum(Product(ys, ms))
    ensures Sum(ms) != 0.0 ==> m.mean == Sum(Product(ys, ms)) / Sum(ms)
  {
    var std := if Sum(ms) == 0.0 then 1.0 else MaskedStd(ys, ms, sqrt);
    Moments(MaskedMean(ys, ms), if std == 0.0 then 1.0 else std)
  }

  /** The statistics `_normalization` computes for one window: over its lookback only. */
  function LookbackMoments(w: Matrix, h: nat, yIdx: nat, maskIdx: nat, sqrt: real -> real): Moments
    requires WindowHasChannel(w, yIdx) && WindowHasChannel(w, maskIdx)
  {
    MomentsOf(LookbackColumn(w, h, yIdx), LookbackColumn(w, h, maskIdx), sqrt)
  }

  /** `sqrt` is the square root on the non-negative reals: 0 at 0, and the positive root of a
      positive number. */
  ghost predicate IsSqrt(sqrt: real -> real)
  {
    && sqrt(0.0) == 0.0
    && forall x: real :: 0.0 < x ==> 0.0 < sqrt(x) && sqrt(x) * sqrt(x) == x
  }

  /** The target channel of every window becomes `(y - mean) / std`; every other channel is
      left as it was. */
  function NormalizeY(ws: Tensor3, yIdx: nat, means: seq<real>, stds: seq<real>): (r: Tensor3)
    requires |means| == |ws| && |stds| == |ws|
    requires forall i :: 0 <= i < |stds| ==> stds[i] != 0.0
  {
    seq(|ws|, i requires 0 <= i < |ws| =>
      seq(|ws[i]|, t requires 0 <= t < |ws[i]| =>
        seq(|ws[i][t]|, c requires 0 <= c < |ws[i][t]| =>
          if c == yIdx then (ws[i][t][c] - means[i]) / stds[i] else ws[i][t][c])))
  }

  /** A tensor that agrees with `NormalizeY(before, ...)` element by element is that tensor. */
  lemma NormalizeYElements(before: Tensor3, after: Tensor3, d1: nat, d2: nat, yIdx: nat,
                           means: seq<real>, stds: seq<real>)
    requires Regular3(before, d1, d2) && Regular3(after, d1, d2) && |after| == |before|
    requires |means| == |before| && |stds| == |before|
    requires forall i :: 0 <= i < |stds| ==> stds[i] != 0.0
    requires forall i, t, c :: 0 <= i < |before| && 0 <= t < d1 && 0 <= c < d2 ==>
               after[i][t][c] == if c == yIdx then (before[i][t][c] - means[i]) / stds[i] else before[i][t][c]
    ensures after == NormalizeY(before, yIdx, means, stds)
  {
    var spec := NormalizeY(before, yIdx, means, stds);
    forall i | 0 <= i < |before| ensures after[i] == spec[i] {
      forall t | 0 <= t < d1 ensures after[i][t] == spec[i][t] {
      }
    }
  }

  /** The contents of a 3-dimensional array, as a nested sequence. */
  function Snapshot(a: array3<real>): (r: Tensor3)
    reads a
    ensures |r| == a.Length0 && Regular3(r, a.Length1, a.Length2)
    ensures forall i, t, c :: 0 <= i < a.Length0 && 0 <= t < a.Length1 && 0 <= c < a.Length2 ==> r[i][t][c] == a[i, t, c]
  {
    seq(a.Length0, i requires 0 <= i < a.Length0 reads a =>
      seq(a.Length1, t requires 0 <= t < a.Length1 reads a =>
        seq(a.Length2, c requires 0 <= c < a.Length2 reads a => a[i, t, c])))
  }

  /** A model prediction `[B, H]`, or `[B, H, O]` when the loss emits several outputs per step. */
  datatype Forecast = Point(y: Matrix) | Multi(ys: Tensor3)
  {
    function Batch(): nat { if Point? then |y| else |ys| }
  }

  /** `_inv_normalization`: `std * y_hat + mean` per window, broadcast over the trailing
      output axis when `outputsize_multiplier > 1`. */
  function InvNormalization(yHat: Forecast, means: seq<real>, stds: seq<real>, outputsizeMultiplier: nat): (r: Forecast)
    requires yHat.Multi? <==> outputsizeMultiplier > 1
    requires |means| == yHat.Batch() && |stds| == yHat.Batch()
    ensures r.Multi? == yHat.Multi? && r.Batch() == yHat.Batch()
  {
    if outputsizeMultiplier > 1 then
      var ys := yHat.ys;
      Multi(seq(|ys|, i requires 0 <= i < |ys| =>
        seq(|ys[i]|, t requires 0 <= t < |ys[i]| =>
          seq(|ys[i][t]|, o requires 0 <= o < |ys[i][t]| => stds[i] * ys[i][t][o] + means[i]))))
    else
      var y := yHat.y;
      Point(seq(|y|, i requires 0 <= i < |y| =>
        seq(|y[i]|, t requires 0 <= t < |y[i]| => stds[i] * y[i][t] + means[i])))
  }

  // ---------------------------------------------------------------------------------------
  // _parse_windows

  datatype Parsed = Parsed(
    insampleY: Matrix,
    insampleMask: Matrix,
    outsampleY: Matrix,
    outsampleMask: Matrix,
    histExog: Option<Tensor3>,
    futrExog: Option<Tensor3>,
    statExog: Option<Matrix>)

  predicate ValidIndices(idx: seq<nat>, bound: nat)
  {
    forall k :: 0 <= k < |idx| ==> idx[k] < bound
  }

  /** Every series of the static tensor has its `[0]` row holding the listed channels. */
  predicate StaticHolds(st: Tensor3, idx: seq<nat>)
  {
    forall s :: 0 <= s < |st| ==> |st[s]| > 0 && forall k :: 0 <= k < |idx| ==> idx[k] < |st[s][0]|
  }

  /** `_parse_windows`: lookback and horizon of the target and mask channels, the lookback of
      the historic exogenous channels, all steps of the future ones, and `static[:, 0, idx]`;
      each optional part is present exactly when its name list is non-empty. */
  function ParseWindows(
    h: nat, histExogList: seq<string>, futrExogList: seq<string>, statExogList: seq<string>,
    windows: WindowsBatch, windowSize: nat,
    yIdx: nat, maskIdx: nat, histIdx: seq<nat>, futrIdx: seq<nat>, statIdx: seq<nat>): (r: Result<Parsed>)
    requires Regular3(windows.temporal, windowSize, |windows.temporalCols|)
    requires yIdx < |windows.temporalCols| && maskIdx < |windows.temporalCols|
    requires |histIdx| == |histExogList| && ValidIndices(histIdx, |windows.temporalCols|)
    requires |futrIdx| == |futrExogList| && ValidIndices(futrIdx, |windows.temporalCols|)
    requires |statIdx| == |statExogList|
    requires windows.statics.Some? ==> StaticHolds(windows.statics.value.tensor, statIdx)
    ensures r.Err? <==> |statExogList| > 0 && windows.statics.None?
    ensures r.Err? ==> r.error == MissingStatic
    ensures r.Ok? ==> (r.value.histExog.None? <==> |histExogList| == 0)
    ensures r.Ok? ==> (r.value.futrExog.None? <==> |futrExogList| == 0)
    ensures r.Ok? ==> (r.value.statExog.None? <==> |statExogList| == 0)
  {
    var ws := windows.temporal;
    var n := |ws|;
    var look := PyNeg(windowSize, h);
    assert forall i :: 0 <= i < n ==> |ws[i]| == windowSize;
    RegularHasChannel(ws, windowSize, |windows.temporalCols|, yIdx);
    RegularHasChannel(ws, windowSize, |windows.temporalCols|, maskIdx);
    var insampleY := seq(n, i requires 0 <= i < n => LookbackColumn(ws[i], h, yIdx));
    var insampleMask := seq(n, i requires 0 <= i < n => LookbackColumn(ws[i], h, maskIdx));
    var outsampleY := seq(n, i requires 0 <= i < n => HorizonColumn(ws[i], h, yIdx));
    var outsampleMask := seq(n, i requires 0 <= i < n => HorizonColumn(ws[i], h, maskIdx));
    var histExog :=
      if |histExogList| > 0 then
        Some(seq(n, i requires 0 <= i < n => Gather(ws[i], 0, look, histIdx)))
      else None;
    var futrExog :=
      if |futrExogList| > 0 then
        Some(seq(n, i requires 0 <= i < n => Gather(ws[i], 0, windowSize, futrIdx)))
      else None;
    if |statExogList| > 0 && windows.statics.None? then Err(MissingStatic)
    else
      var statExog :=
        if |statExogList| > 0 then
          var st := windows.statics.value.tensor;
          Some(seq(|st|, s requires 0 <= s < |st| =>
            seq(|statIdx|, k requires 0 <= k < |statIdx| => st[s][0][statIdx[k]])))
        else None;
      Ok(Parsed(insampleY, insampleMask, outsampleY, outsampleMask, histExog, futrExog, statExog))
  }

  // ---------------------------------------------------------------------------------------
  // The model object

  /** The configuration state of a `BaseWindows` model and the two pipeline stages that act
      on it step by step. */
  class BaseWindows {
    const h: nat
    const inputSize: nat
    const normalize: bool
    const futrExogList: seq<string>
    const histExogList: seq<string>
    const statExogList: seq<string>
    var windowsBatchSize: Option<nat>
    var valSize: nat
    var testSize: nat
    var stepSize: nat
    var predictStepSize: Option<nat>

    function Configuration(): Config
      reads this
    {
      Config.Config(h, inputSize, valSize, testSize, stepSize, predictStepSize, windowsBatchSize,
             futrExogList, histExogList, statExogList)
    }

    /** `__init__` (lines 36-56); a missing exogenous list is the empty list. */
    constructor (h: nat, inputSize: nat, normalize: bool,
                 futrExogList: seq<string>, histExogList: seq<string>, statExogList: seq<string>)
      ensures this.h == h && this.inputSize == inputSize && this.normalize == normalize
      ensures this.futrExogList == futrExogList && this.histExogList == histExogList
      ensures this.statExogList == statExogList
      ensures windowsBatchSize == None && valSize == 0 && testSize == 0 && stepSize == 1
      ensures predictStepSize == None
    {
      this.h := h;
      this.inputSize := inputSize;
      this.normalize := normalize;
      this.futrExogList := futrExogList;
      this.histExogList := histExogList;
      this.statExogList := statExogList;
      windowsBatchSize := None;
      valSize := 0;
      testSize := 0;
      stepSize := 1;
      predictStepSize := None;
    }

    /** `fit` records the validation and test sizes (lines 331-332). */
    method Fit(valSize: nat, testSize: nat)
      modifies this
      ensures this.valSize == valSize && this.testSize == testSize
      ensures windowsBatchSize == old(windowsBatchSize) && stepSize == old(stepSize)
      ensures predictStepSize == old(predictStepSize)
    {
      this.valSize := valSize;
      this.testSize := testSize;
    }

    /** `predict` records the prediction stride (line 353). */
    method Predict(stepSize: nat)
      modifies this
      ensures predictStepSize == Some(stepSize)
      ensures windowsBatchSize == old(windowsBatchSize) && this.stepSize == old(this.stepSize)
      ensures valSize == old(valSize) && testSize == old(testSize)
    {
      predictStepSize := Some(stepSize);
    }

    method SetTestSize(testSize: nat)
      modifies this
      ensures this.testSize == testSize
      ensures windowsBatchSize == old(windowsBatchSize) && stepSize == old(stepSize)
      ensures valSize == old(valSize) && predictStepSize == old(predictStepSize)
    {
      this.testSize := testSize;
    }

    /** `_create_windows`: dispatches on the phase; any other step is an error (line 163). */
    method CreateWindows(batch: TemporalBatch, step: string, maskIdx: nat, choice: (nat, nat, bool) -> seq<nat>)
      returns (r: Result<WindowsBatch>)
      requires batch.Valid() && maskIdx < |batch.temporalCols| && IsChoice(choice)
      ensures r == CreatedWindows(Configuration(), batch, step, maskIdx, choice)
    {
      var windows: Result<Tensor3>;
      if step == "train" {
        windows := CreateTrainWindows(batch, maskIdx, choice);
      } else if step == "predict" || step == "val" {
        windows := CreateEvalWindows(batch, step == "predict");
      } else {
        return Err(UnknownStep(step));
      }
      match windows
      case Err(e) => r := Err(e);
      case Ok(w) => r := Ok(WindowsBatch(w, None, batch.temporalCols));
    }

    /** The train branch (lines 97-130): rebinds the temporal tensor through cutoff, padding
        and unfold, then narrows the windows by the availability filter and the sampled indices. */
    method CreateTrainWindows(batch: TemporalBatch, maskIdx: nat, choice: (nat, nat, bool) -> seq<nat>)
      returns (r: Result<Tensor3>)
      requires batch.Valid() && maskIdx < |batch.temporalCols| && IsChoice(choice)
      ensures r == TrainWindows(Configuration(), batch, maskIdx, choice)
    {
      var windowSize := inputSize + h;
      var channels := |batch.temporalCols|;
      var temporal := batch.temporal;
      var len := batch.length;
      if valSize + testSize > 0 {
        var cutoff := PyNeg(len, valSize + testSize);
        temporal := SliceTime(temporal, channels, len, 0, cutoff);
        len := cutoff;
      }
      temporal := PadTime(temporal, channels, len, h);
      len := len + h;
      var windows := Unfolded(temporal, channels, len, windowSize, stepSize);
      assert windows == TrainRawWindows(Configuration(), batch);
      if windows.Err? {
        return Err(windows.error);
      }
      RegularHasChannel(windows.value, windowSize, channels, maskIdx);
      var kept := FilterObserved(windows.value, h, maskIdx);
      r := Sample(kept, windowsBatchSize, choice);
    }

    /** The val and predict branches (lines 132-161): cutoff, optional padding, unfold. */
    method CreateEvalWindows(batch: TemporalBatch, predict: bool) returns (r: Result<Tensor3>)
      requires batch.Valid()
      ensures r == EvalWindows(Configuration(), batch, predict)
    {
      if predict && predictStepSize.None? {
        return Err(PredictStepSizeUnset);
      }
      var windowSize := inputSize + h;
      var channels := |batch.temporalCols|;
      var stride := if predict then predictStepSize.value else stepSize;
      var len := batch.length;
      var bounds := EvalBounds(Configuration(), len, predict);
      var temporal := SliceTime(batch.temporal, channels, len, bounds.0, bounds.1);
      len := bounds.1 - bounds.0;
      if predict && testSize == 0 && |futrExogList| == 0 {
        temporal := PadTime(temporal, channels, len, h);
        len := len + h;
      }
      assert len == EvalLength(Configuration(), batch.length, predict);
      assert temporal == EvalCut(Configuration(), batch, predict);
      r := Unfolded(temporal, channels, len, windowSize, stride);
    }

    /** Lines 170-190 of `_normalization`: the per-window statistics, over the lookback only. */
    method WindowStatistics(w: Tensor3, d1: nat, d2: nat, yIdx: nat, maskIdx: nat, sqrt: real -> real)
      returns (means: seq<real>, stds: seq<real>)
      requires Regular3(w, d1, d2) && yIdx < d2 && maskIdx < d2
      ensures |means| == |w| && |stds| == |w|
      ensures forall i :: 0 <= i < |stds| ==> stds[i] != 0.0
      ensures forall i :: 0 <= i < |means| ==>
                Moments(means[i], stds[i]) == LookbackMoments(w[i], h, yIdx, maskIdx, sqrt)
    {
      var n := |w|;
      RegularHasChannel(w, d1, d2, yIdx);
      RegularHasChannel(w, d1, d2, maskIdx);
      // lines 172-173: the lookback of the target and of the mask
      var ys := seq(n, i requires 0 <= i < n => LookbackColumn(w[i], h, yIdx));
      var ms := seq(n, i requires 0 <= i < n => LookbackColumn(w[i], h, maskIdx));
      // line 176
      var availableSum := seq(n, i requires 0 <= i < n => Sum(ms[i]));
      // lines 179-180
      var maskSafe := new real[n](i requires 0 <= i < n => availableSum[i]);
      forall i | 0 <= i < n && availableSum[i] == 0.0 {
        maskSafe[i] := 1.0;
      }
      var safe := maskSafe[..];
      // lines 182-185
      means := seq(n, i requires 0 <= i < n => Sum(Product(ys[i], ms[i])) / safe[i]);
      var rawStds := seq(n, i requires 0 <= i < n => sqrt(Sum(Deviations(ys[i], ms[i], means[i])) / safe[i]));
      var yStds := new real[n](i requires 0 <= i < n => rawStds[i]);
      // lines 188-189
      forall i | 0 <= i < n && availableSum[i] == 0.0 {
        yStds[i] := 1.0;
      }
      ghost var firstClamp := yStds[..];
      forall i | 0 <= i < n && yStds[i] == 0.0 {
        yStds[i] := 1.0;
      }
      stds := yStds[..];
      forall i | 0 <= i < n
        ensures stds[i] != 0.0
        ensures Moments(means[i], stds[i]) == LookbackMoments(w[i], h, yIdx, maskIdx, sqrt)
      {
        assert safe[i] == if availableSum[i] == 0.0 then 1.0 else availableSum[i];
        assert firstClamp[i] == if availableSum[i] == 0.0 then 1.0 else rawStds[i];
        assert stds[i] == if firstClamp[i] == 0.0 then 1.0 else firstClamp[i];
      }
    }

    /** `_normalization`: standardises the target channel of every window in place by the
        statistics of its own lookback, and returns those statistics. */
    method Normalization(temporal: array3<real>, yIdx: nat, maskIdx: nat, sqrt: real -> real)
      returns (means: seq<real>, stds: seq<real>)
      requires yIdx < temporal.Length2 && maskIdx < temporal.Length2
      modifies temporal
      ensures |means| == temporal.Length0 && |stds| == temporal.Length0
      ensures forall i :: 0 <= i < |stds| ==> stds[i] != 0.0
      ensures forall i :: 0 <= i < |means| ==>
                Moments(means[i], stds[i]) == LookbackMoments(old(Snapshot(temporal))[i], h, yIdx, maskIdx, sqrt)
      ensures Snapshot(temporal) == NormalizeY(old(Snapshot(temporal)), yIdx, means, stds)
    {
      var w := Snapshot(temporal);
      means, stds := WindowStatistics(w, temporal.Length1, temporal.Length2, yIdx, maskIdx, sqrt);
      StandardizeTarget(temporal, yIdx, means, stds);
    }

    /** Lines 192-194 of `_normalization`: the target channel of window `i` becomes
        `(y - mean[i]) / std[i]` in place. */
    method StandardizeTarget(temporal: array3<real>, yIdx: nat, means: seq<real>, stds: seq<real>)
      requires yIdx < temporal.Length2
      requires |means| == temporal.Length0 && |stds| == temporal.Length0
      requires forall i :: 0 <= i < |stds| ==> stds[i] != 0.0
      modifies temporal
      ensures Snapshot(temporal) == NormalizeY(old(Snapshot(temporal)), yIdx, means, stds)
    {
      ghost var w := Snapshot(temporal);
      forall i, t | 0 <= i < temporal.Length0 && 0 <= t < temporal.Length1 {
        temporal[i, t, yIdx] := (temporal[i, t, yIdx] - means[i]) / stds[i];
      }
      assert forall i, t, c :: 0 <= i < temporal.Length0 && 0 <= t < temporal.Length1 && 0 <= c < temporal.Length2 ==>
               temporal[i, t, c] == if c == yIdx then (w[i][t][c] - means[i]) / stds[i] else w[i][t][c];
      NormalizeYElements(w, Snapshot(temporal), temporal.Length1, temporal.Length2, yIdx, means, stds);
    }
  }
}
