/** Properties of the window pipeline modelled in `Windows`: where each window comes from,
    which windows the train filter drops, what sampling draws, the geometry of the val and
    predict phases, what parsing can and cannot return after `_create_windows`. */
module WindowProperties {
  import opened Tensors
  import opened Windows

  // ---------------------------------------------------------------------------------------
  // Train windows

  /** Train window `k` of series `s` reads the cut series from step `k * step_size` on, and
      the zeros of the `h` padding once it runs past the cut. */
  lemma TrainWindowAt(cfg: Config, b: TemporalBatch, s: nat, k: nat, t: nat, c: nat)
    requires b.Valid()
    requires 0 < cfg.stepSize && cfg.WindowSize() <= TrainCutLength(cfg, b.length) + cfg.h
    requires s < |b.temporal| && c < |b.temporalCols| && t < cfg.WindowSize()
    requires k < NumWindows(TrainCutLength(cfg, b.length) + cfg.h, cfg.WindowSize(), cfg.stepSize)
    ensures var len := TrainCutLength(cfg, b.length);
            var n := NumWindows(len + cfg.h, cfg.WindowSize(), cfg.stepSize);
            var raw := TrainRawWindows(cfg, b);
            var i := WindowStart(k, cfg.stepSize) + t;
            && raw.Ok? && RowMajor(s, n, k) < |raw.value|
            && raw.value[RowMajor(s, n, k)][t][c] == if i < len then b.temporal[s][c][i] else 0.0
  {
    var len := TrainCutLength(cfg, b.length);
    var padded := PadTime(TrainCut(cfg, b), |b.temporalCols|, len, cfg.h);
    ExtractAt(padded, |b.temporalCols|, len + cfg.h, cfg.WindowSize(), cfg.stepSize, s, k, t, c);
  }

  /** With a train cut that leaves at least `input_size` steps, every series yields
      `(len - input_size) / step_size + 1` raw windows: the `h` padding adds exactly the windows
      whose horizon runs past the end. */
  lemma TrainWindowCount(cfg: Config, b: TemporalBatch)
    requires b.Valid() && 0 < cfg.stepSize && cfg.inputSize <= TrainCutLength(cfg, b.length)
    ensures var len := TrainCutLength(cfg, b.length);
            && TrainRawWindows(cfg, b).Ok?
            && |TrainRawWindows(cfg, b).value| == |b.temporal| * ((len - cfg.inputSize) / cfg.stepSize + 1)
  {
    var len := TrainCutLength(cfg, b.length);
    assert len + cfg.h - cfg.WindowSize() == len - cfg.inputSize;
  }

  /** The train cut removes the last `val_size + test_size` steps, or, when they reach past the
      start, everything. */
  lemma TrainCutRemovesValAndTest(cfg: Config, len: nat)
    ensures cfg.valSize + cfg.testSize <= len ==> TrainCutLength(cfg, len) == len - (cfg.valSize + cfg.testSize)
    ensures cfg.valSize + cfg.testSize > len ==> TrainCutLength(cfg, len) == 0
  {
  }

  /** 100 steps, `input_size = 10`, `h = 5`, `step_size = 1` and no val or test: 91 windows. */
  lemma HundredStepsGiveNinetyOneWindows(cfg: Config, b: TemporalBatch)
    requires b.Valid() && |b.temporal| == 1 && b.length == 100
    requires cfg.inputSize == 10 && cfg.h == 5 && cfg.stepSize == 1
    requires cfg.valSize == 0 && cfg.testSize == 0
    ensures TrainRawWindows(cfg, b).Ok? && |TrainRawWindows(cfg, b).value| == 91
  {
    TrainWindowCount(cfg, b);
  }

  /** A raw window whose horizon starts at or beyond the end of the cut series sees only
      padding there, so the availability filter drops it. */
  lemma PaddedHorizonIsDropped(cfg: Config, b: TemporalBatch, maskIdx: nat, s: nat, k: nat)
    requires b.Valid() && maskIdx < |b.temporalCols| && 0 < cfg.h
    requires 0 < cfg.stepSize && cfg.WindowSize() <= TrainCutLength(cfg, b.length) + cfg.h
    requires s < |b.temporal|
    requires k < NumWindows(TrainCutLength(cfg, b.length) + cfg.h, cfg.WindowSize(), cfg.stepSize)
    requires WindowStart(k, cfg.stepSize) + cfg.inputSize >= TrainCutLength(cfg, b.length)
    ensures var n := NumWindows(TrainCutLength(cfg, b.length) + cfg.h, cfg.WindowSize(), cfg.stepSize);
            var raw := TrainRawWindows(cfg, b);
            && raw.Ok? && RowMajor(s, n, k) < |raw.value| && WindowHasChannel(raw.value[RowMajor(s, n, k)], maskIdx)
            && !HasObservedHorizon(raw.value[RowMajor(s, n, k)], cfg.h, maskIdx)
  {
    var len := TrainCutLength(cfg, b.length);
    var n := NumWindows(len + cfg.h, cfg.WindowSize(), cfg.stepSize);
    var raw := TrainRawWindows(cfg, b).value;
    TrainWindowAt(cfg, b, s, k, 0, maskIdx);
    var w := raw[RowMajor(s, n, k)];
    forall t | cfg.inputSize <= t < cfg.WindowSize() ensures w[t][maskIdx] == 0.0 {
      TrainWindowAt(cfg, b, s, k, t, maskIdx);
    }
    ZeroHorizonUnobserved(w, cfg.inputSize, cfg.h, maskIdx);
  }

  /** A window of `input_size + h` steps whose horizon mask is all zeros is unobserved. */
  lemma ZeroHorizonUnobserved(w: Matrix, inputSize: nat, h: nat, maskIdx: nat)
    requires |w| == inputSize + h && 0 < h && WindowHasChannel(w, maskIdx)
    requires forall t :: inputSize <= t < |w| ==> w[t][maskIdx] == 0.0
    ensures !HasObservedHorizon(w, h, maskIdx)
  {
    var horizon := HorizonColumn(w, h, maskIdx);
    assert |horizon| == h;
    forall j | 0 <= j < h ensures horizon[j] == 0.0 {
      assert horizon[j] == w[inputSize + j][maskIdx];
    }
    SumOfZeros(horizon);
  }

  /** Every train window that survives, sampled or not, has an observed value in its horizon. */
  lemma TrainWindowsObserved(cfg: Config, b: TemporalBatch, maskIdx: nat, choice: (nat, nat, bool) -> seq<nat>)
    requires b.Valid() && maskIdx < |b.temporalCols| && IsChoice(choice)
    ensures var r := TrainWindows(cfg, b, maskIdx, choice);
            r.Ok? ==> forall k :: 0 <= k < |r.value| ==>
              WindowHasChannel(r.value[k], maskIdx) && HasObservedHorizon(r.value[k], cfg.h, maskIdx)
  {
    var r := TrainWindows(cfg, b, maskIdx, choice);
    if r.Ok? {
      var raw := TrainRawWindows(cfg, b).value;
      RegularHasChannel(raw, cfg.WindowSize(), |b.temporalCols|, maskIdx);
      var kept := FilterObserved(raw, cfg.h, maskIdx);
      forall k | 0 <= k < |r.value|
        ensures WindowHasChannel(r.value[k], maskIdx) && HasObservedHorizon(r.value[k], cfg.h, maskIdx)
      {
        assert r.value[k] in kept;
        var j :| 0 <= j < |kept| && kept[j] == r.value[k];
      }
    }
  }

  /** The train phase fails exactly when unfolding fails, or when a sample is asked of an empty
      set of observed windows; without `windows_batch_size` it is the filter's output, with
      it exactly that many windows. */
  lemma TrainWindowsOutcome(cfg: Config, b: TemporalBatch, maskIdx: nat, choice: (nat, nat, bool) -> seq<nat>)
    requires b.Valid() && maskIdx < |b.temporalCols| && IsChoice(choice)
    ensures var raw := TrainRawWindows(cfg, b);
            var r := TrainWindows(cfg, b, maskIdx, choice);
            && (raw.Err? ==> r == Err(UnfoldFailed))
            && (raw.Ok? ==>
                  var kept := FilterObserved(raw.value, cfg.h, maskIdx);
                  && (cfg.windowsBatchSize.None? ==> r == Ok(kept))
                  && (cfg.windowsBatchSize.Some? ==>
                        && (r.Err? <==> |kept| == 0 && cfg.windowsBatchSize.value > 0)
                        && (r.Ok? ==> |r.value| == cfg.windowsBatchSize.value)))
  {
    var raw := TrainRawWindows(cfg, b);
    if raw.Ok? {
      RegularHasChannel(raw.value, cfg.WindowSize(), |b.temporalCols|, maskIdx);
    }
  }

  /** Train windows keep the `[input_size + h, C]` shape. */
  lemma TrainWindowsShape(cfg: Config, b: TemporalBatch, maskIdx: nat, choice: (nat, nat, bool) -> seq<nat>)
    requires b.Valid() && maskIdx < |b.temporalCols| && IsChoice(choice)
    ensures var r := TrainWindows(cfg, b, maskIdx, choice);
            r.Ok? ==> Regular3(r.value, cfg.WindowSize(), |b.temporalCols|)
  {
    var r := TrainWindows(cfg, b, maskIdx, choice);
    if r.Ok? {
      var raw := TrainRawWindows(cfg, b).value;
      RegularHasChannel(raw, cfg.WindowSize(), |b.temporalCols|, maskIdx);
      var kept := FilterObserved(raw, cfg.h, maskIdx);
      var idx := ObservedFrom(raw, cfg.h, maskIdx, 0);
      forall k | 0 <= k < |r.value|
        ensures |r.value[k]| == cfg.WindowSize()
        ensures forall t :: 0 <= t < cfg.WindowSize() ==> |r.value[k][t]| == |b.temporalCols|
      {
        assert r.value[k] in kept;
        var j :| 0 <= j < |kept| && kept[j] == r.value[k];
        assert kept[j] == raw[idx[j]];
      }
    }
  }

  // ---------------------------------------------------------------------------------------
  // Sampling

  /** With a batch size `k` and a non-empty population (or `k == 0`), sampling returns the
      windows at the drawn positions; the draw repeats positions only when there are fewer
      windows than `k`. */
  lemma SampleDraws(ws: Tensor3, k: nat, choice: (nat, nat, bool) -> seq<nat>)
    requires IsChoice(choice) && (0 < |ws| || k == 0)
    ensures var d := choice(|ws|, k, |ws| < k);
            var r := Sample(ws, Some(k), choice);
            && ValidDraw(d, |ws|, k, |ws| < k)
            && (|ws| >= k ==> forall i, j :: 0 <= i < j < k ==> d[i] != d[j])
            && r.Ok? && |r.value| == k
            && forall j :: 0 <= j < k ==> r.value[j] == ws[d[j]]
  {
  }

  // ---------------------------------------------------------------------------------------
  // Val and predict windows

  /** Val and predict windows fail exactly when `predict_step_size` is missing, the stride is 0,
      or the cut series is shorter than one window. */
  lemma EvalWindowsOk(cfg: Config, b: TemporalBatch, predict: bool)
    requires b.Valid()
    ensures EvalWindows(cfg, b, predict).Ok? <==>
              && (predict ==> cfg.predictStepSize.Some?)
              && 0 < EvalStride(cfg, predict)
              && cfg.WindowSize() <= EvalLength(cfg, b.length, predict)
  {
  }

  /** Val / predict window `k` of series `s` starts `k` strides after the cut's first step and
      reads zeros only in the predict padding. */
  lemma EvalWindowAt(cfg: Config, b: TemporalBatch, predict: bool, s: nat, k: nat, t: nat, c: nat)
    requires b.Valid() && (predict ==> cfg.predictStepSize.Some?)
    requires 0 < EvalStride(cfg, predict) && cfg.WindowSize() <= EvalLength(cfg, b.length, predict)
    requires s < |b.temporal| && c < |b.temporalCols| && t < cfg.WindowSize()
    requires k < NumWindows(EvalLength(cfg, b.length, predict), cfg.WindowSize(), EvalStride(cfg, predict))
    ensures var n := NumWindows(EvalLength(cfg, b.length, predict), cfg.WindowSize(), EvalStride(cfg, predict));
            var i := EvalBounds(cfg, b.length, predict).0 + WindowStart(k, EvalStride(cfg, predict)) + t;
            var r := EvalWindows(cfg, b, predict);
            && r.Ok? && |r.value| == |b.temporal| * n && RowMajor(s, n, k) < |r.value|
            && r.value[RowMajor(s, n, k)][t][c] ==
                 if i < EvalBounds(cfg, b.length, predict).1 then b.temporal[s][c][i] else 0.0
  {
    var stride := EvalStride(cfg, predict);
    var len := EvalLength(cfg, b.length, predict);
    var x := EvalCut(cfg, b, predict);
    ExtractAt(x, |b.temporalCols|, len, cfg.WindowSize(), stride, s, k, t, c);
    assert EvalWindows(cfg, b, predict) == Ok(Extract(x, |b.temporalCols|, len, cfg.WindowSize(), stride));
  }

  /** Predicting with no test segment and no future exogenous channels gives one window per
      series: its last `input_size` observations followed by `h` zeros. */
  lemma PredictOneWindowPerSeries(cfg: Config, b: TemporalBatch, s: nat, t: nat, c: nat)
    requires b.Valid() && cfg.predictStepSize.Some? && 0 < cfg.predictStepSize.value
    requires cfg.testSize == 0 && |cfg.futrExogList| == 0
    requires 0 < cfg.inputSize <= b.length
    requires s < |b.temporal| && c < |b.temporalCols| && t < cfg.WindowSize()
    ensures var r := EvalWindows(cfg, b, true);
            && r.Ok? && |r.value| == |b.temporal|
            && r.value[s][t][c] == if t < cfg.inputSize then b.temporal[s][c][b.length - cfg.inputSize + t] else 0.0
  {
    PredictBounds(cfg, b.length);
    assert RowMajor(s, 1, 0) == s && WindowStart(0, cfg.predictStepSize.value) == 0;
    EvalWindowAt(cfg, b, true, s, 0, t, c);
  }

  /** Predicting with no test segment and no future exogenous channels slices the last
      `input_size` steps and pads `h` zeros: exactly one window of every series. */
  lemma PredictBounds(cfg: Config, len: nat)
    requires cfg.predictStepSize.Some? && 0 < cfg.predictStepSize.value
    requires cfg.testSize == 0 && |cfg.futrExogList| == 0 && 0 < cfg.inputSize <= len
    ensures EvalBounds(cfg, len, true) == (len - cfg.inputSize, len)
    ensures EvalLength(cfg, len, true) == cfg.WindowSize()
    ensures NumWindows(EvalLength(cfg, len, true), cfg.WindowSize(), EvalStride(cfg, true)) == 1
  {
    assert EvalLength(cfg, len, true) == cfg.WindowSize();
    assert (cfg.WindowSize() - cfg.WindowSize()) / cfg.predictStepSize.value == 0;
  }

  /** With a future exogenous list and no test segment, predict never gets a window: the cutoff
      keeps at most `input_size` steps and, with `futr_exog_list` non-empty, nothing pads them to
      `input_size + h`, so `unfold` fails whatever the series length. */
  lemma PredictWithFutrAndNoTestFails(cfg: Config, b: TemporalBatch, maskIdx: nat, choice: (nat, nat, bool) -> seq<nat>)
    requires b.Valid() && maskIdx < |b.temporalCols| && IsChoice(choice)
    requires cfg.predictStepSize.Some? && cfg.testSize == 0 && |cfg.futrExogList| > 0
    requires 0 < cfg.inputSize && 0 < cfg.h
    ensures EvalWindows(cfg, b, true) == Err(UnfoldFailed)
    ensures CreatedWindows(cfg, b, "predict", maskIdx, choice) == Err(UnfoldFailed)
  {
    assert !PadsForPredict(cfg, true);
    assert EvalLength(cfg, b.length, true) <= cfg.inputSize < cfg.WindowSize();
  }

  /** With `input_size > 0` and enough history, the val slice is the `input_size + val_size`
      steps that end where the test segment begins. */
  lemma ValBounds(cfg: Config, len: nat)
    requires 0 < cfg.inputSize && cfg.inputSize + cfg.valSize + cfg.testSize <= len
    ensures EvalBounds(cfg, len, false) == (len - (cfg.inputSize + cfg.valSize + cfg.testSize), len - cfg.testSize)
    ensures EvalLength(cfg, len, false) == cfg.inputSize + cfg.valSize
  {
  }

  /** Validation windows exist exactly when `h <= val_size`; there are then
      `(val_size - h) / step_size + 1` per series. */
  lemma ValWindowCount(cfg: Config, b: TemporalBatch)
    requires b.Valid() && 0 < cfg.stepSize
    requires 0 < cfg.inputSize && cfg.inputSize + cfg.valSize + cfg.testSize <= b.length
    ensures EvalWindows(cfg, b, false).Ok? <==> cfg.h <= cfg.valSize
    ensures cfg.h <= cfg.valSize ==>
              |EvalWindows(cfg, b, false).value| == |b.temporal| * ((cfg.valSize - cfg.h) / cfg.stepSize + 1)
  {
    ValBounds(cfg, b.length);
    EvalWindowsOk(cfg, b, false);
    if cfg.h <= cfg.valSize {
      assert NumWindows(cfg.inputSize + cfg.valSize, cfg.WindowSize(), cfg.stepSize)
          == (cfg.valSize - cfg.h) / cfg.stepSize + 1;
    }
  }

  /** Every value a validation window reads is a real observation taken before the test
      segment starts. */
  lemma ValWindowAt(cfg: Config, b: TemporalBatch, s: nat, k: nat, t: nat, c: nat)
    requires b.Valid() && 0 < cfg.stepSize
    requires 0 < cfg.inputSize && cfg.inputSize + cfg.valSize + cfg.testSize <= b.length && cfg.h <= cfg.valSize
    requires s < |b.temporal| && k < (cfg.valSize - cfg.h) / cfg.stepSize + 1
    requires t < cfg.WindowSize() && c < |b.temporalCols|
    ensures var start := b.length - (cfg.inputSize + cfg.valSize + cfg.testSize);
            var n := (cfg.valSize - cfg.h) / cfg.stepSize + 1;
            var r := EvalWindows(cfg, b, false);
            && r.Ok? && RowMajor(s, n, k) < |r.value|
            && start + WindowStart(k, cfg.stepSize) + t < b.length - cfg.testSize
            && r.value[RowMajor(s, n, k)][t][c] == b.temporal[s][c][start + WindowStart(k, cfg.stepSize) + t]
  {
    ValBounds(cfg, b.length);
    ValWindowCount(cfg, b);
    EvalWindowAt(cfg, b, false, s, k, t, c);
    WindowInBounds(cfg.inputSize + cfg.valSize, cfg.WindowSize(), cfg.stepSize, k, t);
  }

  // ---------------------------------------------------------------------------------------
  // _create_windows and _parse_windows together

  /** Whatever phase produced them, created windows are `[input_size + h, C]`. */
  lemma CreatedWindowsShape(cfg: Config, b: TemporalBatch, step: string, maskIdx: nat, choice: (nat, nat, bool) -> seq<nat>)
    requires b.Valid() && maskIdx < |b.temporalCols| && IsChoice(choice)
    ensures var r := CreatedWindows(cfg, b, step, maskIdx, choice);
            r.Ok? ==> Regular3(r.value.temporal, cfg.WindowSize(), |b.temporalCols|)
  {
    if step == "train" {
      TrainWindowsShape(cfg, b, maskIdx, choice);
    } else if step == "predict" || step == "val" {
      var predict := step == "predict";
      if EvalWindows(cfg, b, predict).Ok? {
        var stride := if predict then cfg.predictStepSize.value else cfg.stepSize;
        ExtractShape(EvalCut(cfg, b, predict), |b.temporalCols|, EvalLength(cfg, b.length, predict), cfg.WindowSize(), stride);
      }
    }
  }

  /** `_create_windows` never supplies static data, so parsing its output with a non-empty
      `stat_exog_list` always fails. */
  lemma StaticListAlwaysFails(
    cfg: Config, b: TemporalBatch, step: string, maskIdx: nat, choice: (nat, nat, bool) -> seq<nat>,
    yIdx: nat, histIdx: seq<nat>, futrIdx: seq<nat>, statIdx: seq<nat>)
    requires b.Valid() && maskIdx < |b.temporalCols| && yIdx < |b.temporalCols| && IsChoice(choice)
    requires |histIdx| == |cfg.histExogList| && ValidIndices(histIdx, |b.temporalCols|)
    requires |futrIdx| == |cfg.futrExogList| && ValidIndices(futrIdx, |b.temporalCols|)
    requires |statIdx| == |cfg.statExogList| && |cfg.statExogList| > 0
    ensures var r := CreatedWindows(cfg, b, step, maskIdx, choice);
            r.Ok? ==>
              ParseWindows(cfg.h, cfg.histExogList, cfg.futrExogList, cfg.statExogList, r.value,
                           cfg.WindowSize(), yIdx, maskIdx, histIdx, futrIdx, statIdx) == Err(MissingStatic)
  {
    CreatedWindowsShape(cfg, b, step, maskIdx, choice);
  }
}
