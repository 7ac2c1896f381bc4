/** Properties of `_parse_windows` as modelled by `Windows.ParseWindows`: the lookback and the
    horizon split every window at `-h`, and each exogenous part is the slice of the listed
    channels it is meant to be. */
module ParseProperties {
  import opened Tensors
  import opened Windows

  /** The inputs `ParseWindows` accepts: windows of `windowSize` steps, in-range channel indices
      with one index per listed name, and the `[:, 0, idx]` slice of the static tensor in range. */
  predicate Parseable(
    histExogList: seq<string>, futrExogList: seq<string>, statExogList: seq<string>,
    windows: WindowsBatch, windowSize: nat,
    yIdx: nat, maskIdx: nat, histIdx: seq<nat>, futrIdx: seq<nat>, statIdx: seq<nat>)
  {
    && Regular3(windows.temporal, windowSize, |windows.temporalCols|)
    && yIdx < |windows.temporalCols| && maskIdx < |windows.temporalCols|
    && |histIdx| == |histExogList| && ValidIndices(histIdx, |windows.temporalCols|)
    && |futrIdx| == |futrExogList| && ValidIndices(futrIdx, |windows.temporalCols|)
    && |statIdx| == |statExogList|
    && (windows.statics.Some? ==> StaticHolds(windows.statics.value.tensor, statIdx))
  }

  /** Lookback and horizon: for `0 < h <= windowSize`, `insample_y` has the first
      `windowSize - h` steps of the target and `outsample_y` the last `h`, and together they are
      the whole target column; the same holds for the mask. */
  lemma ParseSplitsTargetAndMask(
    h: nat, histExogList: seq<string>, futrExogList: seq<string>, statExogList: seq<string>,
    windows: WindowsBatch, windowSize: nat,
    yIdx: nat, maskIdx: nat, histIdx: seq<nat>, futrIdx: seq<nat>, statIdx: seq<nat>, i: nat)
    requires Parseable(histExogList, futrExogList, statExogList, windows, windowSize, yIdx, maskIdx, histIdx, futrIdx, statIdx)
    requires 0 < h <= windowSize && i < |windows.temporal|
    ensures var r := ParseWindows(h, histExogList, futrExogList, statExogList, windows, windowSize,
                                  yIdx, maskIdx, histIdx, futrIdx, statIdx);
            r.Ok? ==>
              && |r.value.insampleY| == |windows.temporal| && |r.value.outsampleY| == |windows.temporal|
              && |r.value.insampleMask| == |windows.temporal| && |r.value.outsampleMask| == |windows.temporal|
              && HasChannel(windows.temporal, yIdx) && HasChannel(windows.temporal, maskIdx)
              && |r.value.insampleY[i]| == windowSize - h && |r.value.outsampleY[i]| == h
              && |r.value.insampleMask[i]| == windowSize - h && |r.value.outsampleMask[i]| == h
              && r.value.insampleY[i] + r.value.outsampleY[i] == Channel(windows.temporal, yIdx)[i]
              && r.value.insampleMask[i] + r.value.outsampleMask[i] == Channel(windows.temporal, maskIdx)[i]
  {
    var ws := windows.temporal;
    RegularHasChannel(ws, windowSize, |windows.temporalCols|, yIdx);
    RegularHasChannel(ws, windowSize, |windows.temporalCols|, maskIdx);
    var r := ParseWindows(h, histExogList, futrExogList, statExogList, windows, windowSize,
                          yIdx, maskIdx, histIdx, futrIdx, statIdx);
    if r.Ok? {
      assert |ws[i]| == windowSize;
      SplitColumn(ws[i], h, yIdx);
      SplitColumn(ws[i], h, maskIdx);
    }
  }

  /** `w[:-h, c] ++ w[-h:, c] == w[:, c]`. */
  lemma SplitColumn(w: Matrix, h: nat, c: nat)
    requires WindowHasChannel(w, c) && 0 < h <= |w|
    ensures |LookbackColumn(w, h, c)| == |w| - h && |HorizonColumn(w, h, c)| == h
    ensures LookbackColumn(w, h, c) + HorizonColumn(w, h, c) == seq(|w|, t requires 0 <= t < |w| => w[t][c])
  {
  }

  /** `hist_exog` is `[n, windowSize - h, |hist_exog_list|]` and holds the listed channels over
      the lookback. */
  lemma ParseHistExog(
    h: nat, histExogList: seq<string>, futrExogList: seq<string>, statExogList: seq<string>,
    windows: WindowsBatch, windowSize: nat,
    yIdx: nat, maskIdx: nat, histIdx: seq<nat>, futrIdx: seq<nat>, statIdx: seq<nat>)
    requires Parseable(histExogList, futrExogList, statExogList, windows, windowSize, yIdx, maskIdx, histIdx, futrIdx, statIdx)
    ensures var r := ParseWindows(h, histExogList, futrExogList, statExogList, windows, windowSize,
                                  yIdx, maskIdx, histIdx, futrIdx, statIdx);
            r.Ok? && r.value.histExog.Some? ==>
              var x := r.value.histExog.value;
              && |x| == |windows.temporal| && Regular3(x, PyNeg(windowSize, h), |histIdx|)
              && forall i, t, k :: 0 <= i < |x| && 0 <= t < PyNeg(windowSize, h) && 0 <= k < |histIdx| ==>
                   histIdx[k] < |windows.temporal[i][t]| && x[i][t][k] == windows.temporal[i][t][histIdx[k]]
  {
  }

  /** `futr_exog` is `[n, windowSize, |futr_exog_list|]` and holds the listed channels over the
      whole window, horizon included. */
  lemma ParseFutrExog(
    h: nat, histExogList: seq<string>, futrExogList: seq<string>, statExogList: seq<string>,
    windows: WindowsBatch, windowSize: nat,
    yIdx: nat, maskIdx: nat, histIdx: seq<nat>, futrIdx: seq<nat>, statIdx: seq<nat>)
    requires Parseable(histExogList, futrExogList, statExogList, windows, windowSize, yIdx, maskIdx, histIdx, futrIdx, statIdx)
    ensures var r := ParseWindows(h, histExogList, futrExogList, statExogList, windows, windowSize,
                                  yIdx, maskIdx, histIdx, futrIdx, statIdx);
            r.Ok? && r.value.futrExog.Some? ==>
              var x := r.value.futrExog.value;
              && |x| == |windows.temporal| && Regular3(x, windowSize, |futrIdx|)
              && forall i, t, k :: 0 <= i < |x| && 0 <= t < windowSize && 0 <= k < |futrIdx| ==>
                   futrIdx[k] < |windows.temporal[i][t]| && x[i][t][k] == windows.temporal[i][t][futrIdx[k]]
  {
  }

  /** `stat_exog` is `static[:, 0, idx]`: one row per series of the static tensor. */
  lemma ParseStatExog(
    h: nat, histExogList: seq<string>, futrExogList: seq<string>, statExogList: seq<string>,
    windows: WindowsBatch, windowSize: nat,
    yIdx: nat, maskIdx: nat, histIdx: seq<nat>, futrIdx: seq<nat>, statIdx: seq<nat>)
    requires Parseable(histExogList, futrExogList, statExogList, windows, windowSize, yIdx, maskIdx, histIdx, futrIdx, statIdx)
    ensures var r := ParseWindows(h, histExogList, futrExogList, statExogList, windows, windowSize,
                                  yIdx, maskIdx, histIdx, futrIdx, statIdx);
            r.Ok? && r.value.statExog.Some? ==>
              && windows.statics.Some?
              && var st := windows.statics.value.tensor;
                 var x := r.value.statExog.value;
                 && |x| == |st| && RegularRows(x, |statIdx|)
                 && forall s, k :: 0 <= s < |x| && 0 <= k < |statIdx| ==>
                      |st[s]| > 0 && statIdx[k] < |st[s][0]| && x[s][k] == st[s][0][statIdx[k]]
  {
  }
}
