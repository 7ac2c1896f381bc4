/** Properties of `_normalization` and `_inv_normalization` as modelled in `Windows`: the
    statistics see the lookback only, their degenerate cases, the centring they achieve, and
    the inverse that undoes them. */
module NormalizationProperties {
  import opened Tensors
  import opened Windows

  /** No leakage: two windows that agree on the target and mask over the lookback get the same
      statistics, whatever their horizons hold. */
  lemma LookbackIgnoresHorizon(w1: Matrix, w2: Matrix, h: nat, yIdx: nat, maskIdx: nat, sqrt: real -> real)
    requires |w1| == |w2|
    requires WindowHasChannel(w1, yIdx) && WindowHasChannel(w1, maskIdx)
    requires WindowHasChannel(w2, yIdx) && WindowHasChannel(w2, maskIdx)
    requires forall t :: 0 <= t < PyNeg(|w1|, h) ==> w1[t][yIdx] == w2[t][yIdx] && w1[t][maskIdx] == w2[t][maskIdx]
    ensures LookbackMoments(w1, h, yIdx, maskIdx, sqrt) == LookbackMoments(w2, h, yIdx, maskIdx, sqrt)
  {
    assert LookbackColumn(w1, h, yIdx) == LookbackColumn(w2, h, yIdx);
    assert LookbackColumn(w1, h, maskIdx) == LookbackColumn(w2, h, maskIdx);
  }

  /** A lookback with no observed value gets mean 0 and std 1. */
  lemma UnobservedLookback(ys: seq<real>, ms: seq<real>, sqrt: real -> real)
    requires |ys| == |ms|
    requires forall t :: 0 <= t < |ms| ==> ms[t] == 0.0
    ensures MomentsOf(ys, ms, sqrt) == Moments(0.0, 1.0)
  {
    SumOfZeros(ms);
    SumOfZeros(Product(ys, ms));
  }

  lemma MulLeft(a: real, b: real, c: real)
    requires a == b
    ensures a * c == b * c
  {
  }

  lemma ProductOfConstant(ys: seq<real>, ms: seq<real>, v: real)
    requires |ys| == |ms|
    requires forall t :: 0 <= t < |ys| ==> ys[t] == v
    ensures forall t :: 0 <= t < |ys| ==> Product(ys, ms)[t] == v * ms[t]
  {
    var p := Product(ys, ms);
    forall t | 0 <= t < |p| ensures p[t] == v * ms[t] {
      assert p[t] == ys[t] * ms[t];
      MulLeft(ys[t], v, ms[t]);
    }
  }

  lemma DeviationsOfConstant(ys: seq<real>, ms: seq<real>, v: real)
    requires |ys| == |ms|
    requires forall t :: 0 <= t < |ys| ==> ys[t] == v
    ensures Sum(Deviations(ys, ms, v)) == 0.0
  {
    var d := Deviations(ys, ms, v);
    forall t | 0 <= t < |d| ensures d[t] == 0.0 {
      assert ys[t] - v == 0.0;
    }
    SumOfZeros(d);
  }

  lemma ScaleCancels(ps: real, s: real, v: real)
    requires s != 0.0 && ps == v * s
    ensures ps / s == v
  {
  }

  lemma OverSafeDenominator(x: real, a: real)
    requires a != 0.0
    ensures x / SafeDenominator(a) == x / a
  {
  }

  lemma ZeroOver(s: real)
    requires s != 0.0
    ensures 0.0 / s == 0.0
  {
  }

  lemma MaskedSumOfConstant(ys: seq<real>, ms: seq<real>, v: real)
    requires |ys| == |ms|
    requires forall t :: 0 <= t < |ys| ==> ys[t] == v
    ensures Sum(Product(ys, ms)) == v * Sum(ms)
  {
    ProductOfConstant(ys, ms, v);
    SumScaled(Product(ys, ms), ms, v);
  }

  /** The masked mean is `v` whenever the masked sum is `v` times the mask sum. */
  lemma MaskedMeanIs(ys: seq<real>, ms: seq<real>, v: real)
    requires |ys| == |ms| && Sum(ms) != 0.0
    requires Sum(Product(ys, ms)) == v * Sum(ms)
    ensures MaskedMean(ys, ms) == v
  {
    ScaleCancels(Sum(Product(ys, ms)), Sum(ms), v);
    OverSafeDenominator(Sum(Product(ys, ms)), Sum(ms));
  }

  /** The masked mean of a constant is that constant. */
  lemma MeanOfConstant(ys: seq<real>, ms: seq<real>, v: real)
    requires |ys| == |ms| && Sum(ms) != 0.0
    requires forall t :: 0 <= t < |ys| ==> ys[t] == v
    ensures MaskedMean(ys, ms) == v
  {
    MaskedSumOfConstant(ys, ms, v);
    MaskedMeanIs(ys, ms, v);
  }

  /** A lookback whose target is the constant `v` gets mean `v` as soon as its mask sum is not 0,
      and, its deviation being 0, std 1. */
  lemma ConstantLookback(ys: seq<real>, ms: seq<real>, v: real, sqrt: real -> real)
    requires IsSqrt(sqrt) && |ys| == |ms| && Sum(ms) != 0.0
    requires forall t :: 0 <= t < |ys| ==> ys[t] == v
    ensures MomentsOf(ys, ms, sqrt) == Moments(v, 1.0)
  {
    MeanOfConstant(ys, ms, v);
    DeviationsOfConstant(ys, ms, v);
    ZeroOver(SafeDenominator(Sum(ms)));
    assert MaskedStd(ys, ms, sqrt) == 0.0;
  }

  /** `(y - mean) / std` for every step of the lookback. */
  function Standardized(ys: seq<real>, m: Moments): (r: seq<real>)
    requires m.std != 0.0
    ensures |r| == |ys|
  {
    seq(|ys|, t requires 0 <= t < |ys| => (ys[t] - m.mean) / m.std)
  }

  /** Standardising by the masked mean gives a masked sum of 0. */
  lemma StandardizedByMeanIsCentred(ys: seq<real>, ms: seq<real>, mean: real, std: real)
    requires |ys| == |ms| && Sum(ms) != 0.0 && std != 0.0
    requires mean == Sum(Product(ys, ms)) / Sum(ms)
    ensures Sum(Product(Standardized(ys, Moments(mean, std)), ms)) == 0.0
  {
    var p := Product(ys, ms);
    var q := Product(Standardized(ys, Moments(mean, std)), ms);
    var alpha := 1.0 / std;
    var beta := -mean / std;
    forall t | 0 <= t < |q|
      ensures q[t] == alpha * p[t] + beta * ms[t]
    {
      StandardizedTerm(ys[t], ms[t], mean, std);
    }
    SumLinear(q, p, ms, alpha, beta);
    CentredSum(Sum(p), Sum(ms), std);
  }

  /** Once standardised by its own statistics, an observed lookback has masked mean 0. */
  lemma StandardizedLookbackIsCentred(ys: seq<real>, ms: seq<real>, sqrt: real -> real)
    requires |ys| == |ms| && Sum(ms) != 0.0
    ensures Sum(Product(Standardized(ys, MomentsOf(ys, ms, sqrt)), ms)) == 0.0
  {
    var m := MomentsOf(ys, ms, sqrt);
    StandardizedByMeanIsCentred(ys, ms, m.mean, m.std);
  }

  /** The std of an observed lookback whose masked spread is positive is the square root of
      that spread, divided by the mask sum as `y_stds` does. */
  lemma ObservedLookbackStd(ys: seq<real>, ms: seq<real>, sqrt: real -> real)
    requires IsSqrt(sqrt) && |ys| == |ms| && Sum(ms) != 0.0
    requires Sum(Deviations(ys, ms, MaskedMean(ys, ms))) / Sum(ms) > 0.0
    ensures var spread := Sum(Deviations(ys, ms, MaskedMean(ys, ms))) / Sum(ms);
            && MomentsOf(ys, ms, sqrt) == Moments(MaskedMean(ys, ms), sqrt(spread))
            && sqrt(spread) * sqrt(spread) == spread
  {
    var d := Deviations(ys, ms, MaskedMean(ys, ms));
    OverSafeDenominator(Sum(d), Sum(ms));
    assert MaskedStd(ys, ms, sqrt) == sqrt(Sum(d) / Sum(ms));
  }

  /** Standardising by `m` scales the masked sum of squares about the mean by `1 / std^2`. */
  lemma StandardizedSquares(ys: seq<real>, ms: seq<real>, m: Moments, variance: real)
    requires |ys| == |ms| && m.std != 0.0 && variance != 0.0 && m.std * m.std == variance
    ensures Sum(Deviations(Standardized(ys, m), ms, 0.0)) == (1.0 / variance) * Sum(Deviations(ys, ms, m.mean))
  {
    var z := Deviations(Standardized(ys, m), ms, 0.0);
    var d := Deviations(ys, ms, m.mean);
    forall t | 0 <= t < |z|
      ensures z[t] == (1.0 / variance) * d[t]
    {
      StandardizedSquareAt(ys, ms, m, variance, t);
    }
    SumScaled(z, d, 1.0 / variance);
  }

  lemma StandardizedSquareAt(ys: seq<real>, ms: seq<real>, m: Moments, variance: real, t: nat)
    requires |ys| == |ms| && m.std != 0.0 && variance != 0.0 && m.std * m.std == variance && t < |ys|
    ensures Deviations(Standardized(ys, m), ms, 0.0)[t] == (1.0 / variance) * Deviations(ys, ms, m.mean)[t]
  {
    var u := Standardized(ys, m);
    ScaledSquare(u[t], ys[t], ms[t], m.mean, m.std, variance);
  }

  /** Standardising an observed lookback with a positive masked spread by its own moments
      leaves a masked sum of squares equal to the mask sum: unit masked variance. */
  lemma StandardizedLookbackHasUnitVariance(ys: seq<real>, ms: seq<real>, sqrt: real -> real)
    requires IsSqrt(sqrt) && |ys| == |ms| && Sum(ms) != 0.0
    requires Sum(Deviations(ys, ms, MaskedMean(ys, ms))) / Sum(ms) > 0.0
    ensures Sum(Deviations(Standardized(ys, MomentsOf(ys, ms, sqrt)), ms, 0.0)) == Sum(ms)
  {
    var spread := Sum(Deviations(ys, ms, MaskedMean(ys, ms))) / Sum(ms);
    ObservedLookbackStd(ys, ms, sqrt);
    StandardizedSquares(ys, ms, MomentsOf(ys, ms, sqrt), spread);
    UnitRatio(Sum(Deviations(ys, ms, MaskedMean(ys, ms))), Sum(ms));
  }

  lemma ScaledSquare(a: real, y: real, mask: real, mean: real, std: real, variance: real)
    requires std != 0.0 && variance != 0.0 && std * std == variance && a == (y - mean) / std
    ensures mask * ((a - 0.0) * (a - 0.0)) == (1.0 / variance) * (mask * ((y - mean) * (y - mean)))
  {
    var q := (y - mean) * (y - mean);
    assert a * std == y - mean;
    assert (a * a) * variance == q by {
      assert (a * a) * (std * std) == (a * std) * (a * std);
    }
    assert a * a == (1.0 / variance) * q;
    assert mask * (a * a) == (1.0 / variance) * (mask * q);
  }

  lemma UnitRatio(dev: real, available: real)
    requires available != 0.0 && dev / available != 0.0
    ensures (1.0 / (dev / available)) * dev == available
  {
    assert dev != 0.0;
  }

  lemma StandardizedTerm(y: real, mask: real, mean: real, std: real)
    requires std != 0.0
    ensures ((y - mean) / std) * mask == (1.0 / std) * (y * mask) + (-mean / std) * mask
  {
  }

  lemma CentredSum(p: real, s: real, std: real)
    requires s != 0.0 && std != 0.0
    ensures (1.0 / std) * p + (-(p / s) / std) * s == 0.0
  {
    assert (p / s) * s == p;
  }

  /** `NormalizeY` keeps the shape and every channel but the target unchanged. */
  lemma NormalizeYKeepsOtherChannels(ws: Tensor3, d1: nat, d2: nat, yIdx: nat, means: seq<real>, stds: seq<real>)
    requires Regular3(ws, d1, d2) && |means| == |ws| && |stds| == |ws|
    requires forall i :: 0 <= i < |stds| ==> stds[i] != 0.0
    ensures var r := NormalizeY(ws, yIdx, means, stds);
            && |r| == |ws| && Regular3(r, d1, d2)
            && forall i, t, c :: 0 <= i < |ws| && 0 <= t < d1 && 0 <= c < d2 && c != yIdx ==> r[i][t][c] == ws[i][t][c]
  {
  }

  /** The lookback target of a normalised window is its original lookback standardised, and the
      mask is untouched. */
  lemma NormalizedLookback(ws: Tensor3, i: nat, h: nat, yIdx: nat, maskIdx: nat, means: seq<real>, stds: seq<real>)
    requires HasChannel(ws, yIdx) && HasChannel(ws, maskIdx) && yIdx != maskIdx
    requires |means| == |ws| && |stds| == |ws| && i < |ws|
    requires forall j :: 0 <= j < |stds| ==> stds[j] != 0.0
    ensures var r := NormalizeY(ws, yIdx, means, stds);
            && |r[i]| == |ws[i]|
            && WindowHasChannel(r[i], yIdx) && WindowHasChannel(r[i], maskIdx)
            && LookbackColumn(r[i], h, yIdx) == Standardized(LookbackColumn(ws[i], h, yIdx), Moments(means[i], stds[i]))
            && LookbackColumn(r[i], h, maskIdx) == LookbackColumn(ws[i], h, maskIdx)
  {
    var r := NormalizeY(ws, yIdx, means, stds);
    assert WindowHasChannel(ws[i], yIdx) && WindowHasChannel(ws[i], maskIdx);
    assert LookbackColumn(r[i], h, yIdx) == Standardized(LookbackColumn(ws[i], h, yIdx), Moments(means[i], stds[i]));
    assert LookbackColumn(r[i], h, maskIdx) == LookbackColumn(ws[i], h, maskIdx);
  }

  /** After normalisation by `LookbackMoments`, every window whose lookback is observed has a
      masked lookback mean of 0. */
  lemma NormalizationCentresLookback(ws: Tensor3, i: nat, h: nat, yIdx: nat, maskIdx: nat, sqrt: real -> real,
                                     means: seq<real>, stds: seq<real>)
    requires HasChannel(ws, yIdx) && HasChannel(ws, maskIdx) && yIdx != maskIdx
    requires |means| == |ws| && |stds| == |ws| && i < |ws|
    requires forall j :: 0 <= j < |stds| ==> stds[j] != 0.0
    requires Moments(means[i], stds[i]) == LookbackMoments(ws[i], h, yIdx, maskIdx, sqrt)
    requires Sum(LookbackColumn(ws[i], h, maskIdx)) != 0.0
    ensures var r := NormalizeY(ws, yIdx, means, stds);
            && WindowHasChannel(r[i], yIdx) && WindowHasChannel(r[i], maskIdx)
            && Sum(Product(LookbackColumn(r[i], h, yIdx), LookbackColumn(r[i], h, maskIdx))) == 0.0
  {
    NormalizedLookback(ws, i, h, yIdx, maskIdx, means, stds);
    StandardizedLookbackIsCentred(LookbackColumn(ws[i], h, yIdx), LookbackColumn(ws[i], h, maskIdx), sqrt);
  }

  // ---------------------------------------------------------------------------------------
  // The inverse

  /** The forward map that `_inv_normalization` undoes: `(y - mean) / std` per window. */
  function Standardize(f: Forecast, means: seq<real>, stds: seq<real>): (r: Forecast)
    requires |means| == f.Batch() && |stds| == f.Batch()
    requires forall i :: 0 <= i < |stds| ==> stds[i] != 0.0
    ensures r.Multi? == f.Multi? && r.Batch() == f.Batch()
  {
    match f
    case Point(y) =>
      Point(seq(|y|, i requires 0 <= i < |y| =>
        seq(|y[i]|, t requires 0 <= t < |y[i]| => (y[i][t] - means[i]) / stds[i])))
    case Multi(ys) =>
      Multi(seq(|ys|, i requires 0 <= i < |ys| =>
        seq(|ys[i]|, t requires 0 <= t < |ys[i]| =>
          seq(|ys[i][t]|, o requires 0 <= o < |ys[i][t]| => (ys[i][t][o] - means[i]) / stds[i]))))
  }

  function Multiplier(f: Forecast): nat
  {
    if f.Multi? then 2 else 1
  }

  lemma RealRoundTrips(x: real, mean: real, std: real)
    requires std != 0.0
    ensures std * ((x - mean) / std) + mean == x
    ensures (std * x + mean - mean) / std == x
  {
  }

  /** `_inv_normalization` exactly undoes the standardisation, for point and multi-output
      forecasts alike. */
  lemma InvNormalizationUndoesStandardize(f: Forecast, means: seq<real>, stds: seq<real>)
    requires |means| == f.Batch() && |stds| == f.Batch()
    requires forall i :: 0 <= i < |stds| ==> stds[i] != 0.0
    ensures InvNormalization(Standardize(f, means, stds), means, stds, Multiplier(f)) == f
  {
    var g := InvNormalization(Standardize(f, means, stds), means, stds, Multiplier(f));
    match f
    case Point(y) =>
      forall i, t | 0 <= i < |y| && 0 <= t < |y[i]| ensures g.y[i][t] == y[i][t] {
        RealRoundTrips(y[i][t], means[i], stds[i]);
      }
      assert forall i | 0 <= i < |y| :: g.y[i] == y[i];
    case Multi(ys) =>
      forall i, t, o | 0 <= i < |ys| && 0 <= t < |ys[i]| && 0 <= o < |ys[i][t]| ensures g.ys[i][t][o] == ys[i][t][o] {
        RealRoundTrips(ys[i][t][o], means[i], stds[i]);
      }
      assert forall i, t | 0 <= i < |ys| && 0 <= t < |ys[i]| :: g.ys[i][t] == ys[i][t];
      assert forall i | 0 <= i < |ys| :: g.ys[i] == ys[i];
  }

  /** And standardising a de-normalised forecast gives back the model output. */
  lemma StandardizeUndoesInvNormalization(f: Forecast, means: seq<real>, stds: seq<real>)
    requires |means| == f.Batch() && |stds| == f.Batch()
    requires forall i :: 0 <= i < |stds| ==> stds[i] != 0.0
    ensures Standardize(InvNormalization(f, means, stds, Multiplier(f)), means, stds) == f
  {
    var g := Standardize(InvNormalization(f, means, stds, Multiplier(f)), means, stds);
    match f
    case Point(y) =>
      forall i, t | 0 <= i < |y| && 0 <= t < |y[i]| ensures g.y[i][t] == y[i][t] {
        RealRoundTrips(y[i][t], means[i], stds[i]);
      }
      assert forall i | 0 <= i < |y| :: g.y[i] == y[i];
    case Multi(ys) =>
      forall i, t, o | 0 <= i < |ys| && 0 <= t < |ys[i]| && 0 <= o < |ys[i][t]| ensures g.ys[i][t][o] == ys[i][t][o] {
        RealRoundTrips(ys[i][t][o], means[i], stds[i]);
      }
      assert forall i, t | 0 <= i < |ys| && 0 <= t < |ys[i]| :: g.ys[i][t] == ys[i][t];
      assert forall i | 0 <= i < |ys| :: g.ys[i] == ys[i];
  }

  /** The target channel of the normalised windows is the standardised target channel, so
      `_inv_normalization` maps it back to the original target values. */
  lemma InvNormalizationRecoversTarget(ws: Tensor3, yIdx: nat, means: seq<real>, stds: seq<real>)
    requires HasChannel(ws, yIdx) && |means| == |ws| && |stds| == |ws|
    requires forall i :: 0 <= i < |stds| ==> stds[i] != 0.0
    ensures var r := NormalizeY(ws, yIdx, means, stds);
            && HasChannel(r, yIdx)
            && InvNormalization(Point(Channel(r, yIdx)), means, stds, 1) == Point(Channel(ws, yIdx))
  {
    var r := NormalizeY(ws, yIdx, means, stds);
    var lhs := Channel(r, yIdx);
    var rhs := Standardize(Point(Channel(ws, yIdx)), means, stds).y;
    forall i | 0 <= i < |ws| ensures lhs[i] == rhs[i] {
      assert WindowHasChannel(ws[i], yIdx);
    }
    assert Point(lhs) == Standardize(Point(Channel(ws, yIdx)), means, stds);
    InvNormalizationUndoesStandardize(Point(Channel(ws, yIdx)), means, stds);
  }
}
