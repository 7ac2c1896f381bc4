/** Properties of the `MLP` input assembly: `reshape(batch_size, -1)` undoes row-major
    flattening, every assembled row is `[ y | hist | futr | stat ]` laid out row-major, its
    length is the width of the first layer, and the windows `_parse_windows` produces fit it. */
module MlpProperties {
  import opened Tensors
  import opened Windows
  import opened ParseProperties
  import opened Mlp

  /** `(b * n) / b == n` exactly, by the uniqueness of Euclidean division. */
  lemma MulDiv(b: nat, n: nat)
    requires b > 0
    ensures (b * n) % b == 0 && (b * n) / b == n
  {
    var x := b * n;
    var q := x / b;
    var r := x % b;
    assert x == b * q + r;
    var d := n - q;
    assert b * d == r by {
      assert b * d == b * n - b * q;
    }
  }

  /** `reshape(b, -1)` of `b` concatenated rows of equal length gives those rows back. */
  lemma ReshapeOfConcat(q: Matrix, n: nat)
    requires RegularRows(q, n) && |q| > 0
    ensures Reshape(Concat(q), |q|) == Some(q)
  {
    RowsOfConcat(q, n);
    MulDiv(|q|, n);
  }

  /** The rows of a flattened `[B, T, C]` tensor, one flattened window each. */
  function WindowRows(x: Tensor3): (r: Matrix)
    ensures |r| == |x|
  {
    seq(|x|, i requires 0 <= i < |x| => Concat(x[i]))
  }

  /** `x.reshape(B, -1)` of a `[B, T, C]` tensor gives row `i` as window `i` flattened, of
      length `T * C`, with step `t`, channel `k` at offset `t * C + k`. */
  lemma ReshapeOfFlatten(x: Tensor3, d1: nat, d2: nat)
    requires Regular3(x, d1, d2) && |x| > 0
    ensures Reshape(Flatten3(x), |x|) == Some(WindowRows(x))
    ensures RegularRows(WindowRows(x), d1 * d2)
  {
    var q := WindowRows(x);
    forall i | 0 <= i < |x|
      ensures |q[i]| == d1 * d2
    {
      ConcatLength(x[i], d2);
    }
    ReshapeOfConcat(q, d1 * d2);
  }

  /** Row-major offsets inside one flattened window. */
  lemma WindowRowAt(x: Tensor3, d1: nat, d2: nat, i: nat, t: nat, k: nat)
    requires Regular3(x, d1, d2) && i < |x| && t < d1 && k < d2
    ensures |WindowRows(x)[i]| == d1 * d2 && t * d2 + k < d1 * d2
    ensures WindowRows(x)[i][t * d2 + k] == x[i][t][k]
  {
    ConcatAt(x[i], d2, t, k);
  }

  /** The part a used `[B, T, C]` input (`hist_exog` or `futr_exog`) contributes to row `i`. */
  function TensorRow(used: bool, x: Option<Tensor3>, i: nat): seq<real>
  {
    if used && x.Some? && i < |x.value| then Concat(x.value[i]) else []
  }

  function StatRow(used: bool, m: Option<Matrix>, i: nat): seq<real>
  {
    if used && m.Some? && i < |m.value| then m.value[i] else []
  }

  /** The inputs `forward` needs: `B > 0` windows of `L` lags, and every used part present with
      one row per window, shaped `[B, L, Ch]`, `[B, L + h, Cf]` and `[B, Cs]`. */
  predicate WellShaped(insampleY: Matrix, histExog: Option<Tensor3>, futrExog: Option<Tensor3>,
                       statExog: Option<Matrix>, inputSize: nat, h: nat,
                       histInputSize: nat, futrInputSize: nat, statInputSize: nat)
  {
    && |insampleY| > 0 && RegularRows(insampleY, inputSize)
    && (histInputSize > 0 ==>
          histExog.Some? && |histExog.value| == |insampleY| && Regular3(histExog.value, inputSize, histInputSize))
    && (futrInputSize > 0 ==>
          futrExog.Some? && |futrExog.value| == |insampleY| && Regular3(futrExog.value, inputSize + h, futrInputSize))
    && (statInputSize > 0 ==>
          statExog.Some? && |statExog.value| == |insampleY| && RegularRows(statExog.value, statInputSize))
  }

  /** One flattened part appended: row `i` gains window `i` of the part, flattened. */
  lemma AppendTensor(x: Matrix, used: bool, part: Option<Tensor3>, d1: nat, d2: nat)
    requires |x| > 0
    requires used ==> part.Some? && |part.value| == |x| && Regular3(part.value, d1, d2)
    ensures AppendPart(Some(x), used, FlatTensor(part), |x|)
            == Some(seq(|x|, i requires 0 <= i < |x| => x[i] + TensorRow(used, part, i)))
  {
    var want := seq(|x|, i requires 0 <= i < |x| => x[i] + TensorRow(used, part, i));
    if used {
      ReshapeOfFlatten(part.value, d1, d2);
      var rows := WindowRows(part.value);
      assert Reshape(Flatten3(part.value), |x|) == Some(rows);
      assert CatColumns(x, rows) == want;
    } else {
      assert forall i :: 0 <= i < |x| ==> want[i] == x[i];
      assert want == x;
    }
  }

  /** The static part appended: row `i` gains static row `i`. */
  lemma AppendMatrix(x: Matrix, used: bool, part: Option<Matrix>, n: nat)
    requires |x| > 0
    requires used ==> part.Some? && |part.value| == |x| && RegularRows(part.value, n)
    ensures AppendPart(Some(x), used, FlatMatrix(part), |x|)
            == Some(seq(|x|, i requires 0 <= i < |x| => x[i] + StatRow(used, part, i)))
  {
    var want := seq(|x|, i requires 0 <= i < |x| => x[i] + StatRow(used, part, i));
    if used {
      ReshapeOfConcat(part.value, n);
      assert CatColumns(x, part.value) == want;
    } else {
      assert forall i :: 0 <= i < |x| ==> want[i] == x[i];
      assert want == x;
    }
  }

  /** Block order and batch size: on well-shaped inputs `forward` keeps one row per window,
      and row `i` is `y[i] ++ hist[i] ++ futr[i] ++ stat[i]`, each block flattened row-major. */
  lemma ForwardInputBlocks(insampleY: Matrix, histExog: Option<Tensor3>, futrExog: Option<Tensor3>,
                           statExog: Option<Matrix>, inputSize: nat, h: nat,
                           histInputSize: nat, futrInputSize: nat, statInputSize: nat)
    requires WellShaped(insampleY, histExog, futrExog, statExog, inputSize, h, histInputSize, futrInputSize, statInputSize)
    ensures var r := ForwardInput(insampleY, histExog, futrExog, statExog, histInputSize, futrInputSize, statInputSize);
            && r.Some? && |r.value| == |insampleY|
            && forall i :: 0 <= i < |insampleY| ==>
                 r.value[i] == insampleY[i] + TensorRow(histInputSize > 0, histExog, i)
                               + TensorRow(futrInputSize > 0, futrExog, i) + StatRow(statInputSize > 0, statExog, i)
  {
    var b := |insampleY|;
    AppendTensor(insampleY, histInputSize > 0, histExog, inputSize, histInputSize);
    var withHist := seq(b, i requires 0 <= i < b => insampleY[i] + TensorRow(histInputSize > 0, histExog, i));
    AppendTensor(withHist, futrInputSize > 0, futrExog, inputSize + h, futrInputSize);
    var withFutr := seq(b, i requires 0 <= i < b => withHist[i] + TensorRow(futrInputSize > 0, futrExog, i));
    AppendMatrix(withFutr, statInputSize > 0, statExog, statInputSize);
  }

  /** The widths of the blocks of row `i`: `Ch * L`, `Cf * (L + h)` and `Cs`, or 0 when unused. */
  lemma BlockWidths(insampleY: Matrix, histExog: Option<Tensor3>, futrExog: Option<Tensor3>,
                    statExog: Option<Matrix>, inputSize: nat, h: nat,
                    histInputSize: nat, futrInputSize: nat, statInputSize: nat, i: nat)
    requires WellShaped(insampleY, histExog, futrExog, statExog, inputSize, h, histInputSize, futrInputSize, statInputSize)
    requires i < |insampleY|
    ensures |insampleY[i]| == inputSize
    ensures |TensorRow(histInputSize > 0, histExog, i)| == histInputSize * inputSize
    ensures |TensorRow(futrInputSize > 0, futrExog, i)| == futrInputSize * (inputSize + h)
    ensures |StatRow(statInputSize > 0, statExog, i)| == statInputSize
  {
    if histInputSize > 0 {
      ConcatLength(histExog.value[i], histInputSize);
      MulComm(inputSize, histInputSize);
    }
    if futrInputSize > 0 {
      ConcatLength(futrExog.value[i], futrInputSize);
      MulComm(inputSize + h, futrInputSize);
    }
  }

  /** First-layer width: on well-shaped inputs every assembled row has exactly
      `input_size_first_layer` entries. */
  lemma ForwardInputWidth(insampleY: Matrix, histExog: Option<Tensor3>, futrExog: Option<Tensor3>,
                          statExog: Option<Matrix>, inputSize: nat, h: nat,
                          histInputSize: nat, futrInputSize: nat, statInputSize: nat)
    requires WellShaped(insampleY, histExog, futrExog, statExog, inputSize, h, histInputSize, futrInputSize, statInputSize)
    ensures var r := ForwardInput(insampleY, histExog, futrExog, statExog, histInputSize, futrInputSize, statInputSize);
            && r.Some? && |r.value| == |insampleY|
            && RegularRows(r.value, FirstLayerWidth(inputSize, h, histInputSize, futrInputSize, statInputSize))
  {
    ForwardInputBlocks(insampleY, histExog, futrExog, statExog, inputSize, h, histInputSize, futrInputSize, statInputSize);
    var r := ForwardInput(insampleY, histExog, futrExog, statExog, histInputSize, futrInputSize, statInputSize);
    forall i | 0 <= i < |r.value|
      ensures |r.value[i]| == FirstLayerWidth(inputSize, h, histInputSize, futrInputSize, statInputSize)
    {
      BlockWidths(insampleY, histExog, futrExog, statExog, inputSize, h, histInputSize, futrInputSize, statInputSize, i);
    }
  }

  /** Element `k` of row `t` of a block of equal rows, once the block is flattened between a
      prefix and a suffix, sits `t * n + k` after the prefix. */
  lemma BlockAt(pre: seq<real>, p: Matrix, post: seq<real>, n: nat, t: nat, k: nat)
    requires RegularRows(p, n) && t < |p| && k < n
    ensures |pre| + RowMajor(t, n, k) < |pre + Concat(p) + post|
    ensures (pre + Concat(p) + post)[|pre| + RowMajor(t, n, k)] == p[t][k]
  {
    ConcatAt(p, n, t, k);
  }

  // Row-major layout of one assembled row `y ++ hist ++ futr ++ stat`, block by block.

  /** The row has `input_size_first_layer` entries. */
  lemma RowWidth(y: seq<real>, hist: Matrix, futr: Matrix, stat: seq<real>, inputSize: nat, h: nat,
                 histInputSize: nat, futrInputSize: nat, statInputSize: nat)
    requires |y| == inputSize && |stat| == statInputSize
    requires |hist| == inputSize && RegularRows(hist, histInputSize)
    requires |futr| == inputSize + h && RegularRows(futr, futrInputSize)
    ensures |Concat(hist)| == histInputSize * inputSize
    ensures |Concat(futr)| == futrInputSize * (inputSize + h)
    ensures |y + Concat(hist) + Concat(futr) + stat| == FirstLayerWidth(inputSize, h, histInputSize, futrInputSize, statInputSize)
  {
    ConcatLength(hist, histInputSize);
    ConcatLength(futr, futrInputSize);
    MulComm(|hist|, histInputSize);
    MulComm(|futr|, futrInputSize);
  }

  lemma MulComm(a: nat, b: nat)
    ensures a * b == b * a
  {
  }

  /** The row starts with the target lags: lag `t` sits at offset `t`. */
  lemma TargetBlockAt(y: seq<real>, rest: seq<real>)
    ensures forall t :: 0 <= t < |y| ==> t < |y + rest| && (y + rest)[t] == y[t]
  {
  }

  /** Historic channel `k` at lag `t` sits at `L + (t * Ch + k)`. */
  lemma HistBlockAt(y: seq<real>, hist: Matrix, futr: Matrix, stat: seq<real>, inputSize: nat, h: nat,
                    histInputSize: nat, futrInputSize: nat, statInputSize: nat)
    requires |y| == inputSize && |stat| == statInputSize
    requires |hist| == inputSize && RegularRows(hist, histInputSize)
    requires |futr| == inputSize + h && RegularRows(futr, futrInputSize)
    ensures var row := y + Concat(hist) + Concat(futr) + stat;
            forall t, k :: 0 <= t < inputSize && 0 <= k < histInputSize ==>
              inputSize + RowMajor(t, histInputSize, k) < |row|
              && row[inputSize + RowMajor(t, histInputSize, k)] == hist[t][k]
  {
    var row := y + Concat(hist) + Concat(futr) + stat;
    assert row == y + Concat(hist) + (Concat(futr) + stat);
    forall t, k | 0 <= t < inputSize && 0 <= k < histInputSize
      ensures inputSize + RowMajor(t, histInputSize, k) < |row|
      ensures row[inputSize + RowMajor(t, histInputSize, k)] == hist[t][k]
    {
      BlockAt(y, hist, Concat(futr) + stat, histInputSize, t, k);
    }
  }

  /** Future channel `k` at step `t` sits at `L + Ch * L + (t * Cf + k)`. */
  lemma FutrBlockAt(y: seq<real>, hist: Matrix, futr: Matrix, stat: seq<real>, inputSize: nat, h: nat,
                    histInputSize: nat, futrInputSize: nat, statInputSize: nat)
    requires |y| == inputSize && |stat| == statInputSize
    requires |hist| == inputSize && RegularRows(hist, histInputSize)
    requires |futr| == inputSize + h && RegularRows(futr, futrInputSize)
    ensures var row := y + Concat(hist) + Concat(futr) + stat;
            forall t, k :: 0 <= t < inputSize + h && 0 <= k < futrInputSize ==>
              inputSize + histInputSize * inputSize + RowMajor(t, futrInputSize, k) < |row|
              && row[inputSize + histInputSize * inputSize + RowMajor(t, futrInputSize, k)] == futr[t][k]
  {
    var row := y + Concat(hist) + Concat(futr) + stat;
    ConcatLength(hist, histInputSize);
    assert |y + Concat(hist)| == inputSize + histInputSize * inputSize;
    forall t, k | 0 <= t < inputSize + h && 0 <= k < futrInputSize
      ensures inputSize + histInputSize * inputSize + RowMajor(t, futrInputSize, k) < |row|
      ensures row[inputSize + histInputSize * inputSize + RowMajor(t, futrInputSize, k)] == futr[t][k]
    {
      BlockAt(y + Concat(hist), futr, stat, futrInputSize, t, k);
    }
  }

  /** Static channel `k` sits at `L + Ch * L + Cf * (L + h) + k`. */
  lemma StatBlockAt(y: seq<real>, hist: Matrix, futr: Matrix, stat: seq<real>, inputSize: nat, h: nat,
                    histInputSize: nat, futrInputSize: nat, statInputSize: nat)
    requires |y| == inputSize && |stat| == statInputSize
    requires |hist| == inputSize && RegularRows(hist, histInputSize)
    requires |futr| == inputSize + h && RegularRows(futr, futrInputSize)
    ensures var row := y + Concat(hist) + Concat(futr) + stat;
            forall k :: 0 <= k < statInputSize ==>
              inputSize + histInputSize * inputSize + futrInputSize * (inputSize + h) + k < |row|
              && row[inputSize + histInputSize * inputSize + futrInputSize * (inputSize + h) + k] == stat[k]
  {
    RowWidth(y, hist, futr, stat, inputSize, h, histInputSize, futrInputSize, statInputSize);
  }

  /** Row-major offsets of every assembled row when all three exogenous parts are used. */
  lemma ForwardInputOffsets(insampleY: Matrix, histExog: Option<Tensor3>, futrExog: Option<Tensor3>,
                            statExog: Option<Matrix>, inputSize: nat, h: nat,
                            histInputSize: nat, futrInputSize: nat, statInputSize: nat, i: nat)
    requires WellShaped(insampleY, histExog, futrExog, statExog, inputSize, h, histInputSize, futrInputSize, statInputSize)
    requires histInputSize > 0 && futrInputSize > 0 && statInputSize > 0 && i < |insampleY|
    ensures var r := ForwardInput(insampleY, histExog, futrExog, statExog, histInputSize, futrInputSize, statInputSize);
            && r.Some? && |r.value| == |insampleY|
            && r.value[i] == insampleY[i] + Concat(histExog.value[i]) + Concat(futrExog.value[i]) + statExog.value[i]
  {
    ForwardInputBlocks(insampleY, histExog, futrExog, statExog, inputSize, h, histInputSize, futrInputSize, statInputSize);
  }

  /** The windows `_parse_windows` produces fit the model: with `h > 0` and at least one
      window, and the static tensor (when used) holding one row per window, `forward` assembles
      rows of exactly the first layer's `in_features`. */
  lemma ParsedWindowsFitFirstLayer(
    h: nat, inputSize: nat, histExogList: seq<string>, futrExogList: seq<string>, statExogList: seq<string>,
    windows: WindowsBatch, yIdx: nat, maskIdx: nat, histIdx: seq<nat>, futrIdx: seq<nat>, statIdx: seq<nat>)
    requires Parseable(histExogList, futrExogList, statExogList, windows, inputSize + h, yIdx, maskIdx, histIdx, futrIdx, statIdx)
    requires 0 < h && |windows.temporal| > 0
    requires |statExogList| > 0 && windows.statics.Some? ==> |windows.statics.value.tensor| == |windows.temporal|
    ensures var p := ParseWindows(h, histExogList, futrExogList, statExogList, windows, inputSize + h,
                                  yIdx, maskIdx, histIdx, futrIdx, statIdx);
            p.Ok? ==>
              var r := ForwardInput(p.value.insampleY, p.value.histExog, p.value.futrExog, p.value.statExog,
                                    |histExogList|, |futrExogList|, |statExogList|);
              && r.Some? && |r.value| == |windows.temporal|
              && RegularRows(r.value, FirstLayerWidth(inputSize, h, |histExogList|, |futrExogList|, |statExogList|))
  {
    var p := ParseWindows(h, histExogList, futrExogList, statExogList, windows, inputSize + h,
                          yIdx, maskIdx, histIdx, futrIdx, statIdx);
    if p.Ok? {
      var n := |windows.temporal|;
      ParseHistExog(h, histExogList, futrExogList, statExogList, windows, inputSize + h, yIdx, maskIdx, histIdx, futrIdx, statIdx);
      ParseFutrExog(h, histExogList, futrExogList, statExogList, windows, inputSize + h, yIdx, maskIdx, histIdx, futrIdx, statIdx);
      ParseStatExog(h, histExogList, futrExogList, statExogList, windows, inputSize + h, yIdx, maskIdx, histIdx, futrIdx, statIdx);
      forall i | 0 <= i < n
        ensures |p.value.insampleY[i]| == inputSize
      {
        ParseSplitsTargetAndMask(h, histExogList, futrExogList, statExogList, windows, inputSize + h,
                                 yIdx, maskIdx, histIdx, futrIdx, statIdx, i);
      }
      assert WellShaped(p.value.insampleY, p.value.histExog, p.value.futrExog, p.value.statExog, inputSize, h,
                        |histExogList|, |futrExogList|, |statExogList|);
      ForwardInputWidth(p.value.insampleY, p.value.histExog, p.value.futrExog, p.value.statExog, inputSize, h,
                        |histExogList|, |futrExogList|, |statExogList|);
    }
  }
}
