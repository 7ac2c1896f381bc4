/** The `MLP` model (neuralforecast/models/mlp.py): the width of its first layer, the stack of
    linear layers it builds, and how `forward` flattens and concatenates the parsed window
    batch into one input row per window. `nn.Linear` is modelled by its two widths only. */
module Mlp {
  import opened Tensors
  import opened Windows

  /** `nn.Linear(in_features, out_features)`, without its weights. */
  datatype Linear = Linear(inFeatures: nat, outFeatures: nat)

  /** `input_size_first_layer` (lines 86-87): the lags of the target, the lags of every historic
      exogenous channel, the lags and horizon of every future exogenous channel, and the static
      channels. */
  function FirstLayerWidth(inputSize: nat, h: nat, histInputSize: nat, futrInputSize: nat, statInputSize: nat): nat
  {
    inputSize + histInputSize * inputSize + futrInputSize * (inputSize + h) + statInputSize
  }

  /** How many hidden layers `num_layers` gives: the first one always, then
      `range(num_layers - 1)` more, which is empty when `num_layers <= 1`. */
  function LayerCount(numLayers: int): (n: nat)
    ensures n >= 1
    ensures numLayers >= 1 ==> n == numLayers
  {
    if numLayers <= 1 then 1 else numLayers
  }

  /** The hidden stack: a first layer from `inWidth` to `hidden`, then `hidden` to `hidden`. */
  predicate IsLayerStack(layers: seq<Linear>, inWidth: nat, hidden: nat, count: nat)
  {
    && |layers| == count && count >= 1
    && layers[0] == Linear(inWidth, hidden)
    && forall j :: 1 <= j < |layers| ==> layers[j] == Linear(hidden, hidden)
  }

  /** Lines 90-92: the layer list grown one `nn.Linear(hidden_size, hidden_size)` at a time. */
  method BuildLayers(inWidth: nat, hidden: nat, numLayers: int) returns (layers: seq<Linear>)
    ensures IsLayerStack(layers, inWidth, hidden, LayerCount(numLayers))
  {
    layers := [Linear(inWidth, hidden)];
    var i := 0;
    while i < numLayers - 1
      invariant 0 <= i < LayerCount(numLayers)
      invariant IsLayerStack(layers, inWidth, hidden, i + 1)
    {
      layers := layers + [Linear(hidden, hidden)];
      i := i + 1;
    }
  }

  /** The layers of a stack chain: each one takes the width the previous one produces, and the
      last one produces `hidden`. */
  lemma LayersChain(layers: seq<Linear>, inWidth: nat, hidden: nat, count: nat)
    requires IsLayerStack(layers, inWidth, hidden, count)
    ensures layers[0].inFeatures == inWidth
    ensures forall j :: 0 <= j < |layers| - 1 ==> layers[j].outFeatures == layers[j + 1].inFeatures
    ensures layers[|layers| - 1].outFeatures == hidden
  {
    forall j | 0 <= j < |layers| - 1
      ensures layers[j].outFeatures == layers[j + 1].inFeatures
    {
      assert layers[j + 1] == Linear(hidden, hidden);
      if j > 0 {
        assert layers[j] == Linear(hidden, hidden);
      }
    }
  }

  // ---------------------------------------------------------------------------------------
  // forward: flattening and concatenation

  /** `t.reshape(b, -1)`: torch refuses `b == 0` and a size that `b` does not divide. */
  function Reshape(flat: seq<real>, b: nat): (r: Option<Matrix>)
    ensures r.Some? <==> b > 0 && |flat| % b == 0
    ensures r.Some? ==> |r.value| == b && RegularRows(r.value, |flat| / b) && Concat(r.value) == flat
  {
    if b == 0 || |flat| % b != 0 then None
    else
      DivExact(|flat|, b);
      ConcatOfRows(flat, |flat| / b, b);
      Some(Rows(flat, |flat| / b, b))
  }

  lemma DivExact(n: nat, b: nat)
    requires b > 0 && n % b == 0
    ensures n == b * (n / b)
  {
  }

  /** `torch.cat((a, b), dim=1)` of two matrices with the same number of rows. */
  function CatColumns(a: Matrix, b: Matrix): (r: Matrix)
    requires |a| == |b|
    ensures |r| == |a|
    ensures forall i :: 0 <= i < |a| ==> r[i] == a[i] + b[i]
  {
    seq(|a|, i requires 0 <= i < |a| => a[i] + b[i])
  }

  /** One conditional step of `forward` (lines 110-117): when the part is in use, its flattened
      tensor reshaped to `batchSize` rows is appended to every row; a missing or mis-sized part
      is an error. */
  function AppendPart(x: Option<Matrix>, used: bool, part: Option<seq<real>>, batchSize: nat): (r: Option<Matrix>)
  {
    if x.None? then None
    else if !used then x
    else if part.None? || |x.value| != batchSize then None
    else
      match Reshape(part.value, batchSize)
      case None => None
      case Some(rows) => Some(CatColumns(x.value, rows))
  }

  function FlatMatrix(m: Option<Matrix>): Option<seq<real>>
  {
    if m.Some? then Some(Concat(m.value)) else None
  }

  function FlatTensor(x: Option<Tensor3>): Option<seq<real>>
  {
    if x.Some? then Some(Flatten3(x.value)) else None
  }

  /** The input row of every window: `[ y | hist | futr | stat ]`, each part present only
      when its list is non-empty. */
  function ForwardInput(insampleY: Matrix, histExog: Option<Tensor3>, futrExog: Option<Tensor3>,
                        statExog: Option<Matrix>, histInputSize: nat, futrInputSize: nat,
                        statInputSize: nat): (r: Option<Matrix>)
    ensures r.Some? ==> |r.value| == |insampleY|
    ensures r.Some? ==> forall i :: 0 <= i < |insampleY| ==> insampleY[i] <= r.value[i]
    ensures histInputSize == 0 && futrInputSize == 0 && statInputSize == 0 ==> r == Some(insampleY)
  {
    var b := |insampleY|;
    var withHist := AppendPart(Some(insampleY), histInputSize > 0, FlatTensor(histExog), b);
    var withFutr := AppendPart(withHist, futrInputSize > 0, FlatTensor(futrExog), b);
    AppendPart(withFutr, statInputSize > 0, FlatMatrix(statExog), b)
  }

  /** The model's architecture: the `BaseWindows` state it was built over, the hidden stack and
      the output adapter. */
  class MLP {
    const base: BaseWindows
    const numLayers: int
    const hiddenSize: nat
    const futrInputSize: nat
    const histInputSize: nat
    const statInputSize: nat
    const layers: seq<Linear>
    const out: Linear

    /** `__init__` (lines 62-97). `outputsizeMultiplier` is the loss's `outputsize_multiplier`. */
    constructor (h: nat, inputSize: nat, numLayers: int, hiddenSize: nat,
                 futrExogList: seq<string>, histExogList: seq<string>, statExogList: seq<string>,
                 outputsizeMultiplier: nat)
      ensures base.h == h && base.inputSize == inputSize
      ensures base.futrExogList == futrExogList && base.histExogList == histExogList
      ensures base.statExogList == statExogList
      ensures this.numLayers == numLayers && this.hiddenSize == hiddenSize
      ensures futrInputSize == |futrExogList| && histInputSize == |histExogList|
      ensures statInputSize == |statExogList|
      ensures IsLayerStack(layers, FirstLayerWidth(inputSize, h, |histExogList|, |futrExogList|, |statExogList|),
                           hiddenSize, LayerCount(numLayers))
      ensures out == Linear(hiddenSize, h * outputsizeMultiplier)
      ensures base.windowsBatchSize == None && base.stepSize == 1 && base.valSize == 0 && base.testSize == 0
      ensures base.predictStepSize == None && !base.normalize
    {
      base := new BaseWindows(h, inputSize, false, futrExogList, histExogList, statExogList);
      this.numLayers := numLayers;
      this.hiddenSize := hiddenSize;
      futrInputSize := |futrExogList|;
      histInputSize := |histExogList|;
      statInputSize := |statExogList|;
      var inWidth := FirstLayerWidth(inputSize, h, |histExogList|, |futrExogList|, |statExogList|);
      var stack := BuildLayers(inWidth, hiddenSize, numLayers);
      layers := stack;
      out := Linear(hiddenSize, h * outputsizeMultiplier);
    }

    /** Lines 109-117 of `forward`: `insample_y` rebound to itself with each exogenous part
        appended in turn. */
    method AssembleInput(insampleY: Matrix, histExog: Option<Tensor3>, futrExog: Option<Tensor3>,
                         statExog: Option<Matrix>) returns (r: Option<Matrix>)
      ensures r == ForwardInput(insampleY, histExog, futrExog, statExog, histInputSize, futrInputSize, statInputSize)
    {
      var batchSize := |insampleY|;
      var x := insampleY;
      if histInputSize > 0 {
        if histExog.None? {
          return None;
        }
        var rows := Reshape(Flatten3(histExog.value), batchSize);
        if rows.None? {
          return None;
        }
        x := CatColumns(x, rows.value);
      }
      assert Some(x) == AppendPart(Some(insampleY), histInputSize > 0, FlatTensor(histExog), batchSize);
      ghost var withHist := x;
      if futrInputSize > 0 {
        if futrExog.None? {
          return None;
        }
        var rows := Reshape(Flatten3(futrExog.value), batchSize);
        if rows.None? {
          return None;
        }
        x := CatColumns(x, rows.value);
      }
      assert Some(x) == AppendPart(Some(withHist), futrInputSize > 0, FlatTensor(futrExog), batchSize);
      if statInputSize > 0 {
        if statExog.None? {
          return None;
        }
        var rows := Reshape(Concat(statExog.value), batchSize);
        if rows.None? {
          return None;
        }
        x := CatColumns(x, rows.value);
      }
      r := Some(x);
    }
  }
}
