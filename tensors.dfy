/** Tensors as nested sequences, outermost axis first, and the handful of torch
    operations the windowing pipeline is built from: negative-index slicing along the
    time axis, right zero padding (`nn.ConstantPad1d((0, h), 0)`), `Tensor.unfold`,
    `permute(0, 2, 3, 1)` and a `reshape` that merges the two leading axes. */
module Tensors {

  type Matrix = seq<seq<real>>
  type Tensor3 = seq<seq<seq<real>>>
  type Tensor4 = seq<seq<seq<seq<real>>>>

  /** Every row of `m` has length `n`. */
  predicate RegularRows<T>(m: seq<seq<T>>, n: nat)
  {
    forall i :: 0 <= i < |m| ==> |m[i]| == n
  }

  /** `x` has shape `[|x|, d1, d2]`. */
  predicate Regular3(x: Tensor3, d1: nat, d2: nat)
  {
    && (forall i :: 0 <= i < |x| ==> |x[i]| == d1)
    && (forall i, j :: 0 <= i < |x| && 0 <= j < d1 ==> |x[i][j]| == d2)
  }

  /** `u` has shape `[|u|, d1, d2, d3]`. */
  predicate Regular4(u: Tensor4, d1: nat, d2: nat, d3: nat)
  {
    && (forall i :: 0 <= i < |u| ==> |u[i]| == d1)
    && (forall i, j :: 0 <= i < |u| && 0 <= j < d1 ==> |u[i][j]| == d2)
    && (forall i, j, k :: 0 <= i < |u| && 0 <= j < d1 && 0 <= k < d2 ==> |u[i][j][k]| == d3)
  }

  /** The slice bound that the Python index `-k` denotes on an axis of length `n`:
      `-0` is the same as `0`, and a `-k` reaching past the start is clamped to `0`. */
  function PyNeg(n: nat, k: nat): (r: nat)
    ensures r <= n
    ensures 0 < k ==> r + k >= n
  {
    if k == 0 || n < k then 0 else n - k
  }

  /** Sum of a vector, as `torch.sum` over one axis. `Sum` itself is not recursive, so a term
      `Sum(s)` is the same term in every proof context, also inside products and quotients. */
  function Sum(s: seq<real>): real
  {
    SumFrom(s)
  }

  function SumFrom(s: seq<real>): real
  {
    if |s| == 0 then 0.0 else s[0] + SumFrom(s[1..])
  }

  lemma {:induction false} SumOfZeros(s: seq<real>)
    requires forall i :: 0 <= i < |s| ==> s[i] == 0.0
    ensures Sum(s) == 0.0
  {
    if |s| > 0 {
      SumOfZeros(s[1..]);
    }
  }

  lemma {:induction false} SumScaled(a: seq<real>, b: seq<real>, v: real)
    requires |a| == |b|
    requires forall i :: 0 <= i < |a| ==> a[i] == v * b[i]
    ensures Sum(a) == v * Sum(b)
  {
    if |a| > 0 {
      SumScaled(a[1..], b[1..], v);
    }
  }

  /** `Sum` is linear. */
  lemma {:induction false} SumLinear(r: seq<real>, a: seq<real>, b: seq<real>, alpha: real, beta: real)
    requires |r| == |a| == |b|
    requires forall i :: 0 <= i < |r| ==> r[i] == alpha * a[i] + beta * b[i]
    ensures Sum(r) == alpha * Sum(a) + beta * Sum(b)
  {
    if |r| > 0 {
      SumLinear(r[1..], a[1..], b[1..], alpha, beta);
    }
  }

  /** Concatenation of a sequence of sequences: `reshape` merging the two leading axes. */
  function Concat<T>(p: seq<seq<T>>): seq<T>
  {
    if |p| == 0 then [] else p[0] + Concat(p[1..])
  }

  lemma {:induction false} ConcatLength<T>(p: seq<seq<T>>, n: nat)
    requires RegularRows(p, n)
    ensures |Concat(p)| == |p| * n
  {
    if |p| > 0 {
      ConcatLength(p[1..], n);
      assert |p| * n == n + (|p| - 1) * n;
    }
  }

  /** Row-major layout: element `j` of block `i` lands at offset `i * n + j`. */
  lemma {:induction false} ConcatAt<T>(p: seq<seq<T>>, n: nat, i: nat, j: nat)
    requires RegularRows(p, n)
    requires i < |p| && j < n
    ensures |Concat(p)| == |p| * n
    ensures i * n + j < |p| * n
    ensures Concat(p)[i * n + j] == p[i][j]
  {
    ConcatLength(p, n);
    if i == 0 {
      assert Concat(p) == p[0] + Concat(p[1..]);
    } else {
      ConcatAt(p[1..], n, i - 1, j);
      var m := (i - 1) * n + j;
      assert m + n == i * n + j by {
        assert (i - 1) * n == i * n - n;
      }
      assert Concat(p) == p[0] + Concat(p[1..]);
      assert |p[0]| == n;
      assert Concat(p)[m + n] == Concat(p[1..])[m];
    }
  }

  /** Every element of a concatenation comes from one of its blocks. */
  lemma {:induction false} ConcatAll<T>(p: seq<seq<T>>, P: T -> bool)
    requires forall i, j :: 0 <= i < |p| && 0 <= j < |p[i]| ==> P(p[i][j])
    ensures forall m :: 0 <= m < |Concat(p)| ==> P(Concat(p)[m])
  {
    if |p| > 0 {
      ConcatAll(p[1..], P);
      forall m | 0 <= m < |Concat(p)|
        ensures P(Concat(p)[m])
      {
        if m >= |p[0]| {
          assert Concat(p)[m] == Concat(p[1..])[m - |p[0]|];
        }
      }
    }
  }

  /** `flat.reshape(b, n)` for a vector of exactly `b * n` elements: consecutive runs of `n`. */
  function Rows<T>(flat: seq<T>, n: nat, b: nat): (r: seq<seq<T>>)
    requires |flat| == b * n
    ensures |r| == b && RegularRows(r, n)
    decreases b
  {
    if b == 0 then []
    else
      assert |flat[n..]| == (b - 1) * n;
      [flat[..n]] + Rows(flat[n..], n, b - 1)
  }

  /** Cutting a concatenation of rows of length `n` back into rows gives the rows. */
  lemma {:induction false} RowsOfConcat<T>(p: seq<seq<T>>, n: nat)
    requires RegularRows(p, n)
    ensures |Concat(p)| == |p| * n
    ensures Rows(Concat(p), n, |p|) == p
  {
    ConcatLength(p, n);
    if |p| > 0 {
      RowsOfConcat(p[1..], n);
      assert Concat(p) == p[0] + Concat(p[1..]);
      assert Concat(p)[..n] == p[0];
      assert Concat(p)[n..] == Concat(p[1..]);
      assert p == [p[0]] + p[1..];
    }
  }

  /** Concatenating the rows of `flat` gives `flat` back. */
  lemma {:induction false} ConcatOfRows<T>(flat: seq<T>, n: nat, b: nat)
    requires |flat| == b * n
    ensures Concat(Rows(flat, n, b)) == flat
    decreases b
  {
    if b > 0 {
      assert |flat[n..]| == (b - 1) * n;
      ConcatOfRows(flat[n..], n, b - 1);
      var r := Rows(flat, n, b);
      assert r[0] == flat[..n] && r[1..] == Rows(flat[n..], n, b - 1);
      assert flat == flat[..n] + flat[n..];
    }
  }

  /** Row-major flattening of a `[B, T, C]` tensor: `x.reshape(-1)`. */
  function Flatten3(x: Tensor3): seq<real>
  {
    Concat(seq(|x|, i requires 0 <= i < |x| => Concat(x[i])))
  }

  /** `x[:, :, a:b]` once `a` and `b` are normalised slice bounds. */
  function SliceTime(x: Tensor3, d1: nat, len: nat, a: nat, b: nat): (r: Tensor3)
    requires Regular3(x, d1, len) && a <= b <= len
    ensures |r| == |x| && Regular3(r, d1, b - a)
  {
    seq(|x|, s requires 0 <= s < |x| =>
      seq(d1, c requires 0 <= c < d1 => x[s][c][a..b]))
  }

  /** `nn.ConstantPad1d(padding=(0, amount), value=0)`: `amount` zeros after the last step
      of every channel of every series. */
  function PadTime(x: Tensor3, d1: nat, len: nat, amount: nat): (r: Tensor3)
    requires Regular3(x, d1, len)
    ensures |r| == |x| && Regular3(r, d1, len + amount)
    ensures forall s, c, t :: 0 <= s < |x| && 0 <= c < d1 && 0 <= t < len + amount ==>
              r[s][c][t] == if t < len then x[s][c][t] else 0.0
  {
    seq(|x|, s requires 0 <= s < |x| =>
      seq(d1, c requires 0 <= c < d1 => x[s][c] + seq(amount, _ => 0.0)))
  }

  /** How many windows `unfold(size=size, step=step)` cuts from an axis of length `len`. */
  function NumWindows(len: nat, size: nat, step: nat): (n: nat)
    requires 0 < step && size <= len
    ensures n >= 1
  {
    (len - size) / step + 1
  }

  /** First time step of window `k` when windows are `step` apart. */
  function WindowStart(k: nat, step: nat): nat
  {
    k * step
  }

  /** Row-major position of entry `k` of block `s` with `n` entries per block: window `k` of
      series `s` once the series and window axes are merged, or channel `k` of time step `s`
      in a flattened window. */
  function RowMajor(s: nat, n: nat, k: nat): nat
  {
    s * n + k
  }

  lemma WindowInBounds(len: nat, size: nat, step: nat, k: nat, t: nat)
    requires 0 < step && size <= len
    requires k < NumWindows(len, size, step) && t < size
    ensures k * step + t < len
  {
    var q := (len - size) / step;
    assert k <= q;
    assert q * step <= len - size;
    assert k * step <= q * step;
  }

  /** `x.unfold(dimension=-1, size=size, step=step)` on a `[S, d1, len]` tensor:
      window `k` of each row starts at `k * step`. */
  function Unfold(x: Tensor3, d1: nat, len: nat, size: nat, step: nat): (u: Tensor4)
    requires Regular3(x, d1, len) && 0 < step && size <= len
    ensures |u| == |x| && Regular4(u, d1, NumWindows(len, size, step), size)
  {
    var n := NumWindows(len, size, step);
    seq(|x|, s requires 0 <= s < |x| =>
      seq(d1, c requires 0 <= c < d1 =>
        seq(n, k requires 0 <= k < n =>
          seq(size, t requires 0 <= t < size =>
            WindowInBounds(len, size, step, k, t);
            x[s][c][k * step + t]))))
  }

  /** `permute(0, 2, 3, 1)`: `[S, C, N, W]` becomes `[S, N, W, C]`. */
  function Permute0231(u: Tensor4, d1: nat, d2: nat, d3: nat): (p: Tensor4)
    requires Regular4(u, d1, d2, d3)
    ensures |p| == |u| && Regular4(p, d2, d3, d1)
  {
    seq(|u|, s requires 0 <= s < |u| =>
      seq(d2, k requires 0 <= k < d2 =>
        seq(d3, t requires 0 <= t < d3 =>
          seq(d1, c requires 0 <= c < d1 => u[s][c][k][t]))))
  }

  /** The windows of a `[S, C, len]` tensor, as `_create_windows` lays them out: unfold,
      permute to time-before-channel, and merge series and window axes. */
  function Extract(x: Tensor3, d1: nat, len: nat, size: nat, step: nat): Tensor3
    requires Regular3(x, d1, len) && 0 < step && size <= len
  {
    var n := NumWindows(len, size, step);
    Concat(Permute0231(Unfold(x, d1, len, size, step), d1, n, size))
  }

  /** Window geometry: there are `NumWindows` windows per series, each `[size, d1]`, and flat
      window `s * n + k` holds `x[s][c][k * step + t]` at time `t`, channel `c`. */
  lemma ExtractAt(x: Tensor3, d1: nat, len: nat, size: nat, step: nat, s: nat, k: nat, t: nat, c: nat)
    requires Regular3(x, d1, len) && 0 < step && size <= len
    requires s < |x| && k < NumWindows(len, size, step) && t < size && c < d1
    ensures var n := NumWindows(len, size, step);
            && |Extract(x, d1, len, size, step)| == |x| * n
            && Regular3(Extract(x, d1, len, size, step), size, d1)
            && RowMajor(s, n, k) < |x| * n
            && WindowStart(k, step) + t < len
            && Extract(x, d1, len, size, step)[RowMajor(s, n, k)][t][c] == x[s][c][WindowStart(k, step) + t]
  {
    var n := NumWindows(len, size, step);
    var p := Permute0231(Unfold(x, d1, len, size, step), d1, n, size);
    ConcatAt(p, n, s, k);
    WindowInBounds(len, size, step, k, t);
    ExtractShape(x, d1, len, size, step);
  }

  lemma ExtractShape(x: Tensor3, d1: nat, len: nat, size: nat, step: nat)
    requires Regular3(x, d1, len) && 0 < step && size <= len
    ensures |Extract(x, d1, len, size, step)| == |x| * NumWindows(len, size, step)
    ensures Regular3(Extract(x, d1, len, size, step), size, d1)
  {
    var n := NumWindows(len, size, step);
    var p := Permute0231(Unfold(x, d1, len, size, step), d1, n, size);
    ConcatLength(p, n);
    var P := (w: Matrix) => |w| == size && forall t :: 0 <= t < size ==> |w[t]| == d1;
    ConcatAll(p, P);
  }
}
