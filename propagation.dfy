/** What the network computes, on values: the forward pass, the mean squared error over a
    table of samples, and the gradients that backpropagation accumulates. The imperative
    network in module Networks is proved against these definitions. */
module Propagation {
  import opened FlatIndex
  import opened Activations
  import opened Matrices

  /** The compile-time choices of the library: the activation kind, the slope of ReLU for
      negative outputs, the backpropagation convention, and the transcendental functions. */
  datatype Config = Config(act: Activation, leak: real, traditional: bool, tf: Transcendental)

  /** The factor applied to every layer's error signal: 1 in the traditional convention
      (which puts the 2 of the squared error's derivative into the output error instead), 2 in
      the default one. */
  function Scale(cfg: Config): (s: real)
    ensures s == 1.0 || s == 2.0
  {
    if cfg.traditional then 1.0 else 2.0
  }

  /** Layer l+1 holds arch[l] x arch[l+1] weights. */
  predicate WeightsShaped(arch: seq<nat>, W: seq<seq<real>>)
  {
    |arch| >= 1 && |W| == |arch| - 1 &&
    forall l {:trigger W[l]} :: 0 <= l < |W| ==> |W[l]| == arch[l] * arch[l + 1]
  }

  /** Layer l+1 holds arch[l+1] biases. */
  predicate BiasesShaped(arch: seq<nat>, B: seq<seq<real>>)
  {
    |arch| >= 1 && |B| == |arch| - 1 &&
    forall l :: 0 <= l < |B| ==> |B[l]| == arch[l + 1]
  }

  predicate Shaped(arch: seq<nat>, W: seq<seq<real>>, B: seq<seq<real>>)
  {
    WeightsShaped(arch, W) && BiasesShaped(arch, B)
  }

  /** Layer l holds arch[l] activations. */
  predicate LayersShaped(arch: seq<nat>, A: seq<seq<real>>)
  {
    |A| == |arch| && forall l :: 0 <= l < |A| ==> |A[l]| == arch[l]
  }

  /** Parameters of a fresh network: every weight and bias zero. */
  function ZeroWeights(arch: seq<nat>): (W: seq<seq<real>>)
    requires |arch| >= 1
    ensures WeightsShaped(arch, W)
  {
    seq(|arch| - 1, l requires 0 <= l < |arch| - 1 => Zeros(arch[l] * arch[l + 1]))
  }

  function ZeroBiases(arch: seq<nat>): (B: seq<seq<real>>)
    requires |arch| >= 1
    ensures BiasesShaped(arch, B)
  {
    seq(|arch| - 1, l requires 0 <= l < |arch| - 1 => Zeros(arch[l + 1]))
  }

  function ZeroLayers(arch: seq<nat>): (A: seq<seq<real>>)
    ensures LayersShaped(arch, A)
  {
    seq(|arch|, l requires 0 <= l < |arch| => Zeros(arch[l]))
  }

  /** One layer of the forward pass: the row x (1 x np) times w (np x n), plus b, through the
      activation. */
  function Layer(cfg: Config, x: seq<real>, w: seq<real>, b: seq<real>, np: nat, n: nat): (y: seq<real>)
    requires |x| == np && |w| == np * n && |b| == n
    ensures |y| == n
  {
    Activate(AddSeq(Product(x, 1, np, w, n), b), cfg.act, cfg.tf)
  }

  /** Output j of a layer is the activation of its bias plus the weighted sum of the inputs. */
  lemma LayerOutput(cfg: Config, x: seq<real>, w: seq<real>, b: seq<real>, np: nat, n: nat, j: nat)
    requires |x| == np && |w| == np * n && |b| == n && j < n
    ensures Layer(cfg, x, w, b, np, n)[j] == Actf(DotCell(x, 1, np, w, n, 0, j, np) + b[j], cfg.act, cfg.tf)
  {
    ProductCell(x, 1, np, w, n, 0, j);
    CellInRange(0, j, 1, n);
  }

  /** The activations of layer l for input x. */
  function Propagate(cfg: Config, arch: seq<nat>, W: seq<seq<real>>, B: seq<seq<real>>, x: seq<real>, l: nat): (a: seq<real>)
    requires Shaped(arch, W, B) && |x| == arch[0] && l < |arch|
    ensures |a| == arch[l]
    decreases l
  {
    if l == 0 then x
    else Layer(cfg, Propagate(cfg, arch, W, B, x, l - 1), W[l - 1], B[l - 1], arch[l - 1], arch[l])
  }

  /** Every layer's activations for input x: what a forward pass leaves in the network. */
  function ForwardAll(cfg: Config, arch: seq<nat>, W: seq<seq<real>>, B: seq<seq<real>>, x: seq<real>): (A: seq<seq<real>>)
    requires Shaped(arch, W, B) && |x| == arch[0]
    ensures LayersShaped(arch, A)
  {
    seq(|arch|, l requires 0 <= l < |arch| => Propagate(cfg, arch, W, B, x, l))
  }

  /** The forward pass keeps the input and computes each layer from the one before it. */
  lemma ForwardChain(cfg: Config, arch: seq<nat>, W: seq<seq<real>>, B: seq<seq<real>>, x: seq<real>, l: nat)
    requires Shaped(arch, W, B) && |x| == arch[0] && l + 1 < |arch|
    ensures ForwardAll(cfg, arch, W, B, x)[0] == x
    ensures ForwardAll(cfg, arch, W, B, x)[l + 1] ==
      Layer(cfg, ForwardAll(cfg, arch, W, B, x)[l], W[l], B[l], arch[l], arch[l + 1])
  {
  }

  /** X's layers up to i, A's after it. */
  function Splice(X: seq<seq<real>>, A: seq<seq<real>>, i: nat): (P: seq<seq<real>>)
    requires |X| == |A|
    ensures |P| == |A|
  {
    seq(|A|, l requires 0 <= l < |A| => if l <= i then X[l] else A[l])
  }

  /** Taking layer i+1 from X as well extends the splice by one layer. */
  lemma SpliceStep(X: seq<seq<real>>, A: seq<seq<real>>, i: nat)
    requires |X| == |A| && i + 1 < |A|
    ensures Splice(X, A, i)[i + 1 := X[i + 1]] == Splice(X, A, i + 1)
  {
  }

  /** The activations part way through a forward pass that started from A: the layers up to i
      are computed, the ones after it still hold what A holds. */
  function ForwardUpTo(cfg: Config, arch: seq<nat>, W: seq<seq<real>>, B: seq<seq<real>>, A: seq<seq<real>>, i: nat): (P: seq<seq<real>>)
    requires Shaped(arch, W, B) && LayersShaped(arch, A) && i < |arch|
    ensures LayersShaped(arch, P) && P[0] == A[0]
  {
    Splice(ForwardAll(cfg, arch, W, B, A[0]), A, i)
  }

  /** Nothing is computed before the first layer, everything after the last. */
  lemma ForwardUpToEnds(cfg: Config, arch: seq<nat>, W: seq<seq<real>>, B: seq<seq<real>>, A: seq<seq<real>>)
    requires Shaped(arch, W, B) && LayersShaped(arch, A)
    ensures ForwardUpTo(cfg, arch, W, B, A, 0) == A
    ensures ForwardUpTo(cfg, arch, W, B, A, |arch| - 1) == ForwardAll(cfg, arch, W, B, A[0])
  {
  }

  /** Computing layer i+1 from layer i advances a forward pass by one layer. */
  lemma ForwardUpToStep(cfg: Config, arch: seq<nat>, W: seq<seq<real>>, B: seq<seq<real>>, A: seq<seq<real>>, i: nat)
    requires Shaped(arch, W, B) && LayersShaped(arch, A) && i + 1 < |arch|
    ensures ForwardUpTo(cfg, arch, W, B, A, i)[i + 1 := Layer(cfg, ForwardUpTo(cfg, arch, W, B, A, i)[i], W[i], B[i], arch[i], arch[i + 1])]
      == ForwardUpTo(cfg, arch, W, B, A, i + 1)
  {
    var X := ForwardAll(cfg, arch, W, B, A[0]);
    ForwardChain(cfg, arch, W, B, A[0], i);
    SpliceStep(X, A, i);
  }

  /** With ReLU, every layer after the input is non-negative, whatever the parameters. */
  lemma ReluLayersNonNegative(cfg: Config, arch: seq<nat>, W: seq<seq<real>>, B: seq<seq<real>>, x: seq<real>, l: nat, j: nat)
    requires cfg.act.Relu? && Shaped(arch, W, B) && |x| == arch[0] && 0 < l < |arch| && j < arch[l]
    ensures ForwardAll(cfg, arch, W, B, x)[l][j] >= 0.0
  {
    var prev := Propagate(cfg, arch, W, B, x, l - 1);
    var v := AddSeq(Product(prev, 1, arch[l - 1], W[l - 1], arch[l]), B[l - 1]);
    assert ForwardAll(cfg, arch, W, B, x)[l] == Activate(v, cfg.act, cfg.tf);
  }

  /** A table of samples fits the network: each row holds arch[0] inputs followed by the
      arch[|arch|-1] expected outputs. */
  predicate Fits(arch: seq<nat>, T: seq<real>, R: nat, C: nat)
  {
    |arch| >= 1 && C == arch[0] + arch[|arch| - 1] && |T| == R * C
  }

  /** The inputs of row r. */
  function RowInput(arch: seq<nat>, T: seq<real>, R: nat, C: nat, r: nat): (x: seq<real>)
    requires Fits(arch, T, R, C) && r < R
    ensures |x| == arch[0]
  {
    RowSlice(T, R, C, r, 0, arch[0])
  }

  /** The expected outputs of row r. */
  function RowTarget(arch: seq<nat>, T: seq<real>, R: nat, C: nat, r: nat): (y: seq<real>)
    requires Fits(arch, T, R, C) && r < R
    ensures |y| == arch[|arch| - 1]
  {
    RowSlice(T, R, C, r, arch[0], arch[|arch| - 1])
  }

  /** The sum of the squared differences over the first k outputs. */
  function SquaredError(out: seq<real>, y: seq<real>, k: nat): (e: real)
    requires k <= |out| && k <= |y|
    ensures e >= 0.0
  {
    if k == 0 then 0.0
    else
      var d := out[k - 1] - y[k - 1];
      SquareNonNegative(d);
      SquaredError(out, y, k - 1) + d * d
  }

  /** An output equal to its target has no error. */
  lemma {:induction false} SquaredErrorOfExactOutput(out: seq<real>, k: nat)
    requires k <= |out|
    ensures SquaredError(out, out, k) == 0.0
  {
    if k > 0 {
      SquaredErrorOfExactOutput(out, k - 1);
    }
  }

  /** The squared error of the network on row r. */
  function RowError(cfg: Config, arch: seq<nat>, W: seq<seq<real>>, B: seq<seq<real>>,
                    T: seq<real>, R: nat, C: nat, r: nat): real
    requires Shaped(arch, W, B) && Fits(arch, T, R, C) && r < R
  {
    var L := |arch| - 1;
    SquaredError(Propagate(cfg, arch, W, B, RowInput(arch, T, R, C, r), L), RowTarget(arch, T, R, C, r), arch[L])
  }

  /** The squared error summed over the first k rows. */
  function TotalError(cfg: Config, arch: seq<nat>, W: seq<seq<real>>, B: seq<seq<real>>,
                      T: seq<real>, R: nat, C: nat, k: nat): real
    requires Shaped(arch, W, B) && Fits(arch, T, R, C) && k <= R
  {
    if k == 0 then 0.0
    else TotalError(cfg, arch, W, B, T, R, C, k - 1) + RowError(cfg, arch, W, B, T, R, C, k - 1)
  }

  /** The cost of the network on a table: the summed squared error divided by the number of
      rows. */
  function CostOf(cfg: Config, arch: seq<nat>, W: seq<seq<real>>, B: seq<seq<real>>,
                  T: seq<real>, R: nat, C: nat): real
    requires Shaped(arch, W, B) && Fits(arch, T, R, C) && R > 0
  {
    TotalError(cfg, arch, W, B, T, R, C, R) / (R as real)
  }

  lemma {:induction false} TotalErrorNonNegative(cfg: Config, arch: seq<nat>, W: seq<seq<real>>, B: seq<seq<real>>,
                                                 T: seq<real>, R: nat, C: nat, k: nat)
    requires Shaped(arch, W, B) && Fits(arch, T, R, C) && k <= R
    ensures TotalError(cfg, arch, W, B, T, R, C, k) >= 0.0
  {
    if k > 0 {
      TotalErrorNonNegative(cfg, arch, W, B, T, R, C, k - 1);
    }
  }

  /** The cost is never negative. */
  lemma CostNonNegative(cfg: Config, arch: seq<nat>, W: seq<seq<real>>, B: seq<seq<real>>,
                        T: seq<real>, R: nat, C: nat)
    requires Shaped(arch, W, B) && Fits(arch, T, R, C) && R > 0
    ensures CostOf(cfg, arch, W, B, T, R, C) >= 0.0
  {
    TotalErrorNonNegative(cfg, arch, W, B, T, R, C, R);
  }

  /** A row the network reproduces exactly. */
  predicate RowFitted(cfg: Config, arch: seq<nat>, W: seq<seq<real>>, B: seq<seq<real>>,
                      T: seq<real>, R: nat, C: nat, r: nat)
    requires Shaped(arch, W, B) && Fits(arch, T, R, C) && r < R
  {
    Propagate(cfg, arch, W, B, RowInput(arch, T, R, C, r), |arch| - 1) == RowTarget(arch, T, R, C, r)
  }

  lemma {:induction false} TotalErrorOfFittedRows(cfg: Config, arch: seq<nat>, W: seq<seq<real>>, B: seq<seq<real>>,
                                                  T: seq<real>, R: nat, C: nat, k: nat)
    requires Shaped(arch, W, B) && Fits(arch, T, R, C) && k <= R
    requires forall r :: 0 <= r < k ==> RowFitted(cfg, arch, W, B, T, R, C, r)
    ensures TotalError(cfg, arch, W, B, T, R, C, k) == 0.0
  {
    if k > 0 {
      TotalErrorOfFittedRows(cfg, arch, W, B, T, R, C, k - 1);
      var r := k - 1;
      assert RowFitted(cfg, arch, W, B, T, R, C, r);
      var L := |arch| - 1;
      SquaredErrorOfExactOutput(RowTarget(arch, T, R, C, r), arch[L]);
    }
  }

  /** A network that reproduces every row of the table has cost zero. */
  lemma FittedCostZero(cfg: Config, arch: seq<nat>, W: seq<seq<real>>, B: seq<seq<real>>,
                       T: seq<real>, R: nat, C: nat)
    requires Shaped(arch, W, B) && Fits(arch, T, R, C) && R > 0
    requires forall r :: 0 <= r < R ==> RowFitted(cfg, arch, W, B, T, R, C, r)
    ensures CostOf(cfg, arch, W, B, T, R, C) == 0.0
  {
    TotalErrorOfFittedRows(cfg, arch, W, B, T, R, C, R);
  }

  /** The error signal of one unit: the scale, times the gradient with respect to its output,
      times the derivative of the activation at that output. */
  function Delta(cfg: Config, s: real, da: real, a: real): real
  {
    s * da * Dactf(a, cfg.act, cfg.leak, cfg.tf)
  }

  /** The gradient with respect to the outputs: the output error, doubled in the traditional
      convention. */
  function OutputGrad(cfg: Config, out: seq<real>, y: seq<real>): (g: seq<real>)
    requires |out| == |y|
    ensures |g| == |y|
    ensures forall j :: 0 <= j < |y| ==> out[j] == y[j] ==> g[j] == 0.0
  {
    seq(|y|, j requires 0 <= j < |y| => if cfg.traditional then 2.0 * (out[j] - y[j]) else out[j] - y[j])
  }

  /** Over the first J units of a layer, the error signals weighted by their connection to
      input k. */
  function BackSum(cfg: Config, s: real, da: seq<real>, a: seq<real>, w: seq<real>, np: nat, n: nat, k: nat, J: nat): real
    requires |da| == n && |a| == n && |w| == np * n && k < np && J <= n
  {
    if J == 0 then 0.0
    else BackSum(cfg, s, da, a, w, np, n, k, J - 1) + Delta(cfg, s, da[J - 1], a[J - 1]) * Entry(w, np, n, k, J - 1)
  }

  /** The gradient passed back to the np inputs of a layer. */
  function BackActs(cfg: Config, s: real, da: seq<real>, a: seq<real>, w: seq<real>, np: nat, n: nat): (g: seq<real>)
    requires |da| == n && |a| == n && |w| == np * n
    ensures |g| == np
  {
    seq(np, k requires 0 <= k < np => BackSum(cfg, s, da, a, w, np, n, k, n))
  }

  /** The bias gradient of a layer for one sample. */
  function BiasStep(cfg: Config, s: real, da: seq<real>, a: seq<real>): (g: seq<real>)
    requires |da| == |a|
    ensures |g| == |a|
  {
    seq(|a|, j requires 0 <= j < |a| => Delta(cfg, s, da[j], a[j]))
  }

  function WeightStepAt(cfg: Config, s: real, da: seq<real>, a: seq<real>, aPrev: seq<real>, np: nat, n: nat, p: nat): real
    requires |da| == n && |a| == n && |aPrev| == np && p < np * n
  {
    PositionCell(p, np, n);
    Delta(cfg, s, da[p % n], a[p % n]) * aPrev[p / n]
  }

  /** The weight gradient of a layer for one sample, an np x n buffer. */
  function WeightStep(cfg: Config, s: real, da: seq<real>, a: seq<real>, aPrev: seq<real>, np: nat, n: nat): (g: seq<real>)
    requires |da| == n && |a| == n && |aPrev| == np
    ensures |g| == np * n
  {
    seq(np * n, p requires 0 <= p < np * n => WeightStepAt(cfg, s, da, a, aPrev, np, n, p))
  }

  /** The gradient of the weight from input k to unit j is unit j's error signal times
      input k. */
  lemma WeightStepCell(cfg: Config, s: real, da: seq<real>, a: seq<real>, aPrev: seq<real>, np: nat, n: nat, k: nat, j: nat)
    requires |da| == n && |a| == n && |aPrev| == np && k < np && j < n
    ensures Entry(WeightStep(cfg, s, da, a, aPrev, np, n), np, n, k, j) == Delta(cfg, s, da[j], a[j]) * aPrev[k]
  {
    CellInRange(k, j, np, n);
    CellDivMod(k, j, n);
  }

  /** The gradient with respect to the activations of layer l, for one sample with
      activations A and target y: the output gradient at the last layer, and below it what the
      layer above passes back. */
  function UpGrad(cfg: Config, arch: seq<nat>, W: seq<seq<real>>, A: seq<seq<real>>, y: seq<real>, l: nat): (g: seq<real>)
    requires WeightsShaped(arch, W) && LayersShaped(arch, A) && |y| == arch[|arch| - 1] && l < |arch|
    ensures |g| == arch[l]
    decreases |arch| - l
  {
    if l == |arch| - 1 then OutputGrad(cfg, A[l], y)
    else BackActs(cfg, Scale(cfg), UpGrad(cfg, arch, W, A, y, l + 1), A[l + 1], W[l], arch[l], arch[l + 1])
  }

  /** The weight gradient of layer m+1 for one sample, from the activations A of the forward
      pass and the target y. */
  function LayerWeightGrad(cfg: Config, arch: seq<nat>, W: seq<seq<real>>, A: seq<seq<real>>, y: seq<real>, m: nat): (g: seq<real>)
    requires WeightsShaped(arch, W) && LayersShaped(arch, A) && |y| == arch[|arch| - 1] && m + 1 < |arch|
    ensures |g| == arch[m] * arch[m + 1]
  {
    WeightStep(cfg, Scale(cfg), UpGrad(cfg, arch, W, A, y, m + 1), A[m + 1], A[m], arch[m], arch[m + 1])
  }

  /** The bias gradient of layer m+1 for one sample. */
  function LayerBiasGrad(cfg: Config, arch: seq<nat>, W: seq<seq<real>>, A: seq<seq<real>>, y: seq<real>, m: nat): (g: seq<real>)
    requires WeightsShaped(arch, W) && LayersShaped(arch, A) && |y| == arch[|arch| - 1] && m + 1 < |arch|
    ensures |g| == arch[m + 1]
  {
    BiasStep(cfg, Scale(cfg), UpGrad(cfg, arch, W, A, y, m + 1), A[m + 1])
  }

  /** The weight gradient of layer m+1 for input x and target y. */
  function SampleWeightGrad(cfg: Config, arch: seq<nat>, W: seq<seq<real>>, B: seq<seq<real>>,
                            x: seq<real>, y: seq<real>, m: nat): (g: seq<real>)
    requires Shaped(arch, W, B) && |x| == arch[0] && |y| == arch[|arch| - 1] && m + 1 < |arch|
    ensures |g| == arch[m] * arch[m + 1]
  {
    LayerWeightGrad(cfg, arch, W, ForwardAll(cfg, arch, W, B, x), y, m)
  }

  /** The bias gradient of layer m+1 for input x and target y. */
  function SampleBiasGrad(cfg: Config, arch: seq<nat>, W: seq<seq<real>>, B: seq<seq<real>>,
                          x: seq<real>, y: seq<real>, m: nat): (g: seq<real>)
    requires Shaped(arch, W, B) && |x| == arch[0] && |y| == arch[|arch| - 1] && m + 1 < |arch|
    ensures |g| == arch[m + 1]
  {
    LayerBiasGrad(cfg, arch, W, ForwardAll(cfg, arch, W, B, x), y, m)
  }

  /** The weight gradients of layer m+1, one per row of the table. */
  function SampleWeightGrads(cfg: Config, arch: seq<nat>, W: seq<seq<real>>, B: seq<seq<real>>,
                             T: seq<real>, R: nat, C: nat, m: nat): (G: seq<seq<real>>)
    requires Shaped(arch, W, B) && Fits(arch, T, R, C) && m + 1 < |arch|
    ensures |G| == R && forall r :: 0 <= r < R ==> |G[r]| == arch[m] * arch[m + 1]
  {
    seq(R, r requires 0 <= r < R =>
      SampleWeightGrad(cfg, arch, W, B, RowInput(arch, T, R, C, r), RowTarget(arch, T, R, C, r), m))
  }

  /** The bias gradients of layer m+1, one per row of the table. */
  function SampleBiasGrads(cfg: Config, arch: seq<nat>, W: seq<seq<real>>, B: seq<seq<real>>,
                           T: seq<real>, R: nat, C: nat, m: nat): (G: seq<seq<real>>)
    requires Shaped(arch, W, B) && Fits(arch, T, R, C) && m + 1 < |arch|
    ensures |G| == R && forall r :: 0 <= r < R ==> |G[r]| == arch[m + 1]
  {
    seq(R, r requires 0 <= r < R =>
      SampleBiasGrad(cfg, arch, W, B, RowInput(arch, T, R, C, r), RowTarget(arch, T, R, C, r), m))
  }

  /** The weight gradients of layer m+1 summed over the first k rows. */
  function WeightGradSum(cfg: Config, arch: seq<nat>, W: seq<seq<real>>, B: seq<seq<real>>,
                         T: seq<real>, R: nat, C: nat, m: nat, k: nat): (g: seq<real>)
    requires Shaped(arch, W, B) && Fits(arch, T, R, C) && m + 1 < |arch| && k <= R
    ensures |g| == arch[m] * arch[m + 1]
  {
    SumSeqs(SampleWeightGrads(cfg, arch, W, B, T, R, C, m), arch[m] * arch[m + 1], k)
  }

  /** The bias gradients of layer m+1 summed over the first k rows. */
  function BiasGradSum(cfg: Config, arch: seq<nat>, W: seq<seq<real>>, B: seq<seq<real>>,
                       T: seq<real>, R: nat, C: nat, m: nat, k: nat): (g: seq<real>)
    requires Shaped(arch, W, B) && Fits(arch, T, R, C) && m + 1 < |arch| && k <= R
    ensures |g| == arch[m + 1]
  {
    SumSeqs(SampleBiasGrads(cfg, arch, W, B, T, R, C, m), arch[m + 1], k)
  }

  /** The weight gradients of backpropagation: the per-row gradients averaged over the rows. */
  function WeightGradients(cfg: Config, arch: seq<nat>, W: seq<seq<real>>, B: seq<seq<real>>,
                           T: seq<real>, R: nat, C: nat): (G: seq<seq<real>>)
    requires Shaped(arch, W, B) && Fits(arch, T, R, C) && R > 0
    ensures WeightsShaped(arch, G)
  {
    seq(|arch| - 1, m requires 0 <= m < |arch| - 1 => DivSeq(WeightGradSum(cfg, arch, W, B, T, R, C, m, R), R))
  }

  /** The bias gradients of backpropagation. */
  function BiasGradients(cfg: Config, arch: seq<nat>, W: seq<seq<real>>, B: seq<seq<real>>,
                         T: seq<real>, R: nat, C: nat): (G: seq<seq<real>>)
    requires Shaped(arch, W, B) && Fits(arch, T, R, C) && R > 0
    ensures BiasesShaped(arch, G)
  {
    seq(|arch| - 1, m requires 0 <= m < |arch| - 1 => DivSeq(BiasGradSum(cfg, arch, W, B, T, R, C, m, R), R))
  }

  /** The activation gradients of every layer, for one sample with activations A and target y. */
  function UpGradsOf(cfg: Config, arch: seq<nat>, W: seq<seq<real>>, A: seq<seq<real>>, y: seq<real>): (G: seq<seq<real>>)
    requires WeightsShaped(arch, W) && LayersShaped(arch, A) && |y| == arch[|arch| - 1]
    ensures LayersShaped(arch, G)
  {
    seq(|arch|, l requires 0 <= l < |arch| => UpGrad(cfg, arch, W, A, y, l))
  }

  /** The weight gradients of every layer for one sample with activations A and target y. */
  function LayerWeightGrads(cfg: Config, arch: seq<nat>, W: seq<seq<real>>, A: seq<seq<real>>, y: seq<real>): (G: seq<seq<real>>)
    requires WeightsShaped(arch, W) && LayersShaped(arch, A) && |y| == arch[|arch| - 1]
    ensures WeightsShaped(arch, G)
  {
    seq(|arch| - 1, m requires 0 <= m < |arch| - 1 => LayerWeightGrad(cfg, arch, W, A, y, m))
  }

  /** The bias gradients of every layer for one sample. */
  function LayerBiasGrads(cfg: Config, arch: seq<nat>, W: seq<seq<real>>, A: seq<seq<real>>, y: seq<real>): (G: seq<seq<real>>)
    requires WeightsShaped(arch, W) && LayersShaped(arch, A) && |y| == arch[|arch| - 1]
    ensures BiasesShaped(arch, G)
  {
    seq(|arch| - 1, m requires 0 <= m < |arch| - 1 => LayerBiasGrad(cfg, arch, W, A, y, m))
  }

  /** The weight gradients of every layer summed over the first k rows. */
  function WeightGradSums(cfg: Config, arch: seq<nat>, W: seq<seq<real>>, B: seq<seq<real>>,
                          T: seq<real>, R: nat, C: nat, k: nat): (G: seq<seq<real>>)
    requires Shaped(arch, W, B) && Fits(arch, T, R, C) && k <= R
    ensures WeightsShaped(arch, G)
  {
    seq(|arch| - 1, m requires 0 <= m < |arch| - 1 => WeightGradSum(cfg, arch, W, B, T, R, C, m, k))
  }

  /** The bias gradients of every layer summed over the first k rows. */
  function BiasGradSums(cfg: Config, arch: seq<nat>, W: seq<seq<real>>, B: seq<seq<real>>,
                        T: seq<real>, R: nat, C: nat, k: nat): (G: seq<seq<real>>)
    requires Shaped(arch, W, B) && Fits(arch, T, R, C) && k <= R
    ensures BiasesShaped(arch, G)
  {
    seq(|arch| - 1, m requires 0 <= m < |arch| - 1 => BiasGradSum(cfg, arch, W, B, T, R, C, m, k))
  }

  /** P and D added layer by layer. */
  function AddEach(P: seq<seq<real>>, D: seq<seq<real>>): (Q: seq<seq<real>>)
    requires |P| == |D| && forall l :: 0 <= l < |P| ==> |P[l]| == |D[l]|
    ensures |Q| == |P| && forall l :: 0 <= l < |P| ==> |Q[l]| == |P[l]|
  {
    seq(|P|, l requires 0 <= l < |P| => AddSeq(P[l], D[l]))
  }

  /** Every layer of P divided by n. */
  function DivEach(P: seq<seq<real>>, n: nat): (Q: seq<seq<real>>)
    requires n > 0
    ensures |Q| == |P| && forall l :: 0 <= l < |P| ==> |Q[l]| == |P[l]|
  {
    seq(|P|, l requires 0 <= l < |P| => DivSeq(P[l], n))
  }

  /** Nothing is summed before the first row. */
  lemma GradSumsEmpty(cfg: Config, arch: seq<nat>, W: seq<seq<real>>, B: seq<seq<real>>, T: seq<real>, R: nat, C: nat)
    requires Shaped(arch, W, B) && Fits(arch, T, R, C)
    ensures WeightGradSums(cfg, arch, W, B, T, R, C, 0) == ZeroWeights(arch)
    ensures BiasGradSums(cfg, arch, W, B, T, R, C, 0) == ZeroBiases(arch)
  {
  }

  /** Accumulating row k's gradients, taken from its forward pass, extends the sums by that
      row. */
  lemma GradSumsStep(cfg: Config, arch: seq<nat>, W: seq<seq<real>>, B: seq<seq<real>>,
                     T: seq<real>, R: nat, C: nat, k: nat, next: nat, A: seq<seq<real>>, y: seq<real>)
    requires Shaped(arch, W, B) && Fits(arch, T, R, C) && k < R && next == k + 1
    requires A == ForwardAll(cfg, arch, W, B, RowInput(arch, T, R, C, k)) && y == RowTarget(arch, T, R, C, k)
    ensures AddEach(WeightGradSums(cfg, arch, W, B, T, R, C, k), LayerWeightGrads(cfg, arch, W, A, y)) ==
              WeightGradSums(cfg, arch, W, B, T, R, C, next)
    ensures AddEach(BiasGradSums(cfg, arch, W, B, T, R, C, k), LayerBiasGrads(cfg, arch, W, A, y)) ==
              BiasGradSums(cfg, arch, W, B, T, R, C, next)
  {
  }

  /** The gradients of backpropagation are the sums over all rows, divided by the number of
      rows. */
  lemma GradientsOfSums(cfg: Config, arch: seq<nat>, W: seq<seq<real>>, B: seq<seq<real>>,
                        T: seq<real>, R: nat, C: nat)
    requires Shaped(arch, W, B) && Fits(arch, T, R, C) && R > 0
    ensures DivEach(WeightGradSums(cfg, arch, W, B, T, R, C, R), R) == WeightGradients(cfg, arch, W, B, T, R, C)
    ensures DivEach(BiasGradSums(cfg, arch, W, B, T, R, C, R), R) == BiasGradients(cfg, arch, W, B, T, R, C)
  {
  }

  /** A gradient step: every parameter moves against its gradient by rate times it. */
  function Descend(P: seq<seq<real>>, G: seq<seq<real>>, rate: real): (Q: seq<seq<real>>)
    requires |P| == |G| && forall l :: 0 <= l < |P| ==> |P[l]| == |G[l]|
    ensures |Q| == |P| && forall l :: 0 <= l < |P| ==> |Q[l]| == |P[l]|
  {
    seq(|P|, l requires 0 <= l < |P| => SubScaledSeq(P[l], G[l], rate))
  }

  /** A step with rate followed by a step with -rate against the same gradient restores the
      parameters. */
  lemma DescendUndo(P: seq<seq<real>>, G: seq<seq<real>>, rate: real)
    requires |P| == |G| && forall l :: 0 <= l < |P| ==> |P[l]| == |G[l]|
    ensures Descend(Descend(P, G, rate), G, -rate) == P
  {
    var Q := Descend(P, G, rate);
    forall l | 0 <= l < |P|
      ensures Descend(Q, G, -rate)[l] == P[l]
    {
      SubScaledUndo(P[l], G[l], rate);
    }
  }

  /** A step against a zero gradient changes nothing. */
  lemma DescendZero(P: seq<seq<real>>, G: seq<seq<real>>, rate: real)
    requires |P| == |G| && forall l :: 0 <= l < |P| ==> |P[l]| == |G[l]|
    requires forall l :: 0 <= l < |G| ==> AllZero(G[l])
    ensures Descend(P, G, rate) == P
  {
    forall l | 0 <= l < |P|
      ensures Descend(P, G, rate)[l] == P[l]
    {
      assert forall p :: 0 <= p < |P[l]| ==> SubScaledSeq(P[l], G[l], rate)[p] == P[l][p];
    }
  }

  /** Delta with a zero gradient is zero. */
  lemma {:induction false} BackSumOfZero(cfg: Config, s: real, da: seq<real>, a: seq<real>, w: seq<real>, np: nat, n: nat, k: nat, J: nat)
    requires |da| == n && |a| == n && |w| == np * n && k < np && J <= n && AllZero(da)
    ensures BackSum(cfg, s, da, a, w, np, n, k, J) == 0.0
  {
    if J > 0 {
      BackSumOfZero(cfg, s, da, a, w, np, n, k, J - 1);
      assert da[J - 1] == 0.0;
    }
  }

  /** When the output equals the target, the gradient with respect to every layer's
      activations is zero. */
  lemma {:induction false} FittedUpGradZero(cfg: Config, arch: seq<nat>, W: seq<seq<real>>, A: seq<seq<real>>, y: seq<real>, l: nat)
    requires WeightsShaped(arch, W) && LayersShaped(arch, A) && |y| == arch[|arch| - 1] && l < |arch|
    requires A[|arch| - 1] == y
    ensures AllZero(UpGrad(cfg, arch, W, A, y, l))
    decreases |arch| - l
  {
    if l < |arch| - 1 {
      FittedUpGradZero(cfg, arch, W, A, y, l + 1);
      var da := UpGrad(cfg, arch, W, A, y, l + 1);
      forall k | 0 <= k < arch[l]
        ensures UpGrad(cfg, arch, W, A, y, l)[k] == 0.0
      {
        BackSumOfZero(cfg, Scale(cfg), da, A[l + 1], W[l], arch[l], arch[l + 1], k, arch[l + 1]);
      }
    }
  }

  /** Zero gradients with respect to a layer's outputs give it zero weight and bias steps. */
  lemma StepsOfZero(cfg: Config, s: real, da: seq<real>, a: seq<real>, aPrev: seq<real>, np: nat, n: nat)
    requires |da| == n && |a| == n && |aPrev| == np && AllZero(da)
    ensures AllZero(WeightStep(cfg, s, da, a, aPrev, np, n)) && AllZero(BiasStep(cfg, s, da, a))
  {
    forall p | 0 <= p < np * n
      ensures WeightStep(cfg, s, da, a, aPrev, np, n)[p] == 0.0
    {
      PositionCell(p, np, n);
      assert da[p % n] == 0.0;
    }
  }

  /** A sample the network already reproduces contributes nothing to any gradient. */
  lemma FittedSampleNoGradient(cfg: Config, arch: seq<nat>, W: seq<seq<real>>, B: seq<seq<real>>,
                               x: seq<real>, y: seq<real>, m: nat)
    requires Shaped(arch, W, B) && |x| == arch[0] && |y| == arch[|arch| - 1] && m + 1 < |arch|
    requires Propagate(cfg, arch, W, B, x, |arch| - 1) == y
    ensures AllZero(SampleWeightGrad(cfg, arch, W, B, x, y, m)) && AllZero(SampleBiasGrad(cfg, arch, W, B, x, y, m))
  {
    var A := ForwardAll(cfg, arch, W, B, x);
    FittedUpGradZero(cfg, arch, W, A, y, m + 1);
    var da := UpGrad(cfg, arch, W, A, y, m + 1);
    StepsOfZero(cfg, Scale(cfg), da, A[m + 1], A[m], arch[m], arch[m + 1]);
  }

  /** On a table the network reproduces exactly, the gradient sums of every layer are zero. */
  lemma FittedGradSumsZero(cfg: Config, arch: seq<nat>, W: seq<seq<real>>, B: seq<seq<real>>,
                           T: seq<real>, R: nat, C: nat, m: nat)
    requires Shaped(arch, W, B) && Fits(arch, T, R, C) && m + 1 < |arch|
    requires forall r :: 0 <= r < R ==> RowFitted(cfg, arch, W, B, T, R, C, r)
    ensures AllZero(WeightGradSum(cfg, arch, W, B, T, R, C, m, R))
    ensures AllZero(BiasGradSum(cfg, arch, W, B, T, R, C, m, R))
  {
    var GW := SampleWeightGrads(cfg, arch, W, B, T, R, C, m);
    var GB := SampleBiasGrads(cfg, arch, W, B, T, R, C, m);
    forall r | 0 <= r < R
      ensures AllZero(GW[r]) && AllZero(GB[r])
    {
      assert RowFitted(cfg, arch, W, B, T, R, C, r);
      FittedSampleNoGradient(cfg, arch, W, B, RowInput(arch, T, R, C, r), RowTarget(arch, T, R, C, r), m);
    }
    SumOfAllZero(GW, arch[m] * arch[m + 1], R);
    SumOfAllZero(GB, arch[m + 1], R);
  }

  /** The mean of zero sums is zero. */
  lemma MeanOfZero(u: seq<real>, n: nat)
    requires n > 0 && AllZero(u)
    ensures AllZero(DivSeq(u, n))
  {
  }

  /** On a table the network reproduces exactly, backpropagation yields zero gradients, and a
      learning step therefore leaves every weight and bias as it was. */
  lemma FittedTableStationary(cfg: Config, arch: seq<nat>, W: seq<seq<real>>, B: seq<seq<real>>,
                              T: seq<real>, R: nat, C: nat, rate: real)
    requires Shaped(arch, W, B) && Fits(arch, T, R, C) && R > 0
    requires forall r :: 0 <= r < R ==> RowFitted(cfg, arch, W, B, T, R, C, r)
    ensures Descend(W, WeightGradients(cfg, arch, W, B, T, R, C), rate) == W
    ensures Descend(B, BiasGradients(cfg, arch, W, B, T, R, C), rate) == B
  {
    var GW := WeightGradients(cfg, arch, W, B, T, R, C);
    var GB := BiasGradients(cfg, arch, W, B, T, R, C);
    forall m | 0 <= m < |arch| - 1
      ensures AllZero(GW[m]) && AllZero(GB[m])
    {
      var sw := WeightGradSum(cfg, arch, W, B, T, R, C, m, R);
      var sb := BiasGradSum(cfg, arch, W, B, T, R, C, m, R);
      FittedGradSumsZero(cfg, arch, W, B, T, R, C, m);
      MeanOfZero(sw, R);
      MeanOfZero(sb, R);
      assert GW[m] == DivSeq(sw, R);
      assert GB[m] == DivSeq(sb, R);
    }
    DescendZero(W, GW, rate);
    DescendZero(B, GB, rate);
  }

  /** The forward pass does not depend on the backpropagation convention. */
  lemma {:induction false} PropagateIgnoresConvention(cfg: Config, arch: seq<nat>, W: seq<seq<real>>, B: seq<seq<real>>, x: seq<real>, l: nat)
    requires Shaped(arch, W, B) && |x| == arch[0] && l < |arch|
    ensures Propagate(cfg.(traditional := true), arch, W, B, x, l) == Propagate(cfg.(traditional := false), arch, W, B, x, l)
  {
    if l > 0 {
      PropagateIgnoresConvention(cfg, arch, W, B, x, l - 1);
    }
  }

  lemma ForwardIgnoresConvention(cfg: Config, arch: seq<nat>, W: seq<seq<real>>, B: seq<seq<real>>, x: seq<real>)
    requires Shaped(arch, W, B) && |x| == arch[0]
    ensures ForwardAll(cfg.(traditional := true), arch, W, B, x) == ForwardAll(cfg.(traditional := false), arch, W, B, x)
  {
    forall l | 0 <= l < |arch|
      ensures ForwardAll(cfg.(traditional := true), arch, W, B, x)[l] == ForwardAll(cfg.(traditional := false), arch, W, B, x)[l]
    {
      PropagateIgnoresConvention(cfg, arch, W, B, x, l);
    }
  }

  /** Both conventions give the output layer the same error signals. */
  lemma OutputDeltasAgree(cfg: Config, out: seq<real>, y: seq<real>, j: nat)
    requires |out| == |y| && j < |y|
    ensures Delta(cfg.(traditional := true), 1.0, OutputGrad(cfg.(traditional := true), out, y)[j], out[j]) ==
            Delta(cfg.(traditional := false), 2.0, OutputGrad(cfg.(traditional := false), out, y)[j], out[j])
  {
    var e := out[j] - y[j];
    var q := Dactf(out[j], cfg.act, cfg.leak, cfg.tf);
    assert 1.0 * (2.0 * e) * q == 2.0 * e * q;
  }

  /** Equal error signals give equal weight and bias steps. */
  lemma StepsAgree(cfg1: Config, s1: real, da1: seq<real>, cfg2: Config, s2: real, da2: seq<real>,
                   a: seq<real>, aPrev: seq<real>, np: nat, n: nat)
    requires |da1| == n && |da2| == n && |a| == n && |aPrev| == np
    requires forall j :: 0 <= j < n ==> Delta(cfg1, s1, da1[j], a[j]) == Delta(cfg2, s2, da2[j], a[j])
    ensures WeightStep(cfg1, s1, da1, a, aPrev, np, n) == WeightStep(cfg2, s2, da2, a, aPrev, np, n)
    ensures BiasStep(cfg1, s1, da1, a) == BiasStep(cfg2, s2, da2, a)
  {
    forall p | 0 <= p < np * n
      ensures WeightStep(cfg1, s1, da1, a, aPrev, np, n)[p] == WeightStep(cfg2, s2, da2, a, aPrev, np, n)[p]
    {
      PositionCell(p, np, n);
    }
  }

  /** For a network of one layer the two conventions give the same per-sample gradients. */
  lemma SampleConventionsAgree(cfg: Config, arch: seq<nat>, W: seq<seq<real>>, B: seq<seq<real>>, x: seq<real>, y: seq<real>)
    requires |arch| == 2 && Shaped(arch, W, B) && |x| == arch[0] && |y| == arch[1]
    ensures SampleWeightGrad(cfg.(traditional := true), arch, W, B, x, y, 0) == SampleWeightGrad(cfg.(traditional := false), arch, W, B, x, y, 0)
    ensures SampleBiasGrad(cfg.(traditional := true), arch, W, B, x, y, 0) == SampleBiasGrad(cfg.(traditional := false), arch, W, B, x, y, 0)
  {
    var cT, cN := cfg.(traditional := true), cfg.(traditional := false);
    ForwardIgnoresConvention(cfg, arch, W, B, x);
    var A := ForwardAll(cT, arch, W, B, x);
    var gT, gN := OutputGrad(cT, A[1], y), OutputGrad(cN, A[1], y);
    assert UpGrad(cT, arch, W, A, y, 1) == gT;
    assert UpGrad(cN, arch, W, A, y, 1) == gN;
    forall j | 0 <= j < arch[1]
      ensures Delta(cT, 1.0, gT[j], A[1][j]) == Delta(cN, 2.0, gN[j], A[1][j])
    {
      OutputDeltasAgree(cfg, A[1], y, j);
    }
    StepsAgree(cT, 1.0, gT, cN, 2.0, gN, A[1], A[0], arch[0], arch[1]);
  }

  lemma GradSumConventionsAgree(cfg: Config, arch: seq<nat>, W: seq<seq<real>>, B: seq<seq<real>>,
                                T: seq<real>, R: nat, C: nat)
    requires |arch| == 2 && Shaped(arch, W, B) && Fits(arch, T, R, C)
    ensures SampleWeightGrads(cfg.(traditional := true), arch, W, B, T, R, C, 0) == SampleWeightGrads(cfg.(traditional := false), arch, W, B, T, R, C, 0)
    ensures SampleBiasGrads(cfg.(traditional := true), arch, W, B, T, R, C, 0) == SampleBiasGrads(cfg.(traditional := false), arch, W, B, T, R, C, 0)
  {
    forall r | 0 <= r < R
      ensures SampleWeightGrads(cfg.(traditional := true), arch, W, B, T, R, C, 0)[r] == SampleWeightGrads(cfg.(traditional := false), arch, W, B, T, R, C, 0)[r]
      ensures SampleBiasGrads(cfg.(traditional := true), arch, W, B, T, R, C, 0)[r] == SampleBiasGrads(cfg.(traditional := false), arch, W, B, T, R, C, 0)[r]
    {
      SampleConventionsAgree(cfg, arch, W, B, RowInput(arch, T, R, C, r), RowTarget(arch, T, R, C, r));
    }
  }

  /** For a network of one layer (|arch| == 2), backpropagation gives the same gradients
      under both conventions. */
  lemma ConventionsAgreeSingleLayer(cfg: Config, arch: seq<nat>, W: seq<seq<real>>, B: seq<seq<real>>,
                                    T: seq<real>, R: nat, C: nat)
    requires |arch| == 2 && Shaped(arch, W, B) && Fits(arch, T, R, C) && R > 0
    ensures WeightGradients(cfg.(traditional := true), arch, W, B, T, R, C) == WeightGradients(cfg.(traditional := false), arch, W, B, T, R, C)
    ensures BiasGradients(cfg.(traditional := true), arch, W, B, T, R, C) == BiasGradients(cfg.(traditional := false), arch, W, B, T, R, C)
  {
    GradSumConventionsAgree(cfg, arch, W, B, T, R, C);
  }

  /** Equal error signals pass equal sums back. */
  lemma {:induction false} BackSumsAgree(cfg1: Config, s1: real, da1: seq<real>, cfg2: Config, s2: real, da2: seq<real>,
                                          a: seq<real>, w: seq<real>, np: nat, n: nat, k: nat, J: nat)
    requires |da1| == n && |da2| == n && |a| == n && |w| == np * n && k < np && J <= n
    requires forall j :: 0 <= j < n ==> Delta(cfg1, s1, da1[j], a[j]) == Delta(cfg2, s2, da2[j], a[j])
    ensures BackSum(cfg1, s1, da1, a, w, np, n, k, J) == BackSum(cfg2, s2, da2, a, w, np, n, k, J)
  {
    if J > 0 {
      BackSumsAgree(cfg1, s1, da1, cfg2, s2, da2, a, w, np, n, k, J - 1);
    }
  }

  /** The default scale 2 doubles a layer's weight step relative to the traditional scale 1. */
  lemma WeightStepDoubles(cfg: Config, da: seq<real>, a: seq<real>, aPrev: seq<real>, np: nat, n: nat, p: nat)
    requires |da| == n && |a| == n && |aPrev| == np && p < np * n
    ensures WeightStep(cfg.(traditional := false), 2.0, da, a, aPrev, np, n)[p] ==
            2.0 * WeightStep(cfg.(traditional := true), 1.0, da, a, aPrev, np, n)[p]
  {
    PositionCell(p, np, n);
    var h, q, ap := da[p % n], Dactf(a[p % n], cfg.act, cfg.leak, cfg.tf), aPrev[p / n];
    assert 2.0 * h * q * ap == 2.0 * (1.0 * h * q * ap);
  }

  /** With a hidden layer the conventions part: the default convention's weight gradient of
      the layer below the output is twice the traditional one, because its scale 2 is applied
      again at that layer. */
  lemma ConventionsDifferBelowOutput(cfg: Config, arch: seq<nat>, W: seq<seq<real>>, B: seq<seq<real>>,
                                     x: seq<real>, y: seq<real>, p: nat)
    requires |arch| >= 3 && Shaped(arch, W, B) && |x| == arch[0] && |y| == arch[|arch| - 1]
    requires p < arch[|arch| - 3] * arch[|arch| - 2]
    ensures SampleWeightGrad(cfg.(traditional := false), arch, W, B, x, y, |arch| - 3)[p] ==
            2.0 * SampleWeightGrad(cfg.(traditional := true), arch, W, B, x, y, |arch| - 3)[p]
  {
    var cT, cN := cfg.(traditional := true), cfg.(traditional := false);
    var L := |arch| - 1;
    ForwardIgnoresConvention(cfg, arch, W, B, x);
    var A := ForwardAll(cT, arch, W, B, x);
    var gT, gN := OutputGrad(cT, A[L], y), OutputGrad(cN, A[L], y);
    assert UpGrad(cT, arch, W, A, y, L) == gT;
    assert UpGrad(cN, arch, W, A, y, L) == gN;
    forall j | 0 <= j < arch[L]
      ensures Delta(cT, 1.0, gT[j], A[L][j]) == Delta(cN, 2.0, gN[j], A[L][j])
    {
      OutputDeltasAgree(cfg, A[L], y, j);
    }
    var hT, hN := UpGrad(cT, arch, W, A, y, L - 1), UpGrad(cN, arch, W, A, y, L - 1);
    forall k | 0 <= k < arch[L - 1]
      ensures hT[k] == hN[k]
    {
      BackSumsAgree(cT, 1.0, gT, cN, 2.0, gN, A[L], W[L - 1], arch[L - 1], arch[L], k, arch[L]);
    }
    assert hT == hN;
    var m := L - 2;
    WeightStepDoubles(cfg, hT, A[m + 1], A[m], arch[m], arch[m + 1], p);
  }
}
