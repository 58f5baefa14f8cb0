/** The network object. Its weights and biases live in matrices that learning updates in
    place; its activations are the matrices a forward pass replaces layer by layer. Each
    operation is proved against the value-level definitions of module Propagation. */
module Networks {
  import opened FlatIndex
  import opened Activations
  import opened Matrices
  import opened Propagation
  import opened Backward

  /** No two matrices of ms share a buffer. */
  ghost predicate Distinct(ms: seq<Matrix>)
  {
    forall i, j :: 0 <= i < |ms| && 0 <= j < |ms| && i != j ==> ms[i].data != ms[j].data
  }

  /** No matrix of ms shares a buffer with one of ns. */
  ghost predicate Apart(ms: seq<Matrix>, ns: seq<Matrix>)
  {
    forall i, j :: 0 <= i < |ms| && 0 <= j < |ns| ==> ms[i].data != ns[j].data
  }

  /** The buffers of ms. */
  ghost function Buffers(ms: seq<Matrix>): (s: set<array<real>>)
    ensures forall i :: 0 <= i < |ms| ==> ms[i].data in s
  {
    set i | 0 <= i < |ms| :: ms[i].data
  }

  /** The contents of the matrices of ms. */
  ghost function Values(ms: seq<Matrix>): (v: seq<seq<real>>)
    reads Buffers(ms)
    ensures |v| == |ms| && forall l :: 0 <= l < |ms| ==> v[l] == ms[l].data[..]
  {
    seq(|ms|, l requires 0 <= l < |ms| reads Buffers(ms) => ms[l].data[..])
  }

  /** ws holds, for each layer after the input, its arch[l] x arch[l+1] weight matrix, whose
      buffer is in R. */
  ghost predicate WeightMatrices(arch: seq<nat>, ws: seq<Matrix>, R: set<array<real>>)
  {
    |ws| == |arch| - 1 &&
    forall l :: 0 <= l < |ws| ==>
      ws[l].Valid() && ws[l].rows == arch[l] && ws[l].cols == arch[l + 1] && ws[l].data in R
  }

  /** bs holds, for each layer after the input, its 1 x arch[l+1] bias row. */
  ghost predicate BiasMatrices(arch: seq<nat>, bs: seq<Matrix>, R: set<array<real>>)
  {
    |bs| == |arch| - 1 &&
    forall l :: 0 <= l < |bs| ==>
      bs[l].Valid() && bs[l].rows == 1 && bs[l].cols == arch[l + 1] && bs[l].data in R
  }

  /** acts holds, for each layer, its 1 x arch[l] row of activations. */
  ghost predicate LayerMatrices(arch: seq<nat>, acts: seq<Matrix>, R: set<array<real>>)
  {
    |acts| == |arch| &&
    forall l :: 0 <= l < |acts| ==>
      acts[l].Valid() && acts[l].rows == 1 && acts[l].cols == arch[l] && acts[l].data in R
  }

  /** Two layer families that agree everywhere but at layer l differ by an update at l. */
  lemma UpdatedAt(V: seq<seq<real>>, V0: seq<seq<real>>, l: nat, x: seq<real>)
    requires |V| == |V0| && l < |V| && V[l] == x
    requires forall m :: 0 <= m < |V| && m != l ==> V[m] == V0[m]
    ensures V == V0[l := x]
  {
  }

  /** The contents of zero matrices of the given shapes. */
  lemma ZeroValues(ms: seq<Matrix>, shapes: seq<(nat, nat)>)
    requires |ms| == |shapes|
    requires forall l :: 0 <= l < |ms| ==> ms[l].data[..] == Zeros(shapes[l].0 * shapes[l].1)
    ensures Values(ms) == seq(|ms|, l requires 0 <= l < |ms| => Zeros(shapes[l].0 * shapes[l].1))
  {
  }

  /** Fresh zero matrices of the given shapes, each with a buffer of its own. */
  method ZeroMatrices(shapes: seq<(nat, nat)>) returns (ms: seq<Matrix>)
    ensures |ms| == |shapes| && Distinct(ms) && fresh(Buffers(ms))
    ensures forall l :: 0 <= l < |ms| ==>
      ms[l].Valid() && ms[l].rows == shapes[l].0 && ms[l].cols == shapes[l].1 &&
      ms[l].data[..] == Zeros(shapes[l].0 * shapes[l].1)
  {
    ms := [];
    var i := 0;
    while i < |shapes|
      invariant 0 <= i <= |shapes| && |ms| == i && Distinct(ms) && fresh(Buffers(ms))
      invariant forall l :: 0 <= l < i ==>
        ms[l].Valid() && ms[l].rows == shapes[l].0 && ms[l].cols == shapes[l].1 &&
        ms[l].data[..] == Zeros(shapes[l].0 * shapes[l].1)
    {
      var m := new Matrix(shapes[i].0, shapes[i].1, 0.0);
      ms := ms + [m];
      i := i + 1;
    }
  }

  /** Zero weight matrices for arch, each with a buffer of its own. */
  method NewZeroWeights(arch: seq<nat>) returns (w: seq<Matrix>)
    requires |arch| > 0
    ensures WeightMatrices(arch, w, Buffers(w)) && Distinct(w) && fresh(Buffers(w))
    ensures Values(w) == ZeroWeights(arch)
  {
    var L := |arch| - 1;
    var sw := seq(L, l requires 0 <= l < L => (arch[l], arch[l + 1]));
    w := ZeroMatrices(sw);
    ZeroValues(w, sw);
  }

  /** Zero bias rows for arch, each with a buffer of its own. */
  method NewZeroBiases(arch: seq<nat>) returns (b: seq<Matrix>)
    requires |arch| > 0
    ensures BiasMatrices(arch, b, Buffers(b)) && Distinct(b) && fresh(Buffers(b))
    ensures Values(b) == ZeroBiases(arch)
  {
    var L := |arch| - 1;
    var sb := seq(L, l requires 0 <= l < L => (1, arch[l + 1]));
    b := ZeroMatrices(sb);
    ZeroValues(b, sb);
  }

  /** Zero activation rows for arch, each with a buffer of its own. */
  method NewZeroLayers(arch: seq<nat>) returns (a: seq<Matrix>)
    ensures LayerMatrices(arch, a, Buffers(a)) && Distinct(a) && fresh(Buffers(a))
    ensures Values(a) == ZeroLayers(arch)
  {
    var sa := seq(|arch|, l requires 0 <= l < |arch| => (1, arch[l]));
    a := ZeroMatrices(sa);
    ZeroValues(a, sa);
  }

  /** A matrix family stays well shaped when its buffers are kept in a larger set. */
  lemma WeightMatricesWiden(arch: seq<nat>, ms: seq<Matrix>, R: set<array<real>>, S: set<array<real>>)
    requires WeightMatrices(arch, ms, R) && R <= S
    ensures WeightMatrices(arch, ms, S)
  {
  }

  lemma BiasMatricesWiden(arch: seq<nat>, ms: seq<Matrix>, R: set<array<real>>, S: set<array<real>>)
    requires BiasMatrices(arch, ms, R) && R <= S
    ensures BiasMatrices(arch, ms, S)
  {
  }

  /** The zero matrices of a fresh network, each with a buffer of its own. */
  method BuildLayers(arch: seq<nat>) returns (w: seq<Matrix>, b: seq<Matrix>, a: seq<Matrix>,
                                              ghost P: set<array<real>>, ghost Q: set<array<real>>)
    requires |arch| > 0
    ensures WeightMatrices(arch, w, P) && BiasMatrices(arch, b, P) && LayerMatrices(arch, a, Q) && P !! Q
    ensures Distinct(w) && Distinct(b) && Apart(w, b) && Distinct(a)
    ensures Values(w) == ZeroWeights(arch) && Values(b) == ZeroBiases(arch) && Values(a) == ZeroLayers(arch)
    ensures fresh(P) && fresh(Q)
  {
    w := NewZeroWeights(arch);
    b := NewZeroBiases(arch);
    a := NewZeroLayers(arch);
    assert Apart(w, b);
    P, Q := Buffers(w) + Buffers(b), Buffers(a);
    WeightMatricesWiden(arch, w, Buffers(w), P);
    BiasMatricesWiden(arch, b, Buffers(b), P);
  }

  /** c plus the squared differences between out(0, j) and y(0, j), for j < y.cols. */
  method AddSquaredError(out: Matrix, y: Matrix, c: real) returns (c': real)
    requires out.Valid() && y.Valid() && out.rows == 1 && y.rows == 1 && y.cols == out.cols
    ensures c' == c + SquaredError(out.data[..], y.data[..], y.cols)
  {
    c' := c;
    var j := 0;
    while j < y.cols
      invariant 0 <= j <= y.cols
      invariant c' == c + SquaredError(out.data[..], y.data[..], j)
    {
      var d := out.data[j] - y.data[j];
      c' := c' + d * d;
      j := j + 1;
    }
  }

  /** One layer of the forward pass on matrices: a fresh row holding the activation of
      a times w plus b. */
  method ComputeLayer(a: Matrix, w: Matrix, b: Matrix, cfg: Config) returns (d: Matrix)
    requires a.Valid() && w.Valid() && b.Valid() && a.rows == 1 && a.cols == w.rows
    requires b.rows == 1 && b.cols == w.cols
    ensures d.Valid() && fresh(d.data) && d.rows == 1 && d.cols == w.cols
    ensures d.data[..] == Layer(cfg, a.data[..], w.data[..], b.data[..], w.rows, w.cols)
  {
    d := Matrix.Dot(a, w);
    d.AddInPlace(b);
    d.ApplyActivation(cfg.act, cfg.tf);
  }

  /** P with D added to its layers from l on: the parameter gradients while backpropagation
      runs from the output layer down. */
  function AddFrom(P: seq<seq<real>>, D: seq<seq<real>>, l: nat): (Q: seq<seq<real>>)
    ensures |Q| == |P|
  {
    seq(|P|, m requires 0 <= m < |P| => if l <= m && m < |D| && |P[m]| == |D[m]| then AddSeq(P[m], D[m]) else P[m])
  }

  lemma AddFromEnds(P: seq<seq<real>>, D: seq<seq<real>>)
    requires |P| == |D| && forall m :: 0 <= m < |P| ==> |P[m]| == |D[m]|
    ensures AddFrom(P, D, |P|) == P && AddFrom(P, D, 0) == AddEach(P, D)
  {
  }

  lemma AddFromStep(P: seq<seq<real>>, D: seq<seq<real>>, l: nat, below: nat)
    requires 0 < l <= |P| && below == l - 1 && l <= |D| && |P[below]| == |D[below]|
    ensures AddFrom(P, D, l)[below := AddSeq(P[below], D[below])] == AddFrom(P, D, below)
  {
  }

  /** U's layers from l on, Z's below: the activation gradients while backpropagation runs
      from the output layer down. */
  function KeepFrom(U: seq<seq<real>>, Z: seq<seq<real>>, l: nat): (Q: seq<seq<real>>)
    requires |U| == |Z|
    ensures |Q| == |U|
  {
    seq(|U|, m requires 0 <= m < |U| => if l <= m then U[m] else Z[m])
  }

  lemma KeepFromEnds(U: seq<seq<real>>, Z: seq<seq<real>>)
    requires |U| == |Z|
    ensures KeepFrom(U, Z, 0) == U
  {
  }

  lemma KeepFromStep(U: seq<seq<real>>, Z: seq<seq<real>>, l: nat, below: nat)
    requires |U| == |Z| && 0 < l <= |U| && below == l - 1
    ensures KeepFrom(U, Z, l)[below := U[below]] == KeepFrom(U, Z, below)
  {
  }

  /** The gradients of layer l of one sample: its weight and bias gradients come from its
      activation gradient, and so does, added to zeros, the activation gradient of layer l-1. */
  lemma GradsAtLayer(cfg: Config, arch: seq<nat>, W: seq<seq<real>>, A: seq<seq<real>>, y: seq<real>, l: nat, below: nat)
    requires WeightsShaped(arch, W) && LayersShaped(arch, A) && |y| == arch[|arch| - 1] && 0 < l < |arch| && below == l - 1
    ensures var U := UpGradsOf(cfg, arch, W, A, y);
      LayerWeightGrads(cfg, arch, W, A, y)[below] == WeightStep(cfg, Scale(cfg), U[l], A[l], A[below], arch[below], arch[l]) &&
      LayerBiasGrads(cfg, arch, W, A, y)[below] == BiasStep(cfg, Scale(cfg), U[l], A[l]) &&
      U[below] == AddSeq(Zeros(arch[below]), BackActs(cfg, Scale(cfg), U[l], A[l], W[below], arch[below], arch[l]))
  {
    AddToZeros(BackActs(cfg, Scale(cfg), UpGrad(cfg, arch, W, A, y, l), A[l], W[below], arch[below], arch[l]));
  }

  class Network {
    /** The number of units of each layer; layer 0 is the input. */
    const arch: seq<nat>
    const cfg: Config
    /** ws[l] is the arch[l] x arch[l+1] matrix of layer l+1's weights. */
    const ws: seq<Matrix>
    /** bs[l] is the 1 x arch[l+1] row of layer l+1's biases. */
    const bs: seq<Matrix>
    /** acts[l] is the 1 x arch[l] row of layer l's activations. */
    var acts: seq<Matrix>
    /** The buffers of the weights and biases. */
    ghost const Params: set<array<real>>
    /** The buffers of the activations, and possibly buffers the network no longer uses. */
    ghost var ActRepr: set<array<real>>

    /** The parameter matrices have the shapes arch calls for. */
    ghost predicate ParamsValid()
    {
      |arch| >= 1 && WeightMatrices(arch, ws, Params) && BiasMatrices(arch, bs, Params)
    }

    /** No two parameter matrices share a buffer. This depends on constant fields only, so
        once established it holds for the life of the network. */
    ghost predicate ParamsApart()
    {
      Distinct(ws) && Distinct(bs) && Apart(ws, bs)
    }

    ghost predicate Valid()
      reads this
    {
      ParamsValid() && LayerMatrices(arch, acts, ActRepr) && ActRepr !! Params
    }

    /** The activation rows have buffers of their own. Backpropagation relies on it for the
        network of gradients, whose activation rows are never replaced. */
    ghost predicate DistinctActs()
      reads this
    {
      Distinct(acts)
    }

    /** The weights as values. */
    ghost function Weights(): (W: seq<seq<real>>)
      requires ParamsValid()
      reads Params
      ensures WeightsShaped(arch, W)
    {
      Values(ws)
    }

    /** The biases as values. */
    ghost function Biases(): (B: seq<seq<real>>)
      requires ParamsValid()
      reads Params
      ensures BiasesShaped(arch, B)
    {
      Values(bs)
    }

    /** The activations as values. */
    ghost function Acts(): (A: seq<seq<real>>)
      requires Valid()
      reads this, ActRepr
      ensures LayersShaped(arch, A)
    {
      Values(acts)
    }

    /** g shares no buffer with this network. */
    ghost predicate Separate(g: Network)
      reads this, g
    {
      Params !! g.Params && Params !! g.ActRepr && ActRepr !! g.Params && ActRepr !! g.ActRepr
    }

    /** A network of the given shape with every weight, bias and activation zero. */
    constructor (architecture: seq<nat>, config: Config)
      requires |architecture| > 0
      ensures Valid() && ParamsApart() && DistinctActs() && arch == architecture && cfg == config
      ensures Weights() == ZeroWeights(arch) && Biases() == ZeroBiases(arch) && Acts() == ZeroLayers(arch)
      ensures fresh(Params) && fresh(ActRepr)
    {
      var w, b, a, P, Q := BuildLayers(architecture);
      arch, cfg, ws, bs, acts := architecture, config, w, b, a;
      Params, ActRepr := P, Q;
    }

    /** Sets every activation to zero. */
    method ZeroActs()
      requires Valid()
      modifies ActRepr
      ensures Acts() == ZeroLayers(arch)
    {
      var i := 0;
      while i < |acts|
        invariant 0 <= i <= |acts|
        invariant forall l :: 0 <= l < i ==> acts[l].data[..] == Zeros(arch[l])
      {
        acts[i].Fill(0.0);
        i := i + 1;
      }
    }

    /** Sets every weight to zero; nothing else changes. */
    method ZeroWeightMatrices()
      requires ParamsValid() && ParamsApart()
      modifies Params
      ensures Weights() == ZeroWeights(arch)
      ensures forall l :: 0 <= l < |bs| ==> bs[l].data[..] == old(bs[l].data[..])
    {
      var i := 0;
      while i < |ws|
        invariant 0 <= i <= |ws|
        invariant forall l :: 0 <= l < i ==> ws[l].data[..] == Zeros(arch[l] * arch[l + 1])
        invariant forall l :: 0 <= l < |bs| ==> bs[l].data[..] == old(bs[l].data[..])
      {
        ws[i].Fill(0.0);
        i := i + 1;
      }
    }

    /** Sets every bias to zero; nothing else changes. */
    method ZeroBiasMatrices()
      requires ParamsValid() && ParamsApart()
      modifies Params
      ensures Biases() == ZeroBiases(arch)
      ensures forall l :: 0 <= l < |ws| ==> ws[l].data[..] == old(ws[l].data[..])
    {
      var i := 0;
      while i < |bs|
        invariant 0 <= i <= |bs|
        invariant forall l :: 0 <= l < i ==> bs[l].data[..] == Zeros(arch[l + 1])
        invariant forall l :: 0 <= l < |ws| ==> ws[l].data[..] == old(ws[l].data[..])
      {
        bs[i].Fill(0.0);
        i := i + 1;
      }
    }

    /** Sets every activation, weight and bias to zero. */
    method Zero()
      requires Valid() && ParamsApart()
      modifies Params, ActRepr
      ensures Weights() == ZeroWeights(arch) && Biases() == ZeroBiases(arch) && Acts() == ZeroLayers(arch)
    {
      ZeroActs();
      ZeroWeightMatrices();
      ZeroBiasMatrices();
    }

    /** Copy-assigns x to the input layer: the input row gets a buffer of its own holding x's
        values. Others names buffers the caller holds outside the network (a table, a
        gradient network): the methods that replace activation rows keep ActRepr apart from
        them, so the caller knows those buffers were not touched. */
    method SetInput(x: Matrix, ghost Others: set<array<real>>)
      requires Valid() && x.Valid() && x.rows == 1 && x.cols == arch[0] && ActRepr !! Others
      modifies this
      ensures Valid() && Acts() == old(Acts())[0 := x.data[..]] && ActRepr !! Others
      ensures Weights() == old(Weights()) && Biases() == old(Biases())
    {
      var c := x.Clone();
      acts := acts[0 := c];
      ActRepr := ActRepr + {c.data};
    }

    /** Recomputes layer i+1 from layer i: the product of layer i and the weights, plus the
        biases, through the activation, move-assigned to layer i+1. */
    method ForwardLayer(i: nat, ghost Others: set<array<real>>)
      requires Valid() && i < |ws| && ActRepr !! Others
      modifies this
      ensures Valid() && Weights() == old(Weights()) && Biases() == old(Biases()) && ActRepr !! Others
      ensures Acts() == old(Acts())[i + 1 := Layer(cfg, old(Acts())[i], Weights()[i], Biases()[i], arch[i], arch[i + 1])]
    {
      ghost var A := Acts();
      var d := ComputeLayer(acts[i], ws[i], bs[i], cfg);
      acts := acts[i + 1 := d];
      ActRepr := ActRepr + {d.data};
      forall l | 0 <= l < |acts| && l != i + 1
        ensures acts[l].data[..] == A[l]
      {
      }
      UpdatedAt(Acts(), A, i + 1, d.data[..]);
    }

    /** One iteration of the forward pass that started from activations A0: layer i+1 is
        recomputed, so one more layer holds its final value. */
    method ForwardStep(i: nat, ghost A0: seq<seq<real>>, ghost W: seq<seq<real>>, ghost B: seq<seq<real>>,
                       ghost Others: set<array<real>>)
      requires Valid() && i < |ws| && Weights() == W && Biases() == B && LayersShaped(arch, A0) && ActRepr !! Others
      requires Acts() == ForwardUpTo(cfg, arch, W, B, A0, i)
      modifies this
      ensures Valid() && Weights() == W && Biases() == B
      ensures Acts() == ForwardUpTo(cfg, arch, W, B, A0, i + 1) && ActRepr !! Others
    {
      ForwardUpToStep(cfg, arch, W, B, A0, i);
      ForwardLayer(i, Others);
    }

    /** One forward pass: every layer after the input is recomputed from the one before it,
        by product with the weights, addition of the biases and the activation. */
    method Forward(ghost Others: set<array<real>>)
      requires Valid() && ActRepr !! Others
      modifies this
      ensures Valid() && Weights() == old(Weights()) && Biases() == old(Biases())
      ensures Acts() == ForwardAll(cfg, arch, Weights(), Biases(), old(Acts())[0]) && ActRepr !! Others
    {
      ghost var A0 := Acts();
      ghost var W, B := Weights(), Biases();
      ForwardUpToEnds(cfg, arch, W, B, A0);
      var i := 0;
      while i < |ws|
        invariant 0 <= i <= |ws|
        invariant Valid() && Weights() == W && Biases() == B
        invariant Acts() == ForwardUpTo(cfg, arch, W, B, A0, i)
        invariant ActRepr !! Others
      {
        ForwardStep(i, A0, W, B, Others);
        i := i + 1;
      }
    }

    /** Row i of table t goes through the network: its inputs are copied into the input
        layer, a forward pass is made, and the squared differences between the outputs and
        the row's expected outputs are added to c. */
    method AddRowError(t: Matrix, i: nat, c: real, ghost Others: set<array<real>>) returns (c': real)
      requires Valid() && t.Valid() && t.cols == arch[0] + arch[|arch| - 1] && i < t.rows && ActRepr !! Others
      modifies this
      ensures Valid() && Weights() == old(Weights()) && Biases() == old(Biases()) && ActRepr !! Others
      ensures c' == c + RowError(cfg, arch, Weights(), Biases(), t.data[..], t.rows, t.cols, i)
      ensures Acts() == ForwardAll(cfg, arch, Weights(), Biases(), RowInput(arch, t.data[..], t.rows, t.cols, i))
    {
      var trueVals := LoadRow(t, i, Others);
      c' := AddSquaredError(acts[|arch| - 1], trueVals, c);
    }

    /** Row i of table t is split into its inputs, copied into the input layer before a
        forward pass, and its expected outputs, returned in a fresh 1 x arch[L] row. */
    method LoadRow(t: Matrix, i: nat, ghost Others: set<array<real>>) returns (trueVals: Matrix)
      requires Valid() && t.Valid() && t.cols == arch[0] + arch[|arch| - 1] && i < t.rows && ActRepr !! Others
      modifies this
      ensures Valid() && Weights() == old(Weights()) && Biases() == old(Biases()) && ActRepr !! Others
      ensures Acts() == ForwardAll(cfg, arch, Weights(), Biases(), RowInput(arch, t.data[..], t.rows, t.cols, i))
      ensures trueVals.Valid() && fresh(trueVals.data) && trueVals.rows == 1 && trueVals.cols == arch[|arch| - 1]
      ensures trueVals.data[..] == RowTarget(arch, t.data[..], t.rows, t.cols, i)
    {
      var L := |arch| - 1;
      var inputs := t.SliceRow(i, 0, acts[0].cols);
      trueVals := t.SliceRow(i, acts[0].cols, acts[L].cols);
      SetInput(inputs, Others);
      Forward(Others);
    }

    /** The cost on table t, one sample per row: the inputs, then the expected outputs. The
        squared errors of all rows are added up and the total is divided by the number of
        rows. The activations are left as the last row's forward pass made them. */
    method Cost(t: Matrix) returns (c: real)
      requires Valid() && t.Valid() && t.cols == arch[0] + arch[|arch| - 1] && t.rows > 0
      modifies this
      ensures Valid() && Weights() == old(Weights()) && Biases() == old(Biases())
      ensures c == CostOf(cfg, arch, Weights(), Biases(), t.data[..], t.rows, t.cols)
      ensures Acts() == ForwardAll(cfg, arch, Weights(), Biases(), RowInput(arch, t.data[..], t.rows, t.cols, t.rows - 1))
    {
      ghost var W, B, T := Weights(), Biases(), t.data[..];
      c := 0.0;
      var i := 0;
      while i < t.rows
        invariant 0 <= i <= t.rows && Valid() && Weights() == W && Biases() == B && t.data[..] == T
        invariant c == TotalError(cfg, arch, W, B, T, t.rows, t.cols, i)
        invariant i > 0 ==> Acts() == ForwardAll(cfg, arch, W, B, RowInput(arch, T, t.rows, t.cols, i - 1))
      {
        c := CostStep(t, i, c, W, B, T);
        i := i + 1;
      }
      c := c / (t.rows as real);
    }

    /** One iteration of the cost loop: row i's error joins the errors of the rows before it. */
    method CostStep(t: Matrix, i: nat, c: real, ghost W: seq<seq<real>>, ghost B: seq<seq<real>>,
                    ghost T: seq<real>) returns (c': real)
      requires Valid() && t.Valid() && t.cols == arch[0] + arch[|arch| - 1] && i < t.rows
      requires Weights() == W && Biases() == B && t.data[..] == T
      requires c == TotalError(cfg, arch, W, B, T, t.rows, t.cols, i)
      modifies this
      ensures Valid() && Weights() == W && Biases() == B && t.data[..] == T
      ensures c' == TotalError(cfg, arch, W, B, T, t.rows, t.cols, i + 1)
      ensures Acts() == ForwardAll(cfg, arch, W, B, RowInput(arch, T, t.rows, t.cols, i))
    {
      c' := AddRowError(t, i, c, {});
    }

    /** The gradient of the squared error with respect to the outputs, written into g's output
        row: out(0, j) - y(0, j), doubled in the traditional convention. */
    method SetOutputGradient(g: Network, y: Matrix)
      requires Valid() && g.Valid() && g.DistinctActs() && g.arch == arch && Separate(g)
      requires y.Valid() && y.rows == 1 && y.cols == arch[|arch| - 1] && y.data != g.acts[|arch| - 1].data
      modifies g.acts[|arch| - 1].data
      ensures g.acts[|arch| - 1].data[..] == OutputGrad(cfg, acts[|arch| - 1].data[..], y.data[..])
      ensures forall m :: 0 <= m < |g.acts| - 1 ==> unchanged(g.acts[m].data)
    {
      var L := |arch| - 1;
      var out, ga := acts[L], g.acts[L];
      ghost var G := OutputGrad(cfg, out.data[..], y.data[..]);
      var j := 0;
      while j < y.cols
        invariant 0 <= j <= y.cols
        invariant forall q :: 0 <= q < j ==> ga.data[q] == G[q]
      {
        if cfg.traditional {
          ga.data[j] := 2.0 * (out.data[j] - y.data[j]);
        } else {
          ga.data[j] := out.data[j] - y.data[j];
        }
        j := j + 1;
      }
    }

    /** Layer l of backpropagation on g's matrices, from this network's activations and
        weights: BackwardLayer with the rows and matrices of layer l. */
    method BackwardLayerOf(g: Network, l: nat, below: nat, s: real)
      requires Valid() && g.Valid() && g.ParamsApart() && g.DistinctActs() && g.arch == arch && Separate(g)
      requires 0 < l < |arch| && below == l - 1
      modifies g.ws[below].data, g.bs[below].data, g.acts[below].data
      ensures g.ws[below].data[..] == AddSeq(old(g.ws[below].data[..]),
        WeightStep(cfg, s, g.acts[l].data[..], acts[l].data[..], acts[below].data[..], arch[below], arch[l]))
      ensures g.bs[below].data[..] == AddSeq(old(g.bs[below].data[..]), BiasStep(cfg, s, g.acts[l].data[..], acts[l].data[..]))
      ensures g.acts[below].data[..] == AddSeq(old(g.acts[below].data[..]),
        BackActs(cfg, s, g.acts[l].data[..], acts[l].data[..], ws[below].data[..], arch[below], arch[l]))
      ensures Weights() == old(Weights()) && Biases() == old(Biases()) && Acts() == old(Acts())
      ensures forall m :: 0 <= m < |g.ws| && m != below ==> g.ws[m].data[..] == old(g.ws[m].data[..])
      ensures forall m :: 0 <= m < |g.bs| && m != below ==> g.bs[m].data[..] == old(g.bs[m].data[..])
      ensures forall m :: 0 <= m < |g.acts| && m != below ==> g.acts[m].data[..] == old(g.acts[m].data[..])
    {
      BackwardLayer(cfg, s, acts[l], acts[below], ws[below], g.acts[l], g.acts[below], g.ws[below], g.bs[below]);
    }

    /** BackwardLayerOf in terms of the values of both networks: this one is unchanged and g
        changes in layer l of its weights and biases and in layer l-1 of its activations. */
    method BackwardValues(g: Network, l: nat, below: nat, s: real)
      requires Valid() && g.Valid() && g.ParamsApart() && g.DistinctActs() && g.arch == arch && Separate(g)
      requires 0 < l < |arch| && below == l - 1
      modifies g.ws[below].data, g.bs[below].data, g.acts[below].data
      ensures Weights() == old(Weights()) && Biases() == old(Biases()) && Acts() == old(Acts())
      ensures g.Weights() == old(g.Weights())[below := AddSeq(old(g.Weights())[below],
        WeightStep(cfg, s, old(g.Acts())[l], Acts()[l], Acts()[below], arch[below], arch[l]))]
      ensures g.Biases() == old(g.Biases())[below := AddSeq(old(g.Biases())[below], BiasStep(cfg, s, old(g.Acts())[l], Acts()[l]))]
      ensures g.Acts() == old(g.Acts())[below := AddSeq(old(g.Acts())[below],
        BackActs(cfg, s, old(g.Acts())[l], Acts()[l], Weights()[below], arch[below], arch[l]))]
    {
      ghost var W, A, U := Weights(), Acts(), g.Acts();
      ghost var GW, GB := g.Weights(), g.Biases();
      ghost var d := U[l];
      BackwardLayerOf(g, l, below, s);
      UpdatedAt(g.Weights(), GW, below, AddSeq(GW[below], WeightStep(cfg, s, d, A[l], A[below], arch[below], arch[l])));
      UpdatedAt(g.Biases(), GB, below, AddSeq(GB[below], BiasStep(cfg, s, d, A[l])));
      UpdatedAt(g.Acts(), U, below, AddSeq(U[below], BackActs(cfg, s, d, A[l], W[below], arch[below], arch[l])));
    }

    /** g part way through a backward pass, layers l and above done: its parameters hold
        GW0 and GB0 plus the gradients of those layers, its activation rows the gradients
        U from layer l up and zeros below. */
    ghost predicate PassAt(g: Network, l: nat, GW0: seq<seq<real>>, GB0: seq<seq<real>>,
                           GW: seq<seq<real>>, GB: seq<seq<real>>, U: seq<seq<real>>)
      reads g, g.Params, g.ActRepr
    {
      g.Valid() && |U| == |g.arch| &&
      g.Weights() == AddFrom(GW0, GW, l) && g.Biases() == AddFrom(GB0, GB, l) &&
      g.Acts() == KeepFrom(U, ZeroLayers(g.arch), l)
    }

    /** Layer l of backpropagation for one sample with activations A and target y: layer l's
        gradient, final already, yields layer l's weight and bias gradients and, added to
        zeros, layer l-1's activation gradient. */
    method BackwardStep(g: Network, l: nat, below: nat, s: real, ghost GW0: seq<seq<real>>, ghost GB0: seq<seq<real>>,
                        ghost GW: seq<seq<real>>, ghost GB: seq<seq<real>>, ghost U: seq<seq<real>>)
      requires Valid() && g.Valid() && g.ParamsApart() && g.DistinctActs() && g.arch == arch && Separate(g)
      requires 0 < l < |arch| && below == l - 1 && |U| == |arch| && |U[l]| == arch[l] && |GW| == |arch| - 1 && |GB| == |arch| - 1
      requires GW[below] == WeightStep(cfg, s, U[l], Acts()[l], Acts()[below], arch[below], arch[l])
      requires GB[below] == BiasStep(cfg, s, U[l], Acts()[l])
      requires U[below] == AddSeq(Zeros(arch[below]), BackActs(cfg, s, U[l], Acts()[l], Weights()[below], arch[below], arch[l]))
      requires PassAt(g, l, GW0, GB0, GW, GB, U)
      modifies g.ws[below].data, g.bs[below].data, g.acts[below].data
      ensures Weights() == old(Weights()) && Biases() == old(Biases()) && Acts() == old(Acts())
      ensures PassAt(g, below, GW0, GB0, GW, GB, U)
    {
      AddFromStep(GW0, GW, l, below);
      AddFromStep(GB0, GB, l, below);
      KeepFromStep(U, ZeroLayers(arch), l, below);
      AddToZeros(BackActs(cfg, s, U[l], Acts()[l], Weights()[below], arch[below], arch[l]));
      BackwardValues(g, l, below, s);
    }

    /** The backward pass of one sample, from the output layer down to layer 1, once g's
        activation rows hold the output gradient above zeros. */
    method BackwardPass(g: Network, ghost W: seq<seq<real>>, ghost B: seq<seq<real>>, ghost A: seq<seq<real>>,
                        ghost y: seq<real>, ghost GW0: seq<seq<real>>, ghost GB0: seq<seq<real>>)
      requires Valid() && g.Valid() && g.ParamsApart() && g.DistinctActs() && g.arch == arch && Separate(g)
      requires |y| == arch[|arch| - 1] && Weights() == W && Biases() == B && Acts() == A
      requires g.Weights() == GW0 && g.Biases() == GB0
      requires g.Acts() == KeepFrom(UpGradsOf(cfg, arch, W, A, y), ZeroLayers(arch), |arch| - 1)
      modifies g.Params, g.ActRepr
      ensures Weights() == W && Biases() == B && Acts() == A
      ensures g.Weights() == AddEach(GW0, LayerWeightGrads(cfg, arch, W, A, y))
      ensures g.Biases() == AddEach(GB0, LayerBiasGrads(cfg, arch, W, A, y))
      ensures g.Acts() == UpGradsOf(cfg, arch, W, A, y)
    {
      ghost var GW, GB := LayerWeightGrads(cfg, arch, W, A, y), LayerBiasGrads(cfg, arch, W, A, y);
      ghost var U, Z := UpGradsOf(cfg, arch, W, A, y), ZeroLayers(arch);
      AddFromEnds(GW0, GW);
      AddFromEnds(GB0, GB);
      var s := if cfg.traditional then 1.0 else 2.0;
      var l := |arch| - 1;
      while l > 0
        invariant 0 <= l <= |arch| - 1
        invariant g.Valid() && Weights() == W && Biases() == B && Acts() == A
        invariant PassAt(g, l, GW0, GB0, GW, GB, U)
      {
        var below := l - 1;
        GradsAtLayer(cfg, arch, W, A, y, l, below);
        BackwardStep(g, l, below, s, GW0, GB0, GW, GB, U);
        l := below;
      }
      KeepFromEnds(U, Z);
    }

    /** The start of backpropagation for one sample: g's activation rows are cleared and its
        output row receives the output gradient. */
    method StartSample(g: Network, y: Matrix)
      requires Valid() && g.Valid() && g.DistinctActs() && g.arch == arch && Separate(g)
      requires y.Valid() && y.rows == 1 && y.cols == arch[|arch| - 1] && y.data !in g.ActRepr
      modifies g.ActRepr
      ensures Weights() == old(Weights()) && Biases() == old(Biases()) && Acts() == old(Acts())
      ensures y.data[..] == old(y.data[..]) && g.Weights() == old(g.Weights()) && g.Biases() == old(g.Biases())
      ensures g.Acts() == ZeroLayers(arch)[|arch| - 1 := OutputGrad(cfg, Acts()[|arch| - 1], y.data[..])]
    {
      g.ZeroActs();
      ghost var Z := g.Acts();
      label Zeroed:
      SetOutputGradient(g, y);
      forall m | 0 <= m < |g.acts| - 1
        ensures g.acts[m].data[..] == Z[m]
      {
        assert unchanged@Zeroed(g.acts[m].data);
      }
      UpdatedAt(g.Acts(), Z, |arch| - 1, OutputGrad(cfg, Acts()[|arch| - 1], y.data[..]));
    }

    /** Backpropagation of one sample through this network's activations, towards target y:
        g's activation rows are cleared and receive the gradient of every layer, from the
        output gradient down, and the weight and bias gradients of every layer are added to
        g's parameters. */
    method AccumulateSample(g: Network, y: Matrix)
      requires Valid() && g.Valid() && g.ParamsApart() && g.DistinctActs() && g.arch == arch && Separate(g)
      requires y.Valid() && y.rows == 1 && y.cols == arch[|arch| - 1] && y.data !in g.ActRepr && y.data !in g.Params
      modifies g.Params, g.ActRepr
      ensures Weights() == old(Weights()) && Biases() == old(Biases()) && Acts() == old(Acts())
      ensures g.Weights() == AddEach(old(g.Weights()), LayerWeightGrads(cfg, arch, Weights(), Acts(), y.data[..]))
      ensures g.Biases() == AddEach(old(g.Biases()), LayerBiasGrads(cfg, arch, Weights(), Acts(), y.data[..]))
      ensures g.Acts() == UpGradsOf(cfg, arch, Weights(), Acts(), y.data[..])
    {
      ghost var W, B, A, Y := Weights(), Biases(), Acts(), y.data[..];
      ghost var GW0, GB0 := g.Weights(), g.Biases();
      StartSample(g, y);
      assert g.Acts() == KeepFrom(UpGradsOf(cfg, arch, W, A, Y), ZeroLayers(arch), |arch| - 1);
      BackwardPass(g, W, B, A, Y, GW0, GB0);
    }

    /** This network and the gradient network g, of the same shape, share no buffer. */
    ghost predicate Paired(g: Network)
      reads this, g
    {
      Valid() && g.Valid() && g.ParamsApart() && g.DistinctActs() && g.arch == arch && Separate(g) && g != this
    }

    /** g holds the gradient sums of the first i rows of table T, taken at parameters W and B. */
    ghost predicate SumsAt(g: Network, W: seq<seq<real>>, B: seq<seq<real>>, T: seq<real>, R: nat, C: nat, i: nat)
      reads g, g.Params
    {
      g.ParamsValid() && g.arch == arch && Shaped(arch, W, B) && Fits(arch, T, R, C) && i <= R &&
      g.Weights() == WeightGradSums(cfg, arch, W, B, T, R, C, i) &&
      g.Biases() == BiasGradSums(cfg, arch, W, B, T, R, C, i)
    }

    /** One row of backpropagation over table t: the row goes forward through this network
        and its weight and bias gradients are added to g's. */
    method BackpropRow(g: Network, t: Matrix, i: nat, ghost W: seq<seq<real>>, ghost B: seq<seq<real>>,
                       ghost T: seq<real>, ghost GW: seq<seq<real>>, ghost GB: seq<seq<real>>)
      requires Paired(g) && t.Valid() && t.cols == arch[0] + arch[|arch| - 1] && i < t.rows
      requires t.data !in g.Params && t.data !in g.ActRepr
      requires Weights() == W && Biases() == B && t.data[..] == T && g.Weights() == GW && g.Biases() == GB
      modifies this, g.Params, g.ActRepr
      ensures Paired(g) && Weights() == W && Biases() == B && t.data[..] == T
      ensures Acts() == ForwardAll(cfg, arch, W, B, RowInput(arch, T, t.rows, t.cols, i))
      ensures g.Weights() == AddEach(GW, LayerWeightGrads(cfg, arch, W, Acts(), RowTarget(arch, T, t.rows, t.cols, i)))
      ensures g.Biases() == AddEach(GB, LayerBiasGrads(cfg, arch, W, Acts(), RowTarget(arch, T, t.rows, t.cols, i)))
    {
      var out := LoadRow(t, i, g.Params + g.ActRepr);
      ghost var A, y := Acts(), out.data[..];
      assert y == RowTarget(arch, T, t.rows, t.cols, i) && g.Weights() == GW && g.Biases() == GB;
      AccumulateSample(g, out);
      assert Weights() == W && Acts() == A;
    }

    /** Every row of table t in turn goes forward through this network and adds its gradients
        to g's, which start at zero: g ends with the gradient sums over all rows. */
    method AccumulateRows(g: Network, t: Matrix, ghost W: seq<seq<real>>, ghost B: seq<seq<real>>, ghost T: seq<real>)
      requires Paired(g) && t.Valid() && t.cols == arch[0] + arch[|arch| - 1] && t.rows > 0
      requires t.data !in g.Params && t.data !in g.ActRepr
      requires Weights() == W && Biases() == B && t.data[..] == T && SumsAt(g, W, B, T, t.rows, t.cols, 0)
      modifies this, g.Params, g.ActRepr
      ensures Paired(g) && Weights() == W && Biases() == B && t.data[..] == T
      ensures SumsAt(g, W, B, T, t.rows, t.cols, t.rows)
      ensures Acts() == ForwardAll(cfg, arch, W, B, RowInput(arch, T, t.rows, t.cols, t.rows - 1))
    {
      var n := t.rows;
      var i := 0;
      ghost var last := 0;
      while i < n
        invariant 0 <= i <= n && Paired(g) && Weights() == W && Biases() == B && t.data[..] == T
        invariant SumsAt(g, W, B, T, n, t.cols, i)
        invariant i > 0 ==> last + 1 == i && Acts() == ForwardAll(cfg, arch, W, B, RowInput(arch, T, n, t.cols, last))
      {
        ghost var GW, GB := g.Weights(), g.Biases();
        BackpropRow(g, t, i, W, B, T, GW, GB);
        GradSumsStep(cfg, arch, W, B, T, n, t.cols, i, i + 1, Acts(), RowTarget(arch, T, n, t.cols, i));
        last := i;
        i := i + 1;
      }
      assert last == n - 1;
    }

    /** Divides every weight and bias by n. */
    method DivideParams(n: nat)
      requires ParamsValid() && ParamsApart() && n > 0
      modifies Params
      ensures Weights() == DivEach(old(Weights()), n) && Biases() == DivEach(old(Biases()), n)
    {
      ghost var W, B := Weights(), Biases();
      var i := 0;
      while i < |ws|
        invariant 0 <= i <= |ws|
        invariant forall m :: 0 <= m < i ==> ws[m].data[..] == DivSeq(W[m], n)
        invariant forall m :: i <= m < |ws| ==> ws[m].data[..] == W[m]
        invariant forall m :: 0 <= m < i ==> bs[m].data[..] == DivSeq(B[m], n)
        invariant forall m :: i <= m < |bs| ==> bs[m].data[..] == B[m]
      {
        ws[i].DivideBy(n);
        bs[i].DivideBy(n);
        i := i + 1;
      }
    }

    /** Backpropagation over table t, one sample per row: a fresh network g of the same shape
        is zeroed, every row goes forward through this network and adds its weight and bias
        gradients to g's, and the sums are divided by the number of rows. The activations are
        left as the last row's forward pass made them, g's as its backward pass made them. */
    method Backprop(t: Matrix) returns (g: Network)
      requires Valid() && t.Valid() && t.cols == arch[0] + arch[|arch| - 1] && t.rows > 0
      modifies this
      ensures Valid() && Weights() == old(Weights()) && Biases() == old(Biases())
      ensures g.Valid() && g.ParamsApart() && g.DistinctActs() && g.arch == arch && Separate(g)
      ensures fresh(g.Params) && fresh(g.ActRepr)
      ensures g.Weights() == WeightGradients(cfg, arch, Weights(), Biases(), t.data[..], t.rows, t.cols)
      ensures g.Biases() == BiasGradients(cfg, arch, Weights(), Biases(), t.data[..], t.rows, t.cols)
      ensures Acts() == ForwardAll(cfg, arch, Weights(), Biases(), RowInput(arch, t.data[..], t.rows, t.cols, t.rows - 1))
    {
      ghost var W, B, T := Weights(), Biases(), t.data[..];
      var n := t.rows;
      g := new Network(arch, cfg);
      g.Zero();
      GradSumsEmpty(cfg, arch, W, B, T, n, t.cols);
      AccumulateRows(g, t, W, B, T);
      ghost var A := Acts();
      assert Params !! g.Params && ActRepr !! g.Params && t.data !in g.Params;
      g.DivideParams(n);
      assert Acts() == A && Weights() == W && Biases() == B && T == t.data[..];
      GradientsOfSums(cfg, arch, W, B, T, n, t.cols);
    }

    /** The gradient step of layer i+1 alone. */
    method LearnLayer(g: Network, i: nat, rate: real)
      requires ParamsValid() && ParamsApart() && g.ParamsValid() && g.arch == arch && Params !! g.Params && i < |ws|
      modifies ws[i].data, bs[i].data
      ensures ws[i].data[..] == SubScaledSeq(old(ws[i].data[..]), g.ws[i].data[..], rate)
      ensures bs[i].data[..] == SubScaledSeq(old(bs[i].data[..]), g.bs[i].data[..], rate)
    {
      ws[i].SubScaled(g.ws[i], rate);
      bs[i].SubScaled(g.bs[i], rate);
    }

    /** One gradient step: every weight and bias moves against g's by rate times it. */
    method Learn(g: Network, rate: real)
      requires ParamsValid() && ParamsApart() && g.ParamsValid() && g.arch == arch && Params !! g.Params
      modifies Params
      ensures Weights() == Descend(old(Weights()), g.Weights(), rate)
      ensures Biases() == Descend(old(Biases()), g.Biases(), rate)
    {
      ghost var W, B := Weights(), Biases();
      ghost var GW, GB := g.Weights(), g.Biases();
      var i := 0;
      while i < |ws|
        invariant 0 <= i <= |ws|
        invariant g.Weights() == GW && g.Biases() == GB
        invariant forall m :: 0 <= m < i ==> ws[m].data[..] == SubScaledSeq(W[m], GW[m], rate)
        invariant forall m :: i <= m < |ws| ==> ws[m].data[..] == W[m]
        invariant forall m :: 0 <= m < i ==> bs[m].data[..] == SubScaledSeq(B[m], GB[m], rate)
        invariant forall m :: i <= m < |bs| ==> bs[m].data[..] == B[m]
      {
        LearnLayer(g, i, rate);
        i := i + 1;
      }
    }
  }
}
