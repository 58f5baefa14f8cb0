/** The inner loops of backpropagation, on matrices: for one layer, each unit's error signal
    is added into the bias and weight gradients and passed back to the layer below. */
module Backward {
  import opened FlatIndex
  import opened Activations
  import opened Matrices
  import opened Propagation

  /** The shapes of one backward step: a is the layer's 1 x n output row and aPrev the 1 x np
      row below it, w the np x n weights between them; ga and gaPrev are the gradients with
      respect to a and aPrev, gw and gb the gradients of w and of the layer's biases. */
  ghost predicate StepShapes(a: Matrix, aPrev: Matrix, w: Matrix, ga: Matrix, gaPrev: Matrix, gw: Matrix, gb: Matrix)
  {
    a.Valid() && aPrev.Valid() && w.Valid() && ga.Valid() && gaPrev.Valid() && gw.Valid() && gb.Valid() &&
    a.rows == 1 && aPrev.rows == 1 && ga.rows == 1 && gaPrev.rows == 1 && gb.rows == 1 &&
    w.rows == aPrev.cols && w.cols == a.cols && gw.rows == aPrev.cols && gw.cols == a.cols &&
    ga.cols == a.cols && gaPrev.cols == aPrev.cols && gb.cols == a.cols
  }

  /** The three buffers a backward step writes are distinct, and distinct from the ones it only
      reads. */
  ghost predicate StepFrame(a: Matrix, aPrev: Matrix, w: Matrix, ga: Matrix, gaPrev: Matrix, gw: Matrix, gb: Matrix)
  {
    gw.data != gb.data && gw.data != gaPrev.data && gb.data != gaPrev.data &&
    a.data != gw.data && a.data != gb.data && a.data != gaPrev.data &&
    aPrev.data != gw.data && aPrev.data != gb.data && aPrev.data != gaPrev.data &&
    w.data != gw.data && w.data != gb.data && w.data != gaPrev.data &&
    ga.data != gw.data && ga.data != gb.data && ga.data != gaPrev.data
  }

  /** u with v added at the first k positions. */
  function AddPrefix(u: seq<real>, v: seq<real>, k: nat): (w: seq<real>)
    requires |u| == |v|
    ensures |w| == |u|
  {
    seq(|u|, q requires 0 <= q < |u| => if q < k then u[q] + v[q] else u[q])
  }

  /** Adding at position k extends the prefix by one. */
  lemma AddPrefixStep(u: seq<real>, v: seq<real>, k: nat)
    requires |u| == |v| && k < |u|
    ensures AddPrefix(u, v, k)[k := u[k] + v[k]] == AddPrefix(u, v, k + 1)
  {
  }

  /** Adding at no position leaves u; adding at every position is AddSeq. */
  lemma AddPrefixEnds(u: seq<real>, v: seq<real>)
    requires |u| == |v|
    ensures AddPrefix(u, v, 0) == u
    ensures AddPrefix(u, v, |u|) == AddSeq(u, v)
  {
  }

  /** u, laid out in rows of n, with v added in the first k cells of column j. */
  function AddToColumn(u: seq<real>, v: seq<real>, n: nat, j: nat, k: nat): (w: seq<real>)
    requires |u| == |v| && j < n
    ensures |w| == |u|
  {
    seq(|u|, p requires 0 <= p < |u| => if p % n == j && p / n < k then u[p] + v[p] else u[p])
  }

  /** u, laid out in rows of n, with v added in every cell of the first j columns. */
  function AddToColumns(u: seq<real>, v: seq<real>, n: nat, j: nat): (w: seq<real>)
    requires |u| == |v|
    ensures |w| == |u|
  {
    if n == 0 then u
    else seq(|u|, p requires 0 <= p < |u| => if p % n < j then u[p] + v[p] else u[p])
  }

  /** Adding into cell (k, j) extends the accumulation of column j by one row. */
  lemma AddToColumnStep(u: seq<real>, v: seq<real>, rows: nat, n: nat, j: nat, k: nat)
    requires |u| == rows * n && |v| == rows * n && j < n && k < rows
    ensures k * n + j < |u| && AddToColumn(u, v, n, j, k)[k * n + j] == u[k * n + j]
    ensures AddToColumn(u, v, n, j, k)[k * n + j := u[k * n + j] + v[k * n + j]] == AddToColumn(u, v, n, j, k + 1)
  {
    CellInRange(k, j, rows, n);
    CellDivMod(k, j, n);
    var idx := k * n + j;
    var lhs := AddToColumn(u, v, n, j, k)[idx := u[idx] + v[idx]];
    var rhs := AddToColumn(u, v, n, j, k + 1);
    forall p | 0 <= p < |u|
      ensures lhs[p] == rhs[p]
    {
      PositionCell(p, rows, n);
      var q := p / n;
      if p % n == j && q == k {
        assert p == q * n + p % n;
        assert q * n == k * n;
      }
    }
  }

  /** Accumulating a whole column j extends the accumulation of the first j columns by one. */
  lemma AddToColumnsStep(u: seq<real>, v: seq<real>, rows: nat, n: nat, j: nat)
    requires |u| == rows * n && |v| == rows * n && j < n
    ensures AddToColumn(AddToColumns(u, v, n, j), v, n, j, rows) == AddToColumns(u, v, n, j + 1)
  {
    var w := AddToColumns(u, v, n, j);
    forall p | 0 <= p < |u|
      ensures AddToColumn(w, v, n, j, rows)[p] == AddToColumns(u, v, n, j + 1)[p]
    {
      PositionCell(p, rows, n);
    }
  }

  /** No columns leave u as it is; all n columns add v everywhere. */
  lemma AddToColumnsEnds(u: seq<real>, v: seq<real>, rows: nat, n: nat)
    requires |u| == rows * n && |v| == rows * n
    ensures AddToColumns(u, v, n, 0) == u
    ensures AddToColumns(u, v, n, n) == AddSeq(u, v)
  {
    if n > 0 {
      forall p | 0 <= p < |u|
        ensures AddToColumns(u, v, n, n)[p] == AddSeq(u, v)[p]
      {
        PositionCell(p, rows, n);
      }
    }
  }

  /** What unit j of a layer passes back to each of the np units below it. */
  function BackColumn(cfg: Config, s: real, da: seq<real>, a: seq<real>, w: seq<real>, np: nat, n: nat, j: nat): (g: seq<real>)
    requires |da| == n && |a| == n && |w| == np * n && j < n
    ensures |g| == np
  {
    seq(np, k requires 0 <= k < np => Delta(cfg, s, da[j], a[j]) * Entry(w, np, n, k, j))
  }

  /** What the first J units of a layer pass back to each of the np units below it. */
  function BackSums(cfg: Config, s: real, da: seq<real>, a: seq<real>, w: seq<real>, np: nat, n: nat, J: nat): (g: seq<real>)
    requires |da| == n && |a| == n && |w| == np * n && J <= n
    ensures |g| == np
  {
    seq(np, k requires 0 <= k < np => BackSum(cfg, s, da, a, w, np, n, k, J))
  }

  /** Unit J's column extends the sums passed back by the first J units. */
  lemma BackSumsStep(cfg: Config, s: real, da: seq<real>, a: seq<real>, w: seq<real>, np: nat, n: nat, J: nat, u: seq<real>)
    requires |da| == n && |a| == n && |w| == np * n && J < n && |u| == np
    ensures AddSeq(AddSeq(u, BackSums(cfg, s, da, a, w, np, n, J)), BackColumn(cfg, s, da, a, w, np, n, J))
         == AddSeq(u, BackSums(cfg, s, da, a, w, np, n, J + 1))
  {
    var bs, bc := BackSums(cfg, s, da, a, w, np, n, J), BackColumn(cfg, s, da, a, w, np, n, J);
    forall k | 0 <= k < np
      ensures AddSeq(AddSeq(u, bs), bc)[k] == AddSeq(u, BackSums(cfg, s, da, a, w, np, n, J + 1))[k]
    {
      assert BackSums(cfg, s, da, a, w, np, n, J + 1)[k] == bs[k] + bc[k];
    }
  }

  /** Cell (k, j) of a weight step is unit j's error signal times input k. */
  lemma WeightStepValue(cfg: Config, s: real, da: seq<real>, a: seq<real>, aPrev: seq<real>, np: nat, n: nat,
                        k: nat, j: nat, delta: real, pa: real)
    requires |da| == n && |a| == n && |aPrev| == np && k < np && j < n
    requires delta == Delta(cfg, s, da[j], a[j]) && pa == aPrev[k]
    ensures k * n + j < np * n && WeightStep(cfg, s, da, a, aPrev, np, n)[k * n + j] == delta * pa
  {
    CellInRange(k, j, np, n);
    WeightStepCell(cfg, s, da, a, aPrev, np, n, k, j);
  }

  /** Entry k of unit j's column is its error signal times weight (k, j). */
  lemma BackColumnValue(cfg: Config, s: real, da: seq<real>, a: seq<real>, w: seq<real>, np: nat, n: nat,
                        k: nat, j: nat, delta: real, wv: real)
    requires |da| == n && |a| == n && |w| == np * n && k < np && j < n
    requires delta == Delta(cfg, s, da[j], a[j]) && wv == Entry(w, np, n, k, j)
    ensures BackColumn(cfg, s, da, a, w, np, n, j)[k] == delta * wv
  {
  }

  /** Unit j of the layer: its error signal s * ga(0, j) * Dactf(a(0, j)) is added to bias j,
      times aPrev(0, k) to weight (k, j), and times w(k, j) to gaPrev(0, k), for every k. */
  method BackwardUnit(cfg: Config, s: real, j: nat, a: Matrix, aPrev: Matrix, w: Matrix,
                      ga: Matrix, gaPrev: Matrix, gw: Matrix, gb: Matrix)
    requires StepShapes(a, aPrev, w, ga, gaPrev, gw, gb) && StepFrame(a, aPrev, w, ga, gaPrev, gw, gb)
    requires j < a.cols
    modifies gw.data, gb.data, gaPrev.data
    ensures gb.data[..] == old(gb.data[..])[j := old(gb.data[j]) + Delta(cfg, s, ga.data[j], a.data[j])]
    ensures gw.data[..] == AddToColumn(old(gw.data[..]),
      WeightStep(cfg, s, ga.data[..], a.data[..], aPrev.data[..], gw.rows, gw.cols), gw.cols, j, gw.rows)
    ensures gaPrev.data[..] == AddSeq(old(gaPrev.data[..]),
      BackColumn(cfg, s, ga.data[..], a.data[..], w.data[..], w.rows, w.cols, j))
  {
    var np, n := gw.rows, gw.cols;
    ghost var A, AP, GA, WV := a.data[..], aPrev.data[..], ga.data[..], w.data[..];
    ghost var G0, P0 := gw.data[..], gaPrev.data[..];
    ghost var WS := WeightStep(cfg, s, GA, A, AP, np, n);
    ghost var BC := BackColumn(cfg, s, GA, A, WV, np, n, j);
    var act := a.data[j];
    var da := ga.data[j];
    var qa := Dactf(act, cfg.act, cfg.leak, cfg.tf);
    var delta := s * da * qa;
    assert delta == Delta(cfg, s, GA[j], A[j]);
    gb.data[j] := gb.data[j] + delta;
    ghost var gb1 := gb.data[..];
    var k := 0;
    while k < np
      invariant 0 <= k <= np && gb.data[..] == gb1
      invariant gw.data[..] == AddToColumn(G0, WS, n, j, k)
      invariant gaPrev.data[..] == AddPrefix(P0, BC, k)
    {
      BackwardCell(cfg, s, j, k, delta, a, aPrev, w, ga, gaPrev, gw, gb, G0, P0);
      k := k + 1;
    }
    AddPrefixEnds(P0, BC);
  }

  /** Row k of unit j's loop: weight (k, j) grows by delta * aPrev(0, k) and gaPrev(0, k) by
      delta * w(k, j), extending both accumulations by one row. */
  method BackwardCell(cfg: Config, s: real, j: nat, k: nat, delta: real, a: Matrix, aPrev: Matrix, w: Matrix,
                      ga: Matrix, gaPrev: Matrix, gw: Matrix, gb: Matrix, ghost G0: seq<real>, ghost P0: seq<real>)
    requires StepShapes(a, aPrev, w, ga, gaPrev, gw, gb) && StepFrame(a, aPrev, w, ga, gaPrev, gw, gb)
    requires j < a.cols && k < aPrev.cols && |G0| == gw.data.Length && |P0| == gaPrev.cols
    requires delta == Delta(cfg, s, ga.data[j], a.data[j])
    requires gw.data[..] == AddToColumn(G0,
      WeightStep(cfg, s, ga.data[..], a.data[..], aPrev.data[..], gw.rows, gw.cols), gw.cols, j, k)
    requires gaPrev.data[..] == AddPrefix(P0, BackColumn(cfg, s, ga.data[..], a.data[..], w.data[..], w.rows, w.cols, j), k)
    modifies gw.data, gaPrev.data
    ensures gw.data[..] == AddToColumn(G0,
      WeightStep(cfg, s, ga.data[..], a.data[..], aPrev.data[..], gw.rows, gw.cols), gw.cols, j, k + 1)
    ensures gaPrev.data[..] == AddPrefix(P0, BackColumn(cfg, s, ga.data[..], a.data[..], w.data[..], w.rows, w.cols, j), k + 1)
  {
    var np, n := gw.rows, gw.cols;
    ghost var A, AP, GA, WV := a.data[..], aPrev.data[..], ga.data[..], w.data[..];
    ghost var WS := WeightStep(cfg, s, GA, A, AP, np, n);
    ghost var BC := BackColumn(cfg, s, GA, A, WV, np, n, j);
    var pa := aPrev.data[k];
    var wv := w.Get(k, j);
    AddToColumnStep(G0, WS, np, n, j, k);
    WeightStepValue(cfg, s, GA, A, AP, np, n, k, j, delta, pa);
    BackColumnValue(cfg, s, GA, A, WV, np, n, k, j, delta, wv);
    AddPrefixStep(P0, BC, k);
    var idx := k * n + j;
    gw.data[idx] := gw.data[idx] + delta * pa;
    gaPrev.data[k] := gaPrev.data[k] + delta * wv;
  }

  /** One layer of backpropagation: every unit j of the layer in turn, as BackwardUnit. The
      layer's bias and weight gradients grow by its steps for this sample, and gaPrev by the
      gradient the layer passes back. */
  method BackwardLayer(cfg: Config, s: real, a: Matrix, aPrev: Matrix, w: Matrix,
                       ga: Matrix, gaPrev: Matrix, gw: Matrix, gb: Matrix)
    requires StepShapes(a, aPrev, w, ga, gaPrev, gw, gb) && StepFrame(a, aPrev, w, ga, gaPrev, gw, gb)
    modifies gw.data, gb.data, gaPrev.data
    ensures gb.data[..] == AddSeq(old(gb.data[..]), BiasStep(cfg, s, ga.data[..], a.data[..]))
    ensures gw.data[..] == AddSeq(old(gw.data[..]), WeightStep(cfg, s, ga.data[..], a.data[..], aPrev.data[..], gw.rows, gw.cols))
    ensures gaPrev.data[..] == AddSeq(old(gaPrev.data[..]), BackActs(cfg, s, ga.data[..], a.data[..], w.data[..], w.rows, w.cols))
  {
    var np, n := gw.rows, gw.cols;
    ghost var A, AP, GA, WV := a.data[..], aPrev.data[..], ga.data[..], w.data[..];
    ghost var B0, G0, P0 := gb.data[..], gw.data[..], gaPrev.data[..];
    ghost var BS := BiasStep(cfg, s, GA, A);
    ghost var WS := WeightStep(cfg, s, GA, A, AP, np, n);
    AddToColumnsEnds(G0, WS, np, n);
    var j := 0;
    while j < n
      invariant 0 <= j <= n
      invariant gb.data[..] == AddPrefix(B0, BS, j)
      invariant gw.data[..] == AddToColumns(G0, WS, n, j)
      invariant gaPrev.data[..] == AddSeq(P0, BackSums(cfg, s, GA, A, WV, np, n, j))
    {
      AddToColumnsStep(G0, WS, np, n, j);
      BackSumsStep(cfg, s, GA, A, WV, np, n, j, P0);
      BackwardUnit(cfg, s, j, a, aPrev, w, ga, gaPrev, gw, gb);
      j := j + 1;
    }
    assert AddPrefix(B0, BS, n) == AddSeq(B0, BS);
    assert BackSums(cfg, s, GA, A, WV, np, n, n) == BackActs(cfg, s, GA, A, WV, np, n);
  }
}
