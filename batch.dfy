/** Mini-batch training. A Batch is a cursor over the rows of a table: each call trains the
    network on the next slice of at most batch_size rows, adds the slice's cost, and once the
    cursor passes the last row it reports the mean cost of the pass and starts over on the
    next call. */
module Batches {
  import opened FlatIndex
  import opened Matrices
  import opened Propagation
  import opened Networks

  /** The position of a batch cursor: the first row of the next slice, and whether the
      previous call ended a pass. */
  datatype Cursor = Cursor(begin: nat, finished: bool)

  /** A cursor the next call can run from: the table has rows, and either the pass ended or
      rows remain after begin. This rules out the unsigned underflow of rows - begin. */
  predicate Ready(c: Cursor, rows: nat)
  {
    rows > 0 && (c.finished || c.begin < rows)
  }

  /** The row the next slice starts at: a finished pass starts over at row 0. */
  function Start(c: Cursor): nat
  {
    if c.finished then 0 else c.begin
  }

  /** The number of rows in the next slice: batch_size, clamped to the rows that remain. */
  function SliceSize(c: Cursor, batchSize: nat, rows: nat): (size: nat)
    requires Ready(c, rows)
    ensures size <= batchSize && Start(c) + size <= rows
    ensures size == batchSize || Start(c) + size == rows
    ensures batchSize > 0 ==> size > 0
  {
    var b := Start(c);
    if b + batchSize >= rows then rows - b else batchSize
  }

  /** The cursor after one call. */
  function Step(c: Cursor, batchSize: nat, rows: nat): (c': Cursor)
    requires Ready(c, rows) && batchSize > 0
    ensures c'.begin == Start(c) + batchSize && (c'.finished <==> c'.begin >= rows)
    ensures Ready(c', rows)
  {
    var b := Start(c) + batchSize;
    Cursor(b, b >= rows)
  }

  /** The number of slices in a pass: rows / batch_size, rounded up. */
  function BatchCount(rows: nat, batchSize: nat): (q: nat)
    requires batchSize > 0
    ensures rows > 0 ==> q > 0
  {
    (rows + batchSize - 1) / batchSize
  }

  /** The rounded-up quotient q is the one count of slices whose last starts before the end
      of the table and whose total reaches it. */
  lemma BatchCountBounds(rows: nat, batchSize: nat)
    requires rows > 0 && batchSize > 0
    ensures var q := BatchCount(rows, batchSize); q > 0 && (q - 1) * batchSize < rows <= q * batchSize
  {
    var q := BatchCount(rows, batchSize);
    var r := (rows + batchSize - 1) % batchSize;
    assert q * batchSize + r == rows + batchSize - 1;
    assert (q - 1) * batchSize == q * batchSize - batchSize;
  }

  /** The cursor after k calls from c. */
  function Run(c: Cursor, batchSize: nat, rows: nat, k: nat): (c': Cursor)
    requires Ready(c, rows) && batchSize > 0
    ensures Ready(c', rows)
  {
    if k == 0 then c else Step(Run(c, batchSize, rows, k - 1), batchSize, rows)
  }

  /** One more slice of n rows after k slices of n rows. */
  lemma MulSucc(k: nat, n: nat, next: nat)
    requires next == k + 1
    ensures k * n + n == next * n
  {
  }

  /** From a fresh or a finished cursor, call k of a pass (k from 1 up to the slice count)
      leaves begin at k * batch_size, and the pass is finished exactly after the last slice. */
  lemma {:induction false} PassPositions(c: Cursor, rows: nat, batchSize: nat, k: nat)
    requires rows > 0 && batchSize > 0 && (c.finished || c == Cursor(0, false))
    requires 0 < k <= BatchCount(rows, batchSize)
    ensures Run(c, batchSize, rows, k) == Cursor(k * batchSize, k == BatchCount(rows, batchSize))
  {
    var q := BatchCount(rows, batchSize);
    BatchCountBounds(rows, batchSize);
    if k == 1 {
      assert Run(c, batchSize, rows, 0) == c;
      if q == 1 {
        assert batchSize >= rows;
      } else {
        MulMono(1, q - 1, batchSize);
      }
    } else {
      PassPositions(c, rows, batchSize, k - 1);
      MulSucc(k - 1, batchSize, k);
      if k < q {
        MulMono(k, q - 1, batchSize);
      }
    }
  }

  /** In a pass from a fresh or finished cursor, slice k (counted from 0) starts at row
      k * batch_size, and is full-sized except the last, which holds the rows that remain. */
  lemma SliceOfCall(c: Cursor, rows: nat, batchSize: nat, k: nat)
    requires rows > 0 && batchSize > 0 && (c.finished || c == Cursor(0, false))
    requires k < BatchCount(rows, batchSize)
    ensures Start(Run(c, batchSize, rows, k)) == k * batchSize
    ensures SliceSize(Run(c, batchSize, rows, k), batchSize, rows) ==
      if k + 1 == BatchCount(rows, batchSize) then rows - k * batchSize else batchSize
  {
    var q := BatchCount(rows, batchSize);
    BatchCountBounds(rows, batchSize);
    if k > 0 {
      PassPositions(c, rows, batchSize, k);
    }
    MulSucc(k, batchSize, k + 1);
    if k + 1 < q {
      MulMono(k + 1, q - 1, batchSize);
    }
  }

  /** The rows the first k slices of a pass take, together. */
  function CoveredRows(c: Cursor, rows: nat, batchSize: nat, k: nat): nat
    requires Ready(c, rows) && batchSize > 0
  {
    if k == 0 then 0
    else CoveredRows(c, rows, batchSize, k - 1) + SliceSize(Run(c, batchSize, rows, k - 1), batchSize, rows)
  }

  /** The slices of a pass cover the table's rows exactly: the first k take k * batch_size
      rows, or all of them once k reaches the slice count. */
  lemma {:induction false} PassCoversRows(c: Cursor, rows: nat, batchSize: nat, k: nat)
    requires rows > 0 && batchSize > 0 && (c.finished || c == Cursor(0, false))
    requires k <= BatchCount(rows, batchSize)
    ensures CoveredRows(c, rows, batchSize, k) == if k == BatchCount(rows, batchSize) then rows else k * batchSize
  {
    if k > 0 {
      var below := k - 1;
      PassCoversRows(c, rows, batchSize, below);
      SliceOfCall(c, rows, batchSize, below);
      assert CoveredRows(c, rows, batchSize, below) == below * batchSize;
      MulSucc(below, batchSize, k);
    }
  }

  /** Six rows one at a time: six calls make a pass. */
  lemma SixRowsOneByOne(k: nat)
    requires 0 < k <= 6
    ensures BatchCount(6, 1) == 6
    ensures Run(Cursor(0, false), 1, 6, k) == Cursor(k, k == 6)
  {
    PassPositions(Cursor(0, false), 6, 1, k);
  }

  /** After a finished pass of six rows one at a time, the seventh call starts over at row 0. */
  lemma SeventhCallRestarts()
    ensures Run(Cursor(0, false), 1, 6, 7) == Cursor(1, false)
  {
    var six := Run(Cursor(0, false), 1, 6, 6);
    SixRowsOneByOne(6);
    assert six == Cursor(6, true);
    assert Run(Cursor(0, false), 1, 6, 7) == Step(six, 1, 6);
  }

  /** The cost after one call: the slice's cost is added to the running cost (zero after a
      finished pass), and at the end of a pass the total is divided by the slice count. */
  function NextCost(c: Cursor, cost: real, batchCost: real, batchSize: nat, rows: nat): real
    requires Ready(c, rows) && batchSize > 0
  {
    var total := (if c.finished then 0.0 else cost) + batchCost;
    if Step(c, batchSize, rows).finished then total / (BatchCount(rows, batchSize) as real) else total
  }

  /** The sum of the first k values of xs. */
  function Sum(xs: seq<real>, k: nat): real
    requires k <= |xs|
  {
    if k == 0 then 0.0 else Sum(xs, k - 1) + xs[k - 1]
  }

  /** The running cost after k calls from cursor c and cost cost, slice j costing costs[j]. */
  function RunCost(c: Cursor, cost: real, costs: seq<real>, batchSize: nat, rows: nat, k: nat): real
    requires Ready(c, rows) && batchSize > 0 && k <= |costs|
  {
    if k == 0 then cost
    else NextCost(Run(c, batchSize, rows, k - 1), RunCost(c, cost, costs, batchSize, rows, k - 1), costs[k - 1], batchSize, rows)
  }

  /** Over a pass from a finished cursor, or a fresh one with cost zero, the running cost is
      the sum of the slice costs so far, and after the last slice it is their mean over the
      slice count. */
  lemma {:induction false} PassCostIsMean(c: Cursor, cost: real, costs: seq<real>, rows: nat, batchSize: nat, k: nat)
    requires rows > 0 && batchSize > 0 && (c.finished || (c == Cursor(0, false) && cost == 0.0))
    requires 0 < k <= BatchCount(rows, batchSize) && k <= |costs|
    ensures RunCost(c, cost, costs, batchSize, rows, k) ==
      if k == BatchCount(rows, batchSize) then Sum(costs, k) / (k as real) else Sum(costs, k)
  {
    var q := BatchCount(rows, batchSize);
    PassPositions(c, rows, batchSize, k);
    if k == 1 {
      assert Run(c, batchSize, rows, 0) == c;
      assert RunCost(c, cost, costs, batchSize, rows, 0) == cost;
    } else {
      PassCostIsMean(c, cost, costs, rows, batchSize, k - 1);
      PassPositions(c, rows, batchSize, k - 1);
    }
  }

  /** The rows [begin, begin + count) of t, copied cell by cell into a fresh count x t.cols
      matrix. */
  method CopyRows(t: Matrix, begin: nat, count: nat) returns (m: Matrix)
    requires t.Valid() && begin + count <= t.rows
    ensures m.Valid() && fresh(m.data) && m.rows == count && m.cols == t.cols
    ensures m.data[..] == Rows(t.data[..], t.rows, t.cols, begin, count)
  {
    var cols := t.cols;
    m := new Matrix(count, cols, 0.0);
    ghost var R := Rows(t.data[..], t.rows, cols, begin, count);
    var i := 0;
    var p := 0;
    while i < count
      invariant 0 <= i <= count && p == i * cols && p <= |R|
      invariant m.data[..p] == R[..p]
    {
      RowEnd(i, count, cols);
      var j := 0;
      while j < cols
        invariant 0 <= j <= cols && p == i * cols + j && p <= |R|
        invariant m.data[..p] == R[..p]
      {
        var x := t.Get(begin + i, j);
        RowsEntry(t.data[..], t.rows, cols, begin, count, i, j);
        CellInRange(i, j, count, cols);
        assert x == R[p];
        m.data[p] := x;
        assert m.data[..p + 1] == m.data[..p] + [x];
        p := p + 1;
        j := j + 1;
      }
      assert (i + 1) * cols == i * cols + cols;
      i := i + 1;
    }
    assert m.data[..] == m.data[..p];
  }

  /** The rows of the next slice of a T with the given rows and cols, from cursor c. */
  function SliceOf(T: seq<real>, rows: nat, cols: nat, c: Cursor, batchSize: nat): (slice: seq<real>)
    requires |T| == rows * cols && Ready(c, rows)
    ensures |slice| == SliceSize(c, batchSize, rows) * cols
  {
    Rows(T, rows, cols, Start(c), SliceSize(c, batchSize, rows))
  }

  /** Parameters W and B are those W0 and B0 become after one gradient step with rate
      against the gradients of table T (R rows of C values) taken at W0 and B0. */
  ghost predicate Trained(cfg: Config, arch: seq<nat>, W0: seq<seq<real>>, B0: seq<seq<real>>,
                          W: seq<seq<real>>, B: seq<seq<real>>, T: seq<real>, R: nat, C: nat, rate: real)
  {
    Shaped(arch, W0, B0) && Fits(arch, T, R, C) && R > 0 &&
    W == Descend(W0, WeightGradients(cfg, arch, W0, B0, T, R, C), rate) &&
    B == Descend(B0, BiasGradients(cfg, arch, W0, B0, T, R, C), rate)
  }

  /** Training on rows [start, start + size) of t: they are copied into a fresh table, the
      network is backpropagated over it, takes a gradient step with rate, and the cost of the
      slice under the updated parameters is returned. */
  method TrainOnSlice(nn: Network, t: Matrix, start: nat, size: nat, rate: real) returns (c: real)
    requires nn.Valid() && nn.ParamsApart() && t.Valid() && t.cols == nn.arch[0] + nn.arch[|nn.arch| - 1]
    requires 0 < size && start + size <= t.rows && t.data !in nn.Params
    modifies nn, nn.Params
    ensures nn.Valid() && t.data[..] == old(t.data[..])
    ensures Trained(nn.cfg, nn.arch, old(nn.Weights()), old(nn.Biases()), nn.Weights(), nn.Biases(),
      Rows(t.data[..], t.rows, t.cols, start, size), size, t.cols, rate)
    ensures c == CostOf(nn.cfg, nn.arch, nn.Weights(), nn.Biases(), Rows(t.data[..], t.rows, t.cols, start, size), size, t.cols)
  {
    var bt := CopyRows(t, start, size);
    var g := nn.Backprop(bt);
    nn.Learn(g, rate);
    c := nn.Cost(bt);
  }

  class Batch {
    /** The first row of the next slice. */
    var begin: nat
    /** The running cost of the pass; its mean once the pass is finished. */
    var cost: real
    /** Whether the last call ended a pass. */
    var finished: bool

    /** A cursor at row 0 of a fresh pass. */
    constructor ()
      ensures Position() == Cursor(0, false) && cost == 0.0
    {
      begin, cost, finished := 0, 0.0, false;
    }

    /** The cursor as a value. */
    function Position(): Cursor
      reads this
    {
      Cursor(begin, finished)
    }

    /** One call: after a finished pass the cursor and the cost are reset; the next slice of
        at most batchSize rows is copied out of t, nn is trained on it with rate, and its cost
        under the updated parameters is added; begin moves on by batchSize, and when it
        reaches the end of t the pass is finished and the cost becomes its mean over the
        slices. */
    method Process(batchSize: nat, nn: Network, t: Matrix, rate: real)
      requires batchSize > 0 && Ready(Position(), t.rows)
      requires nn.Valid() && nn.ParamsApart() && t.Valid() && t.cols == nn.arch[0] + nn.arch[|nn.arch| - 1]
      requires t.data !in nn.Params
      modifies this, nn, nn.Params
      ensures Position() == Step(old(Position()), batchSize, t.rows)
      ensures nn.Valid() && t.data[..] == old(t.data[..])
      ensures Trained(nn.cfg, nn.arch, old(nn.Weights()), old(nn.Biases()), nn.Weights(), nn.Biases(),
        SliceOf(t.data[..], t.rows, t.cols, old(Position()), batchSize), SliceSize(old(Position()), batchSize, t.rows), t.cols, rate)
      ensures cost == NextCost(old(Position()), old(cost), CostOf(nn.cfg, nn.arch, nn.Weights(), nn.Biases(),
        SliceOf(t.data[..], t.rows, t.cols, old(Position()), batchSize), SliceSize(old(Position()), batchSize, t.rows), t.cols),
        batchSize, t.rows)
    {
      ghost var c0, W0, B0 := Position(), nn.Weights(), nn.Biases();
      var start, size := Plan(batchSize, t.rows);
      ghost var S := SliceOf(t.data[..], t.rows, t.cols, c0, batchSize);
      var c := TrainOnSlice(nn, t, start, size, rate);
      Advance(batchSize, t.rows, c);
    }

    /** Where the next slice starts and how many rows it has: a finished pass starts over
        at row 0, and the slice is cut short at the end of the table. */
    method Plan(batchSize: nat, rows: nat) returns (start: nat, size: nat)
      requires Ready(Position(), rows)
      ensures start == Start(Position()) && size == SliceSize(Position(), batchSize, rows)
    {
      start := if finished then 0 else begin;
      size := batchSize;
      if start + batchSize >= rows {
        size := rows - start;
      }
    }

    /** The bookkeeping after a slice that cost batchCost: a finished pass is reset first,
        the cost is added, begin moves on, and at the end of the table the cost becomes the
        mean over the slices of the pass. */
    method Advance(batchSize: nat, rows: nat, batchCost: real)
      requires batchSize > 0 && Ready(Position(), rows)
      modifies this
      ensures Position() == Step(old(Position()), batchSize, rows)
      ensures cost == NextCost(old(Position()), old(cost), batchCost, batchSize, rows)
    {
      if finished {
        finished := false;
        begin := 0;
        cost := 0.0;
      }
      cost := cost + batchCost;
      begin := begin + batchSize;
      if begin >= rows {
        var count := (rows + batchSize - 1) / batchSize;
        assert count == BatchCount(rows, batchSize);
        cost := cost / (count as real);
        finished := true;
      }
    }
  }
}
