/** A dense row-major matrix: `rows` x `cols` values in one flat buffer, cell (i, j) at
    position i * cols + j. The shape is fixed when the matrix is built; only the values
    change, in place. */
module Matrices {
  import opened FlatIndex
  import opened Activations

  /** The value of cell (i, j) of a rows x cols flat buffer. */
  function Entry(s: seq<real>, rows: nat, cols: nat, i: nat, j: nat): real
    requires |s| == rows * cols && i < rows && j < cols
  {
    CellInRange(i, j, rows, cols);
    s[i * cols + j]
  }

  /** The sum over k < K of a(i, k) * b(k, j), accumulated from k = 0 upwards, where a is
      r x n and b is n x m. */
  function DotCell(a: seq<real>, r: nat, n: nat, b: seq<real>, m: nat, i: nat, j: nat, K: nat): real
    requires |a| == r * n && |b| == n * m && i < r && j < m && K <= n
  {
    if K == 0 then 0.0
    else DotCell(a, r, n, b, m, i, j, K - 1) + Entry(a, r, n, i, K - 1) * Entry(b, n, m, K - 1, j)
  }

  /** The entry at flat position p of the product of a (r x n) and b (n x m). */
  function ProductEntry(a: seq<real>, r: nat, n: nat, b: seq<real>, m: nat, p: nat): real
    requires |a| == r * n && |b| == n * m && p < r * m
  {
    PositionCell(p, r, m);
    DotCell(a, r, n, b, m, p / m, p % m, n)
  }

  /** The product of a (r x n) and b (n x m), as an r x m flat buffer. */
  function Product(a: seq<real>, r: nat, n: nat, b: seq<real>, m: nat): (c: seq<real>)
    requires |a| == r * n && |b| == n * m
    ensures |c| == r * m
  {
    seq(r * m, p requires 0 <= p < r * m => ProductEntry(a, r, n, b, m, p))
  }

  /** Cell (i, j) of the product is the sum over k of a(i, k) * b(k, j). */
  lemma ProductCell(a: seq<real>, r: nat, n: nat, b: seq<real>, m: nat, i: nat, j: nat)
    requires |a| == r * n && |b| == n * m && i < r && j < m
    ensures Entry(Product(a, r, n, b, m), r, m, i, j) == DotCell(a, r, n, b, m, i, j, n)
  {
    CellInRange(i, j, r, m);
    CellDivMod(i, j, m);
  }

  /** Columns start .. start + count of row `row` of a rows x cols flat buffer. */
  function RowSlice(s: seq<real>, rows: nat, cols: nat, row: nat, start: nat, count: nat): (r: seq<real>)
    requires |s| == rows * cols && row < rows && start + count <= cols
    ensures |r| == count
  {
    RowEnd(row, rows, cols);
    s[row * cols + start .. row * cols + start + count]
  }

  /** A slice of a row holds exactly the values that indexing the row gives. */
  lemma RowSliceEntries(s: seq<real>, rows: nat, cols: nat, row: nat, start: nat, count: nat, k: nat)
    requires |s| == rows * cols && row < rows && start + count <= cols && k < count
    ensures RowSlice(s, rows, cols, row, start, count)[k] == Entry(s, rows, cols, row, start + k)
  {
    RowEnd(row, rows, cols);
    CellInRange(row, start + k, rows, cols);
    var base := row * cols;
    assert RowSlice(s, rows, cols, row, start, count)[k] == s[base + start + k];
  }

  /** n copies of x. */
  function Constant(n: nat, x: real): (z: seq<real>)
    ensures |z| == n && forall p :: 0 <= p < n ==> z[p] == x
  {
    seq(n, _ => x)
  }

  /** n zeros. */
  function Zeros(n: nat): (z: seq<real>)
    ensures |z| == n && forall p :: 0 <= p < n ==> z[p] == 0.0
  {
    Constant(n, 0.0)
  }

  /** Every value of u is zero. */
  predicate AllZero(u: seq<real>)
  {
    forall p :: 0 <= p < |u| ==> u[p] == 0.0
  }

  /** The sum of zeros is zero. */
  lemma AddAllZero(u: seq<real>, v: seq<real>)
    requires |u| == |v| && AllZero(u) && AllZero(v)
    ensures AllZero(AddSeq(u, v))
  {
  }

  /** The entrywise sum of the first k sequences of G, each of length n. */
  function SumSeqs(G: seq<seq<real>>, n: nat, k: nat): (s: seq<real>)
    requires k <= |G| && forall r :: 0 <= r < |G| ==> |G[r]| == n
    ensures |s| == n
  {
    if k == 0 then Zeros(n) else AddSeq(SumSeqs(G, n, k - 1), G[k - 1])
  }

  /** Sums of zeros are zero. */
  lemma {:induction false} SumOfAllZero(G: seq<seq<real>>, n: nat, k: nat)
    requires k <= |G| && forall r :: 0 <= r < |G| ==> |G[r]| == n
    requires forall r :: 0 <= r < k ==> AllZero(G[r])
    ensures AllZero(SumSeqs(G, n, k))
  {
    if k > 0 {
      SumOfAllZero(G, n, k - 1);
      AddAllZero(SumSeqs(G, n, k - 1), G[k - 1]);
    }
  }

  /** The activation applied to each value. */
  function Activate(v: seq<real>, act: Activation, tf: Transcendental): (w: seq<real>)
    ensures |w| == |v|
  {
    seq(|v|, p requires 0 <= p < |v| => Actf(v[p], act, tf))
  }

  /** Each value divided by n. */
  function DivSeq(u: seq<real>, n: nat): (w: seq<real>)
    requires n > 0
    ensures |w| == |u|
  {
    seq(|u|, p requires 0 <= p < |u| => u[p] / (n as real))
  }

  /** One step against v: u - rate * v, value by value. */
  function SubScaledSeq(u: seq<real>, v: seq<real>, rate: real): (w: seq<real>)
    requires |u| == |v|
    ensures |w| == |u|
  {
    seq(|u|, p requires 0 <= p < |u| => u[p] - rate * v[p])
  }

  /** Stepping against v with rate and then with -rate gives back u. */
  lemma SubScaledUndo(u: seq<real>, v: seq<real>, rate: real)
    requires |u| == |v|
    ensures SubScaledSeq(SubScaledSeq(u, v, rate), v, -rate) == u
  {
  }

  /** The rows [begin, begin + count) of a rows x cols buffer, a count x cols buffer. */
  function Rows(s: seq<real>, rows: nat, cols: nat, begin: nat, count: nat): (r: seq<real>)
    requires |s| == rows * cols && begin + count <= rows
    ensures |r| == count * cols
  {
    MulMono(begin + count, rows, cols);
    s[begin * cols .. (begin + count) * cols]
  }

  /** Cell (i, j) of the block is cell (begin + i, j) of the whole. */
  lemma RowsEntry(s: seq<real>, rows: nat, cols: nat, begin: nat, count: nat, i: nat, j: nat)
    requires |s| == rows * cols && begin + count <= rows && i < count && j < cols
    ensures Entry(Rows(s, rows, cols, begin, count), count, cols, i, j) == Entry(s, rows, cols, begin + i, j)
  {
    CellInRange(i, j, count, cols);
    CellInRange(begin + i, j, rows, cols);
    MulMono(begin + count, rows, cols);
    var base := begin * cols;
    assert (begin + i) * cols + j == base + (i * cols + j);
  }

  /** The value-by-value sum of two buffers of one length. */
  function AddSeq(u: seq<real>, v: seq<real>): (w: seq<real>)
    requires |u| == |v|
    ensures |w| == |u|
  {
    seq(|u|, p requires 0 <= p < |u| => u[p] + v[p])
  }

  /** Adding to zeros gives back what was added. */
  lemma AddToZeros(v: seq<real>)
    ensures AddSeq(Zeros(|v|), v) == v
  {
  }

  class Matrix {
    const rows: nat
    const cols: nat
    const data: array<real>

    /** The buffer holds exactly rows * cols values. */
    predicate Valid()
    {
      data.Length == rows * cols
    }

    /** A rows x cols matrix with every value equal to d. */
    constructor (r: nat, c: nat, d: real)
      ensures Valid() && rows == r && cols == c && fresh(data)
      ensures forall p :: 0 <= p < data.Length ==> data[p] == d
      ensures data[..] == Constant(r * c, d)
    {
      rows, cols := r, c;
      data := new real[r * c](_ => d);
    }

    /** A copy with its own buffer: what copy-assigning a matrix produces. */
    method Clone() returns (m: Matrix)
      requires Valid()
      ensures m.Valid() && fresh(m.data) && m.rows == rows && m.cols == cols
      ensures m.data[..] == data[..]
    {
      m := new Matrix(rows, cols, 0.0);
      var p := 0;
      while p < data.Length
        invariant 0 <= p <= data.Length
        invariant forall q :: 0 <= q < p ==> m.data[q] == data[q]
      {
        m.data[p] := data[p];
        p := p + 1;
      }
    }

    /** Reads cell (i, j). */
    method Get(i: nat, j: nat) returns (x: real)
      requires Valid() && i < rows && j < cols
      ensures x == Entry(data[..], rows, cols, i, j)
    {
      CellInRange(i, j, rows, cols);
      x := data[i * cols + j];
    }

    /** Writes cell (i, j); no other cell changes. */
    method Set(i: nat, j: nat, x: real)
      requires Valid() && i < rows && j < cols
      modifies data
      ensures Entry(data[..], rows, cols, i, j) == x
      ensures forall i', j' :: 0 <= i' < rows && 0 <= j' < cols && (i', j') != (i, j) ==>
        Entry(data[..], rows, cols, i', j') == Entry(old(data[..]), rows, cols, i', j')
    {
      CellInRange(i, j, rows, cols);
      data[i * cols + j] := x;
      forall i', j' | 0 <= i' < rows && 0 <= j' < cols && (i', j') != (i, j)
        ensures Entry(data[..], rows, cols, i', j') == Entry(old(data[..]), rows, cols, i', j')
      {
        CellInRange(i', j', rows, cols);
        if i' * cols + j' == i * cols + j {
          CellPositionUnique(i', j', i, j, cols);
        }
      }
    }

    /** Overwrites every value with x. */
    method Fill(x: real)
      modifies data
      ensures forall p :: 0 <= p < data.Length ==> data[p] == x
      ensures data[..] == Constant(data.Length, x)
    {
      var p := 0;
      while p < data.Length
        invariant 0 <= p <= data.Length
        invariant forall q :: 0 <= q < p ==> data[q] == x
      {
        data[p] := x;
        p := p + 1;
      }
    }

    /** Replaces every value v by the activation of v. */
    method ApplyActivation(act: Activation, tf: Transcendental)
      modifies data
      ensures forall p :: 0 <= p < data.Length ==> data[p] == Actf(old(data[p]), act, tf)
      ensures data[..] == Activate(old(data[..]), act, tf)
    {
      var p := 0;
      while p < data.Length
        invariant 0 <= p <= data.Length
        invariant forall q :: 0 <= q < p ==> data[q] == Actf(old(data[q]), act, tf)
        invariant forall q :: p <= q < data.Length ==> data[q] == old(data[q])
      {
        data[p] := Actf(data[p], act, tf);
        p := p + 1;
      }
    }

    /** Adds `other` value by value; both matrices have the same shape. The two may share
        their buffer, in which case every value doubles. */
    method AddInPlace(other: Matrix)
      requires Valid() && other.Valid() && other.rows == rows && other.cols == cols
      modifies data
      ensures forall p :: 0 <= p < data.Length ==> data[p] == old(data[p]) + old(other.data[p])
      ensures data[..] == AddSeq(old(data[..]), old(other.data[..]))
    {
      var p := 0;
      while p < data.Length
        invariant 0 <= p <= data.Length
        invariant forall q :: 0 <= q < p ==> data[q] == old(data[q]) + old(other.data[q])
        invariant forall q :: p <= q < data.Length ==> data[q] == old(data[q]) && other.data[q] == old(other.data[q])
      {
        data[p] := data[p] + other.data[p];
        p := p + 1;
      }
    }

    /** Divides every value by n. */
    method DivideBy(n: nat)
      requires n > 0
      modifies data
      ensures data[..] == DivSeq(old(data[..]), n)
    {
      var p := 0;
      while p < data.Length
        invariant 0 <= p <= data.Length
        invariant forall q :: 0 <= q < p ==> data[q] == old(data[q]) / (n as real)
        invariant forall q :: p <= q < data.Length ==> data[q] == old(data[q])
      {
        data[p] := data[p] / (n as real);
        p := p + 1;
      }
    }

    /** Subtracts rate times `other`, value by value; `other` has this matrix's length and
        lives in another buffer. */
    method SubScaled(other: Matrix, rate: real)
      requires other.data.Length == data.Length && other.data != data
      modifies data
      ensures data[..] == SubScaledSeq(old(data[..]), other.data[..], rate)
    {
      var p := 0;
      while p < data.Length
        invariant 0 <= p <= data.Length
        invariant forall q :: 0 <= q < p ==> data[q] == old(data[q]) - rate * other.data[q]
        invariant forall q :: p <= q < data.Length ==> data[q] == old(data[q])
      {
        data[p] := data[p] - rate * other.data[p];
        p := p + 1;
      }
      ghost var w := SubScaledSeq(old(data[..]), other.data[..], rate);
      assert |w| == |data[..]|;
      forall q | 0 <= q < |w|
        ensures data[..][q] == w[q]
      {
        assert data[q] == old(data[q]) - rate * other.data[q];
      }
      assert data[..] == w;
    }

    /** The product of a and b, a fresh a.rows x b.cols matrix. */
    static method Dot(a: Matrix, b: Matrix) returns (dst: Matrix)
      requires a.Valid() && b.Valid() && a.cols == b.rows
      ensures dst.Valid() && fresh(dst.data) && dst.rows == a.rows && dst.cols == b.cols
      ensures dst.data[..] == Product(a.data[..], a.rows, a.cols, b.data[..], b.cols)
    {
      dst := new Matrix(a.rows, b.cols, 0.0);
      var r, m := a.rows, b.cols;
      ghost var q := 0;  // the flat position of cell (i, j)
      var i := 0;
      while i < r
        invariant 0 <= i <= r && q == i * m && q <= r * m
        invariant forall p :: 0 <= p < q ==> dst.data[p] == ProductEntry(a.data[..], r, a.cols, b.data[..], m, p)
        invariant forall p :: q <= p < r * m ==> dst.data[p] == 0.0
      {
        RowEnd(i, r, m);
        var j := 0;
        while j < m
          invariant 0 <= j <= m && q == i * m + j
          invariant forall p :: 0 <= p < q ==> dst.data[p] == ProductEntry(a.data[..], r, a.cols, b.data[..], m, p)
          invariant forall p :: q <= p < r * m ==> dst.data[p] == 0.0
        {
          CellInRange(i, j, r, m);
          CellDivMod(i, j, m);
          AccumulateCell(a, b, dst, i, j);
          q := q + 1;
          j := j + 1;
        }
        assert q == (i + 1) * m;
        i := i + 1;
      }
    }

    /** The innermost loop of Dot: cell (i, j) of dst, which starts at 0, accumulates
        a(i, k) * b(k, j) for k = 0, 1, ..., a.cols - 1; no other cell changes. */
    static method AccumulateCell(a: Matrix, b: Matrix, dst: Matrix, i: nat, j: nat)
      requires a.Valid() && b.Valid() && dst.Valid() && a.cols == b.rows
      requires dst.rows == a.rows && dst.cols == b.cols && i < a.rows && j < b.cols
      requires dst.data != a.data && dst.data != b.data
      requires Entry(dst.data[..], dst.rows, dst.cols, i, j) == 0.0
      modifies dst.data
      ensures Entry(dst.data[..], dst.rows, dst.cols, i, j) == DotCell(a.data[..], a.rows, a.cols, b.data[..], b.cols, i, j, a.cols)
      ensures forall p :: 0 <= p < dst.data.Length && p != i * b.cols + j ==> dst.data[p] == old(dst.data[p])
    {
      var r, n, m := a.rows, a.cols, b.cols;
      CellInRange(i, j, r, m);
      CellDivMod(i, j, m);
      var q := i * m + j;
      var k := 0;
      while k < n
        invariant 0 <= k <= n
        invariant dst.data[q] == DotCell(a.data[..], r, n, b.data[..], m, i, j, k)
        invariant forall p :: 0 <= p < dst.data.Length && p != q ==> dst.data[p] == old(dst.data[p])
      {
        CellInRange(i, k, r, n);
        CellInRange(k, j, n, m);
        var x, y := a.data[i * n + k], b.data[k * m + j];
        assert x == Entry(a.data[..], r, n, i, k) && y == Entry(b.data[..], n, m, k, j);
        dst.data[q] := dst.data[q] + x * y;
        k := k + 1;
      }
    }

    /** Columns start .. start + count of row `row`, as a fresh 1 x count matrix. */
    method SliceRow(row: nat, start: nat, count: nat) returns (m: Matrix)
      requires Valid() && row < rows && start + count <= cols
      ensures m.Valid() && fresh(m.data) && m.rows == 1 && m.cols == count
      ensures m.data[..] == RowSlice(data[..], rows, cols, row, start, count)
      ensures forall k :: 0 <= k < count ==> m.data[k] == Entry(data[..], rows, cols, row, start + k)
    {
      m := new Matrix(1, count, 0.0);
      RowEnd(row, rows, cols);
      var k := 0;
      while k < count
        invariant 0 <= k <= count
        invariant forall q :: 0 <= q < k ==> m.data[q] == data[row * cols + start + q]
      {
        m.data[k] := data[row * cols + start + k];
        k := k + 1;
      }
    }
  }
}
