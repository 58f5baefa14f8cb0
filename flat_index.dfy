/** Row-major index arithmetic shared by every matrix in the model: cell (i, j) of a
    rows x cols matrix lives at flat position i * cols + j. */
module FlatIndex {

  /** Multiplication by a natural number is monotone. */
  lemma MulMono(a: nat, b: nat, c: nat)
    requires a <= b
    ensures a * c <= b * c
  {
    var d: nat := b - a;
    assert b * c == a * c + d * c;
  }

  /** The first position after row i is still inside the matrix. */
  lemma RowEnd(i: nat, rows: nat, cols: nat)
    requires i < rows
    ensures i * cols + cols <= rows * cols
  {
    MulMono(i + 1, rows, cols);
  }

  /** Every cell of the matrix has a flat position inside the buffer. */
  lemma CellInRange(i: nat, j: nat, rows: nat, cols: nat)
    requires i < rows && j < cols
    ensures i * cols + j < rows * cols
  {
    RowEnd(i, rows, cols);
  }

  /** The flat position of cell (i, j) gives back its row and its column. */
  lemma CellDivMod(i: nat, j: nat, cols: nat)
    requires j < cols
    ensures (i * cols + j) / cols == i && (i * cols + j) % cols == j
  {
    var p := i * cols + j;
    var q, r := p / cols, p % cols;
    assert p == q * cols + r && 0 <= r < cols;
    if q < i {
      MulMono(q + 1, i, cols);
      assert false;
    } else if i < q {
      MulMono(i + 1, q, cols);
      assert false;
    }
  }

  /** Every flat position inside the buffer is the position of exactly one cell. */
  lemma PositionCell(p: nat, rows: nat, cols: nat)
    requires p < rows * cols
    ensures cols > 0 && p / cols < rows && p % cols < cols
    ensures p == (p / cols) * cols + p % cols
  {
    var q := p / cols;
    if rows <= q {
      MulMono(rows, q, cols);
      assert false;
    }
  }

  /** Two cells with the same flat position are the same cell. */
  lemma CellPositionUnique(i1: nat, j1: nat, i2: nat, j2: nat, cols: nat)
    requires j1 < cols && j2 < cols
    requires i1 * cols + j1 == i2 * cols + j2
    ensures i1 == i2 && j1 == j2
  {
    CellDivMod(i1, j1, cols);
    CellDivMod(i2, j2, cols);
  }
}
