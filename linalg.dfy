/**
 * Row vectors and matrices over `real`, standing for the 1×n and m×n
 * numpy arrays of the network. A matrix is a sequence of rows.
 */
module LinAlg {

  /** A 1×n row vector. */
  type Row = seq<real>

  /** A row-major matrix: one `Row` per matrix row. */
  type Mat = seq<Row>

  predicate IsMat(m: Mat, rows: nat, cols: nat) {
    |m| == rows && forall r :: 0 <= r < rows ==> |m[r]| == cols
  }

  predicate SameShape(a: Mat, b: Mat) {
    |a| == |b| && forall r :: 0 <= r < |a| ==> |a[r]| == |b[r]|
  }

  /** Number of columns of a matrix (0 for a matrix without rows). */
  function Cols(m: Mat): nat {
    if |m| == 0 then 0 else |m[0]|
  }

  function Zeros(n: nat): (z: Row)
    ensures |z| == n && forall k :: 0 <= k < n ==> z[k] == 0.0
  {
    seq(n, _ => 0.0)
  }

  function ZeroMat(rows: nat, cols: nat): (z: Mat)
    ensures IsMat(z, rows, cols)
    ensures forall r, c {:trigger z[r][c]} :: 0 <= r < rows && 0 <= c < cols ==> z[r][c] == 0.0
  {
    seq(rows, _ => Zeros(cols))
  }

  /** The sum of u[k] * v[k] over k < n. */
  function Dot(u: Row, v: Row, n: nat): real
    requires n <= |u| && n <= |v|
  {
    if n == 0 then 0.0 else Dot(u, v, n - 1) + u[n - 1] * v[n - 1]
  }

  /** A dot product only reads the first n entries of each operand. */
  lemma {:induction false} DotPrefix(u: Row, v: Row, u': Row, v': Row, n: nat)
    requires n <= |u| && n <= |v| && n <= |u'| && n <= |v'|
    requires u[..n] == u'[..n] && v[..n] == v'[..n]
    ensures Dot(u, v, n) == Dot(u', v', n)
  {
    if n > 0 {
      assert u[..n - 1] == u[..n][..n - 1] && u'[..n - 1] == u'[..n][..n - 1];
      assert v[..n - 1] == v[..n][..n - 1] && v'[..n - 1] == v'[..n][..n - 1];
      assert u[n - 1] == u[..n][n - 1] && u'[n - 1] == u'[..n][n - 1];
      assert v[n - 1] == v[..n][n - 1] && v'[n - 1] == v'[..n][n - 1];
      DotPrefix(u, v, u', v', n - 1);
    }
  }

  /** Column c of a matrix. */
  function Column(m: Mat, c: nat): (col: Row)
    requires forall r :: 0 <= r < |m| ==> c < |m[r]|
    ensures |col| == |m| && forall r {:trigger col[r]} :: 0 <= r < |m| ==> col[r] == m[r][c]
  {
    seq(|m|, r requires 0 <= r < |m| => m[r][c])
  }

  /** The row vector v · m. */
  function VecMat(v: Row, m: Mat, cols: nat): (r: Row)
    requires IsMat(m, |v|, cols)
    ensures |r| == cols
    ensures forall c :: 0 <= c < cols ==> r[c] == Dot(v, Column(m, c), |v|)
  {
    seq(cols, c requires 0 <= c < cols => Dot(v, Column(m, c), |v|))
  }

  /** The row vector u · mᵀ: entry j is row j of m dotted with u. */
  function VecMatT(u: Row, m: Mat): (r: Row)
    requires forall j :: 0 <= j < |m| ==> |m[j]| == |u|
    ensures |r| == |m|
    ensures forall j :: 0 <= j < |m| ==> r[j] == Dot(u, m[j], |u|)
  {
    seq(|m|, j requires 0 <= j < |m| => Dot(u, m[j], |u|))
  }

  /** The outer product uᵀ · v. */
  function Outer(u: Row, v: Row): (m: Mat)
    ensures IsMat(m, |u|, |v|)
    ensures forall i, j {:trigger m[i][j]} :: 0 <= i < |u| && 0 <= j < |v| ==> m[i][j] == u[i] * v[j]
  {
    seq(|u|, i requires 0 <= i < |u| => seq(|v|, j requires 0 <= j < |v| => u[i] * v[j]))
  }

  function RowAdd(a: Row, b: Row): (r: Row)
    requires |a| == |b|
    ensures |r| == |a| && forall k {:trigger r[k]} :: 0 <= k < |a| ==> r[k] == a[k] + b[k]
  {
    seq(|a|, k requires 0 <= k < |a| => a[k] + b[k])
  }

  function RowSub(a: Row, b: Row): (r: Row)
    requires |a| == |b|
    ensures |r| == |a| && forall k {:trigger r[k]} :: 0 <= k < |a| ==> r[k] == a[k] - b[k]
  {
    seq(|a|, k requires 0 <= k < |a| => a[k] - b[k])
  }

  function RowScale(x: real, a: Row): (r: Row)
    ensures |r| == |a| && forall k {:trigger r[k]} :: 0 <= k < |a| ==> r[k] == x * a[k]
  {
    seq(|a|, k requires 0 <= k < |a| => x * a[k])
  }

  function MatAdd(a: Mat, b: Mat): (r: Mat)
    requires SameShape(a, b)
    ensures SameShape(r, a)
    ensures forall i, j {:trigger r[i][j]} :: 0 <= i < |a| && 0 <= j < |a[i]| ==> r[i][j] == a[i][j] + b[i][j]
  {
    seq(|a|, i requires 0 <= i < |a| => RowAdd(a[i], b[i]))
  }

  function MatSub(a: Mat, b: Mat): (r: Mat)
    requires SameShape(a, b)
    ensures SameShape(r, a)
    ensures forall i, j {:trigger r[i][j]} :: 0 <= i < |a| && 0 <= j < |a[i]| ==> r[i][j] == a[i][j] - b[i][j]
  {
    seq(|a|, i requires 0 <= i < |a| => RowSub(a[i], b[i]))
  }

  function MatScale(x: real, a: Mat): (r: Mat)
    ensures SameShape(r, a)
    ensures forall i, j {:trigger r[i][j]} :: 0 <= i < |a| && 0 <= j < |a[i]| ==> r[i][j] == x * a[i][j]
  {
    seq(|a|, i requires 0 <= i < |a| => RowScale(x, a[i]))
  }

  /** Row i of a scaled by col[i]: numpy's broadcast of a column vector. */
  function ScaleRows(a: Mat, col: Row): (r: Mat)
    requires |col| == |a|
    ensures SameShape(r, a)
    ensures forall i, j {:trigger r[i][j]} :: 0 <= i < |a| && 0 <= j < |a[i]| ==> r[i][j] == a[i][j] * col[i]
  {
    seq(|a|, i requires 0 <= i < |a| => seq(|a[i]|, j requires 0 <= j < |a[i]| => a[i][j] * col[i]))
  }

  /** Two matrices of the same shape that agree entry by entry are equal. */
  lemma MatExt(a: Mat, b: Mat)
    requires SameShape(a, b)
    requires forall i, j :: 0 <= i < |a| && 0 <= j < |a[i]| ==> a[i][j] == b[i][j]
    ensures a == b
  {
    forall i | 0 <= i < |a| ensures a[i] == b[i] {
      assert forall j :: 0 <= j < |a[i]| ==> a[i][j] == b[i][j];
    }
  }
}
