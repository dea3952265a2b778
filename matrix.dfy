/** numpy's reshape of a flat 0/1 response vector into a demographics x columns matrix,
    in row-major order, with the two call forms the scripts use: an explicit shape
    `reshape(rows, cols)` and an inferred column count `reshape(rows, -1)`. */
module Matrix {
  import opened Scenario
  import opened Arith

  /** Why numpy refuses a reshape: the size of the vector and the requested row count. */
  datatype ShapeError = CannotReshape(size: nat, rows: nat)

  ghost predicate IsShape<T>(m: seq<seq<T>>, rows: nat, cols: nat) {
    |m| == rows && forall i :: 0 <= i < |m| ==> |m[i]| == cols
  }

  /** Concatenation of the rows, in order: the row-major reading of a matrix. */
  function Flatten<T>(m: seq<seq<T>>): (v: seq<T>) {
    if m == [] then [] else m[0] + Flatten(m[1..])
  }

  lemma RowsArithmetic(n: nat, rows: nat, cols: nat)
    requires rows > 0 && n == rows * cols
    ensures cols <= n && n - cols == (rows - 1) * cols
  {
    MulMonotone(0, rows - 1, cols);
    assert rows * cols == (rows - 1) * cols + cols;
  }

  /** Cut `v` into `rows` consecutive slices of length `cols`. */
  function Rows<T>(v: seq<T>, rows: nat, cols: nat): (m: seq<seq<T>>)
    requires |v| == rows * cols
    ensures IsShape(m, rows, cols)
    decreases rows
  {
    if rows == 0 then []
    else
      RowsArithmetic(|v|, rows, cols);
      [v[..cols]] + Rows(v[cols..], rows - 1, cols)
  }

  /** Row i of the reshaped matrix is exactly the slice v[i*cols .. (i+1)*cols). */
  lemma {:induction false} RowsSlice<T>(v: seq<T>, rows: nat, cols: nat, i: nat)
    requires |v| == rows * cols && i < rows
    ensures i * cols + cols <= |v|
    ensures Rows(v, rows, cols)[i] == v[i * cols..i * cols + cols]
    decreases rows
  {
    RowsArithmetic(|v|, rows, cols);
    if i > 0 {
      RowsSlice(v[cols..], rows - 1, cols, i - 1);
      assert i * cols == cols + (i - 1) * cols;
      assert v[cols..][(i - 1) * cols..(i - 1) * cols + cols] == v[i * cols..i * cols + cols];
    }
  }

  /** Entry (i, j) of the reshaped matrix is v[i*cols + j]. */
  lemma RowsAt<T>(v: seq<T>, rows: nat, cols: nat, i: nat, j: nat)
    requires |v| == rows * cols && i < rows && j < cols
    ensures i * cols + j < |v|
    ensures Rows(v, rows, cols)[i][j] == v[i * cols + j]
  {
    RowsSlice(v, rows, cols, i);
  }

  /** Reading the rows back in order gives the original vector. */
  lemma {:induction false} FlattenRows<T>(v: seq<T>, rows: nat, cols: nat)
    requires |v| == rows * cols
    ensures Flatten(Rows(v, rows, cols)) == v
    decreases rows
  {
    if rows > 0 {
      RowsArithmetic(|v|, rows, cols);
      FlattenRows(v[cols..], rows - 1, cols);
      var m := Rows(v, rows, cols);
      assert m[1..] == Rows(v[cols..], rows - 1, cols);
      assert v == v[..cols] + v[cols..];
    }
  }

  lemma {:induction false} FlattenLength<T>(m: seq<seq<T>>, rows: nat, cols: nat)
    requires IsShape(m, rows, cols)
    ensures |Flatten(m)| == rows * cols
    decreases rows
  {
    if rows > 0 {
      FlattenLength(m[1..], rows - 1, cols);
      assert rows * cols == (rows - 1) * cols + cols;
    }
  }

  /** Cutting a flattened rows x cols matrix into rows gives the matrix back. */
  lemma {:induction false} RowsFlatten<T>(m: seq<seq<T>>, rows: nat, cols: nat)
    requires IsShape(m, rows, cols)
    ensures |Flatten(m)| == rows * cols
    ensures Rows(Flatten(m), rows, cols) == m
    decreases rows
  {
    FlattenLength(m, rows, cols);
    if rows > 0 {
      RowsFlatten(m[1..], rows - 1, cols);
      var v := Flatten(m);
      assert v[..cols] == m[0];
      assert v[cols..] == Flatten(m[1..]);
    }
  }

  /** `array.reshape(rows, cols)`: succeeds exactly when the sizes agree; the result is
      a rows x cols matrix whose row-major reading is the input. */
  function Reshape<T>(v: seq<T>, rows: nat, cols: nat): (r: Result<seq<seq<T>>, ShapeError>)
    ensures r.Ok? <==> |v| == rows * cols
    ensures r.Ok? ==> IsShape(r.value, rows, cols) && Flatten(r.value) == v
    ensures r.Err? ==> r.error == CannotReshape(|v|, rows)
  {
    if |v| != rows * cols then Err(CannotReshape(|v|, rows))
    else
      FlattenRows(v, rows, cols);
      Ok(Rows(v, rows, cols))
  }

  /** `array.reshape(rows, -1)`: numpy infers the column count, which needs rows > 0 and
      a size divisible by rows (for rows == 0 the unknown dimension is undetermined and
      numpy raises even on an empty array). */
  function ReshapeInferred<T>(v: seq<T>, rows: nat): (r: Result<seq<seq<T>>, ShapeError>)
    ensures r.Ok? <==> rows > 0 && |v| % rows == 0
    ensures r.Ok? ==> IsShape(r.value, rows, |v| / rows) && Flatten(r.value) == v
    ensures r.Err? ==> r.error == CannotReshape(|v|, rows)
  {
    if rows == 0 || |v| % rows != 0 then Err(CannotReshape(|v|, rows))
    else Reshape(v, rows, |v| / rows)
  }

  /** Entry (i, j) of any rows x cols matrix whose row-major reading is v is v[i*cols + j]. */
  lemma ShapeAt<T>(m: seq<seq<T>>, v: seq<T>, rows: nat, cols: nat, i: nat, j: nat)
    requires IsShape(m, rows, cols) && Flatten(m) == v
    requires i < rows && j < cols
    ensures i * cols + j < |v| && m[i][j] == v[i * cols + j]
  {
    RowsFlatten(m, rows, cols);
    RowsAt(v, rows, cols, i, j);
  }

  /** Position of entry (i, j) in the row-major reading of a matrix with `cols` columns. */
  function FlatIndex(i: nat, j: nat, cols: nat): (k: nat) {
    i * cols + j
  }

  /** ShapeAt for every entry at once. */
  lemma ShapeEntries<T>(m: seq<seq<T>>, v: seq<T>, rows: nat, cols: nat)
    requires IsShape(m, rows, cols) && Flatten(m) == v
    ensures forall i, j :: 0 <= i < rows && 0 <= j < cols ==>
              FlatIndex(i, j, cols) < |v| && m[i][j] == v[FlatIndex(i, j, cols)]
  {
    forall i, j | 0 <= i < rows && 0 <= j < cols
      ensures FlatIndex(i, j, cols) < |v| && m[i][j] == v[FlatIndex(i, j, cols)]
    {
      ShapeAt(m, v, rows, cols, i, j);
    }
  }

  /** Row i of any rows x cols matrix whose row-major reading is v is the slice
      v[i*cols .. (i+1)*cols). */
  lemma ShapeRow<T>(m: seq<seq<T>>, v: seq<T>, rows: nat, cols: nat, i: nat)
    requires IsShape(m, rows, cols) && Flatten(m) == v
    requires i < rows
    ensures i * cols + cols <= |v| && m[i] == v[i * cols..i * cols + cols]
  {
    RowsFlatten(m, rows, cols);
    RowsSlice(v, rows, cols, i);
  }

  /** Row i of m is the block v[i*cols .. (i+1)*cols) of v, for every row. */
  ghost predicate RowBlocks<T>(m: seq<seq<T>>, v: seq<T>, cols: nat) {
    forall i :: 0 <= i < |m| ==> 0 <= i * cols && i * cols + cols <= |v| && m[i] == v[i * cols..i * cols + cols]
  }

  /** ShapeRow for every row at once. */
  lemma ShapeRows<T>(m: seq<seq<T>>, v: seq<T>, rows: nat, cols: nat)
    requires IsShape(m, rows, cols) && Flatten(m) == v
    ensures RowBlocks(m, v, cols)
  {
    forall i | 0 <= i < |m|
      ensures 0 <= i * cols && i * cols + cols <= |v| && m[i] == v[i * cols..i * cols + cols]
    {
      MulMonotone(0, i, cols);
      ShapeRow(m, v, rows, cols, i);
    }
  }

  /** Reshape and Flatten are inverse: a matrix is determined by its shape and its
      row-major reading. */
  lemma ReshapeFlatten<T>(m: seq<seq<T>>, rows: nat, cols: nat)
    requires IsShape(m, rows, cols)
    ensures Reshape(Flatten(m), rows, cols) == Ok(m)
  {
    RowsFlatten(m, rows, cols);
  }
}
