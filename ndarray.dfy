/**
 * The numeric arrays that flow between the layers and the models.
 * A cell of a feature matrix may be missing (NumPy's NaN), which is `None` here.
 */
module NdArrays {
  import opened Wrappers

  /** One scalar reading; `None` stands for NaN ("no reading this step"). */
  type Sample = Option<real>

  /** A row of a real matrix. */
  type Row = seq<real>

  /** A real matrix as a sequence of rows. */
  type Matrix = seq<Row>

  /**
   * The array handed to a preprocessing layer: a two-dimensional matrix with
   * an explicit column count (so that a matrix with no rows still has a width),
   * or an array of some other rank, whose contents do not matter to the model.
   */
  datatype NdArray = Matrix2(rows: seq<seq<Sample>>, cols: nat) | OtherRank(ndim: nat)
  {
    /** Every row has `cols` cells; an `OtherRank` array is genuinely not 2-D. */
    predicate Wf() {
      match this
      case Matrix2(rows, cols) => forall i :: 0 <= i < |rows| ==> |rows[i]| == cols
      case OtherRank(ndim) => ndim != 2
    }
  }

  /** No cell of the matrix is missing. */
  predicate Complete(rows: seq<seq<Sample>>) {
    forall i, c :: 0 <= i < |rows| && 0 <= c < |rows[i]| ==> rows[i][c].Some?
  }

  /** Column `c` of a matrix, top row first. */
  function Column<T>(rows: seq<seq<T>>, c: nat): (col: seq<T>)
    requires forall i :: 0 <= i < |rows| ==> c < |rows[i]|
    ensures |col| == |rows|
  {
    seq(|rows|, i requires 0 <= i < |rows| => rows[i][c])
  }

  /** The real matrix held by a matrix with no missing cell. */
  function Values(rows: seq<seq<Sample>>): (m: Matrix)
    requires Complete(rows)
    ensures |m| == |rows|
    ensures forall i :: 0 <= i < |rows| ==> |m[i]| == |rows[i]|
    ensures forall i, c :: 0 <= i < |rows| && 0 <= c < |rows[i]| ==> Some(m[i][c]) == rows[i][c]
  {
    seq(|rows|, i requires 0 <= i < |rows| =>
      seq(|rows[i]|, c requires 0 <= c < |rows[i]| => rows[i][c].value))
  }

  /** Every row of `m` has `width` entries. */
  predicate HasWidth(m: Matrix, width: nat) {
    forall i :: 0 <= i < |m| ==> |m[i]| == width
  }
}
