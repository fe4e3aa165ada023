/**
 * Rowwise and pairwise distances between the rows of two real matrices,
 * under a metric chosen by name from a fixed registry or given as a function.
 *
 * The Euclidean kernels return the SQUARED Euclidean distance (the radicand
 * under the square root): reals have no square root here, and the root is
 * monotone, non-negative and zero only at zero, so every property below
 * carries over to the distance itself.
 */
module Distances {
  import opened Wrappers
  import opened NdArrays

  datatype DistanceError =
    | ShapeMismatch            // rowwise inputs with different row counts
    | UnknownMetric(name: string)  // a name missing from the registry

  function Abs(v: real): (r: real)
    ensures r >= 0.0 && (r == 0.0 <==> v == 0.0)
  {
    if v < 0.0 then -v else v
  }

  /** Manhattan (L1) distance between two rows of the same width. */
  function L1(a: Row, b: Row): (r: real)
    requires |a| == |b|
    ensures r >= 0.0
    ensures r == 0.0 <==> a == b
  {
    if a == [] then 0.0
    else
      var rest := L1(a[1..], b[1..]);
      assert a == [a[0]] + a[1..] && b == [b[0]] + b[1..];
      Abs(a[0] - b[0]) + rest
  }

  /** `v * v`, kept behind a name so that the solver reasons about it through the lemmas below. */
  function Square(v: real): real { v * v }

  lemma SquarePositive(v: real)
    requires v != 0.0
    ensures Square(v) > 0.0
  {
    if v > 0.0 {
      calc { Square(v); == v * v; > 0.0 * v; == 0.0; }
    } else {
      var u := -v;
      calc { Square(v); == u * u; > 0.0 * u; == 0.0; }
    }
  }

  lemma SquareSign(v: real)
    ensures Square(v) >= 0.0
    ensures v != 0.0 ==> Square(v) > 0.0
    ensures v == 0.0 ==> Square(v) == 0.0
  {
    if v != 0.0 { SquarePositive(v); }
  }

  /** The elementwise difference `a - b` of two rows. */
  function Diff(a: Row, b: Row): (d: Row)
    requires |a| == |b|
    ensures |d| == |a| && forall k :: 0 <= k < |a| ==> d[k] == a[k] - b[k]
  {
    seq(|a|, k requires 0 <= k < |a| => a[k] - b[k])
  }

  /** The sum of the squares of the entries of a row. */
  function SumOfSquares(v: Row): (r: real)
    ensures r >= 0.0
    ensures r == 0.0 <==> forall k :: 0 <= k < |v| ==> v[k] == 0.0
  {
    if v == [] then 0.0
    else
      var rest := SumOfSquares(v[1..]);
      SquareSign(v[0]);
      assert (forall k :: 0 <= k < |v| ==> v[k] == 0.0) <==>
        v[0] == 0.0 && forall k :: 0 <= k < |v[1..]| ==> v[1..][k] == 0.0;
      Square(v[0]) + rest
  }

  /** Squared Euclidean (L2) distance between two rows of the same width: the sum of `(a - b) ** 2`. */
  function SquaredL2(a: Row, b: Row): (r: real)
    requires |a| == |b|
    ensures r >= 0.0
    ensures r == 0.0 <==> a == b
  {
    var d := Diff(a, b);
    assert (forall k :: 0 <= k < |d| ==> d[k] == 0.0) ==> a == b;
    SumOfSquares(d)
  }

  lemma {:induction false} L1Symmetric(a: Row, b: Row)
    requires |a| == |b|
    ensures L1(a, b) == L1(b, a)
  {
    if a != [] {
      L1Symmetric(a[1..], b[1..]);
    }
  }

  lemma {:induction false} SumOfSquaresOfNegation(v: Row, w: Row)
    requires |v| == |w| && forall k :: 0 <= k < |v| ==> w[k] == -v[k]
    ensures SumOfSquares(v) == SumOfSquares(w)
  {
    if v != [] {
      SumOfSquaresOfNegation(v[1..], w[1..]);
      assert Square(w[0]) == Square(v[0]);
    }
  }

  lemma SquaredL2Symmetric(a: Row, b: Row)
    requires |a| == |b|
    ensures SquaredL2(a, b) == SquaredL2(b, a)
  {
    SumOfSquaresOfNegation(Diff(a, b), Diff(b, a));
  }

  /** Every row of `X` has the width of every row of `Y` (NumPy's broadcasting would fail otherwise). */
  predicate Conformable(X: Matrix, Y: Matrix) {
    forall i, j :: 0 <= i < |X| && 0 <= j < |Y| ==> |X[i]| == |Y[j]|
  }

  // ---------------------------------------------------------------------------
  // Kernels
  // ---------------------------------------------------------------------------

  function RowwiseEuclidean(X: Matrix, Y: Matrix): (r: Result<seq<real>, DistanceError>)
    requires |X| == |Y| ==> Conformable(X, Y)
    ensures r.Failure? <==> |X| != |Y|
    ensures r.Failure? ==> r.error == ShapeMismatch
    ensures r.Success? ==> (|r.value| == |X| &&
      forall i :: 0 <= i < |X| ==> r.value[i] == SquaredL2(X[i], Y[i]))
  {
    if |X| != |Y| then Failure(ShapeMismatch)
    else Success(seq(|X|, i requires 0 <= i < |X| => SquaredL2(X[i], Y[i])))
  }

  function RowwiseManhattan(X: Matrix, Y: Matrix): (r: Result<seq<real>, DistanceError>)
    requires |X| == |Y| ==> Conformable(X, Y)
    ensures r.Failure? <==> |X| != |Y|
    ensures r.Failure? ==> r.error == ShapeMismatch
    ensures r.Success? ==> (|r.value| == |X| &&
      forall i :: 0 <= i < |X| ==> r.value[i] == L1(X[i], Y[i]))
  {
    if |X| != |Y| then Failure(ShapeMismatch)
    else Success(seq(|X|, i requires 0 <= i < |X| => L1(X[i], Y[i])))
  }

  function PairwiseEuclidean(X: Matrix, Y: Matrix): (D: Matrix)
    requires Conformable(X, Y)
    ensures |D| == |X| && HasWidth(D, |Y|)
    ensures forall i, j :: 0 <= i < |X| && 0 <= j < |Y| ==> D[i][j] == SquaredL2(X[i], Y[j])
  {
    seq(|X|, i requires 0 <= i < |X| =>
      seq(|Y|, j requires 0 <= j < |Y| => SquaredL2(X[i], Y[j])))
  }

  function PairwiseManhattan(X: Matrix, Y: Matrix): (D: Matrix)
    requires Conformable(X, Y)
    ensures |D| == |X| && HasWidth(D, |Y|)
    ensures forall i, j :: 0 <= i < |X| && 0 <= j < |Y| ==> D[i][j] == L1(X[i], Y[j])
  {
    seq(|X|, i requires 0 <= i < |X| =>
      seq(|Y|, j requires 0 <= j < |Y| => L1(X[i], Y[j])))
  }

  // ---------------------------------------------------------------------------
  // Registries and dispatch
  // ---------------------------------------------------------------------------

  /** The entries of the two registries: which kernel a name stands for. */
  datatype RowwiseKernel = RowwiseEuclideanKernel | RowwiseManhattanKernel
  datatype PairwiseKernel = PairwiseEuclideanKernel | PairwiseManhattanKernel

  const ROWWISE_DISTANCE_FUNCTIONS: map<string, RowwiseKernel> := map[
    "euclidean" := RowwiseEuclideanKernel,
    "l2" := RowwiseEuclideanKernel,
    "manhattan" := RowwiseManhattanKernel,
    "l1" := RowwiseManhattanKernel
  ]

  const PAIRWISE_DISTANCE_FUNCTIONS: map<string, PairwiseKernel> := map[
    "euclidean" := PairwiseEuclideanKernel,
    "l2" := PairwiseEuclideanKernel,
    "manhattan" := PairwiseManhattanKernel,
    "l1" := PairwiseManhattanKernel
  ]

  /** The names both registries know. */
  predicate IsEuclideanName(name: string) { name == "euclidean" || name == "l2" }
  predicate IsManhattanName(name: string) { name == "manhattan" || name == "l1" }

  /** A metric argument: a registry name, or a caller-supplied distance function used as is. */
  datatype Metric<R> = Named(name: string) | Callable(f: (Matrix, Matrix) -> Result<R, DistanceError>)

  function ApplyRowwise(kernel: RowwiseKernel, X: Matrix, Y: Matrix): Result<seq<real>, DistanceError>
    requires |X| == |Y| ==> Conformable(X, Y)
  {
    match kernel
    case RowwiseEuclideanKernel => RowwiseEuclidean(X, Y)
    case RowwiseManhattanKernel => RowwiseManhattan(X, Y)
  }

  function ApplyPairwise(kernel: PairwiseKernel, X: Matrix, Y: Matrix): Matrix
    requires Conformable(X, Y)
  {
    match kernel
    case PairwiseEuclideanKernel => PairwiseEuclidean(X, Y)
    case PairwiseManhattanKernel => PairwiseManhattan(X, Y)
  }

  /**
   * `rowwise_distances`: a callable metric is applied directly; a name is looked
   * up in the rowwise registry, and an unregistered name fails the lookup.
   */
  function RowwiseDistances(X: Matrix, Y: Matrix, metric: Metric<seq<real>> := Named("euclidean")): (r: Result<seq<real>, DistanceError>)
    requires metric.Named? && metric.name in ROWWISE_DISTANCE_FUNCTIONS && |X| == |Y| ==> Conformable(X, Y)
    ensures metric.Callable? ==> r == metric.f(X, Y)
    ensures metric.Named? && !IsEuclideanName(metric.name) && !IsManhattanName(metric.name) ==>
      r == Failure(UnknownMetric(metric.name))
    ensures metric.Named? && (IsEuclideanName(metric.name) || IsManhattanName(metric.name)) ==>
      (r.Success? <==> |X| == |Y|) &&
      (r.Failure? ==> r.error == ShapeMismatch) &&
      (r.Success? ==> (|r.value| == |X| &&
        forall i :: 0 <= i < |X| ==>
          r.value[i] == if IsEuclideanName(metric.name) then SquaredL2(X[i], Y[i]) else L1(X[i], Y[i])))
  {
    match metric
    case Callable(f) => f(X, Y)
    case Named(name) =>
      if name in ROWWISE_DISTANCE_FUNCTIONS then ApplyRowwise(ROWWISE_DISTANCE_FUNCTIONS[name], X, Y)
      else Failure(UnknownMetric(name))
  }

  /**
   * `pairwise_distances`: like `RowwiseDistances`, over the pairwise registry;
   * there is no row-count constraint.
   */
  function PairwiseDistances(X: Matrix, Y: Matrix, metric: Metric<Matrix> := Named("euclidean")): (r: Result<Matrix, DistanceError>)
    requires metric.Named? && metric.name in PAIRWISE_DISTANCE_FUNCTIONS ==> Conformable(X, Y)
    ensures metric.Callable? ==> r == metric.f(X, Y)
    ensures metric.Named? && !IsEuclideanName(metric.name) && !IsManhattanName(metric.name) ==>
      r == Failure(UnknownMetric(metric.name))
    ensures metric.Named? && (IsEuclideanName(metric.name) || IsManhattanName(metric.name)) ==>
      r.Success? && |r.value| == |X| && HasWidth(r.value, |Y|) &&
      forall i, j :: 0 <= i < |X| && 0 <= j < |Y| ==>
        r.value[i][j] == if IsEuclideanName(metric.name) then SquaredL2(X[i], Y[j]) else L1(X[i], Y[j])
  {
    match metric
    case Callable(f) => f(X, Y)
    case Named(name) =>
      if name in PAIRWISE_DISTANCE_FUNCTIONS then Success(ApplyPairwise(PAIRWISE_DISTANCE_FUNCTIONS[name], X, Y))
      else Failure(UnknownMetric(name))
  }

  // ---------------------------------------------------------------------------
  // Properties
  // ---------------------------------------------------------------------------

  /** "l2" and "euclidean", "l1" and "manhattan" resolve to the same kernels in both registries. */
  lemma AliasesResolveAlike(X: Matrix, Y: Matrix)
    requires Conformable(X, Y)
    ensures RowwiseDistances(X, Y, Named("l2")) == RowwiseDistances(X, Y, Named("euclidean"))
    ensures RowwiseDistances(X, Y, Named("l1")) == RowwiseDistances(X, Y, Named("manhattan"))
    ensures PairwiseDistances(X, Y, Named("l2")) == PairwiseDistances(X, Y, Named("euclidean"))
    ensures PairwiseDistances(X, Y, Named("l1")) == PairwiseDistances(X, Y, Named("manhattan"))
  {
  }

  /**
   * The registry lookup and the row-count check come before any arithmetic on
   * the rows, so inputs whose widths also differ get the same errors.
   */
  lemma ErrorsPrecedeWidthCheck()
    ensures RowwiseDistances([[1.0, 2.0], [3.0, 4.0]], [[1.0]], Named("l1")) == Failure(ShapeMismatch)
    ensures RowwiseDistances([[1.0, 2.0]], [[1.0]], Named("cosine")) == Failure(UnknownMetric("cosine"))
    ensures PairwiseDistances([[1.0, 2.0]], [[1.0]], Named("cosine")) == Failure(UnknownMetric("cosine"))
  {
  }

  /** Entry (i, j) of the pairwise matrix is the rowwise distance of row i of X and row j of Y. */
  lemma PairwiseMatchesRowwise(X: Matrix, Y: Matrix, name: string, i: nat, j: nat)
    requires Conformable(X, Y)
    requires IsEuclideanName(name) || IsManhattanName(name)
    requires i < |X| && j < |Y|
    ensures PairwiseDistances(X, Y, Named(name)).Success?
    ensures RowwiseDistances([X[i]], [Y[j]], Named(name)) ==
      Success([PairwiseDistances(X, Y, Named(name)).value[i][j]])
  {
    var row := RowwiseDistances([X[i]], [Y[j]], Named(name));
    var D := PairwiseDistances(X, Y, Named(name));
    assert row.Success? && |row.value| == 1;
    assert [X[i]][0] == X[i] && [Y[j]][0] == Y[j];
    assert row.value[0] == D.value[i][j];
    assert row.value == [D.value[i][j]];
  }

  /** Distances of a matrix to itself: symmetric, with a zero diagonal, for either metric. */
  lemma PairwiseSelfIsSymmetric(A: Matrix, name: string)
    requires Conformable(A, A)
    requires IsEuclideanName(name) || IsManhattanName(name)
    ensures PairwiseDistances(A, A, Named(name)).Success?
    ensures var D := PairwiseDistances(A, A, Named(name)).value;
      (forall i :: 0 <= i < |A| ==> D[i][i] == 0.0) &&
      (forall i, j :: 0 <= i < |A| && 0 <= j < |A| ==> D[i][j] == D[j][i])
  {
    var D := PairwiseDistances(A, A, Named(name)).value;
    forall i, j | 0 <= i < |A| && 0 <= j < |A|
      ensures D[i][j] == D[j][i]
    {
      L1Symmetric(A[i], A[j]);
      SquaredL2Symmetric(A[i], A[j]);
    }
  }
}
