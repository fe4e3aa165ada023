/**
 * The k-nearest-neighbour localizer.
 *
 * `fit` stores the (preprocessed) training fingerprints and their 2-D
 * positions; `predict` measures, for every query fingerprint, its distance to
 * every training fingerprint, picks the k nearest and returns the mean of
 * their positions.
 *
 * Distances are kept squared: the model computes the radicand of `_dist`
 * (`|a|^2 + |b|^2 - 2 a.b`), which picks the same neighbours as its square root.
 * The choice of the k nearest is specified relationally (`IsKNearest`: any k
 * indices no farther than the rest, ties broken any way); `Nearest` is one
 * such choice, and every property below about a choice holds for all of them.
 */
module Knn {
  import opened Wrappers
  import opened NdArrays
  import opened Distances
  import opened KalmanFilter
  import opened BaseModels

  // ---------------------------------------------------------------------------
  // `_dist`: the squared-norm expansion of the Euclidean distance
  // ---------------------------------------------------------------------------

  /** The dot product `a . b` of two rows of the same width. */
  function Dot(a: Row, b: Row): real
    requires |a| == |b|
  {
    if a == [] then 0.0 else a[0] * b[0] + Dot(a[1..], b[1..])
  }

  /** One entry of `A_sq + B_sq - 2 * cross`: the squared norms of both rows less twice their dot product. */
  function Radicand(a: Row, b: Row): real
    requires |a| == |b|
  {
    SumOfSquares(a) + SumOfSquares(b) - 2.0 * Dot(a, b)
  }

  /** Over exact arithmetic the expansion is the squared Euclidean distance, so it is never negative. */
  lemma {:induction false} RadicandIsSquaredL2(a: Row, b: Row)
    requires |a| == |b|
    ensures Radicand(a, b) == SquaredL2(a, b)
    decreases |a|
  {
    if a != [] {
      RadicandIsSquaredL2(a[1..], b[1..]);
      assert Diff(a, b)[1..] == Diff(a[1..], b[1..]);
      assert Square(a[0] - b[0]) == Square(a[0]) + Square(b[0]) - 2.0 * (a[0] * b[0]);
    }
  }

  /** Every row of `A` has width `width`, and so has every row of `B`. */
  predicate SameWidth(A: Matrix, B: Matrix, width: nat) {
    HasWidth(A, width) && HasWidth(B, width)
  }

  /** `_dist(A, B)`, squared: an N x M matrix of expansions, one per pair of a row of `A` and a row of `B`. */
  function DistMatrix(A: Matrix, B: Matrix, width: nat): (D: Matrix)
    requires SameWidth(A, B, width)
    ensures |D| == |A| && HasWidth(D, |B|)
  {
    seq(|A|, i requires 0 <= i < |A| => seq(|B|, j requires 0 <= j < |B| => Radicand(A[i], B[j])))
  }

  /** Entry (i, j) of `_dist(A, B)` is the squared distance of `A[i]` and `B[j]`. */
  lemma DistMatrixIsSquaredL2(A: Matrix, B: Matrix, width: nat)
    requires SameWidth(A, B, width)
    ensures forall i, j :: 0 <= i < |A| && 0 <= j < |B| ==> DistMatrix(A, B, width)[i][j] == SquaredL2(A[i], B[j])
  {
    forall i, j | 0 <= i < |A| && 0 <= j < |B| ensures Radicand(A[i], B[j]) == SquaredL2(A[i], B[j]) {
      RadicandIsSquaredL2(A[i], B[j]);
    }
  }

  /** The squared distances of the query `q` to every training row, in training order. */
  function DistancesTo(A: Matrix, q: Row): (d: seq<real>)
    requires HasWidth(A, |q|)
    ensures |d| == |A|
    ensures forall i :: 0 <= i < |A| ==> d[i] >= 0.0 && (d[i] == 0.0 <==> A[i] == q)
  {
    seq(|A|, i requires 0 <= i < |A| => SquaredL2(A[i], q))
  }

  /** Column j of `_dist(A, B)` (`dists[:, j]`) holds the distances to query j alone. */
  lemma ColumnOfDistMatrix(A: Matrix, B: Matrix, width: nat, j: nat)
    requires SameWidth(A, B, width) && j < |B|
    ensures Column(DistMatrix(A, B, width), j) == DistancesTo(A, B[j])
  {
    DistMatrixIsSquaredL2(A, B, width);
  }

  // ---------------------------------------------------------------------------
  // `argpartition(d, k)[:k]`: the k nearest training rows
  // ---------------------------------------------------------------------------

  predicate Distinct(s: seq<nat>) {
    forall a, b :: 0 <= a < b < |s| ==> s[a] != s[b]
  }

  /** `sel` is a valid `argpartition(d, k)[:k]`: k distinct indices, none farther than any index left out. */
  predicate IsKNearest(d: seq<real>, k: nat, sel: seq<nat>) {
    |sel| == k && Distinct(sel) &&
    (forall a :: 0 <= a < k ==> sel[a] < |d|) &&
    (forall a, i :: 0 <= a < k && 0 <= i < |d| && i !in sel ==> d[sel[a]] <= d[i])
  }

  /** Fewer than n distinct indices leave some index below n unused. */
  lemma {:induction false} FreeIndexExists(taken: seq<nat>, n: nat)
    requires Distinct(taken) && |taken| < n
    ensures exists i :: 0 <= i < n && i !in taken
    decreases n
  {
    if n - 1 in taken {
      var p :| 0 <= p < |taken| && taken[p] == n - 1;
      var rest := taken[..p] + taken[p + 1..];
      assert taken == taken[..p] + [n - 1] + taken[p + 1..];
      assert Distinct(rest) by {
        forall a, b | 0 <= a < b < |rest| ensures rest[a] != rest[b] {
          var a' := if a < p then a else a + 1;
          var b' := if b < p then b else b + 1;
          assert rest[a] == taken[a'] && rest[b] == taken[b'];
        }
      }
      FreeIndexExists(rest, n - 1);
      var i :| 0 <= i < n - 1 && i !in rest;
      assert i !in taken;
    }
  }

  /** The index below n, outside `taken`, with the smallest distance (the lowest such index on a tie). */
  function ArgMinOutside(d: seq<real>, taken: seq<nat>, n: nat): (m: Option<nat>)
    requires n <= |d|
    ensures m.None? <==> forall i :: 0 <= i < n ==> i in taken
    ensures m.Some? ==> m.value < n && m.value !in taken
    ensures m.Some? ==> forall i :: 0 <= i < n && i !in taken ==> d[m.value] <= d[i]
    decreases n
  {
    if n == 0 then None
    else
      var rest := ArgMinOutside(d, taken, n - 1);
      if n - 1 in taken then rest
      else if rest.None? || d[n - 1] < d[rest.value] then Some(n - 1)
      else rest
  }

  /** One valid choice of the k nearest: the nearest, then the nearest of the others, k times. */
  function Nearest(d: seq<real>, k: nat): (sel: seq<nat>)
    requires k <= |d|
    ensures IsKNearest(d, k, sel)
    decreases k
  {
    if k == 0 then []
    else
      var s := Nearest(d, k - 1);
      FreeIndexExists(s, |d|);
      var m := ArgMinOutside(d, s, |d|).value;
      var sel := s + [m];
      assert forall i :: i !in sel ==> i !in s && i != m;
      sel
  }

  // ---------------------------------------------------------------------------
  // `np.mean(nn_y, axis=0)`: the mean of the chosen labels
  // ---------------------------------------------------------------------------

  /** Every chosen index has a label with a coordinate `c`. */
  predicate Labelled(Y: Matrix, sel: seq<nat>, c: nat) {
    forall a :: 0 <= a < |sel| ==> sel[a] < |Y| && c < |Y[sel[a]]|
  }

  /** Coordinate `c` summed over the labels of the chosen indices. */
  function LabelSum(Y: Matrix, sel: seq<nat>, c: nat): real
    requires Labelled(Y, sel, c)
    decreases |sel|
  {
    if sel == [] then 0.0 else Y[sel[0]][c] + LabelSum(Y, sel[1..], c)
  }

  /** Coordinate `c` of the mean label of the chosen indices. */
  function Mean(Y: Matrix, sel: seq<nat>, c: nat): real
    requires |sel| > 0 && Labelled(Y, sel, c)
  {
    LabelSum(Y, sel, c) / (|sel| as real)
  }

  /** The smallest coordinate `c` among the chosen labels. */
  function MinLabel(Y: Matrix, sel: seq<nat>, c: nat): (m: real)
    requires |sel| > 0 && Labelled(Y, sel, c)
    ensures exists a :: 0 <= a < |sel| && Y[sel[a]][c] == m
    ensures forall a :: 0 <= a < |sel| ==> m <= Y[sel[a]][c]
    decreases |sel|
  {
    if |sel| == 1 then Y[sel[0]][c]
    else
      var rest := MinLabel(Y, sel[1..], c);
      assert forall a :: 1 <= a < |sel| ==> sel[a] == sel[1..][a - 1];
      if Y[sel[0]][c] <= rest then Y[sel[0]][c] else rest
  }

  /** The largest coordinate `c` among the chosen labels. */
  function MaxLabel(Y: Matrix, sel: seq<nat>, c: nat): (m: real)
    requires |sel| > 0 && Labelled(Y, sel, c)
    ensures exists a :: 0 <= a < |sel| && Y[sel[a]][c] == m
    ensures forall a :: 0 <= a < |sel| ==> Y[sel[a]][c] <= m
    decreases |sel|
  {
    if |sel| == 1 then Y[sel[0]][c]
    else
      var rest := MaxLabel(Y, sel[1..], c);
      assert forall a :: 1 <= a < |sel| ==> sel[a] == sel[1..][a - 1];
      if Y[sel[0]][c] >= rest then Y[sel[0]][c] else rest
  }

  /** Labels between `lo` and `hi` sum to between `lo` and `hi` times their number. */
  lemma {:induction false} LabelSumBounds(Y: Matrix, sel: seq<nat>, c: nat, lo: real, hi: real)
    requires Labelled(Y, sel, c)
    requires forall a :: 0 <= a < |sel| ==> lo <= Y[sel[a]][c] <= hi
    ensures lo * (|sel| as real) <= LabelSum(Y, sel, c) <= hi * (|sel| as real)
    decreases |sel|
  {
    if sel != [] {
      assert forall a :: 0 <= a < |sel| - 1 ==> sel[1..][a] == sel[a + 1];
      LabelSumBounds(Y, sel[1..], c, lo, hi);
      AddBounded(lo, Y[sel[0]][c], hi, LabelSum(Y, sel[1..], c), |sel[1..]| as real);
      assert (|sel| as real) == (|sel[1..]| as real) + 1.0;
    }
  }

  /** One more term between `lo` and `hi` raises both bounds of a sum of n terms by one step. */
  lemma AddBounded(lo: real, y: real, hi: real, s: real, n: real)
    requires lo <= y <= hi && lo * n <= s <= hi * n
    ensures lo * (n + 1.0) <= y + s <= hi * (n + 1.0)
  {
    assert lo * (n + 1.0) == lo * n + lo && hi * (n + 1.0) == hi * n + hi;
  }

  /** Dividing by a positive count keeps bounds: `lo * n <= s <= hi * n` gives `lo <= s / n <= hi`. */
  lemma DivideBounds(lo: real, s: real, hi: real, n: real)
    requires n > 0.0 && lo * n <= s <= hi * n
    ensures lo <= s / n <= hi
  {
    assert (s / n) * n == s;
  }

  /** Labels between `lo` and `hi` have their mean between `lo` and `hi`. */
  lemma MeanBounds(Y: Matrix, sel: seq<nat>, c: nat, lo: real, hi: real)
    requires |sel| > 0 && Labelled(Y, sel, c)
    requires forall a :: 0 <= a < |sel| ==> lo <= Y[sel[a]][c] <= hi
    ensures lo <= Mean(Y, sel, c) <= hi
  {
    LabelSumBounds(Y, sel, c, lo, hi);
    DivideBounds(lo, LabelSum(Y, sel, c), hi, |sel| as real);
  }

  /** Each coordinate of the mean lies between the smallest and the largest chosen label. */
  lemma MeanBetweenExtremes(Y: Matrix, sel: seq<nat>, c: nat)
    requires |sel| > 0 && Labelled(Y, sel, c)
    ensures MinLabel(Y, sel, c) <= Mean(Y, sel, c) <= MaxLabel(Y, sel, c)
  {
    MeanBounds(Y, sel, c, MinLabel(Y, sel, c), MaxLabel(Y, sel, c));
  }

  // ---------------------------------------------------------------------------
  // `_predict`, one query row at a time, and as a whole
  // ---------------------------------------------------------------------------

  /** Labels usable for `n` training rows: a 2-D position for each of them. */
  predicate LabelsFor(n: nat, Y: Matrix) {
    n <= |Y| && HasWidth(Y, 2)
  }

  /** `nn_idx`, `nn_y` and their mean: the mean position of the k nearest (those `Nearest` picks) for distances `d`. */
  function MeanOfNearest(k: nat, Y: Matrix, d: seq<real>): (p: Row)
    requires 1 <= k < |d| && LabelsFor(|d|, Y)
    ensures |p| == 2
  {
    var sel := Nearest(d, k);
    [Mean(Y, sel, 0), Mean(Y, sel, 1)]
  }

  /** The prediction for query `q`: the mean position of its k nearest training rows. */
  function RowPrediction(k: nat, A: Matrix, Y: Matrix, q: Row): (p: Row)
    requires 1 <= k < |A| && HasWidth(A, |q|) && LabelsFor(|A|, Y)
    ensures |p| == 2
  {
    MeanOfNearest(k, Y, DistancesTo(A, q))
  }

  /**
   * The prediction for `q` is the mean position of a valid choice of its k
   * nearest training rows, and each of its coordinates lies between two of the
   * chosen positions.
   */
  lemma RowPredictionIsMeanOfNearest(k: nat, A: Matrix, Y: Matrix, q: Row)
    requires 1 <= k < |A| && HasWidth(A, |q|) && LabelsFor(|A|, Y)
    ensures var sel := Nearest(DistancesTo(A, q), k);
      IsKNearest(DistancesTo(A, q), k, sel) && Labelled(Y, sel, 0) && Labelled(Y, sel, 1) &&
      RowPrediction(k, A, Y, q) == [Mean(Y, sel, 0), Mean(Y, sel, 1)]
    ensures forall c :: 0 <= c < 2 ==> exists a, b :: (0 <= a < k && 0 <= b < k &&
      var sel := Nearest(DistancesTo(A, q), k);
      Y[sel[a]][c] <= RowPrediction(k, A, Y, q)[c] <= Y[sel[b]][c])
  {
    var sel := Nearest(DistancesTo(A, q), k);
    PredictionWithinChosenLabels(k, A, Y, q, sel, 0);
    PredictionWithinChosenLabels(k, A, Y, q, sel, 1);
  }

  /**
   * Whichever k nearest rows are chosen, each coordinate of their mean
   * position lies between the chosen rows' extremes, so between the smallest
   * and largest coordinate of all training positions.
   */
  lemma PredictionWithinChosenLabels(k: nat, A: Matrix, Y: Matrix, q: Row, sel: seq<nat>, c: nat)
    requires 1 <= k && HasWidth(A, |q|) && LabelsFor(|A|, Y) && c < 2
    requires IsKNearest(DistancesTo(A, q), k, sel)
    ensures Labelled(Y, sel, c)
    ensures exists a, b :: 0 <= a < k && 0 <= b < k && Y[sel[a]][c] <= Mean(Y, sel, c) <= Y[sel[b]][c]
  {
    MeanBetweenExtremes(Y, sel, c);
  }

  /** A single nearest index is no farther than any index at all. */
  lemma SingleNearestIsClosest(d: seq<real>, sel: seq<nat>, i: nat)
    requires IsKNearest(d, 1, sel) && i < |d|
    ensures d[sel[0]] <= d[i]
  {
  }

  /**
   * With k = 1, a query equal to exactly one training row has that row as its
   * only nearest neighbour, and its prediction is that row's position.
   */
  lemma OneNearestNeighbourOfExactMatch(A: Matrix, Y: Matrix, q: Row, i: nat, sel: seq<nat>)
    requires HasWidth(A, |q|) && LabelsFor(|A|, Y)
    requires i < |A| && A[i] == q && forall r :: 0 <= r < |A| && r != i ==> A[r] != q
    requires IsKNearest(DistancesTo(A, q), 1, sel)
    ensures sel == [i]
    ensures Labelled(Y, sel, 0) && Labelled(Y, sel, 1)
    ensures [Mean(Y, sel, 0), Mean(Y, sel, 1)] == Y[i]
  {
    var d, s := DistancesTo(A, q), sel[0];
    assert d[i] == 0.0 && sel == [s];
    SingleNearestIsClosest(d, sel, i);
    assert s == i;
    assert sel[1..] == [];
    assert LabelSum(Y, sel, 0) == Y[i][0] + LabelSum(Y, [], 0);
    assert LabelSum(Y, sel, 1) == Y[i][1] + LabelSum(Y, [], 1);
    assert |Y[i]| == 2;
  }

  lemma OneNearestPredictsExactMatch(A: Matrix, Y: Matrix, q: Row, i: nat)
    requires 1 < |A| && HasWidth(A, |q|) && LabelsFor(|A|, Y)
    requires i < |A| && A[i] == q && forall r :: 0 <= r < |A| && r != i ==> A[r] != q
    ensures RowPrediction(1, A, Y, q) == Y[i]
  {
    OneNearestNeighbourOfExactMatch(A, Y, q, i, Nearest(DistancesTo(A, q), 1));
  }

  /** Errors `fit` and `predict` can raise. */
  datatype ModelError =
    | Preprocessing(cause: LayerError)   // raised by a preprocessing layer
    | WidthMismatch                      // `A @ B.T` with training and query widths that differ
    | KthOutOfBounds                     // `argpartition` with k not below the number of training rows

  /** Training data `_predict` can use: a complete 2-D fingerprint matrix and a 2-D position per row. */
  predicate TrainedData(XT: NdArray, YT: Matrix) {
    XT.Matrix2? && XT.Wf() && Complete(XT.rows) && LabelsFor(|XT.rows|, YT)
  }

  /** A query `_predict` can measure: a complete 2-D matrix. */
  predicate QueryOk(X: NdArray) {
    X.Matrix2? && X.Wf() && Complete(X.rows)
  }

  /**
   * `_predict(X)` as a value: the width check of `A @ B.T`, the distance
   * matrix, then, for each query row in turn, `argpartition` on its column
   * (which fails on the first row when k is not below the number of training
   * rows) and the mean position.
   */
  function PredictSpec(k: nat, XT: NdArray, YT: Matrix, X: NdArray): (r: Result<Matrix, ModelError>)
    requires 1 <= k && TrainedData(XT, YT) && QueryOk(X)
    ensures XT.cols != X.cols ==> r == Failure(WidthMismatch)
    ensures XT.cols == X.cols && |X.rows| > 0 && k >= |XT.rows| ==> r == Failure(KthOutOfBounds)
    ensures XT.cols == X.cols && (|X.rows| == 0 || k < |XT.rows|) ==> r.Success?
    ensures r.Success? ==> |r.value| == |X.rows| && HasWidth(r.value, 2)
  {
    if XT.cols != X.cols then Failure(WidthMismatch)
    else if |X.rows| > 0 && k >= |XT.rows| then Failure(KthOutOfBounds)
    else
      Success(MeansByColumn(k, YT, DistMatrix(Values(XT.rows), Values(X.rows), X.cols), |X.rows|))
  }

  /** The loop of `_predict` as a value: for each of the M columns of `D`, the mean position of its k nearest rows. */
  function MeansByColumn(k: nat, YT: Matrix, D: Matrix, M: nat): (P: Matrix)
    requires HasWidth(D, M) && LabelsFor(|D|, YT) && (M > 0 ==> 1 <= k < |D|)
    ensures |P| == M && HasWidth(P, 2)
  {
    seq(M, j requires 0 <= j < M => MeanOfNearest(k, YT, Column(D, j)))
  }

  /** Row j of a successful prediction is the prediction for query row j on its own. */
  lemma PredictionIsPerRow(k: nat, XT: NdArray, YT: Matrix, X: NdArray, j: nat)
    requires 1 <= k && TrainedData(XT, YT) && QueryOk(X) && j < |X.rows|
    requires PredictSpec(k, XT, YT, X).Success?
    ensures |Values(XT.rows)| > k && HasWidth(Values(XT.rows), |Values(X.rows)[j]|)
    ensures PredictSpec(k, XT, YT, X).value[j] == RowPrediction(k, Values(XT.rows), YT, Values(X.rows)[j])
  {
    ColumnOfDistMatrix(Values(XT.rows), Values(X.rows), X.cols, j);
  }

  /** Two queries that share a row share its prediction: no query row affects another's. */
  lemma PredictionRowsAreIndependent(k: nat, XT: NdArray, YT: Matrix, X1: NdArray, X2: NdArray, j1: nat, j2: nat)
    requires 1 <= k && TrainedData(XT, YT) && QueryOk(X1) && QueryOk(X2) && X1.cols == X2.cols
    requires j1 < |X1.rows| && j2 < |X2.rows| && X1.rows[j1] == X2.rows[j2]
    ensures PredictSpec(k, XT, YT, X1).Success? == PredictSpec(k, XT, YT, X2).Success?
    ensures PredictSpec(k, XT, YT, X1).Success? ==>
      PredictSpec(k, XT, YT, X1).value[j1] == PredictSpec(k, XT, YT, X2).value[j2]
  {
    if PredictSpec(k, XT, YT, X1).Success? {
      PredictionIsPerRow(k, XT, YT, X1, j1);
      PredictionIsPerRow(k, XT, YT, X2, j2);
      assert Values(X1.rows)[j1] == Values(X2.rows)[j2];
    }
  }

  /** Distinct rows of a complete matrix hold distinct real rows. */
  lemma DistinctValues(rows: seq<seq<Sample>>, a: nat, b: nat)
    requires Complete(rows) && a < |rows| && b < |rows| && rows[a] != rows[b]
    ensures Values(rows)[a] != Values(rows)[b]
  {
    var m := Values(rows);
    if |rows[a]| == |rows[b]| {
      var c :| 0 <= c < |rows[a]| && rows[a][c] != rows[b][c];
      assert m[a][c] != m[b][c];
    }
  }

  /**
   * Predicting, with k = 1, the training fingerprints themselves (all distinct)
   * gives back the training positions.
   */
  lemma OneNearestReproducesTrainingLabels(XT: NdArray, YT: Matrix)
    requires TrainedData(XT, YT) && |XT.rows| > 1
    requires forall a, b :: 0 <= a < b < |XT.rows| ==> XT.rows[a] != XT.rows[b]
    ensures QueryOk(XT) && PredictSpec(1, XT, YT, XT) == Success(YT[..|XT.rows|])
  {
    var A := Values(XT.rows);
    var P := PredictSpec(1, XT, YT, XT).value;
    forall j | 0 <= j < |XT.rows|
      ensures P[j] == YT[j]
    {
      PredictionIsPerRow(1, XT, YT, XT, j);
      forall r | 0 <= r < |A| && r != j
        ensures A[r] != A[j]
      {
        DistinctValues(XT.rows, r, j);
      }
      OneNearestPredictsExactMatch(A, YT, A[j], j);
    }
    assert P == YT[..|XT.rows|];
  }

  /** The contents of a 2-D array, row by row. */
  function Contents(a: array2<real>): (m: Matrix)
    reads a
    ensures |m| == a.Length0 && HasWidth(m, a.Length1)
    ensures forall i, c :: 0 <= i < a.Length0 && 0 <= c < a.Length1 ==> m[i][c] == a[i, c]
  {
    seq(a.Length0, i requires 0 <= i < a.Length0 reads a =>
      seq(a.Length1, c requires 0 <= c < a.Length1 reads a => a[i, c]))
  }

  /** An M x 2 array whose every row holds the two entries of a row of `m` has `m` as its contents. */
  lemma ContentsOfPairs(a: array2<real>, m: Matrix)
    requires a.Length1 == 2 && |m| == a.Length0 && HasWidth(m, 2)
    requires forall r :: 0 <= r < |m| ==> a[r, 0] == m[r][0] && a[r, 1] == m[r][1]
    ensures Contents(a) == m
  {
    forall r | 0 <= r < |m| ensures Contents(a)[r] == m[r] {
      assert Contents(a)[r][0] == m[r][0] && Contents(a)[r][1] == m[r][1];
    }
  }

  /**
   * The loop of `_predict` over a distance matrix `D` with M columns: a fresh
   * M x 2 array filled row by row with the mean position of the k nearest
   * training rows, or the `argpartition` error on the first row when k is not
   * below the number of training rows.
   */
  method FillMeans(k: nat, YT: Matrix, D: Matrix, M: nat) returns (res: Result<array2<real>, ModelError>)
    requires k >= 1 && HasWidth(D, M) && LabelsFor(|D|, YT)
    ensures res.Success? <==> M == 0 || k < |D|
    ensures res.Failure? ==> res.error == KthOutOfBounds
    ensures res.Success? ==> fresh(res.value) && Contents(res.value) == MeansByColumn(k, YT, D, M)
  {
    var out := new real[M, 2]((_, _) => 0.0);
    var j := 0;
    while j < M
      invariant j <= M && (j > 0 ==> k < |D|)
      invariant forall r :: 0 <= r < j ==> out[r, 0] == MeansByColumn(k, YT, D, M)[r][0] && out[r, 1] == MeansByColumn(k, YT, D, M)[r][1]
    {
      if k >= |D| {
        return Failure(KthOutOfBounds);
      }
      var p := MeanOfNearest(k, YT, Column(D, j));
      assert p == MeansByColumn(k, YT, D, M)[j];
      out[j, 0] := p[0];
      out[j, 1] := p[1];
      j := j + 1;
    }
    ContentsOfPairs(out, MeansByColumn(k, YT, D, M));
    return Success(out);
  }

  // ---------------------------------------------------------------------------
  // The localizer
  // ---------------------------------------------------------------------------

  /** `kNNLocalizer`: a model with preprocessing layers, k, and the training data once fitted. */
  class KnnLocalizer {
    const k: nat
    /** The preprocessing part the model inherits. */
    const base: BaseModel
    var XTrain: Option<NdArray>
    var YTrain: Option<Matrix>
    ghost var Repr: set<object>

    ghost predicate Valid()
      reads this, Repr
    {
      this in Repr && base in Repr && base.Repr <= Repr && this !in base.Repr && base.Valid() && k >= 1
    }

    /** The training data is there, in a form `_predict` can use. */
    predicate Trained()
      reads this
    {
      XTrain.Some? && YTrain.Some? && TrainedData(XTrain.value, YTrain.value)
    }

    /** `__init__(k=5, layers=None)`: no training data yet. */
    constructor (k: nat := 5, layers: Option<seq<KalmanFilterLayer>> := None)
      requires k >= 1
      requires layers.Some? ==> forall l :: 0 <= l < |layers.value| ==> layers.value[l].Valid()
      requires layers.Some? ==> forall l, m :: 0 <= l < m < |layers.value| ==>
        layers.value[l].Repr !! layers.value[m].Repr
      ensures Valid() && fresh(Repr - ReprOf(base.layers))
      ensures this.k == k && base.layers == (if layers.None? then [] else layers.value)
      ensures XTrain == None && YTrain == None
    {
      this.k := k;
      var b := new BaseModel(layers);
      base := b;
      XTrain := None;
      YTrain := None;
      Repr := {this} + b.Repr;
    }

    /** `_fit(X, y)`: stores the data as given and returns the model itself. */
    method FitCore(X: NdArray, y: Option<Matrix>) returns (m: KnnLocalizer)
      requires Valid()
      modifies this
      ensures Valid() && Repr == old(Repr)
      ensures XTrain == Some(X) && YTrain == y && m == this
    {
      XTrain := Some(X);
      YTrain := y;
      m := this;
    }

    /**
     * The `self._apply_preprocessing(X)` step `fit` and `predict` share: the
     * layers run in order and keep their new state; the training data stays.
     */
    method Preprocess(X: NdArray) returns (Xp: Result<NdArray, LayerError>)
      requires Valid() && X.Wf()
      modifies Repr
      ensures Valid() && fresh(Repr - old(Repr))
      ensures XTrain == old(XTrain) && YTrain == old(YTrain)
      ensures (base.Views(), Xp) == Pipeline(KalmanTransform, old(base.Views()), X)
      ensures Xp.Success? ==> Xp.value.Wf() && (QueryOk(X) ==> QueryOk(Xp.value))
    {
      ghost var views := base.Views();
      Xp := base.ApplyPreprocessing(X);
      Repr := Repr + base.Repr;
      KalmanPipelineKeepsShape(views, X);
    }

    /**
     * `fit(X, y)`: the layers preprocess `X` (and keep their new state);
     * `_fit` stores the result with `y` and `fit` returns the model. If a
     * layer fails, nothing is stored.
     */
    method Fit(X: NdArray, y: Option<Matrix> := None) returns (res: Result<KnnLocalizer, ModelError>)
      requires Valid() && X.Wf()
      modifies Repr
      ensures Valid() && fresh(Repr - old(Repr))
      ensures var p := Pipeline(KalmanTransform, old(base.Views()), X);
        base.Views() == p.0 &&
        if p.1.Failure? then res == Failure(Preprocessing(p.1.error)) && XTrain == old(XTrain) && YTrain == old(YTrain)
        else res == Success(this) && XTrain == Some(p.1.value) && YTrain == y
    {
      var Xp := Preprocess(X);
      if Xp.Failure? {
        return Failure(Preprocessing(Xp.error));
      }
      var m := FitCore(Xp.value, y);
      res := Success(m);
    }

    /**
     * `_predict(X)`: the distances of every query row to every training row,
     * then, query row by query row, the mean position of the k nearest, written
     * into a fresh M x 2 array.
     */
    method PredictCore(X: NdArray) returns (res: Result<array2<real>, ModelError>)
      requires k >= 1 && Trained() && QueryOk(X)
      ensures var spec := PredictSpec(k, XTrain.value, YTrain.value, X);
        res.Success? == spec.Success? &&
        (res.Failure? ==> res.error == spec.error) &&
        (res.Success? ==> fresh(res.value) && Contents(res.value) == spec.value)
    {
      var XT, YT := XTrain.value, YTrain.value;
      if XT.cols != X.cols {
        return Failure(WidthMismatch);
      }
      var dists := DistMatrix(Values(XT.rows), Values(X.rows), X.cols);
      res := FillMeans(k, YT, dists, |X.rows|);
    }

    /**
     * `predict(X)`: the layers preprocess `X`, starting from the state `fit`
     * left them in, and `_predict` runs on the result. The query may miss
     * readings as long as preprocessing fills them (see `KalmanPipelineFillsGaps`).
     */
    method Predict(X: NdArray) returns (res: Result<array2<real>, ModelError>)
      requires Valid() && Trained() && X.Wf()
      requires var p := Pipeline(KalmanTransform, base.Views(), X); p.1.Success? ==> QueryOk(p.1.value)
      modifies Repr
      ensures Valid() && fresh(Repr - old(Repr))
      ensures XTrain == old(XTrain) && YTrain == old(YTrain)
      ensures var p := Pipeline(KalmanTransform, old(base.Views()), X);
        base.Views() == p.0 &&
        (p.1.Failure? ==> res == Failure(Preprocessing(p.1.error))) &&
        (p.1.Success? ==> (QueryOk(p.1.value) &&
          var spec := PredictSpec(k, XTrain.value, YTrain.value, p.1.value);
          res.Success? == spec.Success? &&
          (res.Failure? ==> res.error == spec.error) &&
          (res.Success? ==> fresh(res.value) && Contents(res.value) == spec.value)))
    {
      var Xp := Preprocess(X);
      if Xp.Failure? {
        return Failure(Preprocessing(Xp.error));
      }
      res := PredictCore(Xp.value);
    }
  }
}
