/**
 * Per-channel Kalman smoothing of RSSI readings.
 *
 * A `KalmanFilter1D` is a two-state machine (uninitialized, then tracking an
 * estimate `x` with variance `P`); `KalmanFilterLayer` owns one such filter per
 * column, created on its first `Transform`, and pushes every column through its
 * own filter in row order. The filters keep their state between calls.
 *
 * `Step`, `Run` and `Smooth` are the value-level specification; the two
 * classes are the stateful implementation, proved against them.
 */
module KalmanFilter {
  import opened Wrappers
  import opened NdArrays

  /** The prior variance a filter takes on with its first reading. */
  const INITIAL_VARIANCE: real := 10.0

  datatype FilterState = Uninitialized | Tracking(x: real, P: real)

  /** Process noise must be positive; measurement noise may be zero (a noiseless sensor). */
  predicate ValidParams(Q: real, R: real) {
    Q > 0.0 && R >= 0.0
  }

  /** The variance is never negative, and it stays positive while the measurement noise is. */
  predicate Admissible(R: real, s: FilterState) {
    s.Tracking? ==> s.P >= 0.0 && (R > 0.0 ==> s.P > 0.0)
  }

  /** The Kalman gain for a predicted variance. */
  function Gain(Ppred: real, R: real): (K: real)
    requires Ppred > 0.0 && R >= 0.0
    ensures 0.0 < K <= 1.0
    ensures K == 1.0 <==> R == 0.0
  {
    Ppred / (Ppred + R)
  }

  /** The variance after a correction with gain K. */
  function CorrectedP(K: real, Ppred: real): real {
    (1.0 - K) * Ppred
  }

  lemma CorrectedVariance(Ppred: real, R: real)
    requires Ppred > 0.0 && R >= 0.0
    ensures CorrectedP(Gain(Ppred, R), Ppred) >= 0.0
    ensures R > 0.0 ==> CorrectedP(Gain(Ppred, R), Ppred) > 0.0
    ensures CorrectedP(Gain(Ppred, R), Ppred) < Ppred
  {
    var K := Gain(Ppred, R);
    assert 1.0 - K >= 0.0;
    calc { (1.0 - K) * Ppred; >= 0.0 * Ppred; == 0.0; }
    if R > 0.0 {
      assert 1.0 - K > 0.0;
      calc { (1.0 - K) * Ppred; > 0.0 * Ppred; == 0.0; }
    }
    calc { (1.0 - K) * Ppred; == Ppred - K * Ppred; < Ppred; }
  }

  /**
   * One `update(z)`: the new state and the returned value (`None` is NaN).
   * Uninitialized: a missing reading is returned as missing; a reading z starts
   * tracking at x = z with variance INITIAL_VARIANCE and is returned unchanged.
   * Tracking: predict (P + Q), then, for a reading, correct with the gain.
   */
  function Step(Q: real, R: real, s: FilterState, z: Sample): (res: (FilterState, Sample))
    requires ValidParams(Q, R) && Admissible(R, s)
    ensures Admissible(R, res.0)
    ensures s.Tracking? ==> res.0.Tracking?
    ensures res.1.None? <==> s.Uninitialized? && z.None?
    ensures res.0.Tracking? ==> res.1 == Some(res.0.x)
  {
    match s
    case Uninitialized =>
      if z.None? then (Uninitialized, None)
      else (Tracking(z.value, INITIAL_VARIANCE), z)
    case Tracking(x, P) =>
      var Ppred := P + Q;
      if z.None? then (Tracking(x, Ppred), Some(x))
      else
        var K := Gain(Ppred, R);
        CorrectedVariance(Ppred, R);
        var x' := x + K * (z.value - x);
        (Tracking(x', CorrectedP(K, Ppred)), Some(x'))
  }

  /** Feeds the readings `zs` to the filter in order: the final state and the returned values. */
  function Run(Q: real, R: real, s: FilterState, zs: seq<Sample>): (res: (FilterState, seq<Sample>))
    requires ValidParams(Q, R) && Admissible(R, s)
    ensures Admissible(R, res.0)
    ensures |res.1| == |zs|
    ensures forall i :: 0 <= i < |zs| && res.1[i].None? ==> zs[i].None?
    decreases |zs|
  {
    if zs == [] then (s, [])
    else
      var prefix := Run(Q, R, s, zs[..|zs| - 1]);
      var last := Step(Q, R, prefix.0, zs[|zs| - 1]);
      (last.0, prefix.1 + [last.1])
  }

  // ---------------------------------------------------------------------------
  // Properties of one step
  // ---------------------------------------------------------------------------

  /** Scaling a difference by a gain in (0, 1] keeps it between 0 and itself (strictly when K < 1). */
  lemma ScaledDifference(K: real, d: real)
    requires 0.0 < K <= 1.0
    ensures d >= 0.0 ==> 0.0 <= K * d <= d
    ensures d <= 0.0 ==> d <= K * d <= 0.0
    ensures K < 1.0 && d > 0.0 ==> 0.0 < K * d < d
    ensures K < 1.0 && d < 0.0 ==> d < K * d < 0.0
  {
    if d >= 0.0 {
      calc { K * d; <= 1.0 * d; == d; }
      calc { K * d; >= 0.0 * d; == 0.0; }
    } else {
      calc { K * d; >= 1.0 * d; == d; }
      calc { K * d; <= 0.0 * d; == 0.0; }
    }
    if K < 1.0 && d > 0.0 {
      calc { K * d; < 1.0 * d; == d; }
      calc { K * d; > 0.0 * d; == 0.0; }
    }
    if K < 1.0 && d < 0.0 {
      calc { K * d; > 1.0 * d; == d; }
      calc { K * d; < 0.0 * d; == 0.0; }
    }
  }

  /**
   * Correction while tracking: the gain lies in (0, 1] (below 1 when R > 0), the
   * new estimate is the convex combination (1 - K) x + K z, it lies between x and z,
   * and the corrected variance is below the predicted one.
   */
  lemma CorrectionIsConvex(Q: real, R: real, x: real, P: real, z: real)
    requires ValidParams(Q, R) && Admissible(R, Tracking(x, P))
    ensures var K := Gain(P + Q, R);
      var s' := Step(Q, R, Tracking(x, P), Some(z)).0;
      s'.Tracking? &&
      K == (P + Q) / (P + Q + R) && s'.P == (1.0 - K) * (P + Q) &&
      Step(Q, R, Tracking(x, P), Some(z)).1 == Some(s'.x) &&
      0.0 < K <= 1.0 && (R > 0.0 ==> K < 1.0) &&
      s'.x == (1.0 - K) * x + K * z &&
      (x <= z ==> x <= s'.x <= z) &&
      (z <= x ==> z <= s'.x <= x) &&
      (R > 0.0 && x < z ==> x < s'.x < z) &&
      (R > 0.0 && z < x ==> z < s'.x < x) &&
      s'.P < P + Q
  {
    var K := Gain(P + Q, R);
    var s' := Step(Q, R, Tracking(x, P), Some(z)).0;
    assert s'.x == x + K * (z - x);
    CorrectedVariance(P + Q, R);
    ScaledDifference(K, z - x);
    assert (1.0 - K) * x + K * z == x + K * (z - x);
  }

  /**
   * Before the first reading: a missing sample is returned as missing and the
   * filter stays uninitialized; a reading z is returned exactly and starts
   * tracking at z with variance INITIAL_VARIANCE.
   */
  lemma FirstReadingStartsTracking(Q: real, R: real, z: Sample)
    requires ValidParams(Q, R)
    ensures z.None? ==> Step(Q, R, Uninitialized, z) == (Uninitialized, None)
    ensures z.Some? ==> Step(Q, R, Uninitialized, z) == (Tracking(z.value, INITIAL_VARIANCE), z)
  {
  }

  /** While tracking, a missing sample keeps the estimate, returns it, and grows the variance by exactly Q. */
  lemma MissingReadingGrowsVariance(Q: real, R: real, x: real, P: real)
    requires ValidParams(Q, R) && Admissible(R, Tracking(x, P))
    ensures Step(Q, R, Tracking(x, P), None) == (Tracking(x, P + Q), Some(x))
  {
  }

  /** With a noiseless sensor (R = 0) the gain is 1: a tracking filter returns each reading exactly. */
  lemma NoiselessSensorReturnsReading(Q: real, x: real, P: real, z: real)
    requires ValidParams(Q, 0.0) && Admissible(0.0, Tracking(x, P))
    ensures Step(Q, 0.0, Tracking(x, P), Some(z)) == (Tracking(z, 0.0), Some(z))
  {
    var K := Gain(P + Q, 0.0);
    assert K == 1.0;
    assert x + K * (z - x) == z;
    assert CorrectedP(K, P + Q) == 0.0;
  }

  /** A reading equal to the current estimate leaves the estimate where it is. */
  lemma ReadingAtEstimateIsFixedPoint(Q: real, R: real, x: real, P: real)
    requires ValidParams(Q, R) && Admissible(R, Tracking(x, P))
    ensures Step(Q, R, Tracking(x, P), Some(x)).1 == Some(x)
  {
    var K := Gain(P + Q, R);
    var next := Step(Q, R, Tracking(x, P), Some(x));
    assert next.0.x == x + K * (x - x);
    assert K * (x - x) == 0.0;
  }

  // ---------------------------------------------------------------------------
  // Properties of a stream of readings
  // ---------------------------------------------------------------------------

  /** Feeding one more reading is one more `Step`. */
  lemma RunSnoc(Q: real, R: real, s: FilterState, zs: seq<Sample>, z: Sample)
    requires ValidParams(Q, R) && Admissible(R, s)
    ensures var prefix := Run(Q, R, s, zs);
      var last := Step(Q, R, prefix.0, z);
      Run(Q, R, s, zs + [z]) == (last.0, prefix.1 + [last.1])
  {
    assert (zs + [z])[..|zs|] == zs;
  }

  /** Once tracking, a filter never becomes uninitialized again, whatever it is fed. */
  lemma {:induction false} RunStaysTracking(Q: real, R: real, s: FilterState, zs: seq<Sample>)
    requires ValidParams(Q, R) && Admissible(R, s)
    requires s.Tracking?
    ensures Run(Q, R, s, zs).0.Tracking?
    decreases |zs|
  {
    if zs != [] {
      RunStaysTracking(Q, R, s, zs[..|zs| - 1]);
    }
  }

  /** Feeding `a` and then, from where it left off, `b` is the same as feeding `a + b`. */
  lemma {:induction false} RunAppend(Q: real, R: real, s: FilterState, a: seq<Sample>, b: seq<Sample>)
    requires ValidParams(Q, R) && Admissible(R, s)
    ensures var first := Run(Q, R, s, a);
      var second := Run(Q, R, first.0, b);
      Run(Q, R, s, a + b) == (second.0, first.1 + second.1)
    decreases |b|
  {
    var first := Run(Q, R, s, a);
    if b == [] {
      assert a + b == a;
      assert first.1 + [] == first.1;
    } else {
      var b' := b[..|b| - 1];
      RunAppend(Q, R, s, a, b');
      assert (a + b)[..|a + b| - 1] == a + b';
      assert (a + b)[|a + b| - 1] == b[|b| - 1];
      var mid := Run(Q, R, first.0, b');
      assert first.1 + mid.1 + [Step(Q, R, mid.0, b[|b| - 1]).1] ==
        first.1 + (mid.1 + [Step(Q, R, mid.0, b[|b| - 1]).1]);
    }
  }

  /** A returned value depends only on the readings up to it: more readings never change earlier outputs. */
  lemma RunOutputIsPrefixOutput(Q: real, R: real, s: FilterState, a: seq<Sample>, b: seq<Sample>)
    requires ValidParams(Q, R) && Admissible(R, s)
    ensures Run(Q, R, s, a + b).1[..|a|] == Run(Q, R, s, a).1
  {
    RunAppend(Q, R, s, a, b);
  }

  /**
   * The stream 10, NaN, 10, 10 with Q = 0.04 and R = 4: every returned value is 10,
   * and the missing reading only grows the variance by Q.
   */
  lemma ConstantStreamWithGap()
    ensures var zs: seq<Sample> := [Some(10.0), None, Some(10.0), Some(10.0)];
      Run(0.04, 4.0, Uninitialized, zs).1 == [Some(10.0), Some(10.0), Some(10.0), Some(10.0)] &&
      Run(0.04, 4.0, Uninitialized, zs[..2]).0 == Tracking(10.0, 10.04)
  {
    var ten: Sample := Some(10.0);
    var z1: seq<Sample> := [ten];
    var z2 := z1 + [None];
    var z3 := z2 + [ten];
    var z4 := z3 + [ten];
    var s1 := Step(0.04, 4.0, Uninitialized, ten);
    assert s1 == (Tracking(10.0, 10.0), ten);
    RunSnoc(0.04, 4.0, Uninitialized, [], ten);
    assert [] + [ten] == z1;
    var r1 := Run(0.04, 4.0, Uninitialized, z1);
    assert r1 == (s1.0, [] + [s1.1]);
    assert r1.1 == [ten];
    var s2 := Step(0.04, 4.0, s1.0, None);
    assert s2 == (Tracking(10.0, 10.04), ten);
    RunSnoc(0.04, 4.0, Uninitialized, z1, None);
    var r2 := Run(0.04, 4.0, Uninitialized, z2);
    assert r2 == (s2.0, r1.1 + [s2.1]);
    assert r2.1 == [ten, ten];
    var s3 := Step(0.04, 4.0, s2.0, ten);
    ReadingAtEstimateIsFixedPoint(0.04, 4.0, 10.0, 10.04);
    assert s3.0.Tracking? && s3.0.x == 10.0 && s3.1 == ten;
    RunSnoc(0.04, 4.0, Uninitialized, z2, ten);
    var r3 := Run(0.04, 4.0, Uninitialized, z3);
    assert r3 == (s3.0, r2.1 + [s3.1]);
    assert r3.1 == [ten, ten, ten];
    var s4 := Step(0.04, 4.0, s3.0, ten);
    ReadingAtEstimateIsFixedPoint(0.04, 4.0, 10.0, s3.0.P);
    assert s4.1 == ten;
    RunSnoc(0.04, 4.0, Uninitialized, z3, ten);
    assert Run(0.04, 4.0, Uninitialized, z4).1 == r3.1 + [s4.1];
    assert z4 == [ten, None, ten, ten];
    assert z4[..2] == z2;
  }

  // ---------------------------------------------------------------------------
  // A layer: one filter per column
  // ---------------------------------------------------------------------------

  datatype LayerError =
    | NotTwoDimensional       // transform of an array whose rank is not 2
    | MissingFilter(col: nat) // a column with no filter (more columns than on the first call)

  /** Every state in a layer's bank of filters is admissible. */
  predicate BankAdmissible(R: real, bank: Option<seq<FilterState>>) {
    bank.Some? ==> forall c :: 0 <= c < |bank.value| ==> Admissible(R, bank.value[c])
  }

  /** The filters `_create_filters` makes for `n` columns. */
  function FreshBank(n: nat): (b: seq<FilterState>)
    ensures |b| == n && forall c :: 0 <= c < n ==> b[c] == Uninitialized
  {
    seq(n, _ => Uninitialized)
  }

  /** The bank a call starts from: the existing one, or fresh filters sized by this call's columns. */
  function StartBank(bank: Option<seq<FilterState>>, cols: nat): seq<FilterState> {
    if bank.None? then FreshBank(cols) else bank.value
  }

  /** The bank after the first `n` columns of `rows` were fed, each to its own filter in row order. */
  function FedBank(Q: real, R: real, S0: seq<FilterState>, rows: seq<seq<Sample>>, n: nat): (S1: seq<FilterState>)
    requires ValidParams(Q, R) && BankAdmissible(R, Some(S0))
    requires n <= |S0| && forall i :: 0 <= i < |rows| ==> n <= |rows[i]|
    ensures |S1| == |S0| && BankAdmissible(R, Some(S1))
    ensures forall c :: n <= c < |S0| ==> S1[c] == S0[c]
  {
    seq(|S0|, c requires 0 <= c < |S0| => if c < n then Run(Q, R, S0[c], Column(rows, c)).0 else S0[c])
  }

  /** A bank that agrees with `FedBank` filter by filter is `FedBank`. */
  lemma FedBankByFilter(Q: real, R: real, S0: seq<FilterState>, rows: seq<seq<Sample>>, n: nat, S1: seq<FilterState>)
    requires ValidParams(Q, R) && BankAdmissible(R, Some(S0))
    requires n <= |S0| && forall i :: 0 <= i < |rows| ==> n <= |rows[i]|
    requires |S1| == |S0|
    requires forall c :: 0 <= c < |S0| ==> S1[c] == if c < n then Run(Q, R, S0[c], Column(rows, c)).0 else S0[c]
    ensures S1 == FedBank(Q, R, S0, rows, n)
  {
  }

  /** Output rows that agree with `SmoothedRows` cell by cell are `SmoothedRows`. */
  lemma SmoothedRowsByCell(Q: real, R: real, S0: seq<FilterState>, rows: seq<seq<Sample>>, cols: nat, out: seq<seq<Sample>>)
    requires ValidParams(Q, R) && BankAdmissible(R, Some(S0))
    requires cols <= |S0| && Matrix2(rows, cols).Wf()
    requires |out| == |rows| && forall i :: 0 <= i < |rows| ==> |out[i]| == cols
    requires forall i, c :: 0 <= i < |rows| && 0 <= c < cols ==> out[i][c] == Run(Q, R, S0[c], Column(rows, c)).1[i]
    ensures out == SmoothedRows(Q, R, S0, rows, cols)
  {
    var expected := SmoothedRows(Q, R, S0, rows, cols);
    forall i | 0 <= i < |rows|
      ensures out[i] == expected[i]
    {
      assert forall c :: 0 <= c < cols ==> out[i][c] == expected[i][c];
    }
  }

  /** The smoothed rows: cell (i, c) is what filter c returns when fed row i of its column. */
  function SmoothedRows(Q: real, R: real, S0: seq<FilterState>, rows: seq<seq<Sample>>, cols: nat): (out: seq<seq<Sample>>)
    requires ValidParams(Q, R) && BankAdmissible(R, Some(S0))
    requires cols <= |S0| && Matrix2(rows, cols).Wf()
    ensures Matrix2(out, cols).Wf() && |out| == |rows|
    ensures forall i, c :: 0 <= i < |rows| && 0 <= c < cols && out[i][c].None? ==> rows[i][c].None?
  {
    seq(|rows|, i requires 0 <= i < |rows| =>
      seq(cols, c requires 0 <= c < cols => Run(Q, R, S0[c], Column(rows, c)).1[i]))
  }

  /**
   * `transform`: the new bank and the result. A 2-D input is smoothed column by
   * column, each column through its own filter in row order. A column without
   * a filter fails the call, after every column that had one was fed.
   */
  function Smooth(Q: real, R: real, bank: Option<seq<FilterState>>, X: NdArray): (res: (Option<seq<FilterState>>, Result<NdArray, LayerError>))
    requires ValidParams(Q, R) && BankAdmissible(R, bank) && X.Wf()
    ensures BankAdmissible(R, res.0)
    ensures X.OtherRank? ==> res == (bank, Failure(NotTwoDimensional))
    ensures X.Matrix2? ==> res.0.Some? && |res.0.value| == |StartBank(bank, X.cols)|
    ensures X.Matrix2? ==> (res.1.Failure? <==> X.cols > |StartBank(bank, X.cols)|)
    ensures res.1.Success? ==> (res.1.value.Matrix2? && res.1.value.Wf() &&
      |res.1.value.rows| == |X.rows| && res.1.value.cols == X.cols)
    ensures res.1.Success? && Complete(X.rows) ==> Complete(res.1.value.rows)
  {
    match X
    case OtherRank(_) => (bank, Failure(NotTwoDimensional))
    case Matrix2(rows, cols) =>
      var S0 := StartBank(bank, cols);
      if cols <= |S0| then
        (Some(FedBank(Q, R, S0, rows, cols)), Success(Matrix2(SmoothedRows(Q, R, S0, rows, cols), cols)))
      else
        (Some(FedBank(Q, R, S0, rows, |S0|)), Failure(MissingFilter(|S0|)))
  }

  /**
   * Output cell (i, c) is what column c's filter returns after being fed rows
   * 0..i of column c, starting from that filter's state before the call.
   */
  lemma SmoothCellIsPrefixRun(Q: real, R: real, bank: Option<seq<FilterState>>, rows: seq<seq<Sample>>, cols: nat, i: nat, c: nat)
    requires ValidParams(Q, R) && BankAdmissible(R, bank) && Matrix2(rows, cols).Wf()
    requires i < |rows| && c < cols
    requires Smooth(Q, R, bank, Matrix2(rows, cols)).1.Success?
    ensures var S0 := StartBank(bank, cols);
      var col := seq(i + 1, k requires 0 <= k <= i => rows[k][c]);
      Smooth(Q, R, bank, Matrix2(rows, cols)).1.value.rows[i][c] == Run(Q, R, S0[c], col).1[i]
  {
    var S0 := StartBank(bank, cols);
    var col := seq(i + 1, k requires 0 <= k <= i => rows[k][c]);
    var column := Column(rows, c);
    assert column == col + column[i + 1..];
    RunOutputIsPrefixOutput(Q, R, S0[c], col, column[i + 1..]);
    assert Run(Q, R, S0[c], column).1[i] == Run(Q, R, S0[c], column).1[..i + 1][i];
  }

  /** Columns never affect each other: two inputs that agree on column c give the same output column c. */
  lemma SmoothColumnsAreIndependent(Q: real, R: real, bank: Option<seq<FilterState>>, rows1: seq<seq<Sample>>, rows2: seq<seq<Sample>>, cols: nat, c: nat)
    requires ValidParams(Q, R) && BankAdmissible(R, bank)
    requires Matrix2(rows1, cols).Wf() && Matrix2(rows2, cols).Wf()
    requires |rows1| == |rows2| && c < cols
    requires forall i :: 0 <= i < |rows1| ==> rows1[i][c] == rows2[i][c]
    requires Smooth(Q, R, bank, Matrix2(rows1, cols)).1.Success?
    ensures Smooth(Q, R, bank, Matrix2(rows2, cols)).1.Success?
    ensures var out1 := Smooth(Q, R, bank, Matrix2(rows1, cols)).1.value.rows;
      var out2 := Smooth(Q, R, bank, Matrix2(rows2, cols)).1.value.rows;
      forall i :: 0 <= i < |rows1| ==> out1[i][c] == out2[i][c]
    ensures Smooth(Q, R, bank, Matrix2(rows1, cols)).0.value[c] == Smooth(Q, R, bank, Matrix2(rows2, cols)).0.value[c]
  {
    assert Column(rows1, c) == Column(rows2, c);
  }

  /** Column c of two stacked row blocks is the first block's column c followed by the second's. */
  lemma ColumnOfStack(rows1: seq<seq<Sample>>, rows2: seq<seq<Sample>>, c: nat)
    requires forall i :: 0 <= i < |rows1| ==> c < |rows1[i]|
    requires forall i :: 0 <= i < |rows2| ==> c < |rows2[i]|
    ensures Column(rows1 + rows2, c) == Column(rows1, c) + Column(rows2, c)
  {
  }

  /** Feeding a column in two blocks ends where feeding it in one does, with the outputs concatenated. */
  lemma RunColumnOfStack(Q: real, R: real, s: FilterState, rows1: seq<seq<Sample>>, rows2: seq<seq<Sample>>, c: nat)
    requires ValidParams(Q, R) && Admissible(R, s)
    requires forall i :: 0 <= i < |rows1| ==> c < |rows1[i]|
    requires forall i :: 0 <= i < |rows2| ==> c < |rows2[i]|
    ensures var first := Run(Q, R, s, Column(rows1, c));
      var second := Run(Q, R, first.0, Column(rows2, c));
      Run(Q, R, s, Column(rows1 + rows2, c)) == (second.0, first.1 + second.1)
  {
    ColumnOfStack(rows1, rows2, c);
    RunAppend(Q, R, s, Column(rows1, c), Column(rows2, c));
  }

  /** Feeding two row blocks one after the other leaves the bank feeding them stacked leaves. */
  lemma FedBankOfStack(Q: real, R: real, S0: seq<FilterState>, rows1: seq<seq<Sample>>, rows2: seq<seq<Sample>>, cols: nat)
    requires ValidParams(Q, R) && BankAdmissible(R, Some(S0)) && cols <= |S0|
    requires Matrix2(rows1, cols).Wf() && Matrix2(rows2, cols).Wf()
    ensures Matrix2(rows1 + rows2, cols).Wf()
    ensures FedBank(Q, R, FedBank(Q, R, S0, rows1, cols), rows2, cols) == FedBank(Q, R, S0, rows1 + rows2, cols)
  {
    var S1 := FedBank(Q, R, S0, rows1, cols);
    var S2 := FedBank(Q, R, S1, rows2, cols);
    var W := FedBank(Q, R, S0, rows1 + rows2, cols);
    forall c | 0 <= c < |S0|
      ensures S2[c] == W[c]
    {
      if c < cols {
        RunColumnOfStack(Q, R, S0[c], rows1, rows2, c);
      }
    }
  }

  /** One output cell of a stacked input comes from the first block's output or, below it, the second's. */
  lemma SmoothedCellOfStack(Q: real, R: real, S0: seq<FilterState>, rows1: seq<seq<Sample>>, rows2: seq<seq<Sample>>, cols: nat,
                            i: nat, c: nat)
    requires ValidParams(Q, R) && BankAdmissible(R, Some(S0)) && cols <= |S0|
    requires Matrix2(rows1, cols).Wf() && Matrix2(rows2, cols).Wf()
    requires i < |rows1| + |rows2| && c < cols
    ensures Matrix2(rows1 + rows2, cols).Wf()
    ensures SmoothedRows(Q, R, S0, rows1 + rows2, cols)[i][c] ==
      if i < |rows1| then SmoothedRows(Q, R, S0, rows1, cols)[i][c]
      else SmoothedRows(Q, R, FedBank(Q, R, S0, rows1, cols), rows2, cols)[i - |rows1|][c]
  {
    var S1 := FedBank(Q, R, S0, rows1, cols);
    var first := Run(Q, R, S0[c], Column(rows1, c));
    var second := Run(Q, R, first.0, Column(rows2, c));
    RunColumnOfStack(Q, R, S0[c], rows1, rows2, c);
    assert S1[c] == first.0;
    assert SmoothedRows(Q, R, S0, rows1 + rows2, cols)[i][c] == (first.1 + second.1)[i];
  }

  /** Smoothing two row blocks one after the other returns the rows smoothing them stacked returns. */
  lemma SmoothedRowsOfStack(Q: real, R: real, S0: seq<FilterState>, rows1: seq<seq<Sample>>, rows2: seq<seq<Sample>>, cols: nat)
    requires ValidParams(Q, R) && BankAdmissible(R, Some(S0)) && cols <= |S0|
    requires Matrix2(rows1, cols).Wf() && Matrix2(rows2, cols).Wf()
    ensures Matrix2(rows1 + rows2, cols).Wf()
    ensures SmoothedRows(Q, R, S0, rows1 + rows2, cols) ==
      SmoothedRows(Q, R, S0, rows1, cols) + SmoothedRows(Q, R, FedBank(Q, R, S0, rows1, cols), rows2, cols)
  {
    var out := SmoothedRows(Q, R, S0, rows1 + rows2, cols);
    var both := SmoothedRows(Q, R, S0, rows1, cols) + SmoothedRows(Q, R, FedBank(Q, R, S0, rows1, cols), rows2, cols);
    forall i | 0 <= i < |out|
      ensures out[i] == both[i]
    {
      forall c | 0 <= c < cols
        ensures out[i][c] == both[i][c]
      {
        SmoothedCellOfStack(Q, R, S0, rows1, rows2, cols, i, c);
      }
    }
  }

  /**
   * State carries over between calls: smoothing X1 and then X2 (same width)
   * leaves the same filters and returns the same rows as smoothing X1 stacked
   * on X2 in one call.
   */
  lemma SmoothStreamsAcrossCalls(Q: real, R: real, bank: Option<seq<FilterState>>, rows1: seq<seq<Sample>>, rows2: seq<seq<Sample>>, cols: nat)
    requires ValidParams(Q, R) && BankAdmissible(R, bank)
    requires Matrix2(rows1, cols).Wf() && Matrix2(rows2, cols).Wf()
    requires bank.Some? ==> cols <= |bank.value|
    ensures Matrix2(rows1 + rows2, cols).Wf()
    ensures var first := Smooth(Q, R, bank, Matrix2(rows1, cols));
      var second := Smooth(Q, R, first.0, Matrix2(rows2, cols));
      var whole := Smooth(Q, R, bank, Matrix2(rows1 + rows2, cols));
      first.1.Success? && second.1.Success? && whole.1.Success? &&
      second.0 == whole.0 &&
      whole.1.value.rows == first.1.value.rows + second.1.value.rows
  {
    var S0 := StartBank(bank, cols);
    FedBankOfStack(Q, R, S0, rows1, rows2, cols);
    SmoothedRowsOfStack(Q, R, S0, rows1, rows2, cols);
  }

  /** A tracking filter returns a value for every reading, missing or not, and stays tracking. */
  lemma {:induction false} RunFromTrackingNeverMisses(Q: real, R: real, s: FilterState, zs: seq<Sample>)
    requires ValidParams(Q, R) && Admissible(R, s) && s.Tracking?
    ensures Run(Q, R, s, zs).0.Tracking?
    ensures forall i :: 0 <= i < |zs| ==> Run(Q, R, s, zs).1[i].Some?
    decreases |zs|
  {
    if zs != [] {
      RunFromTrackingNeverMisses(Q, R, s, zs[..|zs| - 1]);
    }
  }

  /**
   * Once every filter of a layer is tracking (as after a first call whose
   * columns each held a reading), `transform` fills every missing reading:
   * the result has no missing cell, whatever the input.
   */
  lemma SmoothFillsGapsOnceTracking(Q: real, R: real, bank: Option<seq<FilterState>>, rows: seq<seq<Sample>>, cols: nat)
    requires ValidParams(Q, R) && BankAdmissible(R, bank) && Matrix2(rows, cols).Wf()
    requires bank.Some? && cols <= |bank.value|
    requires forall c :: 0 <= c < |bank.value| ==> bank.value[c].Tracking?
    ensures Smooth(Q, R, bank, Matrix2(rows, cols)).1.Success?
    ensures Complete(Smooth(Q, R, bank, Matrix2(rows, cols)).1.value.rows)
  {
    var S0 := bank.value;
    forall c | 0 <= c < cols
      ensures forall i :: 0 <= i < |rows| ==> Run(Q, R, S0[c], Column(rows, c)).1[i].Some?
    {
      RunFromTrackingNeverMisses(Q, R, S0[c], Column(rows, c));
    }
  }

  // ---------------------------------------------------------------------------
  // The stateful implementation
  // ---------------------------------------------------------------------------

  class KalmanFilter1D {
    const Q: real
    const R: real
    var x: Option<real>
    var P: Option<real>

    /** The state as a value. */
    ghost function State(): FilterState
      reads this
    {
      if x.Some? && P.Some? then Tracking(x.value, P.value) else Uninitialized
    }

    ghost predicate Valid()
      reads this
    {
      ValidParams(Q, R) && x.Some? == P.Some? && Admissible(R, State())
    }

    constructor (Q: real := 0.5, R: real := 4.0)
      requires ValidParams(Q, R)
      ensures Valid() && State() == Uninitialized
      ensures this.Q == Q && this.R == R
    {
      this.Q := Q;
      this.R := R;
      x := None;
      P := None;
    }

    /** `update(z)`: one step of the filter; `None` in and out stands for NaN. */
    method Update(z: Sample) returns (out: Sample)
      requires Valid()
      modifies this
      ensures Valid()
      ensures (State(), out) == Step(Q, R, old(State()), z)
    {
      if x.None? {
        if z.None? {
          return None;
        }
        x := z;
        P := Some(INITIAL_VARIANCE);
        return x;
      }
      ghost var x0, P0 := x.value, P.value;
      assert old(State()) == Tracking(x0, P0);
      var Ppred := P.value + Q;
      P := Some(Ppred);
      if z.None? {
        return x;
      }
      var K := Ppred / (Ppred + R);
      assert K == Gain(Ppred, R);
      x := Some(x.value + K * (z.value - x.value));
      P := Some((1.0 - K) * Ppred);
      assert P.value == CorrectedP(K, Ppred);
      ghost var next := Step(Q, R, Tracking(x0, P0), z);
      assert next.0.Tracking?;
      assert next.0.x == x.value;
      assert next.0.P == P.value;
      assert next.1 == x;
      return x;
    }
  }

  /** The states of a sequence of filters, in order. */
  ghost function StatesOf(fs: seq<KalmanFilter1D>): (S: seq<FilterState>)
    reads set f | f in fs
    ensures |S| == |fs| && forall c :: 0 <= c < |fs| ==> S[c] == fs[c].State()
  {
    if fs == [] then [] else StatesOf(fs[..|fs| - 1]) + [fs[|fs| - 1].State()]
  }

  /** Distinct, valid filters, all with noise parameters Q and R. */
  ghost predicate FiltersValid(Q: real, R: real, fs: seq<KalmanFilter1D>)
    reads set f | f in fs
  {
    (forall c :: 0 <= c < |fs| ==> fs[c].Valid() && fs[c].Q == Q && fs[c].R == R) &&
    (forall c, d :: 0 <= c < d < |fs| ==> fs[c] != fs[d])
  }

  class KalmanFilterLayer {
    const Q: real
    const R: real
    /** One filter per column (the column index is the position); `None` until the first transform. */
    var filters: Option<seq<KalmanFilter1D>>
    ghost var Repr: set<object>

    ghost predicate Valid()
      reads this, Repr
    {
      this in Repr && ValidParams(Q, R) &&
      (filters.Some? ==>
        (forall c :: 0 <= c < |filters.value| ==> filters.value[c] in Repr) &&
        FiltersValid(Q, R, filters.value))
    }

    /** The filters' states as a value. */
    ghost function Bank(): (b: Option<seq<FilterState>>)
      reads this, Repr
      requires Valid()
      ensures BankAdmissible(R, b)
    {
      if filters.None? then None else Some(StatesOf(filters.value))
    }

    constructor (Q: real := 0.04, R: real := 4.0)
      requires ValidParams(Q, R)
      ensures Valid() && fresh(Repr)
      ensures this.Q == Q && this.R == R && Bank() == None
    {
      this.Q := Q;
      this.R := R;
      filters := None;
      Repr := {this};
    }

    /** `_create_filters`: a fresh, uninitialized filter for each of `n` columns. */
    method CreateFilters(n: nat) returns (fs: seq<KalmanFilter1D>)
      requires ValidParams(Q, R)
      ensures |fs| == n
      ensures forall c :: 0 <= c < n ==>
        fresh(fs[c]) && fs[c].Valid() && fs[c].State() == Uninitialized && fs[c].Q == Q && fs[c].R == R
      ensures forall c, d :: 0 <= c < d < n ==> fs[c] != fs[d]
    {
      fs := [];
      while |fs| < n
        invariant |fs| <= n
        invariant forall c :: 0 <= c < |fs| ==>
          fresh(fs[c]) && fs[c].Valid() && fs[c].State() == Uninitialized && fs[c].Q == Q && fs[c].R == R
        invariant forall c, d :: 0 <= c < d < |fs| ==> fs[c] != fs[d]
      {
        var f := new KalmanFilter1D(Q, R);
        fs := fs + [f];
      }
    }

    /** The first-call branch of `transform`: creates the filters, one per column, unless they exist. */
    method EnsureFilters(nCols: nat)
      requires Valid()
      modifies this
      ensures Valid() && fresh(Repr - old(Repr))
      ensures filters.Some? && Bank() == Some(StartBank(old(Bank()), nCols))
    {
      if filters.None? {
        var created := CreateFilters(nCols);
        filters := Some(created);
        Repr := Repr + set f | f in created;
        assert StatesOf(created) == FreshBank(nCols);
      }
    }

    /**
     * `transform(X)`: smooths every column through its own filter, creating the
     * filters on the first call; the new states and the result are `Smooth`'s.
     */
    method Transform(X: NdArray) returns (r: Result<NdArray, LayerError>)
      requires Valid() && X.Wf()
      modifies Repr
      ensures Valid() && fresh(Repr - old(Repr))
      ensures (Bank(), r) == Smooth(Q, R, old(Bank()), X)
    {
      if X.OtherRank? {
        r := Failure(NotTwoDimensional);
        assert Smooth(Q, R, Bank(), X) == (Bank(), r);
        return;
      }
      var rows, nCols := X.rows, X.cols;
      ghost var S0 := StartBank(Bank(), nCols);
      assert Smooth(Q, R, Bank(), X) == Smooth(Q, R, Some(S0), X);
      EnsureFilters(nCols);
      r := SmoothColumns(Q, R, filters.value, S0, rows, nCols);
    }
  }

  /**
   * The body of `transform` once the filters exist: allocates the output, feeds
   * every column to its filter and returns the output, or fails at the first
   * column that has no filter.
   */
  method SmoothColumns(Q: real, R: real, fs: seq<KalmanFilter1D>, ghost S0: seq<FilterState>, rows: seq<seq<Sample>>, cols: nat)
    returns (r: Result<NdArray, LayerError>)
    requires ValidParams(Q, R) && FiltersValid(Q, R, fs) && StatesOf(fs) == S0
    requires Matrix2(rows, cols).Wf()
    modifies set f | f in fs
    ensures FiltersValid(Q, R, fs)
    ensures (Some(StatesOf(fs)), r) == Smooth(Q, R, Some(S0), Matrix2(rows, cols))
  {
    var nSamples := |rows|;
    var out := new Sample[nSamples, cols]((_, _) => Some(0.0));
    var fed := FeedColumns(Q, R, fs, S0, rows, cols, out);
    FedBankByFilter(Q, R, S0, rows, fed, StatesOf(fs));
    if fed < cols {
      // The dictionary has no filter for this column.
      return Failure(MissingFilter(fed));
    }
    var smoothed := RowsOf(out);
    SmoothedRowsByCell(Q, R, S0, rows, cols, smoothed);
    r := Success(Matrix2(smoothed, cols));
  }

  /** The rows of a 2-D array, as a matrix value. */
  function RowsOf(a: array2<Sample>): (rows: seq<seq<Sample>>)
    reads a
    ensures |rows| == a.Length0 && forall i :: 0 <= i < a.Length0 ==> |rows[i]| == a.Length1
    ensures forall i, c :: 0 <= i < a.Length0 && 0 <= c < a.Length1 ==> rows[i][c] == a[i, c]
  {
    seq(a.Length0, i requires 0 <= i < a.Length0 reads a =>
      seq(a.Length1, c requires 0 <= c < a.Length1 reads a => a[i, c]))
  }

  /**
   * The column loop of `transform`: feeds columns 0, 1, ... of `rows` to their
   * filters `fs[0]`, `fs[1]`, ... and writes what they return into `out`. It stops
   * at the first column that has no filter and returns how many columns it fed.
   */
  method FeedColumns(Q: real, R: real, fs: seq<KalmanFilter1D>, ghost S0: seq<FilterState>,
                     rows: seq<seq<Sample>>, cols: nat, out: array2<Sample>)
    returns (fed: nat)
    requires ValidParams(Q, R) && FiltersValid(Q, R, fs) && StatesOf(fs) == S0
    requires Matrix2(rows, cols).Wf() && out.Length0 == |rows| && out.Length1 == cols
    modifies (set f | f in fs), out
    ensures fed == if cols <= |fs| then cols else |fs|
    ensures FiltersValid(Q, R, fs)
    ensures forall c :: 0 <= c < |fs| ==>
      fs[c].State() == if c < fed then Run(Q, R, S0[c], Column(rows, c)).0 else S0[c]
    ensures forall i, c :: 0 <= i < |rows| && 0 <= c < fed ==>
      out[i, c] == Run(Q, R, S0[c], Column(rows, c)).1[i]
  {
    fed := 0;
    while fed < cols
      invariant fed <= cols && fed <= |fs|
      invariant forall c :: 0 <= c < |fs| ==> (fs[c].Valid() &&
        fs[c].State() == if c < fed then Run(Q, R, S0[c], Column(rows, c)).0 else S0[c])
      invariant forall i, c :: 0 <= i < |rows| && 0 <= c < fed ==>
        out[i, c] == Run(Q, R, S0[c], Column(rows, c)).1[i]
    {
      if fed >= |fs| {
        return;
      }
      ghost var before := StatesOf(fs);
      FeedColumn(fs[fed], rows, fed, out);
      forall c | 0 <= c < |fs| && c != fed
        ensures fs[c].State() == before[c] && fs[c].Valid()
      {
        assert fs[c] != fs[fed];
      }
      fed := fed + 1;
    }
  }

  /**
   * The inner loop of `transform`: feeds column `col` of `rows` to `filt` in row
   * order and writes what it returns into column `col` of `out`.
   */
  method FeedColumn(filt: KalmanFilter1D, rows: seq<seq<Sample>>, col: nat, out: array2<Sample>)
    requires filt.Valid()
    requires out.Length0 == |rows| && col < out.Length1
    requires forall i :: 0 <= i < |rows| ==> col < |rows[i]|
    modifies filt, out
    ensures filt.Valid()
    ensures filt.State() == Run(filt.Q, filt.R, old(filt.State()), Column(rows, col)).0
    ensures forall i :: 0 <= i < |rows| ==>
      out[i, col] == Run(filt.Q, filt.R, old(filt.State()), Column(rows, col)).1[i]
    ensures forall i, c :: 0 <= i < out.Length0 && 0 <= c < out.Length1 && c != col ==>
      out[i, c] == old(out[i, c])
  {
    ghost var s0 := filt.State();
    ghost var column := Column(rows, col);
    var i := 0;
    while i < |rows|
      invariant i <= |rows|
      invariant filt.Valid()
      invariant filt.State() == Run(filt.Q, filt.R, s0, column[..i]).0
      invariant forall i' :: 0 <= i' < i ==> out[i', col] == Run(filt.Q, filt.R, s0, column[..i]).1[i']
      invariant forall i', c :: 0 <= i' < out.Length0 && 0 <= c < out.Length1 && c != col ==>
        out[i', c] == old(out[i', c])
    {
      assert column[..i + 1][..i] == column[..i];
      var y := filt.Update(rows[i][col]);
      out[i, col] := y;
      i := i + 1;
    }
    assert column[..|rows|] == column;
  }
}
