/**
 * The preprocessing pipeline every model runs its input through.
 *
 * A `BaseModel` holds a list of layers; `fit` and `predict` first pass their
 * input through every layer in list order, each layer's output feeding the
 * next, and then hand it to the concrete model.
 *
 * `Pipeline` is the value-level specification. It knows nothing of what a
 * layer does: it is given the layers' states and a `Transform`, the value-level
 * `transform` of one layer. The only layer of the system is the Kalman
 * smoothing layer, whose `Transform` is `KalmanTransform`;
 * `BaseModel.ApplyPreprocessing` is proved against `Pipeline` with it.
 */
module BaseModels {
  import opened Wrappers
  import opened NdArrays
  import opened KalmanFilter

  /** A layer's `transform` as a value: the layer's state afterwards and what the call returns. */
  type Transform<!L> = (L, NdArray) -> (L, Result<NdArray, LayerError>)

  /** The result of a run of the pipeline: the layers' states afterwards and the output. */
  type Outcome<L> = (seq<L>, Result<NdArray, LayerError>)

  /**
   * `_apply_preprocessing`: the first layer runs on `X`, the rest on its
   * output; the first layer that fails stops the pipeline, and the layers after
   * it are left as they were.
   */
  function Pipeline<L>(t: Transform<L>, ls: seq<L>, X: NdArray): (res: Outcome<L>)
    ensures |res.0| == |ls|
    decreases |ls|
  {
    if ls == [] then ([], Success(X))
    else
      var step := t(ls[0], X);
      if step.1.Failure? then ([step.0] + ls[1..], step.1)
      else
        var rest := Pipeline(t, ls[1..], step.1.value);
        ([step.0] + rest.0, rest.1)
  }

  /** With no layers the pipeline is the identity. */
  lemma EmptyPipelineIsIdentity<L>(t: Transform<L>, X: NdArray)
    ensures Pipeline(t, [], X) == ([], Success(X))
  {
  }

  /** With one layer the pipeline is that layer's `transform`. */
  lemma SingleLayerPipeline<L>(t: Transform<L>, l: L, X: NdArray)
    ensures Pipeline(t, [l], X) == ([t(l, X).0], t(l, X).1)
  {
    assert [l][1..] == [];
    var step := t(l, X);
    if step.1.Success? {
      assert [step.0] + [] == [step.0];
    }
  }

  lemma ConcatAssociates<T>(a: seq<T>, b: seq<T>, c: seq<T>)
    ensures a + (b + c) == (a + b) + c
  {
  }

  /**
   * Order of application: running `ls1 + ls2` is running `ls1` and then, on
   * its output, `ls2`; if `ls1` fails, `ls2` is never run.
   */
  lemma {:induction false} PipelineOfConcat<L>(t: Transform<L>, ls1: seq<L>, ls2: seq<L>, X: NdArray)
    ensures var first := Pipeline(t, ls1, X);
      Pipeline(t, ls1 + ls2, X) ==
        if first.1.Failure? then (first.0 + ls2, first.1)
        else var second := Pipeline(t, ls2, first.1.value); (first.0 + second.0, second.1)
    decreases |ls1|
  {
    var ls := ls1 + ls2;
    if ls1 == [] {
      assert ls == ls2;
      assert [] + Pipeline(t, ls2, X).0 == Pipeline(t, ls2, X).0;
    } else {
      assert ls[0] == ls1[0] && ls[1..] == ls1[1..] + ls2;
      var step := t(ls1[0], X);
      if step.1.Failure? {
        ConcatAssociates([step.0], ls1[1..], ls2);
      } else {
        PipelineOfConcat(t, ls1[1..], ls2, step.1.value);
        var rest := Pipeline(t, ls1[1..], step.1.value);
        if rest.1.Failure? {
          ConcatAssociates([step.0], rest.0, ls2);
        } else {
          ConcatAssociates([step.0], rest.0, Pipeline(t, ls2, rest.1.value).0);
        }
      }
    }
  }

  // ---------------------------------------------------------------------------
  // The pipeline as `_apply_preprocessing`'s loop runs it
  // ---------------------------------------------------------------------------

  /**
   * The loop of `_apply_preprocessing` from position `i` on, with `v` the
   * current array and `vs` the layers' states: layer `i` runs on `v` and
   * takes its new state; the loop stops at the first failure or at the end.
   */
  ghost function RunFrom<L>(t: Transform<L>, vs: seq<L>, i: nat, v: NdArray): (res: Outcome<L>)
    requires i <= |vs|
    ensures |res.0| == |vs|
    decreases |vs| - i
  {
    if i == |vs| then (vs, Success(v))
    else
      var step := t(vs[i], v);
      if step.1.Failure? then (vs[i := step.0], step.1)
      else RunFrom(t, vs[i := step.0], i + 1, step.1.value)
  }

  /** One pass of the loop: layer `i` either fails, ending the run, or hands its output to layer `i + 1`. */
  lemma RunFromOneLayer<L>(t: Transform<L>, vs: seq<L>, i: nat, v: NdArray, vs': seq<L>, next: Result<NdArray, LayerError>)
    requires i < |vs| && vs' == vs[i := t(vs[i], v).0] && next == t(vs[i], v).1
    ensures RunFrom(t, vs, i, v) == if next.Failure? then (vs', next) else RunFrom(t, vs', i + 1, next.value)
  {
  }

  /** The loop from position `i` leaves the first `i` layers alone and runs the rest as `Pipeline` does. */
  lemma {:induction false} RunFromIsPipeline<L>(t: Transform<L>, vs: seq<L>, i: nat, v: NdArray)
    requires i <= |vs|
    ensures var rest := Pipeline(t, vs[i..], v); RunFrom(t, vs, i, v) == (vs[..i] + rest.0, rest.1)
    decreases |vs| - i
  {
    if i == |vs| {
      assert vs[i..] == [] && vs[..i] == vs;
      assert vs + [] == vs;
    } else {
      var step := t(vs[i], v);
      var vs' := vs[i := step.0];
      assert vs[i..][0] == vs[i] && vs[i..][1..] == vs[i + 1..] == vs'[i + 1..];
      assert vs'[..i + 1] == vs[..i] + [step.0];
      if step.1.Failure? {
        assert vs' == vs'[..i + 1] + vs'[i + 1..];
        ConcatAssociates(vs[..i], [step.0], vs[i + 1..]);
      } else {
        RunFromIsPipeline(t, vs', i + 1, step.1.value);
        ConcatAssociates(vs[..i], [step.0], Pipeline(t, vs[i + 1..], step.1.value).0);
      }
    }
  }

  /** `_apply_preprocessing`'s loop computes `Pipeline`. */
  lemma PipelineIsRun<L>(t: Transform<L>, ls: seq<L>, X: NdArray)
    ensures Pipeline(t, ls, X) == RunFrom(t, ls, 0, X)
  {
    RunFromIsPipeline(t, ls, 0, X);
    assert ls[0..] == ls;
    assert ls[..0] + Pipeline(t, ls, X).0 == Pipeline(t, ls, X).0;
  }

  // ---------------------------------------------------------------------------
  // Pipelines of Kalman smoothing layers
  // ---------------------------------------------------------------------------

  /** A Kalman layer as a value: its noise parameters and the states of its filters (`None` before the first call). */
  datatype LayerState = LayerState(Q: real, R: real, bank: Option<seq<FilterState>>)

  /** The states a Kalman layer can be in: valid noise parameters, admissible filters. */
  predicate LayerOk(l: LayerState) {
    ValidParams(l.Q, l.R) && BankAdmissible(l.R, l.bank)
  }

  predicate AllOk(ls: seq<LayerState>) {
    forall i :: 0 <= i < |ls| ==> LayerOk(ls[i])
  }

  /**
   * `KalmanFilterLayer.transform` as a value. A layer outside `LayerOk` or an
   * array that is not well formed cannot arise from the classes of this model;
   * on those the layer is left alone and the call fails.
   */
  function KalmanTransform(l: LayerState, X: NdArray): (res: (LayerState, Result<NdArray, LayerError>))
    ensures res.0.Q == l.Q && res.0.R == l.R
    ensures LayerOk(l) ==> LayerOk(res.0)
    ensures res.1.Success? ==> res.1.value.Wf()
  {
    if LayerOk(l) && X.Wf() then
      var s := Smooth(l.Q, l.R, l.bank, X);
      (l.(bank := s.0), s.1)
    else (l, Failure(NotTwoDimensional))
  }

  /**
   * What a pipeline of Kalman layers keeps: every layer's noise parameters and
   * admissibility; on success, the shape of a 2-D input and the absence of
   * missing cells. An input that is not 2-D is rejected by the first layer.
   */
  lemma {:induction false} KalmanPipelineKeepsShape(ls: seq<LayerState>, X: NdArray)
    requires AllOk(ls) && X.Wf()
    ensures var res := Pipeline(KalmanTransform, ls, X);
      AllOk(res.0) && (res.1.Success? ==> res.1.value.Wf()) &&
      (forall i :: 0 <= i < |ls| ==> res.0[i].Q == ls[i].Q && res.0[i].R == ls[i].R) &&
      (res.1.Success? && X.Matrix2? ==> (res.1.value.Matrix2? &&
        |res.1.value.rows| == |X.rows| && res.1.value.cols == X.cols)) &&
      (res.1.Success? && X.Matrix2? && Complete(X.rows) ==> Complete(res.1.value.rows)) &&
      (|ls| > 0 && X.OtherRank? ==> res.1 == Failure(NotTwoDimensional))
    decreases |ls|
  {
    if ls != [] {
      var step := KalmanTransform(ls[0], X);
      if step.1.Success? {
        assert AllOk(ls[1..]);
        KalmanPipelineKeepsShape(ls[1..], step.1.value);
      }
    }
  }

  /** Every filter of the layer is tracking, and there is one for each of `cols` columns. */
  predicate FiltersTracking(l: LayerState, cols: nat) {
    l.bank.Some? && cols <= |l.bank.value| &&
    forall c :: 0 <= c < |l.bank.value| ==> l.bank.value[c].Tracking?
  }

  /**
   * When every layer's filters are all tracking (as after a `fit` whose
   * columns each held a reading), the pipeline fills every missing reading of
   * a 2-D input: it succeeds with a complete matrix.
   */
  lemma {:induction false} KalmanPipelineFillsGaps(ls: seq<LayerState>, rows: seq<seq<Sample>>, cols: nat)
    requires AllOk(ls) && Matrix2(rows, cols).Wf()
    requires |ls| > 0 && forall i :: 0 <= i < |ls| ==> FiltersTracking(ls[i], cols)
    ensures var res := Pipeline(KalmanTransform, ls, Matrix2(rows, cols));
      res.1.Success? && res.1.value.Matrix2? && Complete(res.1.value.rows)
    decreases |ls|
  {
    var l, X := ls[0], Matrix2(rows, cols);
    SmoothFillsGapsOnceTracking(l.Q, l.R, l.bank, rows, cols);
    var step := KalmanTransform(l, X);
    assert step.1 == Smooth(l.Q, l.R, l.bank, X).1;
    var Y := step.1.value;
    assert Y.Matrix2? && Y.cols == cols && Y.Wf() && Complete(Y.rows);
    if |ls| > 1 {
      assert AllOk(ls[1..]);
      KalmanPipelineFillsGaps(ls[1..], Y.rows, cols);
    }
    assert Pipeline(KalmanTransform, ls, X).1 == Pipeline(KalmanTransform, ls[1..], Y).1;
  }

  /** No layer has fewer filters than `cols` (a layer without filters yet creates them from the input). */
  predicate FitsWidth(ls: seq<LayerState>, cols: nat) {
    forall i :: 0 <= i < |ls| ==> ls[i].bank.Some? ==> cols <= |ls[i].bank.value|
  }

  /**
   * Layers keep their state between calls: preprocessing X1 and then X2 (same
   * width) with the same layer objects ends in the same layer states, and
   * returns the same rows, as preprocessing X1 stacked on X2 in one call. This
   * is what `fit` followed by `predict` does to the training and query data.
   */
  lemma {:induction false} KalmanPipelineStreamsAcrossCalls(ls: seq<LayerState>, rows1: seq<seq<Sample>>,
                                                            rows2: seq<seq<Sample>>, cols: nat)
    requires AllOk(ls) && FitsWidth(ls, cols)
    requires Matrix2(rows1, cols).Wf() && Matrix2(rows2, cols).Wf()
    ensures Matrix2(rows1 + rows2, cols).Wf()
    ensures var first := Pipeline(KalmanTransform, ls, Matrix2(rows1, cols));
      var second := Pipeline(KalmanTransform, first.0, Matrix2(rows2, cols));
      var whole := Pipeline(KalmanTransform, ls, Matrix2(rows1 + rows2, cols));
      first.1.Success? && second.1.Success? && whole.1.Success? &&
      first.1.value.Matrix2? && second.1.value.Matrix2? && whole.1.value.Matrix2? &&
      second.0 == whole.0 &&
      whole.1.value.rows == first.1.value.rows + second.1.value.rows
    decreases |ls|
  {
    assert Matrix2(rows1 + rows2, cols).Wf();
    if ls != [] {
      var l := ls[0];
      SmoothStreamsAcrossCalls(l.Q, l.R, l.bank, rows1, rows2, cols);
      var s1 := KalmanTransform(l, Matrix2(rows1, cols));
      var s2 := KalmanTransform(s1.0, Matrix2(rows2, cols));
      var out1, out2 := s1.1.value.rows, s2.1.value.rows;
      assert AllOk(ls[1..]) && FitsWidth(ls[1..], cols);
      KalmanPipelineStreamsAcrossCalls(ls[1..], out1, out2, cols);
      var first := Pipeline(KalmanTransform, ls, Matrix2(rows1, cols));
      assert first.0[0] == s1.0 && first.0[1..] == Pipeline(KalmanTransform, ls[1..], Matrix2(out1, cols)).0;
      assert first.0 == [s1.0] + first.0[1..];
    }
  }

  /** The preprocessing part of a model: its layers, run in order on every `fit` and `predict`. */
  class BaseModel {
    const layers: seq<KalmanFilterLayer>
    ghost var Repr: set<object>

    ghost predicate Valid()
      reads this, Repr
    {
      this in Repr &&
      (forall l :: 0 <= l < |layers| ==>
        layers[l] in Repr && layers[l].Repr <= Repr && this !in layers[l].Repr && layers[l].Valid()) &&
      (forall l, m :: 0 <= l < m < |layers| ==> layers[l].Repr !! layers[m].Repr)
    }

    /** The layers as values. */
    ghost function Views(): (vs: seq<LayerState>)
      reads this, Repr
      requires Valid()
      ensures |vs| == |layers| && AllOk(vs)
      ensures forall l {:trigger vs[l]} :: 0 <= l < |layers| ==> vs[l] == LayerState(layers[l].Q, layers[l].R, layers[l].Bank())
    {
      seq(|layers|, l requires 0 <= l < |layers| && Valid() reads this, Repr =>
        LayerState(layers[l].Q, layers[l].R, layers[l].Bank()))
    }

    /** `__init__(layers=None)`: a missing (or empty) list of layers means no layers. */
    constructor (layers: Option<seq<KalmanFilterLayer>> := None)
      requires layers.Some? ==> forall l :: 0 <= l < |layers.value| ==> layers.value[l].Valid()
      requires layers.Some? ==> forall l, m :: 0 <= l < m < |layers.value| ==>
        layers.value[l].Repr !! layers.value[m].Repr
      ensures Valid() && fresh(Repr - ReprOf(this.layers))
      ensures this.layers == if layers.None? then [] else layers.value
    {
      var ls := if layers.None? then [] else layers.value;
      this.layers := ls;
      Repr := {this} + ReprOf(ls);
    }

    /** `_apply_preprocessing(X)`: every layer's `transform` in list order, each on the previous one's output. */
    method ApplyPreprocessing(X: NdArray) returns (r: Result<NdArray, LayerError>)
      requires Valid() && X.Wf()
      modifies Repr
      ensures Valid() && fresh(Repr - old(Repr))
      ensures (Views(), r) == Pipeline(KalmanTransform, old(Views()), X)
    {
      ghost var target := RunFrom(KalmanTransform, Views(), 0, X);
      PipelineIsRun(KalmanTransform, Views(), X);
      r := Success(X);
      var i := 0;
      while i < |layers|
        invariant i <= |layers| && Valid() && fresh(Repr - old(Repr))
        invariant r.Success? && r.value.Wf() && RunFrom(KalmanTransform, Views(), i, r.value) == target
      {
        var next := Advance(i, r.value);
        if next.Failure? {
          return next;
        }
        r := next;
        i := i + 1;
      }
    }

    /** One iteration of `_apply_preprocessing`'s loop: layer `i` transforms `v`. */
    method Advance(i: nat, v: NdArray) returns (next: Result<NdArray, LayerError>)
      requires Valid() && i < |layers| && v.Wf()
      modifies Repr
      ensures Valid() && fresh(Repr - old(Repr))
      ensures next.Success? ==> next.value.Wf()
      ensures old(RunFrom(KalmanTransform, Views(), i, v)) ==
        if next.Failure? then (Views(), next) else RunFrom(KalmanTransform, Views(), i + 1, next.value)
    {
      ghost var vs := Views();
      next := TransformLayer(i, v);
      Repr := Repr + layers[i].Repr;
      OthersUnchanged(i);
      RunFromOneLayer(KalmanTransform, vs, i, v, Views(), next);
    }

    /**
     * `X = layer.transform(X)` for layer `i`: that layer's `transform`, which
     * touches nothing outside that layer. The model's `Repr` is brought up to
     * date by the caller.
     */
    method TransformLayer(i: nat, X: NdArray) returns (r: Result<NdArray, LayerError>)
      requires Valid() && i < |layers| && X.Wf()
      modifies layers[i].Repr
      ensures layers[i].Valid() && fresh(layers[i].Repr - old(layers[i].Repr))
      ensures forall j :: 0 <= j < |layers| && j != i ==> unchanged(old(layers[j].Repr))
      ensures var step := KalmanTransform(old(LayerState(layers[i].Q, layers[i].R, layers[i].Bank())), X);
        LayerState(layers[i].Q, layers[i].R, layers[i].Bank()) == step.0 && r == step.1
    {
      ghost var mine := layers[i].Repr;
      r := layers[i].Transform(X);
      forall j | 0 <= j < |layers| && j != i
        ensures unchanged(old(layers[j].Repr))
      {
        assert layers[j].Repr !! mine;
      }
    }

    /**
     * After layer `i` alone changed, and `Repr` took in its new objects, the
     * model is valid again and the views differ from the old ones at
     * position `i` only.
     */
    twostate lemma OthersUnchanged(i: nat)
      requires old(Valid()) && i < |layers| && layers[i].Valid()
      requires fresh(layers[i].Repr - old(layers[i].Repr)) && Repr == old(Repr) + layers[i].Repr
      requires forall j :: 0 <= j < |layers| && j != i ==> unchanged(old(layers[j].Repr))
      ensures Valid() && fresh(Repr - old(Repr))
      ensures Views() == old(Views())[i := LayerState(layers[i].Q, layers[i].R, layers[i].Bank())]
    {
      forall j | 0 <= j < |layers| && j != i
        ensures layers[j].Valid() && layers[j].Bank() == old(layers[j].Bank())
        ensures layers[j].Repr !! layers[i].Repr
      {
        assert layers[j].Repr !! old(layers[i].Repr);
      }
    }
  }

  /** Every object the given layers own. */
  ghost function ReprOf(ls: seq<KalmanFilterLayer>): (S: set<object>)
    reads ls
    ensures forall l :: 0 <= l < |ls| ==> ls[l].Repr <= S
  {
    if ls == [] then {} else ReprOf(ls[..|ls| - 1]) + ls[|ls| - 1].Repr
  }
}
