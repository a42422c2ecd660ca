/**
 * The forward pass's configuration-level result and the estimator entry
 * points. Tensors computed from weights (embeddings, attention, logits, ids)
 * are not modelled; a `Pass` records the decisions a forward pass takes and
 * the weight-independent decoder input it feeds the decoder.
 */
module ModelFn {
  import opened Outcomes
  import opened Batches
  import opened Config
  import opened Schedule

  datatype Features = Features(source: Batch, target: Batch)

  datatype Pass = Pass(
    encoding: PositionalEncoding,
    decoderInput: Batch,
    decoderTable: Table,
    projection: Projection,
    dropoutTraining: bool)

  /**
   * `_forward_pass(sources, targets, params, reuse)`: fails on an unknown
   * positional-encoding string first (line 14); fails when the tied output
   * projection opens a scope whose `lookup_table` no pass created (line 76);
   * otherwise dropout is in training mode exactly when the pass is not the
   * reused one. The projection is the one the source selects, and on every
   * configuration that gets this far it is also the corrected one: tied to
   * the table the decoder embedding reads. Errors raised inside the tensor
   * code (shape checks of lookups and products) are not modelled.
   */
  function ForwardPass(f: Features, p: Params, a: Args, reuse: bool): (r: Result<Pass>)
    ensures SelectPositionalEncoding(a.positionalEncoding).Err? ==> r == Err(EncodingError)
    ensures SelectPositionalEncoding(a.positionalEncoding).Ok?
            && ProjectionTable(OutputProjectionAsWritten(a)) !in CreatedTables(a)
            ==> r == Err(MissingTableError(ProjectionTable(OutputProjectionAsWritten(a))))
    ensures r.Ok? <==> SelectPositionalEncoding(a.positionalEncoding).Ok?
                       && ProjectionTable(OutputProjectionAsWritten(a)) in CreatedTables(a)
    ensures r.Ok? ==> r.value.dropoutTraining == !reuse
    ensures r.Ok? ==> EncodingName(r.value.encoding) == a.positionalEncoding
    ensures r.Ok? ==> |r.value.decoderInput| == |f.target|
    ensures r.Ok? ==> forall i :: 0 <= i < |f.target| ==> IsShiftOf(r.value.decoderInput[i], f.target[i], p.startSymbol)
    ensures r.Ok? ==> r.value.decoderTable == DecoderEmbeddingTable(a)
    ensures r.Ok? ==> r.value.projection == OutputProjectionAsWritten(a) == OutputProjection(a)
    ensures r.Ok? ==> (r.value.projection.TiedTranspose? <==> a.tiedProjWeight == 1)
    ensures r.Ok? && r.value.projection.TiedTranspose? ==> r.value.projection.table == r.value.decoderTable
  {
    match SelectPositionalEncoding(a.positionalEncoding)
    case Err(e) => Err(e)
    case Ok(enc) =>
      var projection := OutputProjectionAsWritten(a);
      if ProjectionTable(projection) !in CreatedTables(a) then
        Err(MissingTableError(ProjectionTable(projection)))
      else
        Ok(Pass(enc, DecoderInput(f.target, p.startSymbol), DecoderEmbeddingTable(a), projection, !reuse))
  }

  /**
   * A pass with a known encoding fails at the projection lookup exactly when
   * the projection is tied and `tied_embedding` is neither 0 nor 1.
   */
  lemma ForwardPassFailsOnNonBooleanTie(f: Features, p: Params, a: Args, reuse: bool)
    requires SelectPositionalEncoding(a.positionalEncoding).Ok?
    ensures ForwardPass(f, p, a, reuse).Err?
        <==> a.tiedProjWeight == 1 && a.tiedEmbedding != 0 && a.tiedEmbedding != 1
  {
    if a.tiedProjWeight == 1 {
      AsWrittenProjectionMissesTable(a);
    }
  }

  /**
   * The first and the reused pass over the same inputs succeed or fail
   * together and take identical decisions, except that only the first one
   * runs dropout in training mode.
   */
  lemma ReusedPassMatchesFirst(f: Features, p: Params, a: Args)
    ensures ForwardPass(f, p, a, false).Ok? <==> ForwardPass(f, p, a, true).Ok?
    ensures ForwardPass(f, p, a, false).Ok? ==>
      && ForwardPass(f, p, a, false).value.dropoutTraining
      && ForwardPass(f, p, a, true).value == ForwardPass(f, p, a, false).value.(dropoutTraining := false)
  {
  }

  /** The loss: its kind, the targets and the per-token weights. */
  datatype Loss = Loss(kind: LossKind, targets: Batch, weights: Batch)

  datatype EstimatorSpec =
    | TrainSpec(logitsPass: Pass, reusedPass: Pass, loss: Loss, lr: LearningRate)
    | PredictSpec(firstPass: Pass, idsPass: Pass)

  /**
   * `_model_fn_train`: two passes, the logits taken from the first (dropout
   * on), the loss weighted by the padding mask of the targets, and the
   * learning rate chosen from the global step. An error of the first pass
   * propagates before anything else is built.
   */
  function ModelFnTrain(f: Features, p: Params, a: Args, globalStep: nat): (r: Result<EstimatorSpec>)
    ensures r.Err? <==> ForwardPass(f, p, a, false).Err?
    ensures r.Err? ==> r.error == ForwardPass(f, p, a, false).error
    ensures r.Ok? ==> r.value.TrainSpec?
    ensures r.Ok? ==> ForwardPass(f, p, a, false) == Ok(r.value.logitsPass)
                      && ForwardPass(f, p, a, true) == Ok(r.value.reusedPass)
    ensures r.Ok? ==> r.value.logitsPass.dropoutTraining && !r.value.reusedPass.dropoutTraining
    ensures r.Ok? ==> r.value.loss.targets == f.target && r.value.loss.weights == PaddingMask(f.target)
    ensures r.Ok? ==> r.value.loss.kind == SelectLoss(a)
    ensures r.Ok? ==> r.value.lr == SelectLearningRate(a, globalStep)
  {
    var first :- ForwardPass(f, p, a, false);
    match ForwardPass(f, p, a, true)
    case Err(e) => Err(e)
    case Ok(second) =>
      var loss := Loss(SelectLoss(a), f.target, PaddingMask(f.target));
      Ok(TrainSpec(first, second, loss, SelectLearningRate(a, globalStep)))
  }

  /** `_model_fn_predict`: two passes, the ids taken from the reused one (dropout off). */
  function ModelFnPredict(f: Features, p: Params, a: Args): (r: Result<EstimatorSpec>)
    ensures r.Err? <==> ForwardPass(f, p, a, false).Err?
    ensures r.Err? ==> r.error == ForwardPass(f, p, a, false).error
    ensures r.Ok? ==> r.value.PredictSpec?
    ensures r.Ok? ==> ForwardPass(f, p, a, false) == Ok(r.value.firstPass)
                      && ForwardPass(f, p, a, true) == Ok(r.value.idsPass)
    ensures r.Ok? ==> r.value.firstPass.dropoutTraining && !r.value.idsPass.dropoutTraining
  {
    var first :- ForwardPass(f, p, a, false);
    match ForwardPass(f, p, a, true)
    case Err(e) => Err(e)
    case Ok(second) => Ok(PredictSpec(first, second))
  }

  /** The estimator's `ModeKeys`. */
  datatype Mode = Train | Eval | Predict

  /**
   * `tf_estimator_model_fn`: TRAIN goes to the training builder, PREDICT to
   * the prediction builder, and any other mode returns nothing without
   * building a pass (so it cannot raise). The unused `labels` argument is
   * omitted.
   */
  function EstimatorModelFn(f: Features, mode: Mode, p: Params, a: Args, globalStep: nat): (r: Result<Option<EstimatorSpec>>)
    ensures mode == Eval ==> r == Ok(None)
    ensures mode == Train ==> (r.Ok? <==> ModelFnTrain(f, p, a, globalStep).Ok?)
    ensures mode == Train && r.Ok? ==> r.value == Some(ModelFnTrain(f, p, a, globalStep).value)
    ensures mode == Train && r.Err? ==> r.error == ModelFnTrain(f, p, a, globalStep).error
    ensures mode == Predict ==> (r.Ok? <==> ModelFnPredict(f, p, a).Ok?)
    ensures mode == Predict && r.Ok? ==> r.value == Some(ModelFnPredict(f, p, a).value)
    ensures mode == Predict && r.Err? ==> r.error == ModelFnPredict(f, p, a).error
  {
    match mode
    case Train =>
      var spec :- ModelFnTrain(f, p, a, globalStep);
      Ok(Some(spec))
    case Predict =>
      var spec :- ModelFnPredict(f, p, a);
      Ok(Some(spec))
    case Eval => Ok(None)
  }

  /**
   * TRAIN and PREDICT build the same two passes, so they fail together and
   * with the same error, which is the first pass's error; any other mode
   * never fails.
   */
  lemma DispatchFailsTogether(f: Features, p: Params, a: Args, globalStep: nat)
    ensures EstimatorModelFn(f, Train, p, a, globalStep).Err? <==> EstimatorModelFn(f, Predict, p, a, globalStep).Err?
    ensures EstimatorModelFn(f, Train, p, a, globalStep).Err? ==>
      && EstimatorModelFn(f, Train, p, a, globalStep).error == EstimatorModelFn(f, Predict, p, a, globalStep).error
      && ForwardPass(f, p, a, false) == Err(EstimatorModelFn(f, Train, p, a, globalStep).error)
    ensures EstimatorModelFn(f, Eval, p, a, globalStep).Ok?
  {
  }

  /**
   * Training and prediction over the same features read the same
   * configuration: the pass whose logits are trained and the pass whose ids
   * are predicted differ only in the dropout flag.
   */
  lemma TrainAndPredictShareDecisions(f: Features, p: Params, a: Args, globalStep: nat)
    requires ModelFnTrain(f, p, a, globalStep).Ok?
    ensures ModelFnPredict(f, p, a).Ok?
    ensures ModelFnPredict(f, p, a).value.idsPass
         == ModelFnTrain(f, p, a, globalStep).value.logitsPass.(dropoutTraining := false)
  {
  }

  /**
   * On a rectangular target batch of width at least 1, the decoder input of
   * the trained pass and the loss weights have the same shape as the targets,
   * so logits and weights line up time step by time step. (Width 0 does not:
   * the decoder input grows to width 1 while the weights stay empty.)
   */
  lemma TrainShapesAgree(f: Features, p: Params, a: Args, globalStep: nat, width: nat)
    requires width >= 1 && Rectangular(f.target, width)
    requires ModelFnTrain(f, p, a, globalStep).Ok?
    ensures |ModelFnTrain(f, p, a, globalStep).value.logitsPass.decoderInput| == |ModelFnTrain(f, p, a, globalStep).value.loss.weights|
    ensures Rectangular(ModelFnTrain(f, p, a, globalStep).value.logitsPass.decoderInput, width)
    ensures Rectangular(ModelFnTrain(f, p, a, globalStep).value.loss.weights, width)
  {
    PaddingMaskRectangular(f.target, width);
  }
}
