/**
 * The prediction endpoint of app/api/predict.py. The model is loaded once, when the
 * module is imported, and is absent if loading failed; `predict` checks "model loaded",
 * then "exactly 5 points", and only then runs the pipeline
 * denormalize(f(normalize(to_numpy(points)))), turning any failure inside it into 500.
 */
module Predict {
  import opened Wrappers
  import opened Vectors
  import opened Normalization
  import opened Config
  import opened Schemas

  /**
   * The learned network as the endpoint sees it: a normalised batch in, the elements of
   * its squeezed output out (row-major), or None when the call raises.
   */
  type Forecaster = seq<seq<Vec3>> -> Option<seq<real>>

  /** A loaded predictor. */
  datatype Model = Model(forecast: Forecaster)

  /** What failed inside the pipeline's try block. */
  datatype Cause =
    | ReshapeFailed    // to_numpy could not reshape to (1, 5, 3)
    | StatsShape       // MEAN or STD cannot be broadcast against the feature axis
    | ForecastRaised   // the network raised
    | OutputShape      // the network's output cannot be broadcast against the statistics

  /** The `detail` of an HTTPException. */
  datatype Detail = ModelNotLoaded | NeedFivePoints | PredictionFailed(cause: Cause)

  /** The HTTP outcome of a request. */
  datatype Response = Ok(point: PointOut) | HttpError(status: nat, detail: Detail)

  /** The health report of the service. */
  datatype Health = Health(status: string, modelLoaded: bool)

  const NeedFivePointsText: string := "Нужно ровно 5 точек"
  const ModelNotLoadedText: string := "Модель не загружена"
  const PredictionFailedPrefix: string := "Ошибка при предсказании: "

  /**
   * The text of a detail; for a pipeline failure only its prefix, since the exception's
   * own message that follows it comes from outside the model.
   */
  function DetailText(d: Detail): string {
    match d
    case ModelNotLoaded => ModelNotLoadedText
    case NeedFivePoints => NeedFivePointsText
    case PredictionFailed(_) => PredictionFailedPrefix
  }

  /** The module-level `model`: the loaded predictor, or None when `load_model` raised. */
  function ModelAtImport(load: Result<Model, string>): (m: Option<Model>)
    ensures m.Some? <==> load.Success?
    ensures m.Some? ==> m.value.forecast == load.value.forecast
  {
    match load
    case Success(model) => Some(model)
    case Failure(_) => None
  }

  /** Statistics read from the settings never divide by zero when STD has no zero entry. */
  lemma StatsDivisible(settings: Settings, parse: Parser)
    requires NoZeroEntry(StdArray(settings, parse))
    requires StatsOf(settings, parse).Some?
    ensures Divisible(StatsOf(settings, parse).value)
  {
    var d := StatsOf(settings, parse).value.std;
    assert AsSeq(d)[0] == d.x && AsSeq(d)[1] == d.y && AsSeq(d)[2] == d.t;
  }

  /** The body of the try block: to_numpy, normalize, the network, denormalize, from_array. */
  function Pipeline(model: Model, settings: Settings, parse: Parser, req: SequenceIn): (r: Result<PointOut, Cause>)
    requires |req.points| == 5 && StatsOf(settings, parse).Some? ==> NoZeroEntry(StdArray(settings, parse))
    ensures r.Failure? && r.error == ReshapeFailed <==> |req.points| != 5
  {
    match ToNumpy(req)
    case None => Failure(ReshapeFailed)
    case Some(arr) =>
      match StatsOf(settings, parse)
      case None => Failure(StatsShape)
      case Some(stats) =>
        StatsDivisible(settings, parse);
        match model.forecast(NormalizeBatch(arr, stats))
        case None => Failure(ForecastRaised)
        case Some(out) =>
          match AsVec3(out)
          case None => Failure(OutputShape)
          case Some(pred) => Success(FromArray(AsSeq(Denormalize(pred, stats))).value)
  }

  /** `predict`. */
  function Predict(model: Option<Model>, settings: Settings, parse: Parser, req: SequenceIn): (r: Response)
    requires model.Some? && |req.points| == 5 && StatsOf(settings, parse).Some? ==> NoZeroEntry(StdArray(settings, parse))
    ensures model.None? ==> r == HttpError(500, ModelNotLoaded)
    ensures model.Some? && |req.points| != 5 ==> r == HttpError(400, NeedFivePoints)
    ensures r.HttpError? ==> r.status == 400 || r.status == 500
    ensures (r.HttpError? && r.status == 400) <==> (model.Some? && |req.points| != 5)
    ensures r.Ok? <==> model.Some? && |req.points| == 5 && Pipeline(model.value, settings, parse, req).Success?
    ensures r.Ok? ==> r.point == Pipeline(model.value, settings, parse, req).value
    ensures model.Some? && |req.points| == 5 && Pipeline(model.value, settings, parse, req).Failure? ==>
      r == HttpError(500, PredictionFailed(Pipeline(model.value, settings, parse, req).error))
  {
    if model.None? then HttpError(500, ModelNotLoaded)
    else if |req.points| != 5 then HttpError(400, NeedFivePoints)
    else
      match Pipeline(model.value, settings, parse, req)
      case Success(p) => Ok(p)
      case Failure(cause) => HttpError(500, PredictionFailed(cause))
  }

  /**
   * For a loaded model and 5 points the response is decided by the statistics and the
   * network alone: statistics that cannot be broadcast give 500, a raising network gives
   * 500, an output that is not 3 values gives 500, and a 3-value output gives 200 with
   * the denormalised output of the network on the normalised (1, 5, 3) window.
   */
  lemma PredictComputes(model: Model, settings: Settings, parse: Parser, req: SequenceIn)
    requires |req.points| == 5
    requires StatsOf(settings, parse).Some? ==> NoZeroEntry(StdArray(settings, parse))
    ensures StatsOf(settings, parse).None? ==>
      Predict(Some(model), settings, parse, req) == HttpError(500, PredictionFailed(StatsShape))
    ensures StatsOf(settings, parse).Some? ==>
      var stats := StatsOf(settings, parse).value;
      && Divisible(stats)
      && var out := model.forecast(NormalizeBatch([Rows(req.points)], stats));
         && (out.None? ==> Predict(Some(model), settings, parse, req) == HttpError(500, PredictionFailed(ForecastRaised)))
         && (out.Some? && |out.value| != 3 ==>
               Predict(Some(model), settings, parse, req) == HttpError(500, PredictionFailed(OutputShape)))
         && (out.Some? && |out.value| == 3 ==>
               var p := Denormalize(Vec3(out.value[0], out.value[1], out.value[2]), stats);
               Predict(Some(model), settings, parse, req) == Ok(PointOut(p.x, p.y, p.t)))
  {
    if StatsOf(settings, parse).Some? {
      StatsDivisible(settings, parse);
    }
  }

  /** If loading failed at import, every request fails with 500 before its length is looked at. */
  lemma NotLoadedAlways500(error: string, settings: Settings, parse: Parser, req: SequenceIn)
    ensures Predict(ModelAtImport(Failure(error)), settings, parse, req) == HttpError(500, ModelNotLoaded)
    ensures DetailText(Predict(ModelAtImport(Failure(error)), settings, parse, req).detail) == "Модель не загружена"
  {
  }

  /** A 400 response carries the text the tests look for. */
  lemma WrongCountText(model: Model, settings: Settings, parse: Parser, req: SequenceIn)
    requires |req.points| != 5
    ensures Predict(Some(model), settings, parse, req).HttpError?
    ensures Predict(Some(model), settings, parse, req).status == 400
    ensures DetailText(Predict(Some(model), settings, parse, req).detail) == "Нужно ровно 5 точек"
  {
  }

  /** For 5 points, every failure inside the pipeline is a 500 carrying the prediction-error prefix. */
  lemma PipelineFailureText(model: Model, settings: Settings, parse: Parser, req: SequenceIn)
    requires |req.points| == 5
    requires StatsOf(settings, parse).Some? ==> NoZeroEntry(StdArray(settings, parse))
    requires Pipeline(model, settings, parse, req).Failure?
    ensures Predict(Some(model), settings, parse, req).HttpError?
    ensures Predict(Some(model), settings, parse, req).status == 500
    ensures DetailText(Predict(Some(model), settings, parse, req).detail) == "Ошибка при предсказании: "
  {
  }

  /**
   * Under the default settings normalize and denormalize are the identity, so the
   * response is the network's output read as x, y, t.
   */
  lemma PredictWithDefaults(model: Model, parse: Parser, req: SequenceIn)
    requires parse(DefaultMeanText) == Some(MeanFallback)
    requires parse(DefaultStdText) == Some(StdFallback)
    requires |req.points| == 5
    requires var out := model.forecast([Rows(req.points)]); out.Some? && |out.value| == 3
    ensures NoZeroEntry(StdArray(Defaults, parse))
    ensures var out := model.forecast([Rows(req.points)]).value;
      Predict(Some(model), Defaults, parse, req) == Ok(PointOut(out[0], out[1], out[2]))
  {
    DefaultsAreIdentity(parse, Vec3(0.0, 0.0, 0.0));
    assert StdArray(Defaults, parse) == StdFallback;
    var rows := Rows(req.points);
    assert ToNumpy(req) == Some([rows]);
    IdentityStatsBatch([rows]);
    var out := model.forecast([rows]).value;
    IdentityStats(Vec3(out[0], out[1], out[2]));
    assert Pipeline(model, Defaults, parse, req) == Success(PointOut(out[0], out[1], out[2]));
  }

  /** `health_check`: healthy with model_loaded exactly when a model is present. */
  function HealthCheck(model: Option<Model>): (h: Health)
    ensures h.modelLoaded <==> model.Some?
    ensures h.status == "healthy" <==> model.Some?
    ensures h.status == "unhealthy" <==> model.None?
  {
    Health(if model.Some? then "healthy" else "unhealthy", model.Some?)
  }
}
