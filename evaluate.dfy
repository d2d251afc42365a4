/**
 * Offline evaluation of scripts/evaluate.py: the last fifth of the windows is the
 * test set, the network predicts each test window, and MSE, MAE and RMSE are computed
 * over denormalised values, overall and per coordinate.
 */
module Evaluate {
  import opened Wrappers
  import opened Vectors
  import opened Normalization
  import opened Config
  import opened Tables
  import opened Dataset
  import opened Predict

  // ---------------------------------------------------------------- test split

  /** `int(0.2 * n)`: the largest whole number of fifths, n / 5 rounded down. */
  function TestSize(n: nat): (r: nat)
    ensures r * 5 <= n < r * 5 + 5
  {
    n / 5
  }

  /**
   * `s[-test_size:]`: the last `test_size` elements; since -0 is 0, a test size of 0
   * selects the whole list.
   */
  function TestPart<T>(s: seq<T>): (r: seq<T>)
    ensures |r| == if TestSize(|s|) == 0 then |s| else TestSize(|s|)
    ensures r == s[|s| - |r|..]
  {
    var k := TestSize(|s|);
    if k == 0 then s else s[|s| - k..]
  }

  /** Inputs and targets sliced alike stay paired: test pair i is pair o + i of the whole set. */
  lemma TestSplitAligned<T, U>(X: seq<T>, y: seq<U>)
    requires |X| == |y|
    ensures |TestPart(X)| == |TestPart(y)|
    ensures var o := |X| - |TestPart(X)|;
      forall i :: 0 <= i < |TestPart(X)| ==> TestPart(X)[i] == X[o + i] && TestPart(y)[i] == y[o + i]
  {
  }

  /** Fewer than five windows: the test set is all of them, and it is empty only when there are none. */
  lemma TestPartSmall<T>(s: seq<T>)
    ensures |s| < 5 ==> TestPart(s) == s
    ensures |TestPart(s)| == 0 <==> |s| == 0
  {
  }

  // ---------------------------------------------------------------- metrics

  /** The two error measures: squared (for MSE) and absolute (for MAE). */
  datatype Loss = Squared | Absolute

  function Abs(d: real): real {
    if d < 0.0 then -d else d
  }

  /** The error of one component. */
  function Err(loss: Loss, d: real): (e: real)
    ensures e >= 0.0
    ensures e == 0.0 <== d == 0.0
  {
    SquareNonNegative(d);
    match loss
    case Squared => d * d
    case Absolute => Abs(d)
  }

  /** The summed error of coordinate c over all rows. */
  function SumCoord(loss: Loss, targets: seq<Vec3>, preds: seq<Vec3>, c: nat): (r: real)
    requires |targets| == |preds| && c < 3
    ensures r >= 0.0
  {
    if targets == [] then 0.0
    else Err(loss, Col(targets[0], c) - Col(preds[0], c)) + SumCoord(loss, targets[1..], preds[1..], c)
  }

  /** The summed error of all N * 3 components. */
  function SumAll(loss: Loss, targets: seq<Vec3>, preds: seq<Vec3>): (r: real)
    requires |targets| == |preds|
    ensures r >= 0.0
  {
    if targets == [] then 0.0
    else
      var t, p := targets[0], preds[0];
      Err(loss, t.x - p.x) + Err(loss, t.y - p.y) + Err(loss, t.t - p.t) + SumAll(loss, targets[1..], preds[1..])
  }

  /** The mean error over coordinate c: mean_squared_error / mean_absolute_error of column c. */
  function MetricCoord(loss: Loss, targets: seq<Vec3>, preds: seq<Vec3>, c: nat): (r: real)
    requires |targets| == |preds| > 0 && c < 3
    ensures r >= 0.0
  {
    SumCoord(loss, targets, preds, c) / (|targets| as real)
  }

  /** The mean error over all N * 3 components: mean_squared_error / mean_absolute_error. */
  function Metric(loss: Loss, targets: seq<Vec3>, preds: seq<Vec3>): (r: real)
    requires |targets| == |preds| > 0
    ensures r >= 0.0
  {
    SumAll(loss, targets, preds) / (3.0 * |targets| as real)
  }

  /** The overall sum is the sum of the three per-coordinate sums. */
  lemma {:induction false} SumAllByCoord(loss: Loss, targets: seq<Vec3>, preds: seq<Vec3>)
    requires |targets| == |preds|
    ensures SumAll(loss, targets, preds) ==
      SumCoord(loss, targets, preds, 0) + SumCoord(loss, targets, preds, 1) + SumCoord(loss, targets, preds, 2)
  {
    if targets != [] {
      SumAllByCoord(loss, targets[1..], preds[1..]);
    }
  }

  /** The overall metric is the uniform average of the three per-coordinate metrics. */
  lemma MetricIsAverage(loss: Loss, targets: seq<Vec3>, preds: seq<Vec3>)
    requires |targets| == |preds| > 0
    ensures Metric(loss, targets, preds) ==
      (MetricCoord(loss, targets, preds, 0) + MetricCoord(loss, targets, preds, 1) + MetricCoord(loss, targets, preds, 2)) / 3.0
  {
    SumAllByCoord(loss, targets, preds);
    AverageOfThirds(SumCoord(loss, targets, preds, 0), SumCoord(loss, targets, preds, 1),
                    SumCoord(loss, targets, preds, 2), |targets| as real);
  }

  lemma AverageOfThirds(a: real, b: real, c: real, n: real)
    requires n > 0.0
    ensures (a + b + c) / (3.0 * n) == (a / n + b / n + c / n) / 3.0
  {
    var s := a + b + c;
    assert a / n + b / n + c / n == s / n;
    assert (s / n) / 3.0 == s / (3.0 * n);
  }

  /** Predictions equal to the targets have no error at all. */
  lemma {:induction false} PerfectSums(loss: Loss, targets: seq<Vec3>)
    ensures SumAll(loss, targets, targets) == 0.0
    ensures forall c :: 0 <= c < 3 ==> SumCoord(loss, targets, targets, c) == 0.0
  {
    if targets != [] {
      PerfectSums(loss, targets[1..]);
    }
  }

  /** Predictions equal to the targets: mse = mae = 0 overall and per coordinate. */
  lemma PerfectPrediction(loss: Loss, targets: seq<Vec3>)
    requires |targets| > 0
    ensures Metric(loss, targets, targets) == 0.0
    ensures forall c :: 0 <= c < 3 ==> MetricCoord(loss, targets, targets, c) == 0.0
  {
    PerfectSums(loss, targets);
  }

  /** Predictions equal to the targets: rmse = sqrt(mse) = 0. */
  lemma PerfectRmse(targets: seq<Vec3>, root: real -> real)
    requires |targets| > 0
    requires IsSquareRoot(root)
    ensures root(Metric(Squared, targets, targets)) == 0.0
  {
    PerfectPrediction(Squared, targets);
    RootOfZero(root);
  }

  // ---------------------------------------------------------------- evaluation

  /** What evaluate_model reports: the metrics and the denormalised values they compare. */
  datatype Report = Report(
    mse: real, mae: real, rmse: real,
    coordMse: Vec3, coordMae: Vec3,
    predictions: seq<Vec3>, targets: seq<Vec3>)

  /** rmse is a non-negative number whose square is mse. */
  ghost predicate RootSquared(rep: Report) {
    rep.rmse >= 0.0 && rep.rmse * rep.rmse == rep.mse
  }

  /** The outcome of evaluate_model: no model, an exception, or a report. */
  datatype Evaluation = NotLoaded | Raised | Evaluated(report: Report)

  /** The prediction loop: the network's output for each test window, batched alone. */
  method PredictAll(xs: seq<seq<Vec3>>, f: Forecaster) returns (r: Option<seq<seq<real>>>)
    ensures r.Some? <==> forall i :: 0 <= i < |xs| ==> f([xs[i]]).Some?
    ensures r.Some? ==> |r.value| == |xs| && forall i :: 0 <= i < |xs| ==> r.value[i] == f([xs[i]]).value
  {
    var predictions: seq<seq<real>> := [];
    var i := 0;
    while i < |xs|
      invariant 0 <= i <= |xs|
      invariant |predictions| == i
      invariant forall k :: 0 <= k < i ==> f([xs[k]]).Some? && predictions[k] == f([xs[k]]).value
    {
      assert xs[i..i + 1] == [xs[i]];
      var pred := f(xs[i..i + 1]);
      if pred.None? {
        return None;
      }
      predictions := predictions + [pred.value];
      i := i + 1;
    }
    return Some(predictions);
  }

  /** `np.array(predictions)` as an (N, 3) array; None when some output is not 3 values long. */
  function AsRows(preds: seq<seq<real>>): (r: Option<seq<Vec3>>)
    ensures r.Some? <==> forall i :: 0 <= i < |preds| ==> |preds[i]| == 3
    ensures r.Some? ==> |r.value| == |preds| && forall i :: 0 <= i < |preds| ==> AsSeq(r.value[i]) == preds[i]
  {
    if preds == [] then Some([])
    else
      match (AsVec3(preds[0]), AsRows(preds[1..]))
      case (Some(v), Some(rest)) => Some([v] + rest)
      case _ => None
  }

  /**
   * The network's output for test window i, read as a row, is prediction i normalised:
   * denormalising the outputs loses nothing.
   */
  lemma OutputsAreNormalizedPredictions(f: Forecaster, xs: seq<seq<Vec3>>, stats: Stats,
                                        outputs: seq<seq<real>>, rows: seq<Vec3>)
    requires Divisible(stats)
    requires |outputs| == |xs| == |rows|
    requires forall i :: 0 <= i < |xs| ==>
      f([NormalizeBatch(xs, stats)[i]]).Some? && outputs[i] == f([NormalizeBatch(xs, stats)[i]]).value
    requires forall i :: 0 <= i < |rows| ==> AsSeq(rows[i]) == outputs[i]
    ensures forall i :: 0 <= i < |rows| ==>
      f([NormalizeRows(xs[i], stats)]) == Some(AsSeq(Normalize(DenormalizeRows(rows, stats)[i], stats)))
  {
    NormalizeDenormalizeRows(rows, stats);
    forall i | 0 <= i < |rows|
      ensures f([NormalizeRows(xs[i], stats)]) == Some(AsSeq(Normalize(DenormalizeRows(rows, stats)[i], stats)))
    {
      assert NormalizeBatch(xs, stats)[i] == NormalizeRows(xs[i], stats);
      assert NormalizeRows(DenormalizeRows(rows, stats), stats)[i] == rows[i];
    }
  }

  /**
   * The scoring step of evaluate_model: denormalise the normalised targets and the
   * network's rows, then MSE, MAE, RMSE = root(MSE) and the per-coordinate MSE and MAE.
   */
  method Score(yNorm: seq<Vec3>, rows: seq<Vec3>, stats: Stats, root: real -> real) returns (rep: Report)
    requires Divisible(stats)
    requires |yNorm| == |rows| > 0
    requires IsSquareRoot(root)
    ensures rep.targets == DenormalizeRows(yNorm, stats)
    ensures rep.predictions == DenormalizeRows(rows, stats)
    ensures |rep.targets| == |rep.predictions| == |rows|
    ensures rep.mse == Metric(Squared, rep.targets, rep.predictions)
    ensures rep.mae == Metric(Absolute, rep.targets, rep.predictions)
    ensures rep.rmse == root(rep.mse) && RootSquared(rep)
    ensures forall c :: 0 <= c < 3 ==>
      Col(rep.coordMse, c) == MetricCoord(Squared, rep.targets, rep.predictions, c) &&
      Col(rep.coordMae, c) == MetricCoord(Absolute, rep.targets, rep.predictions, c)
  {
    var yDenorm := DenormalizeRows(yNorm, stats);
    var predDenorm := DenormalizeRows(rows, stats);
    var mse := Metric(Squared, yDenorm, predDenorm);
    var mae := Metric(Absolute, yDenorm, predDenorm);
    var coordMse := Vec3(MetricCoord(Squared, yDenorm, predDenorm, 0), MetricCoord(Squared, yDenorm, predDenorm, 1),
                         MetricCoord(Squared, yDenorm, predDenorm, 2));
    var coordMae := Vec3(MetricCoord(Absolute, yDenorm, predDenorm, 0), MetricCoord(Absolute, yDenorm, predDenorm, 1),
                         MetricCoord(Absolute, yDenorm, predDenorm, 2));
    rep := Report(mse, mae, root(mse), coordMse, coordMae, predDenorm, yDenorm);
  }

  /**
   * When evaluate_model produces a report: the statistics broadcast, the test set is not
   * empty, and the network answers every normalised test window, batched alone, with
   * three values.
   */
  predicate Evaluable(f: Forecaster, data: Table, settings: Settings, parse: Parser) {
    var xs := TestPart(SequencesOf(data, 5).X);
    && StatsOf(settings, parse).Some?
    && |xs| > 0
    && Divisible(StatsOf(settings, parse).value)
    && AllAnswered(f, xs, StatsOf(settings, parse).value)
  }

  /** The network answers every normalised window, batched alone, with three values. */
  predicate AllAnswered(f: Forecaster, xs: seq<seq<Vec3>>, stats: Stats)
    requires Divisible(stats)
  {
    forall i :: 0 <= i < |xs| ==>
      var out := f([NormalizeRows(xs[i], stats)]);
      out.Some? && |out.value| == 3
  }

  /** The prediction loop and the (N, 3) reshape both succeed exactly when every window is answered with three values. */
  lemma AnsweredIff(f: Forecaster, xs: seq<seq<Vec3>>, stats: Stats, outputs: Option<seq<seq<real>>>)
    requires Divisible(stats)
    requires var xn := NormalizeBatch(xs, stats);
      && (outputs.Some? <==> forall i :: 0 <= i < |xn| ==> f([xn[i]]).Some?)
      && (outputs.Some? ==> |outputs.value| == |xn| && forall i :: 0 <= i < |xn| ==> outputs.value[i] == f([xn[i]]).value)
    ensures AllAnswered(f, xs, stats) <==> outputs.Some? && AsRows(outputs.value).Some?
  {
    var xn := NormalizeBatch(xs, stats);
    assert forall i :: 0 <= i < |xs| ==> xn[i] == NormalizeRows(xs[i], stats);
  }

  /**
   * The part of evaluate_model after the split: normalise the test windows and targets,
   * predict every window alone, and score the denormalised values.
   */
  method EvaluateTestSet(f: Forecaster, xTest: seq<seq<Vec3>>, yTest: seq<Vec3>, stats: Stats, root: real -> real)
    returns (r: Evaluation)
    requires Divisible(stats)
    requires |xTest| == |yTest| > 0
    requires IsSquareRoot(root)
    ensures r != NotLoaded
    ensures r.Evaluated? <==> AllAnswered(f, xTest, stats)
    ensures r.Evaluated? ==>
      var rep := r.report;
      && rep.targets == yTest
      && |rep.predictions| == |yTest|
      && rep.mse == Metric(Squared, rep.targets, rep.predictions)
      && rep.mae == Metric(Absolute, rep.targets, rep.predictions)
      && rep.rmse == root(rep.mse) && RootSquared(rep)
      && (forall c :: 0 <= c < 3 ==>
            Col(rep.coordMse, c) == MetricCoord(Squared, rep.targets, rep.predictions, c) &&
            Col(rep.coordMae, c) == MetricCoord(Absolute, rep.targets, rep.predictions, c))
      && forall i :: 0 <= i < |rep.predictions| ==>
           f([NormalizeRows(xTest[i], stats)]) == Some(AsSeq(Normalize(rep.predictions[i], stats)))
  {
    var xNorm := NormalizeBatch(xTest, stats);
    var yNorm := NormalizeRows(yTest, stats);
    var outputs := PredictAll(xNorm, f);
    AnsweredIff(f, xTest, stats, outputs);
    if outputs.None? {
      return Raised;
    }
    var predRows := AsRows(outputs.value);
    if predRows.None? {
      return Raised;
    }
    var report := Score(yNorm, predRows.value, stats, root);
    DenormalizeNormalizeRows(yTest, stats);
    OutputsAreNormalizedPredictions(f, xTest, stats, outputs.value, predRows.value);
    r := Evaluated(report);
  }

  /**
   * `evaluate_model` on the table `data` (the CSV it reads), with `root` the square root
   * of the numeric library.
   */
  method EvaluateModel(model: Option<Model>, data: Table, settings: Settings, parse: Parser, root: real -> real)
    returns (r: Evaluation)
    requires model.Some? && StatsOf(settings, parse).Some? && |TestPart(SequencesOf(data, 5).X)| > 0 ==>
      NoZeroEntry(StdArray(settings, parse))
    requires IsSquareRoot(root)
    ensures model.None? <==> r == NotLoaded
    ensures model.Some? ==> (r.Evaluated? <==> Evaluable(model.value.forecast, data, settings, parse))
    ensures r.Evaluated? ==>
      var rep := r.report;
      var samples := SequencesOf(data, 5);
      && rep.targets == TestPart(samples.y)
      && |rep.predictions| == |rep.targets| == |TestPart(samples.X)| > 0
      && rep.mse == Metric(Squared, rep.targets, rep.predictions)
      && rep.mae == Metric(Absolute, rep.targets, rep.predictions)
      && rep.rmse == root(rep.mse) && RootSquared(rep)
      && (forall c :: 0 <= c < 3 ==>
            Col(rep.coordMse, c) == MetricCoord(Squared, rep.targets, rep.predictions, c) &&
            Col(rep.coordMae, c) == MetricCoord(Absolute, rep.targets, rep.predictions, c))
    ensures r.Evaluated? ==>
      var stats := StatsOf(settings, parse).value;
      var xs := TestPart(SequencesOf(data, 5).X);
      Divisible(stats) &&
      forall i :: 0 <= i < |r.report.predictions| ==>
        model.value.forecast([NormalizeRows(xs[i], stats)]) == Some(AsSeq(Normalize(r.report.predictions[i], stats)))
  {
    if model.None? {
      return NotLoaded;
    }
    var samples := CreateSequences(data, 5);
    SequencesAligned(data, 5);
    TestSplitAligned(samples.X, samples.y);
    var xTest, yTest := TestPart(samples.X), TestPart(samples.y);
    var statsOrNone := StatsOf(settings, parse);
    if statsOrNone.None? || |xTest| == 0 {
      // normalize cannot broadcast the statistics, or the empty (0,)-shaped X_test
      return Raised;
    }
    var stats := statsOrNone.value;
    StatsDivisible(settings, parse);
    r := EvaluateTestSet(model.value.forecast, xTest, yTest, stats, root);
  }
}
