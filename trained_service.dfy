/** The GasLeakPredictor of the trained-model service and its /predict
    route. The loaded Keras model is the function `net` from a window of
    readings to the predicted next reading; the loaded scaler is optional.
    There is one predictor for the whole service, so one buffer collects the
    readings of every zone. */
module TrainedService {
  import opened Outcomes
  import opened RiskLevels
  import opened PpmClassifier
  import opened AnomalyScoring
  import opened Fusion

  /** What predict_anomaly reports once the new reading is in the buffer. */
  function AnomalyResult(net: Window -> Vector, scaler: Option<Scaler>, buffer: seq<Vector>,
                         state: RiskLevel, values: Vector): (RiskLevel, real, Trend)
    requires scaler.Some? ==> ValidScaler(scaler.value)
  {
    if |buffer| < SequenceLength then (state, 0.0, InsufficientData)
    else
      var window := NormalizeWindow(scaler, LastN(buffer, SequenceLength));
      var error := PredictionError(scaler, net(window), values);
      (ClassifyByAnomaly(Real(error)), error, CalculateTrend(buffer))
  }

  /** Cold start: with fewer than SEQUENCE_LENGTH readings the previous state
      is reported, with no error and no trend. Otherwise the state is the
      anomaly class of a non-negative error and a trend is computed. */
  lemma AnomalyResultCases(net: Window -> Vector, scaler: Option<Scaler>, buffer: seq<Vector>,
                           state: RiskLevel, values: Vector)
    requires scaler.Some? ==> ValidScaler(scaler.value)
    ensures var (risk, error, trend) := AnomalyResult(net, scaler, buffer, state, values);
            && (|buffer| < SequenceLength <==> trend == InsufficientData)
            && (|buffer| < SequenceLength ==> risk == state && error == 0.0)
            && (|buffer| >= SequenceLength ==> error >= 0.0 && risk == ClassifyByAnomaly(Real(error)))
  {
  }

  /** A network that predicts the reading exactly yields NORMAL once the buffer is warm. */
  lemma ExactPredictionIsNormal(net: Window -> Vector, scaler: Option<Scaler>, buffer: seq<Vector>,
                                state: RiskLevel, values: Vector)
    requires scaler.Some? ==> ValidScaler(scaler.value)
    requires |buffer| >= SequenceLength
    requires net(NormalizeWindow(scaler, LastN(buffer, SequenceLength))) == Normalize(scaler, values)
    ensures AnomalyResult(net, scaler, buffer, state, values).0 == Normal
  {
    PerfectPredictionHasZeroError(scaler, net(NormalizeWindow(scaler, LastN(buffer, SequenceLength))), values);
  }

  /** The anomaly result of the code as written, whose error de-normalises
      the raw reading a second time (see ErrorAsWritten). */
  function AnomalyResultAsWritten(net: Window -> Vector, scaler: Option<Scaler>, buffer: seq<Vector>,
                                  state: RiskLevel, values: Vector): (RiskLevel, real, Trend)
    requires scaler.Some? ==> ValidScaler(scaler.value)
  {
    if |buffer| < SequenceLength then (state, 0.0, InsufficientData)
    else
      var window := NormalizeWindow(scaler, LastN(buffer, SequenceLength));
      var error := ErrorAsWritten(scaler, net(window), values);
      (ClassifyByAnomaly(Real(error)), error, CalculateTrend(buffer))
  }

  /** The corrected result differs from the code's only in the error: without
      a scaler, and during the cold start, the two agree exactly; with one,
      the risk and the trend are computed the same way from the two errors. */
  lemma CorrectedDiffersOnlyInError(net: Window -> Vector, scaler: Option<Scaler>, buffer: seq<Vector>,
                                    state: RiskLevel, values: Vector)
    requires scaler.Some? ==> ValidScaler(scaler.value)
    ensures var corrected := AnomalyResult(net, scaler, buffer, state, values);
            var asWritten := AnomalyResultAsWritten(net, scaler, buffer, state, values);
            && (scaler.None? || |buffer| < SequenceLength ==> corrected == asWritten)
            && corrected.2 == asWritten.2
            && asWritten.0 == (if |buffer| < SequenceLength then state else ClassifyByAnomaly(Real(asWritten.1)))
  {
  }

  /** As written, a network that predicts the normalised reading exactly is
      CRITICAL under a scaler fitted to [0, 1000] ppm, for the reading
      (1, 1, 1, 1), while the corrected result is NORMAL. */
  lemma AsWrittenExactPredictionIsCritical(buffer: seq<Vector>, state: RiskLevel)
    requires |buffer| >= SequenceLength
    ensures var s := Scaler(Vector(0.0, 0.0, 0.0, 0.0), Vector(1000.0, 1000.0, 1000.0, 1000.0));
            var values := Vector(1.0, 1.0, 1.0, 1.0);
            var net := (w: Window) => Transform(s, values);
            && AnomalyResultAsWritten(net, Some(s), buffer, state, values).0 == Critical
            && AnomalyResult(net, Some(s), buffer, state, values).0 == Normal
  {
    var s := Scaler(Vector(0.0, 0.0, 0.0, 0.0), Vector(1000.0, 1000.0, 1000.0, 1000.0));
    var values := Vector(1.0, 1.0, 1.0, 1.0);
    var net := (w: Window) => Transform(s, values);
    AsWrittenPerfectPredictionIsCritical();
    ExactPredictionIsNormal(net, Some(s), buffer, state, values);
  }

  class GasLeakPredictor {
    const net: Window -> Vector
    const scaler: Option<Scaler>
    var buffer: seq<Vector>
    var state: RiskLevel

    ghost predicate Valid()
      reads this
    {
      |buffer| <= BufferSize && (scaler.Some? ==> ValidScaler(scaler.value))
    }

    constructor(net: Window -> Vector, scaler: Option<Scaler>)
      requires scaler.Some? ==> ValidScaler(scaler.value)
      ensures Valid()
      ensures this.net == net && this.scaler == scaler
      ensures buffer == [] && state == Normal
    {
      this.net := net;
      this.scaler := scaler;
      buffer := [];
      state := Normal;
    }

    /** predict_anomaly: the reading is appended before anything else; the
        state changes only when a prediction is made. */
    method PredictAnomaly(values: Vector) returns (risk: RiskLevel, error: real, trend: Trend)
      requires Valid()
      modifies this
      ensures Valid()
      ensures buffer == Append(old(buffer), values)
      ensures (risk, error, trend) == AnomalyResult(net, scaler, buffer, old(state), values)
      ensures state == risk
    {
      AppendKeepsNewest(buffer, values);
      buffer := Append(buffer, values);
      if |buffer| < SequenceLength {
        return state, 0.0, InsufficientData;
      }
      var window := NormalizeWindow(scaler, LastN(buffer, SequenceLength));
      var pred := net(window);
      error := PredictionError(scaler, pred, values);
      trend := CalculateTrend(buffer);
      state := ClassifyByAnomaly(Real(error));
      risk := state;
    }

    /** The /predict route: check the body, classify the gases by PPM, run
        the detector on the reading vector and fuse the two risks. */
    method Predict(body: Option<PredictBody>) returns (reply: Reply)
      requires Valid()
      modifies this
      ensures Valid()
      ensures ParseBody(body).Rejected? ==>
                reply == BadRequest(ParseBody(body).error) && buffer == old(buffer) && state == old(state)
      ensures ParseBody(body).Readings? ==>
                var p := ParseBody(body);
                && buffer == Append(old(buffer), p.vector)
                && reply.Ok?
                && reply.response.ppm == MultiGas(p.gasValues)
                && (reply.response.anomalyRisk, reply.response.predictionError, reply.response.trend)
                   == AnomalyResult(net, scaler, buffer, old(state), p.vector)
                && reply.response.decision == Fuse(reply.response.ppm.overallRisk, reply.response.anomalyRisk)
                && state == reply.response.anomalyRisk
    {
      var parsed := ParseBody(body);
      if parsed.Rejected? {
        return BadRequest(parsed.error);
      }
      var ppm := ClassifyMultiGasPpm(parsed.gasValues);
      var anomalyRisk, predictionError, trend := PredictAnomaly(parsed.vector);
      var decision := Fuse(ppm.overallRisk, anomalyRisk);
      reply := Ok(Response(decision, ppm, anomalyRisk, predictionError, trend));
    }
  }
}
