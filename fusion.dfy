/** The part of the /predict route that both ML service versions share: the
    check of the request body, the hybrid decision (final risk as the higher
    of the PPM and anomaly risks), the confidence from the rank distance, the
    action flags, the recommended action and the leak probability. */
module Fusion {
  import opened Outcomes
  import opened RiskLevels
  import opened PpmClassifier
  import opened AnomalyScoring

  // ---------------------------------------------------------------------------
  // The request body

  /** The parts of a /predict JSON body the route looks at: the `sensorData`
      list (each entry's `gases` object, an absent one read as empty), the
      legacy `values` list, and whether the body has any other key. */
  datatype PredictBody = PredictBody(sensorData: Option<seq<map<string, real>>>,
                                     values: Option<seq<real>>,
                                     otherKeys: bool)

  datatype RequestError =
    | InvalidInput      // "Invalid input": no body, or an empty one
    | WrongValueCount   // "Expected 4 gas values"
    | MissingValues     // "Missing 'values' or 'sensorData'"

  /** The readings handed to both classification paths: the gas_values
      dictionary in insertion order and the values_array for the detector. */
  datatype Parsed =
    | Readings(gasValues: seq<(string, Num)>, vector: Vector)
    | Rejected(error: RequestError)

  /** `gases.get(name, 0)`. */
  function GasOrDefault(gases: map<string, real>, name: string): real
  {
    if name in gases then gases[name] else 0.0
  }

  /** Feature i of a reading vector, in the order methane, lpg, co, h2s. */
  function Component(v: Vector, i: nat): real
    requires i < 4
  {
    if i == 0 then v.methane else if i == 1 then v.lpg else if i == 2 then v.co else v.h2s
  }

  function ReadingsOf(v: Vector): Parsed
  {
    Readings([("methane", Real(v.methane)), ("lpg", Real(v.lpg)),
              ("carbonMonoxide", Real(v.co)), ("hydrogenSulfide", Real(v.h2s))], v)
  }

  predicate IsEmpty(b: PredictBody)
  {
    b.sensorData.None? && b.values.None? && !b.otherKeys
  }

  /** The body check at the head of predict(). */
  function ParseBody(body: Option<PredictBody>): (p: Parsed)
    ensures p.Readings? ==>
              && |p.gasValues| == 4
              && DistinctGases(p.gasValues)
              && forall i :: 0 <= i < 4 ==>
                   p.gasValues[i] == (GasOrder[i], Real(Component(p.vector, i)))
    ensures p == Rejected(InvalidInput) <==> body.None? || IsEmpty(body.value)
    ensures body.Some? && body.value.sensorData.Some? && |body.value.sensorData.value| > 0 ==>
              var gases := body.value.sensorData.value[0];
              p.Readings? && forall i :: 0 <= i < 4 ==> Component(p.vector, i) == GasOrDefault(gases, GasOrder[i])
    ensures p.Readings? && body.Some? && (body.value.sensorData.None? || |body.value.sensorData.value| == 0) ==>
              body.value.values.Some? &&
              var values := body.value.values.value;
              |values| == 4 && forall i :: 0 <= i < 4 ==> Component(p.vector, i) == values[i]
    ensures p == Rejected(WrongValueCount) <==>
              && body.Some? && !IsEmpty(body.value)
              && (body.value.sensorData.None? || |body.value.sensorData.value| == 0)
              && body.value.values.Some? && |body.value.values.value| != 4
  {
    if body.None? || IsEmpty(body.value) then Rejected(InvalidInput)
    else
      var b := body.value;
      if b.sensorData.Some? && |b.sensorData.value| > 0 then
        var gases := b.sensorData.value[0];
        ReadingsOf(Vector(GasOrDefault(gases, "methane"), GasOrDefault(gases, "lpg"),
                          GasOrDefault(gases, "carbonMonoxide"), GasOrDefault(gases, "hydrogenSulfide")))
      else if b.values.Some? then
        var values := b.values.value;
        if |values| != 4 then Rejected(WrongValueCount)
        else ReadingsOf(Vector(values[0], values[1], values[2], values[3]))
      else Rejected(MissingValues)
  }

  /** A sensorData entry without a given gas reads that gas as 0 ppm, which
      classifies as NORMAL. */
  lemma MissingGasIsNormal(body: PredictBody, i: nat)
    requires body.sensorData.Some? && |body.sensorData.value| > 0
    requires i < 4 && GasOrder[i] !in body.sensorData.value[0]
    ensures var p := ParseBody(Some(body));
            p.Readings? && p.gasValues[i].1 == Real(0.0) && ClassifyByPpm(GasOrder[i], Real(0.0)) == Normal
  {
    var p := ParseBody(Some(body));
    assert Component(p.vector, i) == 0.0;
    TablesWellFormed(GasOrder[i]);
  }

  // ---------------------------------------------------------------------------
  // The hybrid decision

  datatype Confidence = High | Medium | Low

  datatype Action = Monitor | Investigate | Prepare | Ventilate | Evacuate

  /** Agreement of the two paths: high when they agree, medium when their
      ranks are one apart, low otherwise. */
  function ConfidenceOf(ppmRisk: RiskLevel, anomalyRisk: RiskLevel): (c: Confidence)
    ensures c == High <==> Rank(ppmRisk) == Rank(anomalyRisk)
    ensures c == Medium <==> Rank(ppmRisk) == Rank(anomalyRisk) + 1 || Rank(anomalyRisk) == Rank(ppmRisk) + 1
    ensures c == Low <==> Rank(ppmRisk) >= Rank(anomalyRisk) + 2 || Rank(anomalyRisk) >= Rank(ppmRisk) + 2
  {
    RankInjective(ppmRisk, anomalyRisk);
    if ppmRisk == anomalyRisk then High
    else if -1 <= Rank(ppmRisk) - Rank(anomalyRisk) <= 1 then Medium
    else Low
  }

  /** action_map, with the "monitor" default of its lookup. */
  function ActionFor(r: RiskLevel): (a: Action)
    ensures a == Monitor <==> Rank(r) <= 1
    ensures a == Evacuate <==> r == Critical
  {
    match r
    case Normal => Monitor
    case LowAnomaly => Monitor
    case Unusual => Investigate
    case Alert => Prepare
    case Warning => Ventilate
    case Critical => Evacuate
  }

  function ActionLabel(a: Action): string
  {
    match a
    case Monitor => "monitor"
    case Investigate => "investigate"
    case Prepare => "prepare"
    case Ventilate => "ventilate"
    case Evacuate => "evacuate"
  }

  /** The hybrid decision and everything derived from the final risk. */
  datatype Decision = Decision(finalRisk: RiskLevel, confidence: Confidence,
                               notify: bool, alarm: bool, ventilation: bool,
                               action: Action, leakProbability: real)

  /** get_highest_risk on two labels keeps the first unless the second ranks
      strictly higher. */
  lemma HighestOfTwo(a: RiskLevel, b: RiskLevel)
    ensures HighestRisk([Label(a), Label(b)]) == if Rank(b) > Rank(a) then b else a
  {
    ParseLabel(a);
    ParseLabel(b);
    assert [Label(a), Label(b)][..1] == [Label(a)];
    assert [Label(a)][..0] == [];
    assert HighestRisk([Label(a)]) == a;
  }

  function Fuse(ppmRisk: RiskLevel, anomalyRisk: RiskLevel): (d: Decision)
    ensures Rank(d.finalRisk) >= Rank(ppmRisk) && Rank(d.finalRisk) >= Rank(anomalyRisk)
    ensures d.finalRisk == ppmRisk || d.finalRisk == anomalyRisk
    ensures d.confidence == ConfidenceOf(ppmRisk, anomalyRisk)
    ensures d.notify <==> 2 <= Rank(d.finalRisk) <= 3
    ensures d.alarm <==> Rank(d.finalRisk) >= 4
    ensures d.ventilation == d.alarm
    ensures !(d.notify && d.alarm)
    ensures d.action == ActionFor(d.finalRisk)
    ensures d.leakProbability == Rank(d.finalRisk) as real / 5.0
    ensures 0.0 <= d.leakProbability <= 1.0
    ensures d.leakProbability == 1.0 <==> d.finalRisk == Critical
    ensures d.leakProbability == 0.0 <==> d.finalRisk == Normal
  {
    HighestOfTwo(ppmRisk, anomalyRisk);
    var finalRisk := HighestRisk([Label(ppmRisk), Label(anomalyRisk)]);
    Decision(finalRisk, ConfidenceOf(ppmRisk, anomalyRisk),
             finalRisk in {Unusual, Alert},
             finalRisk in {Warning, Critical},
             finalRisk in {Warning, Critical},
             ActionFor(finalRisk),
             Rank(finalRisk) as real / 5.0)
  }

  /** The decision does not depend on which path reported which risk. */
  lemma FuseSymmetric(a: RiskLevel, b: RiskLevel)
    ensures Fuse(a, b) == Fuse(b, a)
  {
    RankInjective(a, b);
  }

  /** The final risk is exactly the higher-ranked of the two. */
  lemma FuseIsMax(a: RiskLevel, b: RiskLevel)
    ensures Fuse(a, b).finalRisk == MaxLevel(a, b)
  {
    RankInjective(Fuse(a, b).finalRisk, MaxLevel(a, b));
  }

  /** Both paths CRITICAL: a confident CRITICAL with alarm, ventilation and evacuation. */
  lemma AllCriticalDecision()
    ensures Fuse(Critical, Critical) ==
            Decision(Critical, High, false, true, true, Evacuate, 1.0)
  {
  }

  /** The full /predict response, apart from timestamps and fixed strings. */
  datatype Response = Response(decision: Decision, ppm: PpmClassification,
                               anomalyRisk: RiskLevel, predictionError: real, trend: Trend)

  datatype Reply =
    | Ok(response: Response)
    | BadRequest(error: RequestError)   // HTTP 400
    | ServerError(message: string)      // an exception escaping the route: HTTP 500
}
