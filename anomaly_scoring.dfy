/** The pieces of the LSTM anomaly path that both ML service versions share:
    ANOMALY_THRESHOLDS and classify_by_anomaly, the bounded reading buffer
    (a deque of maxlen BUFFER_SIZE), the MinMaxScaler, the mean absolute
    prediction error and the 1.2x / 0.8x trend rule. The network itself is a
    function parameter of the predictor classes. */
module AnomalyScoring {
  import opened Outcomes
  import opened RiskLevels
  import opened PpmClassifier

  const SequenceLength: nat := 10
  const BufferSize: nat := 50

  /** One reading vector [methane, lpg, carbonMonoxide, hydrogenSulfide]. */
  datatype Vector = Vector(methane: real, lpg: real, co: real, h2s: real)

  /** The window shape handed to the network: the last SEQUENCE_LENGTH vectors. */
  type Window = seq<Vector>

  // ---------------------------------------------------------------------------
  // classify_by_anomaly

  /** ANOMALY_THRESHOLDS: (state, inclusive upper bound of the error). */
  function AnomalyThresholds(): seq<(RiskLevel, Bound)>
  {
    [(Normal, Finite(0.15)), (LowAnomaly, Finite(0.30)), (Unusual, Finite(0.50)),
     (Alert, Finite(0.75)), (Warning, Finite(1.10)), (Critical, Infinity)]
  }

  /** `error <= threshold` under IEEE comparison: NaN compares false and
      +inf is at or below float("inf") only. */
  predicate AtOrBelow(v: Num, t: Bound)
  {
    match v
    case Real(x) => t.Infinity? || x <= t.v
    case NegInf => true
    case PosInf => t.Infinity?
    case NaN => false
  }

  /** The `for` loop of classify_by_anomaly: the first state whose threshold is at least the error. */
  function FirstAtOrBelow(rows: seq<(RiskLevel, Bound)>, v: Num): Option<RiskLevel>
  {
    if rows == [] then None
    else if AtOrBelow(v, rows[0].1) then Some(rows[0].0)
    else FirstAtOrBelow(rows[1..], v)
  }

  /** classify_by_anomaly: CRITICAL when no threshold admits the error. */
  function ClassifyByAnomaly(error: Num): RiskLevel
  {
    match FirstAtOrBelow(AnomalyThresholds(), error)
    case Some(state) => state
    case None => Critical
  }

  /** The error bands are inclusive at their upper end. */
  lemma AnomalyBands(x: real)
    ensures ClassifyByAnomaly(Real(x)) == Normal <==> x <= 0.15
    ensures ClassifyByAnomaly(Real(x)) == LowAnomaly <==> 0.15 < x <= 0.30
    ensures ClassifyByAnomaly(Real(x)) == Unusual <==> 0.30 < x <= 0.50
    ensures ClassifyByAnomaly(Real(x)) == Alert <==> 0.50 < x <= 0.75
    ensures ClassifyByAnomaly(Real(x)) == Warning <==> 0.75 < x <= 1.10
    ensures ClassifyByAnomaly(Real(x)) == Critical <==> 1.10 < x
  {
    var rows := AnomalyThresholds();
    var v := Real(x);
    assert FirstAtOrBelow(rows[5..], v) == Some(Critical);
    assert FirstAtOrBelow(rows[4..], v) == if x <= 1.10 then Some(Warning) else Some(Critical) by {
      assert rows[4..][1..] == rows[5..];
    }
    assert FirstAtOrBelow(rows[3..], v) == if x <= 0.75 then Some(Alert) else FirstAtOrBelow(rows[4..], v) by {
      assert rows[3..][1..] == rows[4..];
    }
    assert FirstAtOrBelow(rows[2..], v) == if x <= 0.50 then Some(Unusual) else FirstAtOrBelow(rows[3..], v) by {
      assert rows[2..][1..] == rows[3..];
    }
    assert FirstAtOrBelow(rows[1..], v) == if x <= 0.30 then Some(LowAnomaly) else FirstAtOrBelow(rows[2..], v) by {
      assert rows[1..][1..] == rows[2..];
    }
  }

  /** A larger error never yields a lower state. */
  lemma AnomalyMonotone(x: real, y: real)
    requires x <= y
    ensures Rank(ClassifyByAnomaly(Real(x))) <= Rank(ClassifyByAnomaly(Real(y)))
  {
    AnomalyBands(x);
    AnomalyBands(y);
  }

  /** A NaN error passes no threshold and falls through to CRITICAL; +inf
      meets only the last threshold, which is CRITICAL as well. */
  lemma AnomalyNonFinite()
    ensures ClassifyByAnomaly(NaN) == Critical
    ensures ClassifyByAnomaly(PosInf) == Critical
    ensures ClassifyByAnomaly(NegInf) == Normal
  {
  }

  // ---------------------------------------------------------------------------
  // The bounded buffer

  /** The last n elements of s, or all of s when it is shorter. */
  function LastN<T>(s: seq<T>, n: nat): (r: seq<T>)
    ensures |r| == if |s| <= n then |s| else n
  {
    if |s| <= n then s else s[|s| - n..]
  }

  /** deque.append on a deque of maxlen BUFFER_SIZE: the new element goes last
      and, when the deque is full, the oldest one is dropped. */
  function Append<T>(buffer: seq<T>, v: T): seq<T>
    requires |buffer| <= BufferSize
  {
    if |buffer| < BufferSize then buffer + [v] else buffer[1..] + [v]
  }

  /** Appending keeps exactly the newest BUFFER_SIZE elements. */
  lemma AppendKeepsNewest<T>(buffer: seq<T>, v: T)
    requires |buffer| <= BufferSize
    ensures Append(buffer, v) == LastN(buffer + [v], BufferSize)
    ensures |Append(buffer, v)| <= BufferSize
    ensures Append(buffer, v)[|Append(buffer, v)| - 1] == v
  {
  }

  /** Appending every element of a history, one at a time, to an empty buffer. */
  function AppendAll<T>(buffer: seq<T>, history: seq<T>): (r: seq<T>)
    requires |buffer| <= BufferSize
    ensures |r| <= BufferSize
    decreases |history|
  {
    if history == [] then buffer
    else
      AppendKeepsNewest(buffer, history[0]);
      AppendAll(Append(buffer, history[0]), history[1..])
  }

  lemma LastNOfLastN<T>(s: seq<T>, v: T, n: nat)
    ensures LastN(LastN(s, n) + [v], n) == LastN(s + [v], n)
  {
  }

  /** However many readings arrive, the buffer holds the newest BUFFER_SIZE
      of them, oldest first. */
  lemma {:induction false} AppendAllKeepsNewest<T>(buffer: seq<T>, history: seq<T>)
    requires |buffer| <= BufferSize
    ensures AppendAll(buffer, history) == LastN(buffer + history, BufferSize)
    decreases |history|
  {
    if history == [] {
      assert buffer + history == buffer;
    } else {
      var next := Append(buffer, history[0]);
      AppendKeepsNewest(buffer, history[0]);
      AppendAllKeepsNewest(next, history[1..]);
      // LastN(LastN(buffer + [h], 50) + rest, 50) == LastN(buffer + [h] + rest, 50)
      LastNOfPrefix(buffer + [history[0]], history[1..], BufferSize);
      assert buffer + [history[0]] + history[1..] == buffer + history;
    }
  }

  /** Truncating a prefix to its last n elements does not change the last n of the whole. */
  lemma LastNOfPrefix<T>(s: seq<T>, t: seq<T>, n: nat)
    ensures LastN(LastN(s, n) + t, n) == LastN(s + t, n)
  {
    if |s| > n {
      var p := s[|s| - n..];
      var a := (s + t)[|s + t| - n..];
      var b := (p + t)[|p + t| - n..];
      assert |a| == |b|;
      assert forall k :: 0 <= k < |a| ==> a[k] == b[k];
      assert a == b;
    }
  }

  // ---------------------------------------------------------------------------
  // Vectors, the scaler and the prediction error

  function Abs(x: real): real
  {
    if x < 0.0 then -x else x
  }

  /** np.mean(np.abs(a - b)) over the four features. */
  function MeanAbsDiff(a: Vector, b: Vector): (e: real)
    ensures e >= 0.0
    ensures e == 0.0 <==> a == b
  {
    (Abs(a.methane - b.methane) + Abs(a.lpg - b.lpg) + Abs(a.co - b.co) + Abs(a.h2s - b.h2s)) / 4.0
  }

  /** A fitted MinMaxScaler with feature_range (0, 1): the per-feature data
      minimum and data range seen when it was fitted. */
  datatype Scaler = Scaler(dataMin: Vector, dataRange: Vector)

  /** scikit-learn replaces a zero range by 1, so a fitted scaler never divides by zero. */
  predicate ValidScaler(s: Scaler)
  {
    s.dataRange.methane > 0.0 && s.dataRange.lpg > 0.0 && s.dataRange.co > 0.0 && s.dataRange.h2s > 0.0
  }

  function Transform(s: Scaler, v: Vector): Vector
    requires ValidScaler(s)
  {
    Vector((v.methane - s.dataMin.methane) / s.dataRange.methane,
           (v.lpg - s.dataMin.lpg) / s.dataRange.lpg,
           (v.co - s.dataMin.co) / s.dataRange.co,
           (v.h2s - s.dataMin.h2s) / s.dataRange.h2s)
  }

  function InverseTransform(s: Scaler, v: Vector): Vector
  {
    Vector(v.methane * s.dataRange.methane + s.dataMin.methane,
           v.lpg * s.dataRange.lpg + s.dataMin.lpg,
           v.co * s.dataRange.co + s.dataMin.co,
           v.h2s * s.dataRange.h2s + s.dataMin.h2s)
  }

  /** inverse_transform undoes transform. */
  lemma InverseUndoesTransform(s: Scaler, v: Vector)
    requires ValidScaler(s)
    ensures InverseTransform(s, Transform(s, v)) == v
  {
  }

  /** A reading in the space the network works in: scaled when a scaler was loaded. */
  function Normalize(scaler: Option<Scaler>, v: Vector): Vector
    requires scaler.Some? ==> ValidScaler(scaler.value)
  {
    match scaler
    case None => v
    case Some(s) => Transform(s, v)
  }

  function NormalizeWindow(scaler: Option<Scaler>, w: Window): (r: Window)
    requires scaler.Some? ==> ValidScaler(scaler.value)
    ensures |r| == |w|
  {
    seq(|w|, i requires 0 <= i < |w| => Normalize(scaler, w[i]))
  }

  /** The prediction error exactly as the trained service computes it: with a
      scaler, the prediction is inverse-transformed, and so is the reading,
      although the reading was never transformed. */
  function ErrorAsWritten(scaler: Option<Scaler>, pred: Vector, values: Vector): real
  {
    match scaler
    case None => MeanAbsDiff(pred, values)
    case Some(s) => MeanAbsDiff(InverseTransform(s, pred), InverseTransform(s, values))
  }

  /** The prediction error the thresholds are meant for: the network's output
      against the reading, both in normalised space. */
  function PredictionError(scaler: Option<Scaler>, pred: Vector, values: Vector): real
    requires scaler.Some? ==> ValidScaler(scaler.value)
  {
    MeanAbsDiff(pred, Normalize(scaler, values))
  }

  /** The error is zero exactly when the network predicted the reading, and
      such a prediction is classified NORMAL. */
  lemma PerfectPredictionHasZeroError(scaler: Option<Scaler>, pred: Vector, values: Vector)
    requires scaler.Some? ==> ValidScaler(scaler.value)
    ensures PredictionError(scaler, pred, values) == 0.0 <==> pred == Normalize(scaler, values)
    ensures pred == Normalize(scaler, values) ==>
              ClassifyByAnomaly(Real(PredictionError(scaler, pred, values))) == Normal
  {
  }

  /** As written, a perfect prediction under a scaler fitted to [0, 1000] ppm
      on every gas scores 999 for the reading (1, 1, 1, 1) and is CRITICAL. */
  lemma AsWrittenPerfectPredictionIsCritical()
    ensures var s := Scaler(Vector(0.0, 0.0, 0.0, 0.0), Vector(1000.0, 1000.0, 1000.0, 1000.0));
            var values := Vector(1.0, 1.0, 1.0, 1.0);
            var pred := Transform(s, values);
            && ErrorAsWritten(Some(s), pred, values) == 999.0
            && ClassifyByAnomaly(Real(ErrorAsWritten(Some(s), pred, values))) == Critical
            && PredictionError(Some(s), pred, values) == 0.0
  {
    var s := Scaler(Vector(0.0, 0.0, 0.0, 0.0), Vector(1000.0, 1000.0, 1000.0, 1000.0));
    var values := Vector(1.0, 1.0, 1.0, 1.0);
    var pred := Transform(s, values);
    assert pred == Vector(0.001, 0.001, 0.001, 0.001);
    assert InverseTransform(s, pred) == values;
    assert InverseTransform(s, values) == Vector(1000.0, 1000.0, 1000.0, 1000.0);
    AnomalyBands(999.0);
  }

  // ---------------------------------------------------------------------------
  // Trend

  datatype Trend = Increasing | Decreasing | Stable | InsufficientData

  /** The comparison both versions use: more than 1.2 times the reference is
      increasing, less than 0.8 times is decreasing, anything else stable. */
  function RatioTrend(reference: real, current: real): Trend
  {
    if current > reference * 1.2 then Increasing
    else if current < reference * 0.8 then Decreasing
    else Stable
  }

  /** The trend depends only on the ratio of the two values: scaling both by
      the same positive factor leaves it unchanged. */
  lemma RatioTrendScaleInvariant(reference: real, current: real, c: real)
    requires c > 0.0
    ensures RatioTrend(c * reference, c * current) == RatioTrend(reference, current)
  {
    assert c * current > (c * reference) * 1.2 <==> current > reference * 1.2 by {
      assert (c * reference) * 1.2 == c * (reference * 1.2);
      ScaleComparison(c, current, reference * 1.2);
    }
    assert c * current < (c * reference) * 0.8 <==> current < reference * 0.8 by {
      assert (c * reference) * 0.8 == c * (reference * 0.8);
      ScaleComparison(c, reference * 0.8, current);
    }
  }

  lemma ScaleComparison(c: real, a: real, b: real)
    requires c > 0.0
    ensures c * a > c * b <==> a > b
  {
    if a > b {
      assert c * a - c * b == c * (a - b);
    } else {
      assert c * b - c * a == c * (b - a);
    }
  }

  /** The sum of the four features of a vector. */
  function Total(v: Vector): real
  {
    v.methane + v.lpg + v.co + v.h2s
  }

  /** _calculate_trend: with at least five buffered readings, the mean of the
      last two of the last five vectors against the mean of the first two. */
  function CalculateTrend(buffer: seq<Vector>): Trend
  {
    if |buffer| < 5 then Stable
    else
      var recent := buffer[|buffer| - 5..];
      var avgEarly := (Total(recent[0]) + Total(recent[1])) / 8.0;
      var avgLate := (Total(recent[3]) + Total(recent[4])) / 8.0;
      RatioTrend(avgEarly, avgLate)
  }

  function ScaleVector(c: real, v: Vector): Vector
  {
    Vector(c * v.methane, c * v.lpg, c * v.co, c * v.h2s)
  }

  /** The buffer trend is unchanged when every reading is scaled by the same
      positive factor: it does not depend on the unit of measurement. */
  lemma CalculateTrendScaleInvariant(buffer: seq<Vector>, c: real)
    requires c > 0.0
    ensures CalculateTrend(seq(|buffer|, i requires 0 <= i < |buffer| => ScaleVector(c, buffer[i])))
            == CalculateTrend(buffer)
  {
    var scaled := seq(|buffer|, i requires 0 <= i < |buffer| => ScaleVector(c, buffer[i]));
    if |buffer| >= 5 {
      var n := |buffer|;
      var e := (Total(buffer[n - 5]) + Total(buffer[n - 4])) / 8.0;
      var l := (Total(buffer[n - 2]) + Total(buffer[n - 1])) / 8.0;
      assert (Total(scaled[n - 5]) + Total(scaled[n - 4])) / 8.0 == c * e;
      assert (Total(scaled[n - 2]) + Total(scaled[n - 1])) / 8.0 == c * l;
      RatioTrendScaleInvariant(e, l, c);
    }
  }

  /** For a positive reference the rule is a test on the ratio current /
      reference: above 1.2 increasing, below 0.8 decreasing, otherwise stable. */
  lemma RatioTrendByRatio(reference: real, current: real)
    requires reference > 0.0
    ensures RatioTrend(reference, current) == Increasing <==> current / reference > 1.2
    ensures RatioTrend(reference, current) == Decreasing <==> current / reference < 0.8
    ensures RatioTrend(reference, current) == Stable <==> 0.8 <= current / reference <= 1.2
  {
    var q := current / reference;
    assert current == q * reference;
    ScaleComparison(reference, q, 1.2);
    ScaleComparison(reference, 0.8, q);
  }

  /** _calculate_trend needs five readings and looks at the last five only. */
  lemma CalculateTrendUsesLastFive(buffer: seq<Vector>, older: seq<Vector>)
    ensures |buffer| < 5 ==> CalculateTrend(buffer) == Stable
    ensures |buffer| >= 5 ==> CalculateTrend(older + buffer) == CalculateTrend(buffer[|buffer| - 5..])
  {
    if |buffer| >= 5 {
      var all := older + buffer;
      assert all[|all| - 5..] == buffer[|buffer| - 5..];
      var last := buffer[|buffer| - 5..];
      assert last[|last| - 5..] == last;
    }
  }
}
