/** The GasLeakPredictor of the older, untrained service and its /predict
    route. The network starts untrained and is fitted once, on random data,
    by warm_up; the outcome of that fit is a parameter. Prediction errors are
    taken on raw readings (this version has no scaler), and the trend is the
    ratio of the errors of the two windows before the newest one. */
module UntrainedService {
  import opened Outcomes
  import opened RiskLevels
  import opened PpmClassifier
  import opened AnomalyScoring
  import opened Fusion

  // ---------------------------------------------------------------------------
  // Python slices

  /** A slice bound as Python normalises it: a negative bound counts from the
      end, then the bound is clamped to [0, n]. */
  function SliceBound(i: int, n: nat): (b: nat)
    ensures b <= n
    ensures 0 <= i <= n ==> b == i
  {
    if i < 0 then (if i + n < 0 then 0 else i + n)
    else if i > n then n
    else i
  }

  /** `s[start:stop]`. */
  function PySlice<T>(s: seq<T>, start: int, stop: int): (r: seq<T>)
    ensures 0 <= start <= stop <= |s| ==> r == s[start..stop]
    ensures |r| <= |s|
  {
    var a := SliceBound(start, |s|);
    var b := SliceBound(stop, |s|);
    if a < b then s[a..b] else []
  }

  // ---------------------------------------------------------------------------
  // The recent-errors loop

  /** The message numpy gives when an empty slice is reshaped to one window. */
  const ReshapeError: string := "cannot reshape array of size 0 into shape (1,10,4)"

  /** One element of recent_errors: the network's prediction from
      buffer[i:i+SEQUENCE_LENGTH] against buffer[i+SEQUENCE_LENGTH-1]; None
      when the slice is not a whole window, where the reshape raises. */
  function WindowError(net: Window -> Vector, buffer: seq<Vector>, i: int): Option<real>
    requires 0 <= i + SequenceLength - 1 < |buffer|
  {
    var window := PySlice(buffer, i, i + SequenceLength);
    if |window| != SequenceLength then None
    else Some(MeanAbsDiff(net(window), buffer[i + SequenceLength - 1]))
  }

  /** The list comprehension over range(lo, hi), evaluated left to right: the
      first window that cannot be reshaped raises. */
  function ErrorsBetween(net: Window -> Vector, buffer: seq<Vector>, lo: int, hi: int): (r: Result<seq<real>>)
    requires lo <= hi
    requires 0 <= lo + SequenceLength - 1 && hi + SequenceLength - 1 <= |buffer|
    ensures r.Success? ==> |r.value| == hi - lo
    decreases hi - lo
  {
    if lo == hi then Success([])
    else
      match ErrorsBetween(net, buffer, lo, hi - 1)
      case Failure(e) => Failure(e)
      case Success(errors) =>
        match WindowError(net, buffer, hi - 1)
        case None => Failure(ReshapeError)
        case Some(e) => Success(errors + [e])
  }

  /** Once a window has failed, the comprehension has raised: later windows do not matter. */
  lemma {:induction false} FailureStops(net: Window -> Vector, buffer: seq<Vector>, lo: int, k: int, hi: int)
    requires lo <= k <= hi
    requires 0 <= lo + SequenceLength - 1 && hi + SequenceLength - 1 <= |buffer|
    requires ErrorsBetween(net, buffer, lo, k).Failure?
    ensures ErrorsBetween(net, buffer, lo, hi) == ErrorsBetween(net, buffer, lo, k)
    decreases hi - k
  {
    if k < hi {
      FailureStops(net, buffer, lo, k, hi - 1);
    }
  }

  /** recent_errors over range(len - SEQUENCE_LENGTH - 2, len - SEQUENCE_LENGTH). */
  function RecentErrors(net: Window -> Vector, buffer: seq<Vector>): Result<seq<real>>
    requires |buffer| >= SequenceLength
  {
    ErrorsBetween(net, buffer, |buffer| - SequenceLength - 2, |buffer| - SequenceLength)
  }

  /** The trend computation fails exactly when the buffer holds 10 or 11
      readings: its first window starts at a negative index and the slice is
      empty. From 12 readings on, the two errors are those of the two whole
      windows ending one and two readings before the newest. */
  lemma RecentErrorsNeedTwelve(net: Window -> Vector, buffer: seq<Vector>)
    requires |buffer| >= SequenceLength
    ensures RecentErrors(net, buffer).Failure? <==> |buffer| < SequenceLength + 2
    ensures |buffer| >= SequenceLength + 2 ==>
              var n := |buffer|;
              RecentErrors(net, buffer) ==
                Success([MeanAbsDiff(net(buffer[n - 12..n - 2]), buffer[n - 3]),
                         MeanAbsDiff(net(buffer[n - 11..n - 1]), buffer[n - 2])])
  {
    var n := |buffer|;
    if n == SequenceLength {
      assert PySlice(buffer, -2, 8) == [];
      assert WindowError(net, buffer, -2) == None;
      assert ErrorsBetween(net, buffer, -2, -1).Failure?;
      FailureStops(net, buffer, -2, -1, 0);
    } else if n == SequenceLength + 1 {
      assert PySlice(buffer, -1, 9) == [];
      assert WindowError(net, buffer, -1) == None;
      assert ErrorsBetween(net, buffer, -1, 0).Failure?;
      FailureStops(net, buffer, -1, 0, 1);
    } else {
      var e0 := MeanAbsDiff(net(buffer[n - 12..n - 2]), buffer[n - 3]);
      var e1 := MeanAbsDiff(net(buffer[n - 11..n - 1]), buffer[n - 2]);
      assert PySlice(buffer, n - 12, n - 2) == buffer[n - 12..n - 2];
      assert PySlice(buffer, n - 11, n - 1) == buffer[n - 11..n - 1];
      assert WindowError(net, buffer, n - 12) == Some(e0);
      assert WindowError(net, buffer, n - 11) == Some(e1);
      assert ErrorsBetween(net, buffer, n - 12, n - 12) == Success([]);
      var empty: seq<real> := [];
      assert empty + [e0] == [e0];
      assert [e0] + [e1] == [e0, e1];
      assert ErrorsBetween(net, buffer, n - 12, n - 11) == Success([e0]);
      assert ErrorsBetween(net, buffer, n - 12, n - 10) == Success([e0, e1]);
    }
  }

  /** What predict_anomaly reports once the buffer holds at least
      SEQUENCE_LENGTH readings and the network has been warmed up. */
  function WarmResult(net: Window -> Vector, buffer: seq<Vector>, values: Vector): Result<(RiskLevel, real, Trend)>
    requires |buffer| >= SequenceLength
  {
    var error := MeanAbsDiff(net(LastN(buffer, SequenceLength)), values);
    if |buffer| >= 3 then
      match RecentErrors(net, buffer)
      case Failure(e) => Failure(e)
      case Success(errors) =>
        var trend := if |errors| >= 2 then RatioTrend(errors[0], errors[|errors| - 1]) else Stable;
        Success((ClassifyByAnomaly(Real(error)), error, trend))
    else
      Success((ClassifyByAnomaly(Real(error)), error, Stable))
  }

  /** With at least 12 readings a result is always produced, its state is the
      anomaly class of the error, and its trend compares the later window error
      with the earlier one. */
  lemma WarmResultCases(net: Window -> Vector, buffer: seq<Vector>, values: Vector)
    requires |buffer| >= SequenceLength
    ensures WarmResult(net, buffer, values).Failure? <==> |buffer| < SequenceLength + 2
    ensures WarmResult(net, buffer, values).Success? ==>
              var (risk, error, trend) := WarmResult(net, buffer, values).value;
              var errors := RecentErrors(net, buffer).value;
              && error >= 0.0
              && risk == ClassifyByAnomaly(Real(error))
              && trend == RatioTrend(errors[0], errors[1])
  {
    RecentErrorsNeedTwelve(net, buffer);
  }

  class GasLeakPredictor {
    var net: Window -> Vector
    var buffer: seq<Vector>
    var initialized: bool
    var state: RiskLevel
    /** How often warm_up has run. */
    ghost var warmUps: nat

    ghost predicate Valid()
      reads this
    {
      |buffer| <= BufferSize && (initialized <==> warmUps > 0)
    }

    constructor(untrained: Window -> Vector)
      ensures Valid()
      ensures net == untrained && buffer == [] && !initialized && state == Normal && warmUps == 0
    {
      net := untrained;
      buffer := [];
      initialized := false;
      state := Normal;
      warmUps := 0;
    }

    /** warm_up: fit on random data; `fitted` is the network that fit produces. */
    method WarmUp(fitted: Window -> Vector)
      requires Valid()
      modifies this
      ensures Valid()
      ensures net == fitted && initialized && warmUps == old(warmUps) + 1
      ensures buffer == old(buffer) && state == old(state)
    {
      net := fitted;
      initialized := true;
      warmUps := warmUps + 1;
    }

    /** The recent_errors comprehension, as the loop it stands for. */
    method ComputeRecentErrors() returns (r: Result<seq<real>>)
      requires |buffer| >= SequenceLength
      ensures r == RecentErrors(net, buffer)
    {
      var lo := |buffer| - SequenceLength - 2;
      var hi := |buffer| - SequenceLength;
      var errors: seq<real> := [];
      var i := lo;
      while i < hi
        invariant lo <= i <= hi
        invariant ErrorsBetween(net, buffer, lo, i) == Success(errors)
      {
        var window := PySlice(buffer, i, i + SequenceLength);
        if |window| != SequenceLength {
          FailureStops(net, buffer, lo, i + 1, hi);
          return Failure(ReshapeError);
        }
        var pred := net(window);
        errors := errors + [MeanAbsDiff(pred, buffer[i + SequenceLength - 1])];
        i := i + 1;
      }
      return Success(errors);
    }

    /** predict_anomaly: the reading is appended first; warm_up runs on the
        first call that finds a full window and never again; the state changes
        only when the whole computation, trend included, succeeds. */
    method PredictAnomaly(values: Vector, fitted: Window -> Vector) returns (r: Result<(RiskLevel, real, Trend)>)
      requires Valid()
      modifies this
      ensures Valid()
      ensures buffer == Append(old(buffer), values)
      ensures initialized == (old(initialized) || |buffer| >= SequenceLength)
      ensures net == if old(initialized) || |buffer| < SequenceLength then old(net) else fitted
      ensures warmUps == if old(initialized) || |buffer| < SequenceLength then old(warmUps) else old(warmUps) + 1
      ensures old(warmUps) <= 1 ==> warmUps <= 1
      ensures |buffer| < SequenceLength ==> r == Success((old(state), 0.0, InsufficientData))
      ensures |buffer| >= SequenceLength ==> r == WarmResult(net, buffer, values)
      ensures state == if r.Success? then r.value.0 else old(state)
    {
      AppendKeepsNewest(buffer, values);
      buffer := Append(buffer, values);
      if |buffer| < SequenceLength {
        return Success((state, 0.0, InsufficientData));
      }
      if !initialized {
        WarmUp(fitted);
      }
      var pred := net(LastN(buffer, SequenceLength));
      var error := MeanAbsDiff(pred, values);
      var trend;
      if |buffer| >= 3 {
        var recent := ComputeRecentErrors();
        if recent.Failure? {
          return Failure(recent.error);
        }
        var errors := recent.value;
        if |errors| >= 2 {
          trend := RatioTrend(errors[0], errors[|errors| - 1]);
        } else {
          trend := Stable;
        }
      } else {
        trend := Stable;
      }
      state := ClassifyByAnomaly(Real(error));
      return Success((state, error, trend));
    }

    /** The /predict route. An exception from the detector escapes the route
        and is answered with a server error. */
    method Predict(body: Option<PredictBody>, fitted: Window -> Vector) returns (reply: Reply)
      requires Valid()
      modifies this
      ensures Valid()
      ensures ParseBody(body).Rejected? ==>
                reply == BadRequest(ParseBody(body).error) && buffer == old(buffer) && state == old(state)
                && initialized == old(initialized) && net == old(net) && warmUps == old(warmUps)
      ensures ParseBody(body).Readings? ==>
                var p := ParseBody(body);
                && buffer == Append(old(buffer), p.vector)
                && initialized == (old(initialized) || |buffer| >= SequenceLength)
                && net == (if old(initialized) || |buffer| < SequenceLength then old(net) else fitted)
                && warmUps == (if old(initialized) || |buffer| < SequenceLength then old(warmUps) else old(warmUps) + 1)
                && (old(warmUps) <= 1 ==> warmUps <= 1)
                && (|buffer| < SequenceLength ==>
                      reply.Ok? && reply.response.anomalyRisk == old(state) && state == old(state)
                      && reply.response.predictionError == 0.0
                      && reply.response.trend == InsufficientData)
                && (|buffer| >= SequenceLength && WarmResult(net, buffer, p.vector).Failure? ==>
                      reply == ServerError(WarmResult(net, buffer, p.vector).error) && state == old(state))
                && (reply.Ok? ==>
                      && reply.response.ppm == MultiGas(p.gasValues)
                      && reply.response.decision == Fuse(reply.response.ppm.overallRisk, reply.response.anomalyRisk)
                      && state == reply.response.anomalyRisk)
                && (|buffer| >= SequenceLength && WarmResult(net, buffer, p.vector).Success? ==>
                      reply.Ok? &&
                      (reply.response.anomalyRisk, reply.response.predictionError, reply.response.trend)
                      == WarmResult(net, buffer, p.vector).value)
    {
      var parsed := ParseBody(body);
      if parsed.Rejected? {
        return BadRequest(parsed.error);
      }
      var ppm := ClassifyMultiGasPpm(parsed.gasValues);
      var anomaly := PredictAnomaly(parsed.vector, fitted);
      if anomaly.Failure? {
        return ServerError(anomaly.error);
      }
      var (anomalyRisk, predictionError, trend) := anomaly.value;
      var decision := Fuse(ppm.overallRisk, anomalyRisk);
      reply := Ok(Response(decision, ppm, anomalyRisk, predictionError, trend));
    }
  }
}
