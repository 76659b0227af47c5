/** The scenario simulator service: per-zone scenario records that the
    background loop advances one tick at a time, the /scenario and /reset
    operations that rewrite them, the choice of the ranges readings are drawn
    from, and the send counters. Random draws and timestamps are parameters;
    the HTTP post and the loop's timing are not part of this model. */
module ScenarioSimulator {
  import opened Outcomes
  import opened RiskLevels
  import opened PpmClassifier
  import opened AnomalyScoring

  const Zones: seq<string> := ["ZONE_A_01", "ZONE_B_02", "ZONE_C_03", "ZONE_D_04"]
  const SendInterval: nat := 2
  const GradualLeakSteps: nat := 20

  // ---------------------------------------------------------------------------
  // Templates

  /** A closed range [lo, hi] that random.uniform draws from. */
  datatype Range = Range(lo: real, hi: real)

  /** The range of each gas, in the order methane, lpg, carbonMonoxide, hydrogenSulfide. */
  datatype Template = Template(methane: Range, lpg: Range, co: Range, h2s: Range)

  function RangeFor(t: Template, i: nat): Range
    requires i < 4
  {
    if i == 0 then t.methane else if i == 1 then t.lpg else if i == 2 then t.co else t.h2s
  }

  /** SCENARIO_TEMPLATES, keyed by the risk state each template stands for. */
  function TemplateOf(level: RiskLevel): Template
  {
    match level
    case Normal => Template(Range(50.0, 300.0), Range(20.0, 200.0), Range(5.0, 20.0), Range(0.5, 4.0))
    case LowAnomaly => Template(Range(1000.0, 1400.0), Range(500.0, 700.0), Range(25.0, 32.0), Range(5.0, 8.0))
    case Unusual => Template(Range(2500.0, 3500.0), Range(1000.0, 1400.0), Range(35.0, 48.0), Range(10.0, 14.0))
    case Alert => Template(Range(4000.0, 4800.0), Range(1500.0, 1900.0), Range(50.0, 95.0), Range(15.0, 19.0))
    case Warning => Template(Range(5000.0, 6800.0), Range(2000.0, 2900.0), Range(100.0, 190.0), Range(20.0, 45.0))
    case Critical => Template(Range(7000.0, 10000.0), Range(3000.0, 5000.0), Range(200.0, 400.0), Range(50.0, 100.0))
  }

  /** `SCENARIO_TEMPLATES.get(name)`. */
  function ScenarioTemplate(name: string): Option<Template>
  {
    match Parse(name)
    case Some(level) => Some(TemplateOf(level))
    case None => None
  }

  /** The templates are calibrated to the PPM bands: any value a template
      allows for a gas classifies, by that gas's bands, as the template's own
      state. */
  lemma TemplateCalibrated(level: RiskLevel, i: nat, x: real)
    requires i < 4
    requires RangeFor(TemplateOf(level), i).lo <= x <= RangeFor(TemplateOf(level), i).hi
    ensures ClassifyByPpm(GasOrder[i], Real(x)) == level
  {
    var gas := GasOrder[i];
    ClassifyIsContainingBand(gas, x);
    assert InBand(Thresholds(gas).value[Rank(level)], Real(x));
    assert Thresholds(gas).value[Rank(level)].level == level;
  }

  // ---------------------------------------------------------------------------
  // Zone records

  /** A JSON value as far as the numeric check of gasLevels tells them apart. */
  datatype JsonValue = JNull | JBool(b: bool) | JNum(n: real) | JText(s: string) | JComposite

  /** `isinstance(v, (int, float))`; a JSON boolean is a Python bool, which is an int. */
  predicate IsNumeric(v: JsonValue)
  {
    v.JBool? || v.JNum?
  }

  function NumericValue(v: JsonValue): real
    requires IsNumeric(v)
  {
    match v
    case JBool(b) => if b then 1.0 else 0.0
    case JNum(n) => n
  }

  predicate HasNumericLevels(levels: map<string, JsonValue>)
  {
    forall i :: 0 <= i < 4 ==> GasOrder[i] in levels && IsNumeric(levels[GasOrder[i]])
  }

  /** One entry of zone_states. */
  datatype ZoneState = ZoneState(scenario: string, remaining: Option<int>,
                                 customLevels: Option<map<string, JsonValue>>,
                                 leakProgress: real, activatedAt: Option<string>)

  /** The record init_zone_states and reset_zone write, and expiry reverts to. */
  function NormalZone(): ZoneState
  {
    ZoneState("NORMAL", None, None, 0.0, None)
  }

  /** The scenario names /scenario accepts. */
  predicate ValidScenario(s: string)
  {
    Parse(s).Some? || s in {"GRADUAL_LEAK", "SUDDEN_SPIKE", "CUSTOM"}
  }

  /** What every record in zone_states satisfies: a countdown is at least one
      tick, progress is a fraction, and custom levels exist exactly for CUSTOM,
      with all four gases numeric. */
  predicate WellFormedZone(z: ZoneState)
  {
    && (z.remaining.Some? ==> z.remaining.value >= 1)
    && 0.0 <= z.leakProgress <= 1.0
    && ValidScenario(z.scenario)
    && (z.customLevels.Some? <==> z.scenario == "CUSTOM")
    && (z.customLevels.Some? ==> HasNumericLevels(z.customLevels.value))
  }

  function Min(a: real, b: real): real
  {
    if a <= b then a else b
  }

  function MaxInt(a: int, b: int): int
  {
    if a >= b then a else b
  }

  /** update_zone_state on one record. */
  function Tick(z: ZoneState): ZoneState
  {
    if z.scenario == "NORMAL" then z
    else
      var advanced :=
        if z.scenario == "GRADUAL_LEAK" then
          var progress := Min(1.0, z.leakProgress + 1.0 / GradualLeakSteps as real);
          if progress >= 1.0 && z.remaining.Some? then
            z.(leakProgress := progress, remaining := Some(MaxInt(0, z.remaining.value - 1)))
          else z.(leakProgress := progress)
        else if z.scenario == "SUDDEN_SPIKE" then
          if z.remaining.Some? then z.(remaining := Some(z.remaining.value - 1)) else z
        else if z.remaining.Some? then z.(remaining := Some(z.remaining.value - 1))
        else z;
      if advanced.remaining.Some? && advanced.remaining.value <= 0 then NormalZone() else advanced
  }

  /** A tick keeps a record well formed, leaves a NORMAL zone untouched, and
      otherwise either reverts to the NORMAL record or keeps the scenario. */
  lemma TickPreserves(z: ZoneState)
    requires WellFormedZone(z)
    ensures WellFormedZone(Tick(z))
    ensures z.scenario == "NORMAL" ==> Tick(z) == z
    ensures Tick(z) == NormalZone() || Tick(z).scenario == z.scenario
    ensures Tick(z).leakProgress >= z.leakProgress || Tick(z) == NormalZone()
  {
  }

  function TickN(z: ZoneState, n: nat): ZoneState
    decreases n
  {
    if n == 0 then z else TickN(Tick(z), n - 1)
  }

  lemma {:induction false} TickNSplit(z: ZoneState, a: nat, b: nat)
    ensures TickN(z, a + b) == TickN(TickN(z, a), b)
    decreases a
  {
    if a > 0 {
      TickNSplit(Tick(z), a - 1, b);
    }
  }

  /** A countdown scenario other than GRADUAL_LEAK loses exactly one tick per
      update while it runs. */
  lemma {:induction false} CountdownRuns(z: ZoneState, j: nat)
    requires z.scenario != "NORMAL" && z.scenario != "GRADUAL_LEAK"
    requires z.remaining.Some? && j < z.remaining.value
    ensures TickN(z, j) == z.(remaining := Some(z.remaining.value - j))
    decreases j
  {
    if j > 0 {
      CountdownRuns(z, j - 1);
      TickNSplit(z, j - 1, 1);
    }
  }

  /** ... and after `remaining` updates it is back to the full NORMAL record. */
  lemma CountdownExpires(z: ZoneState)
    requires z.scenario != "NORMAL" && z.scenario != "GRADUAL_LEAK"
    requires z.remaining.Some? && z.remaining.value >= 1
    ensures TickN(z, z.remaining.value) == NormalZone()
  {
    var k := z.remaining.value;
    CountdownRuns(z, k - 1);
    TickNSplit(z, k - 1, 1);
  }

  /** A scenario with no countdown never expires. */
  lemma {:induction false} NoCountdownNeverExpires(z: ZoneState, n: nat)
    requires z.scenario != "NORMAL" && z.remaining.None?
    ensures TickN(z, n).scenario == z.scenario && TickN(z, n).remaining.None?
    decreases n
  {
    if n > 0 {
      NoCountdownNeverExpires(Tick(z), n - 1);
    }
  }

  /** A gradual leak climbs by 1/GRADUAL_LEAK_STEPS per update and its
      countdown does not move while it climbs. */
  lemma {:induction false} GradualRamp(z: ZoneState, j: nat)
    requires z.scenario == "GRADUAL_LEAK" && z.leakProgress == 0.0
    requires z.remaining.Some? && z.remaining.value >= 1
    requires j < GradualLeakSteps
    ensures TickN(z, j) == z.(leakProgress := j as real / GradualLeakSteps as real)
    decreases j
  {
    if j > 0 {
      GradualRamp(z, j - 1);
      TickNSplit(z, j - 1, 1);
    }
  }

  /** Once fully leaked, the countdown runs one tick per update with the
      progress held at 1. */
  lemma {:induction false} GradualHold(z: ZoneState, j: nat)
    requires z.scenario == "GRADUAL_LEAK" && z.leakProgress == 1.0
    requires z.remaining.Some? && j < z.remaining.value
    ensures TickN(z, j) == z.(remaining := Some(z.remaining.value - j))
    decreases j
  {
    if j > 0 {
      GradualHold(z, j - 1);
      TickNSplit(z, j - 1, 1);
    }
  }

  /** A gradual leak activated with k ticks reaches full strength on its 20th
      update and is back to NORMAL after 19 + k updates. */
  lemma GradualExpires(z: ZoneState)
    requires z.scenario == "GRADUAL_LEAK" && z.leakProgress == 0.0
    requires z.remaining.Some? && z.remaining.value >= 1
    ensures TickN(z, GradualLeakSteps - 1 + z.remaining.value) == NormalZone()
  {
    var k := z.remaining.value;
    var last := z.(leakProgress := 19.0 / 20.0);
    GradualRamp(z, GradualLeakSteps - 1);
    assert TickN(z, GradualLeakSteps - 1) == last;
    TickNSplit(z, GradualLeakSteps - 1, k);
    FullStrengthStep(last);
    if k == 1 {
      assert TickN(last, 1) == Tick(last);
    } else {
      var full := z.(leakProgress := 1.0, remaining := Some(k - 1));
      TickNSplit(last, 1, k - 1);
      assert TickN(last, 1) == full;
      GradualHold(full, k - 2);
      TickNSplit(full, k - 2, 1);
    }
  }

  /** The update that completes the ramp also takes the first tick off the countdown. */
  lemma FullStrengthStep(z: ZoneState)
    requires z.scenario == "GRADUAL_LEAK" && z.leakProgress == 19.0 / 20.0
    requires z.remaining.Some? && z.remaining.value >= 1
    ensures Tick(z) == if z.remaining.value == 1 then NormalZone()
                       else z.(leakProgress := 1.0, remaining := Some(z.remaining.value - 1))
  {
  }

  // ---------------------------------------------------------------------------
  // Activation

  /** Python's int() on a float: truncation toward zero. */
  function Trunc(x: real): (n: int)
    ensures 0.0 <= x ==> n as real <= x < n as real + 1.0
    ensures x < 0.0 ==> n as real - 1.0 < x <= n as real
  {
    if x >= 0.0 then x.Floor else -((-x).Floor)
  }

  /** The countdown activate_scenario computes: max(1, int(duration /
      SEND_INTERVAL)) for a given duration, otherwise 1 for SUDDEN_SPIKE,
      GRADUAL_LEAK_STEPS + 10 for GRADUAL_LEAK and none at all for the rest. */
  function Ticks(scenario: string, duration: Option<real>): Option<int>
  {
    var remaining := if duration.Some? then Some(MaxInt(1, Trunc(duration.value / SendInterval as real))) else None;
    if scenario == "SUDDEN_SPIKE" && remaining.None? then Some(1)
    else if scenario == "GRADUAL_LEAK" && remaining.None? then Some(GradualLeakSteps + 10)
    else remaining
  }

  /** A countdown is always at least one tick; for a duration of at least one
      interval it covers the duration to within one interval. */
  lemma TicksBounds(scenario: string, duration: Option<real>)
    ensures Ticks(scenario, duration).Some? ==> Ticks(scenario, duration).value >= 1
    ensures duration.Some? && duration.value >= SendInterval as real ==>
              (var k := Ticks(scenario, duration).value;
               k as real * SendInterval as real <= duration.value < (k + 1) as real * SendInterval as real)
    ensures duration.None? ==>
              Ticks(scenario, duration) == (if scenario == "SUDDEN_SPIKE" then Some(1)
                                            else if scenario == "GRADUAL_LEAK" then Some(30)
                                            else None)
  {
  }

  /** The gasLevels key of a /scenario object: absent, null, or an object. */
  datatype LevelsField = NoLevels | NullLevels | Levels(levels: map<string, JsonValue>)

  /** The keys of a /scenario JSON object. A key is absent (None) or holds a
      JSON value, `null` included; `otherKeys` says whether the object has any
      further key. */
  datatype ActivateBody = ActivateBody(zone: Option<JsonValue>, scenario: Option<JsonValue>,
                                       duration: Option<JsonValue>,
                                       gasLevels: LevelsField,
                                       otherKeys: bool)

  /** What `request.get_json()` gives the route: nothing, a JSON value that is
      not an object (with its Python truth value), or an object. */
  datatype ActivateRequest = NoBody | NonObjectBody(truthy: bool) | Object(body: ActivateBody)

  datatype ActivateError =
    | BodyRequired                 // 400 "JSON body required"
    | InvalidZone                  // 400
    | InvalidScenario              // 400
    | GasLevelsRequired            // 400
    | NonNumericLevel(gas: string) // 400
    | BodyNotObject                // 500: `data.get` on a value that is not a dict
    | DurationNotNumber            // 500: `duration / SEND_INTERVAL` on a string, list or object

  /** An object with no keys at all, the only object `not data` rejects. */
  predicate IsEmptyBody(b: ActivateBody)
  {
    b.zone.None? && b.scenario.None? && b.duration.None? && b.gasLevels.NoLevels? && !b.otherKeys
  }

  /** `not zone or zone not in ZONES`, negated. */
  predicate ValidZoneField(v: Option<JsonValue>)
  {
    v.Some? && v.value.JText? && v.value.s in Zones
  }

  /** `not scenario or scenario not in valid_scenarios`, negated. */
  predicate ValidScenarioField(v: Option<JsonValue>)
  {
    v.Some? && v.value.JText? && ValidScenario(v.value.s)
  }

  /** A duration that is absent, null, or a number (a bool included) can be
      divided by SEND_INTERVAL. */
  predicate DurationUsable(d: Option<JsonValue>)
  {
    d.None? || d.value.JNull? || IsNumeric(d.value)
  }

  /** The duration in seconds; None when it is absent or null. */
  function DurationSeconds(d: Option<JsonValue>): Option<real>
    requires DurationUsable(d)
  {
    if d.None? || d.value.JNull? then None else Some(NumericValue(d.value))
  }

  /** The first of the four gases whose level is missing or not numeric. */
  function FirstNonNumeric(levels: map<string, JsonValue>, i: nat): (r: Option<string>)
    requires i <= 4
    ensures r.None? <==> forall j :: i <= j < 4 ==> GasOrder[j] in levels && IsNumeric(levels[GasOrder[j]])
    ensures r.Some? ==> exists j :: i <= j < 4 && r.value == GasOrder[j] &&
                          (GasOrder[j] !in levels || !IsNumeric(levels[GasOrder[j]]))
    decreases 4 - i
  {
    if i == 4 then None
    else if GasOrder[i] !in levels || !IsNumeric(levels[GasOrder[i]]) then Some(GasOrder[i])
    else FirstNonNumeric(levels, i + 1)
  }

  /** The checks CUSTOM adds: gasLevels is an object holding four numeric gases. */
  predicate CustomLevelsOk(b: ActivateBody)
  {
    b.gasLevels.Levels? && HasNumericLevels(b.gasLevels.levels)
  }

  /** The checks of activate_scenario, in order, and the record it writes. */
  function Activation(request: ActivateRequest, now: string): (r: Result2<(string, ZoneState), ActivateError>)
    ensures r == Err(BodyRequired) <==>
              request.NoBody? || request == NonObjectBody(false) || (request.Object? && IsEmptyBody(request.body))
    ensures r == Err(BodyNotObject) <==> request == NonObjectBody(true)
    ensures r.Ok? <==>
              && request.Object? && !IsEmptyBody(request.body)
              && ValidZoneField(request.body.zone)
              && ValidScenarioField(request.body.scenario)
              && (request.body.scenario.value.s == "CUSTOM" ==> CustomLevelsOk(request.body))
              && DurationUsable(request.body.duration)
    ensures r == Err(DurationNotNumber) <==>
              && request.Object? && !IsEmptyBody(request.body)
              && ValidZoneField(request.body.zone)
              && ValidScenarioField(request.body.scenario)
              && (request.body.scenario.value.s == "CUSTOM" ==> CustomLevelsOk(request.body))
              && !DurationUsable(request.body.duration)
    ensures r.Ok? ==> r.value.0 in Zones && WellFormedZone(r.value.1) && r.value.1.leakProgress == 0.0
    ensures r.Ok? ==> r.value.0 == request.body.zone.value.s && r.value.1.scenario == request.body.scenario.value.s
    ensures r.Ok? ==> r.value.1.remaining == Ticks(r.value.1.scenario, DurationSeconds(request.body.duration))
  {
    match request
    case NoBody => Err(BodyRequired)
    case NonObjectBody(truthy) => if truthy then Err(BodyNotObject) else Err(BodyRequired)
    case Object(b) =>
      if IsEmptyBody(b) then Err(BodyRequired)
      else if b.zone.None? || !b.zone.value.JText? || b.zone.value.s !in Zones then Err(InvalidZone)
      else if b.scenario.None? || !b.scenario.value.JText? || !ValidScenario(b.scenario.value.s) then Err(InvalidScenario)
      else
        var scenario := b.scenario.value.s;
        if scenario == "CUSTOM" && (!b.gasLevels.Levels? || b.gasLevels.levels == map[]) then
          assert GasOrder[0] == "methane";
          Err(GasLevelsRequired)
        else if scenario == "CUSTOM" && FirstNonNumeric(b.gasLevels.levels, 0).Some? then
          Err(NonNumericLevel(FirstNonNumeric(b.gasLevels.levels, 0).value))
        else if !DurationUsable(b.duration) then Err(DurationNotNumber)
        else
          var ticks := Ticks(scenario, DurationSeconds(b.duration));
          TicksBounds(scenario, DurationSeconds(b.duration));
          var custom := if scenario == "CUSTOM" then Some(b.gasLevels.levels) else None;
          Ok((b.zone.value.s, ZoneState(scenario, ticks, custom, 0.0, Some(now))))
  }

  datatype Result2<+T, +E> = Ok(value: T) | Err(error: E)

  // ---------------------------------------------------------------------------
  // Reading generation

  /** The ranges generate_reading draws a zone's four gases from: custom
      levels with a fixed jitter first, then the interpolated gradual leak,
      then the CRITICAL template for a spike, then the scenario's template,
      falling back to NORMAL. */
  function ReadingRanges(z: ZoneState): Template
    requires WellFormedZone(z)
  {
    if z.customLevels.Some? && z.customLevels.value != map[] then
      var c := z.customLevels.value;
      var m := NumericValue(c[GasOrder[0]]);
      var l := NumericValue(c[GasOrder[1]]);
      var co := NumericValue(c[GasOrder[2]]);
      var h := NumericValue(c[GasOrder[3]]);
      Template(Range(m - 5.0, m + 5.0), Range(l - 3.0, l + 3.0), Range(co - 1.0, co + 1.0), Range(h - 0.5, h + 0.5))
    else if z.scenario == "GRADUAL_LEAK" then Interpolate(z.leakProgress)
    else if z.scenario == "SUDDEN_SPIKE" then TemplateOf(Critical)
    else
      match ScenarioTemplate(z.scenario)
      case Some(t) => t
      case None => TemplateOf(Normal)
  }

  function Lerp(a: real, b: real, p: real): real
  {
    a + (b - a) * p
  }

  /** The gradual-leak ranges: each bound moves from the NORMAL template toward
      the WARNING template in proportion to the progress. */
  function Interpolate(progress: real): Template
  {
    var n := TemplateOf(Normal);
    var w := TemplateOf(Warning);
    Template(Range(Lerp(n.methane.lo, w.methane.lo, progress), Lerp(n.methane.hi, w.methane.hi, progress)),
             Range(Lerp(n.lpg.lo, w.lpg.lo, progress), Lerp(n.lpg.hi, w.lpg.hi, progress)),
             Range(Lerp(n.co.lo, w.co.lo, progress), Lerp(n.co.hi, w.co.hi, progress)),
             Range(Lerp(n.h2s.lo, w.h2s.lo, progress), Lerp(n.h2s.hi, w.h2s.hi, progress)))
  }

  /** The interpolated ranges start at NORMAL, end at WARNING, and are
      proper ranges lying between the two templates for every progress in [0, 1]. */
  lemma InterpolateBounds(progress: real)
    requires 0.0 <= progress <= 1.0
    ensures Interpolate(0.0) == TemplateOf(Normal)
    ensures Interpolate(1.0) == TemplateOf(Warning)
    ensures forall i :: 0 <= i < 4 ==>
              var r := RangeFor(Interpolate(progress), i);
              && RangeFor(TemplateOf(Normal), i).lo <= r.lo <= r.hi
              && r.lo <= RangeFor(TemplateOf(Warning), i).lo
              && RangeFor(TemplateOf(Normal), i).hi <= r.hi <= RangeFor(TemplateOf(Warning), i).hi
  {
  }

  /** A record outside CUSTOM, GRADUAL_LEAK and SUDDEN_SPIKE always names a
      template, so the NORMAL fallback of the template lookup is never taken:
      the zone reads from its own scenario's template. */
  lemma TemplateFallbackUnused(z: ZoneState)
    requires WellFormedZone(z)
    requires z.scenario != "CUSTOM" && z.scenario != "GRADUAL_LEAK" && z.scenario != "SUDDEN_SPIKE"
    ensures Parse(z.scenario).Some?
    ensures ScenarioTemplate(z.scenario).Some?
    ensures ReadingRanges(z) == TemplateOf(Parse(z.scenario).value)
  {
  }

  /** random.uniform(lo, hi) for a unit draw u. */
  function Uniform(r: Range, u: real): real
  {
    r.lo + (r.hi - r.lo) * u
  }

  /** generate_reading, with one unit draw per gas (rounding to two decimals is not modelled). */
  function GenerateReading(z: ZoneState, draws: Vector): Vector
    requires WellFormedZone(z)
  {
    var t := ReadingRanges(z);
    Vector(Uniform(t.methane, draws.methane), Uniform(t.lpg, draws.lpg),
           Uniform(t.co, draws.co), Uniform(t.h2s, draws.h2s))
  }

  predicate UnitDraws(u: Vector)
  {
    0.0 <= u.methane <= 1.0 && 0.0 <= u.lpg <= 1.0 && 0.0 <= u.co <= 1.0 && 0.0 <= u.h2s <= 1.0
  }

  lemma UniformInRange(r: Range, u: real)
    requires r.lo <= r.hi && 0.0 <= u <= 1.0
    ensures r.lo <= Uniform(r, u) <= r.hi
  {
    var d := r.hi - r.lo;
    assert d * u >= 0.0;
    assert d * u + d * (1.0 - u) == d;
    assert d * (1.0 - u) >= 0.0;
  }

  /** A zone running one of the six template scenarios produces readings that
      the PPM classifier puts in that scenario's own state, gas by gas. */
  lemma TemplateScenarioReadsAsItsState(z: ZoneState, draws: Vector, level: RiskLevel)
    requires WellFormedZone(z) && z.customLevels.None? && z.scenario == Label(level)
    requires UnitDraws(draws)
    ensures var v := GenerateReading(z, draws);
            && ClassifyByPpm("methane", Real(v.methane)) == level
            && ClassifyByPpm("lpg", Real(v.lpg)) == level
            && ClassifyByPpm("carbonMonoxide", Real(v.co)) == level
            && ClassifyByPpm("hydrogenSulfide", Real(v.h2s)) == level
  {
    ParseLabel(level);
    var t := TemplateOf(level);
    assert ReadingRanges(z) == t;
    UniformInRange(t.methane, draws.methane);
    UniformInRange(t.lpg, draws.lpg);
    UniformInRange(t.co, draws.co);
    UniformInRange(t.h2s, draws.h2s);
    var v := GenerateReading(z, draws);
    TemplateCalibrated(level, 0, v.methane);
    TemplateCalibrated(level, 1, v.lpg);
    TemplateCalibrated(level, 2, v.co);
    TemplateCalibrated(level, 3, v.h2s);
  }

  // ---------------------------------------------------------------------------
  // The service state

  /** Every zone in NORMAL. */
  function AllNormal(): map<string, ZoneState>
  {
    map z | z in Zones :: NormalZone()
  }

  /** What the body of /reset names. */
  datatype ZoneField = Missing | Given(value: string) | NotAString

  datatype SendOutcome = RequestFailed | Status(code: int)

  /** zone_states holds well-formed records of known zones only. */
  predicate ValidStates(m: map<string, ZoneState>)
  {
    forall z :: z in m ==> z in Zones && WellFormedZone(m[z])
  }

  lemma ValidStatesUpdate(m: map<string, ZoneState>, zone: string, z: ZoneState)
    requires ValidStates(m) && zone in Zones && WellFormedZone(z)
    ensures ValidStates(m[zone := z])
  {
  }

  class Simulator {
    var zoneStates: map<string, ZoneState>
    var totalSent: nat
    var errors: nat

    ghost predicate Valid()
      reads this
    {
      ValidStates(zoneStates)
    }

    constructor()
      ensures Valid()
      ensures zoneStates == map[] && totalSent == 0 && errors == 0
    {
      zoneStates := map[];
      totalSent := 0;
      errors := 0;
    }

    /** init_zone_states. */
    method InitZoneStates()
      requires Valid()
      modifies this
      ensures Valid()
      ensures zoneStates == AllNormal()
      ensures totalSent == old(totalSent) && errors == old(errors)
    {
      var i := 0;
      while i < |Zones|
        invariant 0 <= i <= |Zones|
        invariant Valid()
        invariant forall z :: z in Zones[..i] ==> z in zoneStates && zoneStates[z] == NormalZone()
        invariant forall z :: z in zoneStates ==> z in Zones
        invariant totalSent == old(totalSent) && errors == old(errors)
      {
        zoneStates := zoneStates[Zones[i] := NormalZone()];
        i := i + 1;
      }
      assert Zones[..i] == Zones;
    }

    /** update_zone_state: one tick of one zone, no other zone touched. */
    method UpdateZoneState(zone: string)
      requires Valid() && zone in zoneStates
      modifies this
      ensures Valid()
      ensures zoneStates == old(zoneStates)[zone := Tick(old(zoneStates)[zone])]
      ensures totalSent == old(totalSent) && errors == old(errors)
    {
      var state := zoneStates[zone];
      ghost var before := state;
      if state.scenario == "NORMAL" {
        return;
      }
      if state.scenario == "GRADUAL_LEAK" {
        state := state.(leakProgress := Min(1.0, state.leakProgress + 1.0 / GradualLeakSteps as real));
        if state.leakProgress >= 1.0 && state.remaining.Some? {
          state := state.(remaining := Some(MaxInt(0, state.remaining.value - 1)));
        }
      } else if state.scenario == "SUDDEN_SPIKE" {
        if state.remaining.Some? {
          state := state.(remaining := Some(state.remaining.value - 1));
        }
      } else if state.remaining.Some? {
        state := state.(remaining := Some(state.remaining.value - 1));
      }
      if state.remaining.Some? && state.remaining.value <= 0 {
        state := NormalZone();
      }
      assert state == Tick(before);
      TickPreserves(before);
      ValidStatesUpdate(zoneStates, zone, state);
      zoneStates := zoneStates[zone := state];
    }

    /** activate_scenario: on success only the named zone is rewritten; on any
        rejection nothing changes. */
    method ActivateScenario(request: ActivateRequest, now: string) returns (r: Result2<(string, ZoneState), ActivateError>)
      requires Valid()
      modifies this
      ensures Valid()
      ensures r == Activation(request, now)
      ensures r.Err? ==> zoneStates == old(zoneStates)
      ensures r.Ok? ==> zoneStates == old(zoneStates)[r.value.0 := r.value.1]
      ensures totalSent == old(totalSent) && errors == old(errors)
    {
      r := Activation(request, now);
      if r.Ok? {
        zoneStates := zoneStates[r.value.0 := r.value.1];
      }
    }

    /** reset_zone: "all" (also when no zone is given) resets every zone, a
        known zone resets only itself, anything else is rejected. */
    method ResetZone(zone: ZoneField) returns (ok: bool)
      requires Valid()
      modifies this
      ensures Valid()
      ensures ok <==> zone.Missing? || (zone.Given? && (zone.value == "all" || zone.value in Zones))
      ensures ok && (zone.Missing? || zone.value == "all") ==> zoneStates == AllNormal()
      ensures ok && zone.Given? && zone.value != "all" ==> zoneStates == old(zoneStates)[zone.value := NormalZone()]
      ensures !ok ==> zoneStates == old(zoneStates)
      ensures totalSent == old(totalSent) && errors == old(errors)
    {
      var name := if zone.Missing? then "all" else if zone.Given? then zone.value else "";
      if zone.NotAString? {
        return false;
      }
      if name == "all" {
        InitZoneStates();
        return true;
      } else if name in Zones {
        ValidStatesUpdate(zoneStates, name, NormalZone());
        zoneStates := zoneStates[name := NormalZone()];
        return true;
      }
      return false;
    }

    /** send_reading's counters: a 200 counts as sent, anything else (another
        status or a failed request) as an error. */
    method SendReading(outcome: SendOutcome) returns (sent: bool)
      modifies this
      ensures sent <==> outcome == Status(200)
      ensures totalSent + errors == old(totalSent) + old(errors) + 1
      ensures sent ==> totalSent == old(totalSent) + 1
      ensures !sent ==> errors == old(errors) + 1
      ensures zoneStates == old(zoneStates)
    {
      if outcome.Status? && outcome.code == 200 {
        totalSent := totalSent + 1;
        return true;
      }
      errors := errors + 1;
      return false;
    }
  }
}
