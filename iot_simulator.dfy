/** The stand-alone IoT sensor simulator: a per-zone mode machine (NORMAL,
    gradual leak, sudden spike) that decides which ranges each reading is
    drawn from, and the statistics kept about the readings sent. Random draws
    are parameters, the backend's answer to a post is an input, and the
    terminal output and the run loop's timing are not part of this model. */
module IotSimulator {
  import opened RiskLevels
  import opened AnomalyScoring
  import opened ScenarioSimulator

  datatype SimMode = NormalMode | GradualLeak | SuddenSpike | Oscillating

  /** GAS_RANGES["normal"], the same ranges as the scenario simulator's NORMAL template. */
  function NormalRanges(): Template
  {
    Template(Range(50.0, 300.0), Range(20.0, 200.0), Range(5.0, 20.0), Range(0.5, 4.0))
  }

  /** GAS_RANGES["gradual"]. */
  function GradualRanges(): Template
  {
    Template(Range(300.0, 6000.0), Range(200.0, 2500.0), Range(20.0, 150.0), Range(4.0, 40.0))
  }

  /** GAS_RANGES["spike"]. */
  function SpikeRanges(): Template
  {
    Template(Range(6000.0, 10000.0), Range(2500.0, 5000.0), Range(150.0, 400.0), Range(40.0, 100.0))
  }

  /** The ranges of the oscillating reading, before scaling by the amplitude. */
  function OscillatingRanges(): Template
  {
    Template(Range(100.0, 1000.0), Range(50.0, 500.0), Range(10.0, 50.0), Range(2.0, 10.0))
  }

  const LeakStart: real := 0.05
  const SpikeChance: real := 0.3
  const ProgressStep: real := 0.05

  /** The random numbers one call of generate_reading consumes: the
      random.random() deciding a transition, one unit draw per gas, and the
      amplitude draw of the oscillating reading. */
  datatype Draws = Draws(decision: real, values: Vector, amplitude: real)

  /** One reading drawn from a template with unit draws u. */
  function DrawFrom(t: Template, u: Vector): Vector
  {
    Vector(Uniform(t.methane, u.methane), Uniform(t.lpg, u.lpg), Uniform(t.co, u.co), Uniform(t.h2s, u.h2s))
  }

  /** The ranges of a gradual-leak reading: each bound moves from the normal
      range toward the gradual range in proportion to the progress. */
  function LeakRanges(progress: real): Template
  {
    var n := NormalRanges();
    var g := GradualRanges();
    Template(Range(Lerp(n.methane.lo, g.methane.lo, progress), Lerp(n.methane.hi, g.methane.hi, progress)),
             Range(Lerp(n.lpg.lo, g.lpg.lo, progress), Lerp(n.lpg.hi, g.lpg.hi, progress)),
             Range(Lerp(n.co.lo, g.co.lo, progress), Lerp(n.co.hi, g.co.hi, progress)),
             Range(Lerp(n.h2s.lo, g.h2s.lo, progress), Lerp(n.h2s.hi, g.h2s.hi, progress)))
  }

  /** The interpolated bounds are the normal range at progress 0 and the
      gradual range at progress 1, and lie between the two in between. */
  lemma LeakRangesBounds(progress: real)
    requires 0.0 <= progress <= 1.0
    ensures LeakRanges(0.0) == NormalRanges()
    ensures LeakRanges(1.0) == GradualRanges()
    ensures forall i :: 0 <= i < 4 ==>
              var r := RangeFor(LeakRanges(progress), i);
              && RangeFor(NormalRanges(), i).lo <= r.lo <= r.hi
              && r.lo <= RangeFor(GradualRanges(), i).lo
              && RangeFor(NormalRanges(), i).hi <= r.hi <= RangeFor(GradualRanges(), i).hi
  {
  }

  /** One generate_reading for a zone: the reading, the new mode and the new progress. */
  function Step(mode: SimMode, progress: real, d: Draws): (Vector, SimMode, real)
  {
    match mode
    case NormalMode =>
      if d.decision < LeakStart then (DrawFrom(NormalRanges(), d.values), GradualLeak, 0.0)
      else (DrawFrom(NormalRanges(), d.values), NormalMode, progress)
    case GradualLeak =>
      var reading := DrawFrom(LeakRanges(progress), d.values);
      var next := Min(1.0, progress + ProgressStep);
      if next >= 1.0 then
        if d.decision < SpikeChance then (reading, SuddenSpike, next)
        else (reading, NormalMode, 0.0)
      else (reading, GradualLeak, next)
    case SuddenSpike =>
      (DrawFrom(SpikeRanges(), d.values), NormalMode, progress)
    case Oscillating =>
      var r := DrawFrom(OscillatingRanges(), d.values);
      (Vector(r.methane * d.amplitude, r.lpg * d.amplitude, r.co * d.amplitude, r.h2s * d.amplitude),
       Oscillating, progress)
  }

  /** The per-zone invariant: never OSCILLATING (nothing sets it), progress is
      a fraction, and a spike is only pending at full progress. */
  predicate ZoneInvariant(mode: SimMode, progress: real)
  {
    mode != Oscillating && 0.0 <= progress <= 1.0 && (mode == SuddenSpike ==> progress == 1.0)
  }

  lemma StepPreservesInvariant(mode: SimMode, progress: real, d: Draws)
    requires ZoneInvariant(mode, progress)
    ensures var (_, mode', progress') := Step(mode, progress, d);
            ZoneInvariant(mode', progress')
  {
  }

  /** In NORMAL, a start-leak draw switches to a gradual leak from progress 0,
      but the reading returned is still a normal one. */
  lemma NormalStartsLeak(progress: real, d: Draws)
    requires d.decision < LeakStart && UnitDraws(d.values)
    ensures var (reading, mode', progress') := Step(NormalMode, progress, d);
            && mode' == GradualLeak && progress' == 0.0
            && InTemplate(reading, NormalRanges())
  {
    DrawInTemplate(NormalRanges(), d.values);
  }

  /** A gradual leak climbs by 0.05, clamped at 1; on reaching 1 it becomes a
      pending spike (progress kept) or returns to NORMAL (progress reset). */
  lemma GradualLeakStep(progress: real, d: Draws)
    requires 0.0 <= progress <= 1.0
    ensures var (_, mode', progress') := Step(GradualLeak, progress, d);
            && (progress + ProgressStep < 1.0 ==> mode' == GradualLeak && progress' == progress + ProgressStep)
            && (progress + ProgressStep >= 1.0 ==>
                  (mode' == SuddenSpike && progress' == 1.0 && d.decision < SpikeChance) ||
                  (mode' == NormalMode && progress' == 0.0 && d.decision >= SpikeChance))
  {
  }

  /** A spike produces one reading from the spike ranges and the zone is NORMAL again. */
  lemma SpikeIsSingle(progress: real, d: Draws)
    requires UnitDraws(d.values)
    ensures var (reading, mode', progress') := Step(SuddenSpike, progress, d);
            && mode' == NormalMode && progress' == progress
            && InTemplate(reading, SpikeRanges())
  {
    DrawInTemplate(SpikeRanges(), d.values);
  }

  predicate InTemplate(v: Vector, t: Template)
  {
    && t.methane.lo <= v.methane <= t.methane.hi
    && t.lpg.lo <= v.lpg <= t.lpg.hi
    && t.co.lo <= v.co <= t.co.hi
    && t.h2s.lo <= v.h2s <= t.h2s.hi
  }

  lemma DrawInTemplate(t: Template, u: Vector)
    requires UnitDraws(u)
    requires t.methane.lo <= t.methane.hi && t.lpg.lo <= t.lpg.hi && t.co.lo <= t.co.hi && t.h2s.lo <= t.h2s.hi
    ensures InTemplate(DrawFrom(t, u), t)
  {
    UniformInRange(t.methane, u.methane);
    UniformInRange(t.lpg, u.lpg);
    UniformInRange(t.co, u.co);
    UniformInRange(t.h2s, u.h2s);
  }

  // ---------------------------------------------------------------------------
  // Statistics

  /** What the backend answered to a post, as far as send_reading reads it. */
  datatype PostOutcome = PostFailed | Answer(status: int, body: AnswerBody)

  /** The JSON body of an answer: unparsable, a JSON value that is not an
      object, or an object with or without a `reading` field. */
  datatype AnswerBody = Malformed | NotAnObject | Object(reading: ReadingField)

  datatype ReadingField = NoReading | ReadingNotObject | ReadingObject(riskState: RiskField)

  /** The `riskState` of the reading: absent, a string, or another JSON value
      (numbers, booleans and null hash; lists and objects do not). */
  datatype RiskField = NoRiskState | RiskText(s: string) | RiskOther(hashable: bool)

  datatype Stats = Stats(totalSent: nat, successful: nat, failed: nat, riskCounts: map<string, nat>)

  /** stats as __init__ sets it up. */
  function InitialStats(): Stats
  {
    Stats(0, 0, 0, map r: RiskLevel | true :: Label(r) := 0)
  }

  /** Whether reading the risk state out of a parsed answer raises. */
  predicate ReadRaises(body: AnswerBody)
  {
    match body
    case Malformed => true
    case NotAnObject => true
    case Object(reading) =>
      reading.ReadingNotObject? || (reading.ReadingObject? && reading.riskState.RiskOther? && !reading.riskState.hashable)
  }

  /** The label `result.get('reading', {}).get('riskState', 'UNKNOWN')` yields, when it does not raise. */
  function RiskLabelOf(body: AnswerBody): string
  {
    match body
    case Object(ReadingObject(RiskText(s))) => s
    case _ => "UNKNOWN"
  }

  function CountRisk(counts: map<string, nat>, name: string): map<string, nat>
  {
    if name in counts then counts[name := counts[name] + 1] else counts
  }

  /** send_reading's effect on stats exactly as written: total_sent counts
      every answer; for a 200 answer, successful is incremented once the body
      has parsed, before the risk state is read, so a body whose risk state
      cannot be read also reaches the exception handler's failed += 1. */
  function SendEffectAsWritten(s: Stats, outcome: PostOutcome): Stats
  {
    match outcome
    case PostFailed => s.(failed := s.failed + 1)
    case Answer(status, body) =>
      var sent := s.(totalSent := s.totalSent + 1);
      if status != 200 then sent.(failed := sent.failed + 1)
      else if body.Malformed? then sent.(failed := sent.failed + 1)
      else
        var ok := sent.(successful := sent.successful + 1);
        if ReadRaises(body) then ok.(failed := ok.failed + 1)
        else ok.(riskCounts := CountRisk(ok.riskCounts, RiskLabelOf(body)))
  }

  /** send_reading's effect with each attempt counted once: an answer whose
      risk state cannot be read is a failure, not also a success. */
  function SendEffect(s: Stats, outcome: PostOutcome): (r: Stats)
    ensures r.successful + r.failed == s.successful + s.failed + 1
    ensures r.successful == s.successful + 1 <==>
              outcome.Answer? && outcome.status == 200 && !ReadRaises(outcome.body)
    ensures r.totalSent == s.totalSent + (if outcome.Answer? then 1 else 0)
    ensures RiskTotal(r.riskCounts) <= RiskTotal(s.riskCounts) + (r.successful - s.successful)
  {
    match outcome
    case PostFailed => s.(failed := s.failed + 1)
    case Answer(status, body) =>
      var sent := s.(totalSent := s.totalSent + 1);
      if status != 200 || ReadRaises(body) then sent.(failed := sent.failed + 1)
      else
        CountRiskTotal(sent.riskCounts, RiskLabelOf(body), 0);
        sent.(successful := sent.successful + 1,
              riskCounts := CountRisk(sent.riskCounts, RiskLabelOf(body)))
  }

  /** The two agree on every answer except those whose risk state cannot be
      read after parsing. */
  lemma SendEffectAgreesElsewhere(s: Stats, outcome: PostOutcome)
    requires !(outcome.Answer? && outcome.status == 200 && !outcome.body.Malformed? && ReadRaises(outcome.body))
    ensures SendEffectAsWritten(s, outcome) == SendEffect(s, outcome)
  {
  }

  /** As written, a 200 answer whose body is a JSON list counts as both a
      success and a failure. */
  lemma AsWrittenCountsTwice()
    ensures var s := SendEffectAsWritten(InitialStats(), Answer(200, NotAnObject));
            s.successful == 1 && s.failed == 1 && s.totalSent == 1
  {
  }

  /** The risk counts summed over the six known labels. */
  function RiskTotal(counts: map<string, nat>): nat
  {
    RiskTotalFrom(counts, 0)
  }

  function RiskTotalFrom(counts: map<string, nat>, i: nat): nat
    requires i <= 6
    decreases 6 - i
  {
    if i == 6 then 0
    else (if Label(FromRank(i)) in counts then counts[Label(FromRank(i))] else 0) + RiskTotalFrom(counts, i + 1)
  }

  /** Counting one risk label raises the total by at most one. */
  lemma {:induction false} CountRiskTotal(counts: map<string, nat>, name: string, i: nat)
    requires i <= 6
    ensures RiskTotalFrom(CountRisk(counts, name), i) <= RiskTotalFrom(counts, i) + 1
    ensures (forall j :: i <= j < 6 ==> Label(FromRank(j)) != name) ==>
              RiskTotalFrom(CountRisk(counts, name), i) == RiskTotalFrom(counts, i)
    decreases 6 - i
  {
    if i < 6 {
      CountRiskTotal(counts, name, i + 1);
      if Label(FromRank(i)) == name {
        forall j | i < j < 6
          ensures Label(FromRank(j)) != name
        {
          RankInjective(FromRank(i), FromRank(j));
          LabelInjective(FromRank(i), FromRank(j));
        }
      }
    }
  }

  lemma LabelInjective(a: RiskLevel, b: RiskLevel)
    ensures Label(a) == Label(b) ==> a == b
  {
    ParseLabel(a);
    ParseLabel(b);
  }

  // ---------------------------------------------------------------------------
  // The simulator object

  class IoTSimulator {
    var mode: map<string, SimMode>
    var leakProgress: map<string, real>
    var stats: Stats

    ghost predicate Valid()
      reads this
    {
      && mode.Keys == leakProgress.Keys
      && (forall z :: z in mode ==> ZoneInvariant(mode[z], leakProgress[z]))
      && RiskTotal(stats.riskCounts) <= stats.successful
    }

    /** __init__: every zone NORMAL with no progress, all counters zero. */
    constructor()
      ensures Valid()
      ensures mode.Keys == set z | z in Zones
      ensures forall z :: z in mode ==> mode[z] == NormalMode && leakProgress[z] == 0.0
      ensures stats == InitialStats()
    {
      mode := map z | z in Zones :: NormalMode;
      leakProgress := map z | z in Zones :: 0.0;
      stats := InitialStats();
      new;
      assert RiskTotalFrom(stats.riskCounts, 0) == 0 by {
        RiskTotalZero(stats.riskCounts, 0);
      }
    }

    /** get_gradual_leak_reading. */
    method GradualLeakReading(zone: string, d: Draws) returns (reading: Vector)
      requires Valid() && zone in mode && mode[zone] == GradualLeak
      modifies this
      ensures Valid() && zone in mode
      ensures (reading, mode[zone], leakProgress[zone]) == Step(GradualLeak, old(leakProgress[zone]), d)
      ensures mode == old(mode)[zone := mode[zone]] && leakProgress == old(leakProgress)[zone := leakProgress[zone]]
      ensures stats == old(stats)
    {
      StepPreservesInvariant(GradualLeak, leakProgress[zone], d);
      var progress := leakProgress[zone];
      reading := DrawFrom(LeakRanges(progress), d.values);
      leakProgress := leakProgress[zone := Min(1.0, progress + ProgressStep)];
      if leakProgress[zone] >= 1.0 {
        if d.decision < SpikeChance {
          mode := mode[zone := SuddenSpike];
        } else {
          mode := mode[zone := NormalMode];
          leakProgress := leakProgress[zone := 0.0];
        }
      }
    }

    /** get_spike_reading. */
    method SpikeReading(zone: string, d: Draws) returns (reading: Vector)
      requires Valid() && zone in mode
      modifies this
      ensures Valid()
      ensures reading == DrawFrom(SpikeRanges(), d.values)
      ensures mode == old(mode)[zone := NormalMode]
      ensures leakProgress == old(leakProgress) && stats == old(stats)
    {
      reading := DrawFrom(SpikeRanges(), d.values);
      mode := mode[zone := NormalMode];
    }

    /** generate_reading: one step of the zone's mode machine. */
    method GenerateReading(zone: string, d: Draws) returns (reading: Vector)
      requires Valid() && zone in mode
      modifies this
      ensures Valid() && zone in mode
      ensures (reading, mode[zone], leakProgress[zone]) == Step(old(mode[zone]), old(leakProgress[zone]), d)
      ensures mode == old(mode)[zone := mode[zone]] && leakProgress == old(leakProgress)[zone := leakProgress[zone]]
      ensures stats == old(stats)
    {
      var current := mode[zone];
      StepPreservesInvariant(current, leakProgress[zone], d);
      if current == NormalMode {
        if d.decision < LeakStart {
          mode := mode[zone := GradualLeak];
          leakProgress := leakProgress[zone := 0.0];
        }
        return DrawFrom(NormalRanges(), d.values);
      } else if current == GradualLeak {
        reading := GradualLeakReading(zone, d);
      } else if current == SuddenSpike {
        reading := SpikeReading(zone, d);
      } else {
        assert false;
      }
    }

    /** send_reading's bookkeeping, with each attempt counted once. */
    method SendReading(outcome: PostOutcome) returns (delivered: bool)
      requires Valid()
      modifies this
      ensures Valid()
      ensures stats == SendEffect(old(stats), outcome)
      ensures delivered <==> stats.successful == old(stats.successful) + 1
      ensures mode == old(mode) && leakProgress == old(leakProgress)
    {
      var before := stats.successful;
      stats := SendEffect(stats, outcome);
      delivered := stats.successful == before + 1;
    }
  }

  lemma {:induction false} RiskTotalZero(counts: map<string, nat>, i: nat)
    requires i <= 6
    requires forall r :: Label(r) in counts && counts[Label(r)] == 0
    ensures RiskTotalFrom(counts, i) == 0
    decreases 6 - i
  {
    if i < 6 {
      RiskTotalZero(counts, i + 1);
      assert counts[Label(FromRank(i))] == 0;
    }
  }
}
