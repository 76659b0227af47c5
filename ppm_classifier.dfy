/** The PPM threshold classifier of the ML service: GAS_PPM_THRESHOLDS,
    classify_by_ppm, get_highest_risk and classify_multi_gas_ppm. Both
    versions of the service carry the same tables and functions. */
module PpmClassifier {
  import opened Outcomes
  import opened RiskLevels

  /** A Python float as a JSON reading can deliver it. */
  datatype Num = Real(x: real) | NaN | PosInf | NegInf

  /** The upper end of a band: a number or float("inf"). */
  datatype Bound = Finite(v: real) | Infinity

  /** One row (risk_state, min_ppm, max_ppm) of a gas's threshold list. */
  datatype Band = Band(level: RiskLevel, lo: real, hi: Bound)

  /** `min_ppm <= ppm < max_ppm` under IEEE comparison: NaN compares false,
      -inf is below every finite lower bound and +inf is below no upper bound,
      so only a finite value can lie in a band. */
  predicate InBand(b: Band, v: Num)
  {
    match v
    case Real(x) => b.lo <= x && (b.hi.Infinity? || x < b.hi.v)
    case _ => false
  }

  /** GAS_PPM_THRESHOLDS: the bands of each known gas; None for any other key. */
  function Thresholds(gas: string): Option<seq<Band>>
  {
    if gas == "methane" then
      Some([Band(Normal, 0.0, Finite(1000.0)),
            Band(LowAnomaly, 1000.0, Finite(2500.0)),
            Band(Unusual, 2500.0, Finite(4000.0)),
            Band(Alert, 4000.0, Finite(5000.0)),
            Band(Warning, 5000.0, Finite(7000.0)),
            Band(Critical, 7000.0, Infinity)])
    else if gas == "lpg" then
      Some([Band(Normal, 0.0, Finite(500.0)),
            Band(LowAnomaly, 500.0, Finite(1000.0)),
            Band(Unusual, 1000.0, Finite(1500.0)),
            Band(Alert, 1500.0, Finite(2000.0)),
            Band(Warning, 2000.0, Finite(3000.0)),
            Band(Critical, 3000.0, Infinity)])
    else if gas == "carbonMonoxide" then
      Some([Band(Normal, 0.0, Finite(25.0)),
            Band(LowAnomaly, 25.0, Finite(35.0)),
            Band(Unusual, 35.0, Finite(50.0)),
            Band(Alert, 50.0, Finite(100.0)),
            Band(Warning, 100.0, Finite(200.0)),
            Band(Critical, 200.0, Infinity)])
    else if gas == "hydrogenSulfide" then
      Some([Band(Normal, 0.0, Finite(5.0)),
            Band(LowAnomaly, 5.0, Finite(10.0)),
            Band(Unusual, 10.0, Finite(15.0)),
            Band(Alert, 15.0, Finite(20.0)),
            Band(Warning, 20.0, Finite(50.0)),
            Band(Critical, 50.0, Infinity)])
    else None
  }

  /** The six bands start at 0, are listed in rank order, each ends where the
      next begins, their lower bounds strictly ascend and the last is open. */
  ghost predicate WellFormed(bands: seq<Band>)
  {
    && |bands| == 6
    && bands[0].lo == 0.0
    && (forall i :: 0 <= i < 6 ==> bands[i].level == FromRank(i))
    && (forall i :: 0 <= i < 5 ==> bands[i].hi == Finite(bands[i + 1].lo))
    && bands[5].hi == Infinity
    && (forall i, j :: 0 <= i < j < 6 ==> bands[i].lo < bands[j].lo)
  }

  lemma TablesWellFormed(gas: string)
    requires Thresholds(gas).Some?
    ensures WellFormed(Thresholds(gas).value)
  {
  }

  /** The `for` loop of classify_by_ppm: the label of the first band holding v. */
  function FirstMatch(bands: seq<Band>, v: Num): Option<RiskLevel>
  {
    if bands == [] then None
    else if InBand(bands[0], v) then Some(bands[0].level)
    else FirstMatch(bands[1..], v)
  }

  /** classify_by_ppm: an unknown gas is NORMAL, a value in no band CRITICAL. */
  function ClassifyByPpm(gas: string, v: Num): RiskLevel
  {
    match Thresholds(gas)
    case None => Normal
    case Some(bands) =>
      match FirstMatch(bands, v)
      case Some(level) => level
      case None => Critical
  }

  lemma {:induction false} FirstMatchFinds(bands: seq<Band>, v: Num, i: nat)
    requires i < |bands| && InBand(bands[i], v)
    requires forall j :: 0 <= j < i ==> !InBand(bands[j], v)
    ensures FirstMatch(bands, v) == Some(bands[i].level)
  {
    if i > 0 {
      FirstMatchFinds(bands[1..], v, i - 1);
    }
  }

  lemma {:induction false} FirstMatchMisses(bands: seq<Band>, v: Num)
    requires forall j :: 0 <= j < |bands| ==> !InBand(bands[j], v)
    ensures FirstMatch(bands, v) == None
  {
    if bands != [] {
      FirstMatchMisses(bands[1..], v);
    }
  }

  /** A band ends at or below the start of every later band. */
  lemma BandEndsBeforeLater(bands: seq<Band>, i: nat, j: nat)
    requires WellFormed(bands)
    requires i < j < 6
    ensures bands[i].hi.Finite? && bands[i].hi.v <= bands[j].lo
  {
    assert bands[i].hi == Finite(bands[i + 1].lo);
    assert i + 1 == j || bands[i + 1].lo < bands[j].lo;
  }

  /** In a well-formed table two bands never share a value. */
  lemma BandsDisjoint(bands: seq<Band>, x: real, i: nat, j: nat)
    requires WellFormed(bands)
    requires i < 6 && j < 6
    ensures InBand(bands[i], Real(x)) && InBand(bands[j], Real(x)) ==> i == j
  {
    if i < j {
      BandEndsBeforeLater(bands, i, j);
    } else if j < i {
      BandEndsBeforeLater(bands, j, i);
    }
  }

  /** In a well-formed table every non-negative value lies in some band. */
  lemma BandsCover(bands: seq<Band>, x: real) returns (i: nat)
    requires WellFormed(bands) && 0.0 <= x
    ensures i < 6 && InBand(bands[i], Real(x))
  {
    assert bands[0].hi == Finite(bands[1].lo);
    assert bands[1].hi == Finite(bands[2].lo);
    assert bands[2].hi == Finite(bands[3].lo);
    assert bands[3].hi == Finite(bands[4].lo);
    assert bands[4].hi == Finite(bands[5].lo);
    if x < bands[1].lo { i := 0; }
    else if x < bands[2].lo { i := 1; }
    else if x < bands[3].lo { i := 2; }
    else if x < bands[4].lo { i := 3; }
    else if x < bands[5].lo { i := 4; }
    else { i := 5; }
  }

  /** For a known gas and a non-negative reading, classify_by_ppm returns a
      band's label exactly when the reading lies in that band (min <= ppm < max). */
  lemma ClassifyIsContainingBand(gas: string, x: real)
    requires Thresholds(gas).Some? && 0.0 <= x
    ensures forall i :: 0 <= i < 6 ==>
              (InBand(Thresholds(gas).value[i], Real(x)) <==>
               ClassifyByPpm(gas, Real(x)) == Thresholds(gas).value[i].level)
  {
    var bands := Thresholds(gas).value;
    TablesWellFormed(gas);
    var k := BandsCover(bands, x);
    forall j | 0 <= j < k
      ensures !InBand(bands[j], Real(x))
    {
      BandsDisjoint(bands, x, j, k);
    }
    FirstMatchFinds(bands, Real(x), k);
    forall i | 0 <= i < 6
      ensures InBand(bands[i], Real(x)) <==> ClassifyByPpm(gas, Real(x)) == bands[i].level
    {
      BandsDisjoint(bands, x, i, k);
      if ClassifyByPpm(gas, Real(x)) == bands[i].level {
        assert FromRank(i) == FromRank(k);
        assert i == k;
      }
    }
  }

  /** Raising a non-negative reading never lowers its risk. */
  lemma ClassifyMonotone(gas: string, x: real, y: real)
    requires 0.0 <= x <= y
    ensures Rank(ClassifyByPpm(gas, Real(x))) <= Rank(ClassifyByPpm(gas, Real(y)))
  {
    if Thresholds(gas).Some? {
      var bands := Thresholds(gas).value;
      TablesWellFormed(gas);
      var i := BandsCover(bands, x);
      var j := BandsCover(bands, y);
      ClassifyIsContainingBand(gas, x);
      ClassifyIsContainingBand(gas, y);
      if j < i {
        BandEndsBeforeLater(bands, j, i);
      }
    }
  }

  /** The fall-back paths: an unknown gas is NORMAL; for a known gas a value
      that lies in no band (negative, NaN or infinite) is CRITICAL. */
  lemma ClassifyFallbacks(gas: string, v: Num)
    ensures Thresholds(gas).None? ==> ClassifyByPpm(gas, v) == Normal
    ensures Thresholds(gas).Some? && (!v.Real? || v.x < 0.0) ==> ClassifyByPpm(gas, v) == Critical
  {
    if Thresholds(gas).Some? && (!v.Real? || v.x < 0.0) {
      var bands := Thresholds(gas).value;
      TablesWellFormed(gas);
      forall j | 0 <= j < |bands|
        ensures !InBand(bands[j], v)
      {
        if v.Real? {
          assert bands[0].lo <= bands[j].lo by {
            if j > 0 {
              assert bands[0].lo < bands[j].lo;
            }
          }
        }
      }
      FirstMatchMisses(bands, v);
    }
  }

  /** The band boundaries belong to the upper band: methane 999 ppm is NORMAL
      and 1000 ppm LOW_ANOMALY. */
  lemma MethaneBoundary()
    ensures ClassifyByPpm("methane", Real(999.0)) == Normal
    ensures ClassifyByPpm("methane", Real(1000.0)) == LowAnomaly
    ensures ClassifyByPpm("methane", Real(7000.0)) == Critical
  {
  }

  // ---------------------------------------------------------------------------
  // get_highest_risk

  /** What get_highest_risk computes: starting from NORMAL, each label that is a
      key of RISK_HIERARCHY replaces the running highest when its rank is
      strictly greater; other labels are skipped. */
  function HighestRisk(states: seq<string>): RiskLevel
  {
    if states == [] then Normal
    else
      var h := HighestRisk(states[..|states| - 1]);
      match Parse(states[|states| - 1])
      case Some(l) => if Rank(l) > Rank(h) then l else h
      case None => h
  }

  /** The result is at least every known input, and it is NORMAL or one of
      the known inputs. */
  lemma {:induction false} HighestRiskIsMaximum(states: seq<string>)
    ensures forall i :: 0 <= i < |states| && Parse(states[i]).Some? ==>
              Rank(Parse(states[i]).value) <= Rank(HighestRisk(states))
    ensures HighestRisk(states) == Normal ||
            exists i :: 0 <= i < |states| && Parse(states[i]) == Some(HighestRisk(states))
  {
    if states != [] {
      var init := states[..|states| - 1];
      HighestRiskIsMaximum(init);
      assert forall i :: 0 <= i < |init| ==> init[i] == states[i];
      var h := HighestRisk(init);
      if h != Normal && HighestRisk(states) == h {
        var i :| 0 <= i < |init| && Parse(init[i]) == Some(h);
        assert Parse(states[i]) == Some(h);
      }
    }
  }

  /** The labels of a list that are keys of RISK_HIERARCHY, in order. */
  function KnownOnly(states: seq<string>): (r: seq<string>)
    ensures |r| <= |states|
    ensures forall i :: 0 <= i < |r| ==> Parse(r[i]).Some?
  {
    if states == [] then []
    else
      var init := KnownOnly(states[..|states| - 1]);
      if Parse(states[|states| - 1]).Some? then init + [states[|states| - 1]] else init
  }

  /** An empty list gives NORMAL, and labels outside the hierarchy are
      skipped: the result is that of the known labels alone. */
  lemma {:induction false} HighestRiskIgnoresUnknown(states: seq<string>)
    ensures states == [] ==> HighestRisk(states) == Normal
    ensures HighestRisk(states) == HighestRisk(KnownOnly(states))
  {
    if states != [] {
      var init := states[..|states| - 1];
      var last := states[|states| - 1];
      HighestRiskIgnoresUnknown(init);
      if Parse(last).Some? {
        var k := KnownOnly(init) + [last];
        assert k[..|k| - 1] == KnownOnly(init);
      }
    }
  }

  /** get_highest_risk, with its accumulator loop. */
  method GetHighestRisk(states: seq<string>) returns (highest: RiskLevel)
    ensures highest == HighestRisk(states)
  {
    if |states| == 0 {
      return Normal;
    }
    highest := Normal;
    var highestLevel := 0;
    var i := 0;
    while i < |states|
      invariant 0 <= i <= |states|
      invariant highest == HighestRisk(states[..i])
      invariant highestLevel == Rank(highest)
    {
      var state := states[i];
      var known := Parse(state);
      if known.Some? {
        var level := Rank(known.value);
        if level > highestLevel {
          highestLevel := level;
          highest := known.value;
        }
      }
      assert states[..i + 1][..i] == states[..i];
      i := i + 1;
    }
    assert states[..i] == states;
  }

  // ---------------------------------------------------------------------------
  // classify_multi_gas_ppm

  /** The gases of a reading, in the insertion order every dictionary of the
      services uses. */
  const GasOrder: seq<string> := ["methane", "lpg", "carbonMonoxide", "hydrogenSulfide"]

  /** One entry of gas_risks: the reading and its classification. */
  datatype GasRisk = GasRisk(gas: string, ppm: Num, risk: RiskLevel)

  datatype PpmClassification =
    PpmClassification(overallRisk: RiskLevel, gasRisks: seq<GasRisk>, dominantGas: string)

  /** Gas names are dictionary keys, so they are distinct. */
  predicate DistinctGases(items: seq<(string, Num)>)
  {
    forall i, j :: 0 <= i < j < |items| ==> items[i].0 != items[j].0
  }

  function ClassifyAll(items: seq<(string, Num)>): seq<GasRisk>
  {
    seq(|items|, i requires 0 <= i < |items| => GasRisk(items[i].0, items[i].1, ClassifyByPpm(items[i].0, items[i].1)))
  }

  function RiskLabels(risks: seq<GasRisk>): seq<string>
  {
    seq(|risks|, i requires 0 <= i < |risks| => Label(risks[i].risk))
  }

  /** Python's `max(gas_risks, key=rank)`: scanning in insertion order, a later
      gas replaces the running maximum only when its rank is strictly greater. */
  function DominantIndex(risks: seq<GasRisk>): (d: nat)
    requires |risks| > 0
    ensures d < |risks|
  {
    if |risks| == 1 then 0
    else
      var d := DominantIndex(risks[..|risks| - 1]);
      if Rank(risks[|risks| - 1].risk) > Rank(risks[d].risk) then |risks| - 1 else d
  }

  /** The dominant entry has the greatest rank, and every earlier entry a strictly smaller one. */
  lemma {:induction false} DominantIsFirstMaximum(risks: seq<GasRisk>)
    requires |risks| > 0
    ensures forall j :: 0 <= j < |risks| ==> Rank(risks[j].risk) <= Rank(risks[DominantIndex(risks)].risk)
    ensures forall j :: 0 <= j < DominantIndex(risks) ==> Rank(risks[j].risk) < Rank(risks[DominantIndex(risks)].risk)
  {
    if |risks| > 1 {
      var init := risks[..|risks| - 1];
      DominantIsFirstMaximum(init);
      assert forall j :: 0 <= j < |init| ==> init[j] == risks[j];
    }
  }

  /** What classify_multi_gas_ppm returns for the items of gas_values, in insertion order. */
  function MultiGas(items: seq<(string, Num)>): PpmClassification
    requires |items| > 0
  {
    var risks := ClassifyAll(items);
    PpmClassification(HighestRisk(RiskLabels(risks)), risks, items[DominantIndex(risks)].0)
  }

  /** The overall risk is the greatest per-gas risk, the dominant gas is the
      first gas in insertion order that reaches it, and each gas keeps its own
      classification. */
  lemma MultiGasIsMaxRule(items: seq<(string, Num)>)
    requires |items| > 0
    ensures var c := MultiGas(items);
            && |c.gasRisks| == |items|
            && (forall i :: 0 <= i < |items| ==>
                  c.gasRisks[i] == GasRisk(items[i].0, items[i].1, ClassifyByPpm(items[i].0, items[i].1)))
            && (forall i :: 0 <= i < |items| ==> Rank(c.gasRisks[i].risk) <= Rank(c.overallRisk))
            && (exists d :: 0 <= d < |items| && c.dominantGas == items[d].0
                  && c.gasRisks[d].risk == c.overallRisk
                  && forall j :: 0 <= j < d ==> Rank(c.gasRisks[j].risk) < Rank(c.overallRisk))
  {
    var risks := ClassifyAll(items);
    var labels := RiskLabels(risks);
    var overall := HighestRisk(labels);
    forall i | 0 <= i < |labels|
      ensures Parse(labels[i]) == Some(risks[i].risk)
    {
      ParseLabel(risks[i].risk);
    }
    HighestRiskIsMaximum(labels);
    var d := DominantIndex(risks);
    DominantIsFirstMaximum(risks);
    assert Rank(risks[d].risk) <= Rank(overall);
    if overall != Normal {
      var i :| 0 <= i < |labels| && Parse(labels[i]) == Some(overall);
      assert Rank(overall) <= Rank(risks[d].risk);
    }
    RankInjective(risks[d].risk, overall);
    assert risks[d].risk == overall;
  }

  /** classify_multi_gas_ppm: classify each gas in a loop, take the highest
      risk and the dominant gas. */
  method ClassifyMultiGasPpm(items: seq<(string, Num)>) returns (c: PpmClassification)
    requires |items| > 0
    requires DistinctGases(items)
    ensures c == MultiGas(items)
  {
    var gasRisks: seq<GasRisk> := [];
    for k := 0 to |items|
      invariant gasRisks == ClassifyAll(items[..k])
    {
      var (gasType, ppmValue) := items[k];
      var riskState := ClassifyByPpm(gasType, ppmValue);
      gasRisks := gasRisks + [GasRisk(gasType, ppmValue, riskState)];
    }
    assert items[..|items|] == items;
    var allRisks := RiskLabels(gasRisks);
    var overallRisk := GetHighestRisk(allRisks);
    c := PpmClassification(overallRisk, gasRisks, items[DominantIndex(gasRisks)].0);
  }

  /** The multi-gas dominance case: CO at 120 ppm dominates with WARNING. */
  lemma MultiGasDominanceExample()
    ensures var c := MultiGas([("methane", Real(500.0)), ("lpg", Real(400.0)),
                                ("carbonMonoxide", Real(120.0)), ("hydrogenSulfide", Real(8.0))]);
            c.overallRisk == Warning && c.dominantGas == "carbonMonoxide"
  {
    var items := [("methane", Real(500.0)), ("lpg", Real(400.0)),
                  ("carbonMonoxide", Real(120.0)), ("hydrogenSulfide", Real(8.0))];
    var risks := ClassifyAll(items);
    assert risks[0].risk == Normal && risks[1].risk == Normal;
    assert risks[2].risk == Warning && risks[3].risk == LowAnomaly;
    MultiGasIsMaxRule(items);
  }
}
