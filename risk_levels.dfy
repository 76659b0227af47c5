/** The six-value risk ranking RISK_HIERARCHY shared by both ML service versions. */
module RiskLevels {
  import opened Outcomes

  datatype RiskLevel = Normal | LowAnomaly | Unusual | Alert | Warning | Critical

  /** The numeric level of a risk in RISK_HIERARCHY. */
  function Rank(r: RiskLevel): (n: nat)
    ensures n <= 5
    ensures n == 0 <==> r == Normal
    ensures n == 5 <==> r == Critical
  {
    match r
    case Normal => 0
    case LowAnomaly => 1
    case Unusual => 2
    case Alert => 3
    case Warning => 4
    case Critical => 5
  }

  /** The level of a given rank. */
  function FromRank(n: nat): (r: RiskLevel)
    requires n <= 5
    ensures Rank(r) == n
  {
    if n == 0 then Normal
    else if n == 1 then LowAnomaly
    else if n == 2 then Unusual
    else if n == 3 then Alert
    else if n == 4 then Warning
    else Critical
  }

  /** The label the services emit for a level. */
  function Label(r: RiskLevel): string
  {
    match r
    case Normal => "NORMAL"
    case LowAnomaly => "LOW_ANOMALY"
    case Unusual => "UNUSUAL"
    case Alert => "ALERT"
    case Warning => "WARNING"
    case Critical => "CRITICAL"
  }

  /** Looking a label up among the keys of RISK_HIERARCHY. */
  function Parse(s: string): (r: Option<RiskLevel>)
    ensures r.Some? ==> Label(r.value) == s
    ensures r.None? ==> forall l :: Label(l) != s
  {
    if s == "NORMAL" then Some(Normal)
    else if s == "LOW_ANOMALY" then Some(LowAnomaly)
    else if s == "UNUSUAL" then Some(Unusual)
    else if s == "ALERT" then Some(Alert)
    else if s == "WARNING" then Some(Warning)
    else if s == "CRITICAL" then Some(Critical)
    else None
  }

  /** No two levels share a rank, so comparisons by rank are comparisons of levels. */
  lemma RankInjective(a: RiskLevel, b: RiskLevel)
    ensures Rank(a) == Rank(b) <==> a == b
  {
  }

  /** Every emitted label is found again in the hierarchy. */
  lemma ParseLabel(r: RiskLevel)
    ensures Parse(Label(r)) == Some(r)
  {
  }

  /** The level of larger rank. */
  function MaxLevel(a: RiskLevel, b: RiskLevel): (r: RiskLevel)
    ensures Rank(r) >= Rank(a) && Rank(r) >= Rank(b)
    ensures r == a || r == b
  {
    if Rank(b) > Rank(a) then b else a
  }
}
