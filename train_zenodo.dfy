/** The data-selection part of the Zenodo training script: which sensor a
    spreadsheet holds (from its file name), which spreadsheet wins when two
    hold the same sensor, the check that LPG, CO and methane are present, the
    choice of each sheet's value column, the truncation to the shortest sheet
    and the order of the combined features. Spreadsheets arrive already read;
    the random draws of the derived H2S column are parameters. */
module TrainZenodo {
  import opened Outcomes
  import opened AnomalyScoring

  // ---------------------------------------------------------------------------
  // File names

  /** ASCII lower-casing. */
  function LowerChar(c: char): (r: char)
    ensures 'A' <= c <= 'Z' ==> 'a' <= r <= 'z'
    ensures !('A' <= c <= 'Z') ==> r == c
  {
    if 'A' <= c <= 'Z' then (c as int - 'A' as int + 'a' as int) as char else c
  }

  function Lower(s: string): (r: string)
    ensures |r| == |s| && forall i :: 0 <= i < |s| ==> r[i] == LowerChar(s[i])
  {
    if |s| == 0 then "" else [LowerChar(s[0])] + Lower(s[1..])
  }

  /** Python's `sub in s` on strings. */
  predicate Contains(s: string, sub: string)
    decreases |s|
  {
    |sub| <= |s| && (s[..|sub|] == sub || (|s| > 0 && Contains(s[1..], sub)))
  }

  lemma {:induction false} ContainsAt(s: string, sub: string, i: nat)
    requires i + |sub| <= |s| && s[i..i + |sub|] == sub
    ensures Contains(s, sub)
    decreases i
  {
    if i > 0 {
      assert s[1..][i - 1..i - 1 + |sub|] == s[i..i + |sub|];
      ContainsAt(s[1..], sub, i - 1);
    }
  }

  datatype SensorType = LpgSensor | CoSensor | MethaneSensor | SmokeSensor | FlameSensor

  /** The sensor a spreadsheet holds, decided on the lower-cased file name in
      the order lpg, co (but not cng), cng or methane, smoke, flame. */
  function SensorTypeOf(fileName: string): (t: Option<SensorType>)
    ensures var f := Lower(fileName);
            && (t == Some(LpgSensor) <==> Contains(f, "lpg"))
            && (t == Some(CoSensor) <==> !Contains(f, "lpg") && Contains(f, "co") && !Contains(f, "cng"))
            && (t == Some(MethaneSensor) <==>
                  !Contains(f, "lpg") && !(Contains(f, "co") && !Contains(f, "cng")) &&
                  (Contains(f, "cng") || Contains(f, "methane")))
            && (t == Some(SmokeSensor) <==>
                  !Contains(f, "lpg") && !Contains(f, "co") && !Contains(f, "cng") && !Contains(f, "methane") &&
                  Contains(f, "smoke"))
            && (t.None? <==>
                  !Contains(f, "lpg") && !Contains(f, "co") && !Contains(f, "cng") && !Contains(f, "methane") &&
                  !Contains(f, "smoke") && !Contains(f, "flame"))
  {
    var f := Lower(fileName);
    if Contains(f, "lpg") then Some(LpgSensor)
    else if Contains(f, "co") && !Contains(f, "cng") then Some(CoSensor)
    else if Contains(f, "cng") || Contains(f, "methane") then Some(MethaneSensor)
    else if Contains(f, "smoke") then Some(SmokeSensor)
    else if Contains(f, "flame") then Some(FlameSensor)
    else None
  }

  /** The co test comes before the methane test, so a methane file whose
      name contains "co" anywhere (as in "methane_concentration") is read as
      the CO sensor. */
  lemma CoCheckedBeforeMethane(fileName: string, i: nat)
    requires var f := Lower(fileName);
             i + 2 <= |f| && f[i..i + 2] == "co" && !Contains(f, "lpg") && !Contains(f, "cng")
    ensures SensorTypeOf(fileName) == Some(CoSensor)
  {
    ContainsAt(Lower(fileName), "co", i);
  }

  // ---------------------------------------------------------------------------
  // Loading

  /** A spreadsheet as read: its column names in order and the values of each
      column, all of one length. */
  datatype Sheet = Sheet(columns: seq<string>, data: map<string, seq<real>>, rows: nat)

  predicate WellFormedSheet(s: Sheet)
  {
    forall c :: c in s.columns ==> c in s.data && |s.data[c]| == s.rows
  }

  /** A file found by the glob, with the sheet read from it, or None when reading raised. */
  datatype SheetFile = SheetFile(name: string, sheet: Option<Sheet>)

  /** The file was read and its name names sensor t. */
  predicate Supplies(f: SheetFile, t: SensorType)
  {
    f.sheet.Some? && SensorTypeOf(f.name) == Some(t)
  }

  /** The dataframes dictionary after the files were read in order. */
  function Loaded(files: seq<SheetFile>): map<SensorType, Sheet>
    decreases |files|
  {
    if |files| == 0 then map[]
    else
      var before := Loaded(files[..|files| - 1]);
      var f := files[|files| - 1];
      var t := SensorTypeOf(f.name);
      if f.sheet.Some? && t.Some? then before[t.value := f.sheet.value] else before
  }

  /** load_zenodo_dataset: the .xlsx files, or the .xls files when there are
      none; FileNotFoundError when there are neither. */
  method LoadZenodoDataset(xlsx: seq<SheetFile>, xls: seq<SheetFile>) returns (r: Result<map<SensorType, Sheet>>)
    ensures r.Failure? <==> |xlsx| == 0 && |xls| == 0
    ensures r.Success? ==> r.value == Loaded(if |xlsx| > 0 then xlsx else xls)
  {
    var files := if |xlsx| > 0 then xlsx else xls;
    if |files| == 0 {
      return Failure("No Excel files found");
    }
    var dataframes: map<SensorType, Sheet> := map[];
    var i := 0;
    while i < |files|
      invariant i <= |files|
      invariant dataframes == Loaded(files[..i])
    {
      assert files[..i + 1][..i] == files[..i];
      var sensorType := SensorTypeOf(files[i].name);
      if files[i].sheet.Some? && sensorType.Some? {
        dataframes := dataframes[sensorType.value := files[i].sheet.value];
      }
      i := i + 1;
    }
    assert files[..|files|] == files;
    return Success(dataframes);
  }

  /** A sensor is loaded exactly when some file supplies it. */
  lemma {:induction false} LoadedKeys(files: seq<SheetFile>, t: SensorType)
    ensures t in Loaded(files) <==> exists i :: 0 <= i < |files| && Supplies(files[i], t)
    decreases |files|
  {
    if |files| > 0 {
      var init := files[..|files| - 1];
      LoadedKeys(init, t);
      assert forall i :: 0 <= i < |init| ==> init[i] == files[i];
    }
  }

  /** The last file that supplies a sensor is the one kept for it. */
  lemma {:induction false} LastFileWins(files: seq<SheetFile>, t: SensorType, i: nat)
    requires i < |files| && Supplies(files[i], t)
    requires forall j :: i < j < |files| ==> !Supplies(files[j], t)
    ensures t in Loaded(files) && Loaded(files)[t] == files[i].sheet.value
    decreases |files|
  {
    var init := files[..|files| - 1];
    if i < |files| - 1 {
      assert forall j :: i < j < |init| ==> init[j] == files[j];
      LastFileWins(init, t, i);
    }
  }

  // ---------------------------------------------------------------------------
  // The value column

  /** The preferred value-column names, tried before the last column. */
  const PreferredColumns: seq<string> := ["Value", "value", "Sensor", "sensor", "Reading", "reading", "PPM", "ppm"]

  /** The first candidate that is a column. */
  function FirstColumn(candidates: seq<string>, columns: seq<string>): (r: Option<string>)
    ensures r.None? <==> forall k :: 0 <= k < |candidates| ==> candidates[k] !in columns
    ensures r.Some? ==>
              exists k :: 0 <= k < |candidates| && candidates[k] == r.value && r.value in columns &&
                          forall j :: 0 <= j < k ==> candidates[j] !in columns
  {
    if |candidates| == 0 then None
    else if candidates[0] in columns then Some(candidates[0])
    else
      assert forall k :: 1 <= k < |candidates| ==> candidates[k] == candidates[1..][k - 1];
      FirstColumn(candidates[1..], columns)
  }

  /** The value column of a sheet: the first preferred name present, else the
      last column; an empty header raises (None), since the candidate list
      itself reads the last column. The second-column fallback after the
      search is kept as written. */
  function ChooseValueColumn(columns: seq<string>): (r: Option<string>)
  {
    if |columns| == 0 then None
    else match FirstColumn(PreferredColumns + [columns[|columns| - 1]], columns)
      case Some(c) => Some(c)
      case None => Some(if |columns| >= 2 then columns[1] else columns[0])
  }

  /** Some column is always chosen from a non-empty header, by the search
      itself (the fallback is never reached), and it is the first preferred
      name present, or the last column when none is. */
  lemma ValueColumnFound(columns: seq<string>)
    ensures ChooseValueColumn(columns).None? <==> |columns| == 0
    ensures |columns| > 0 ==>
              && FirstColumn(PreferredColumns + [columns[|columns| - 1]], columns).Some?
              && ChooseValueColumn(columns).value in columns
              && (ChooseValueColumn(columns) == FirstColumn(PreferredColumns, columns) ||
                  (FirstColumn(PreferredColumns, columns).None? &&
                   ChooseValueColumn(columns) == Some(columns[|columns| - 1])))
  {
    if |columns| > 0 {
      var last := columns[|columns| - 1];
      var candidates := PreferredColumns + [last];
      assert candidates[|PreferredColumns|] == last;
      FirstColumnOfExtended(PreferredColumns, last, columns);
    }
  }

  lemma {:induction false} FirstColumnOfExtended(candidates: seq<string>, last: string, columns: seq<string>)
    requires last in columns
    ensures FirstColumn(candidates + [last], columns) ==
              if FirstColumn(candidates, columns).Some? then FirstColumn(candidates, columns) else Some(last)
    decreases |candidates|
  {
    if |candidates| > 0 {
      assert (candidates + [last])[1..] == candidates[1..] + [last];
      FirstColumnOfExtended(candidates[1..], last, columns);
    }
  }

  // ---------------------------------------------------------------------------
  // preprocess_zenodo_data

  function Clip(x: real, lo: real, hi: real): real
  {
    if x < lo then lo else if x > hi then hi else x
  }

  function Min3(a: nat, b: nat, c: nat): (m: nat)
    ensures m <= a && m <= b && m <= c && (m == a || m == b || m == c)
  {
    if a <= b && a <= c then a else if b <= c then b else c
  }

  /** The values of a sheet's chosen value column, cut to n rows; None when
      the sheet has no columns. */
  function ValueSeries(s: Sheet, n: nat): (r: Option<seq<real>>)
    requires WellFormedSheet(s) && n <= s.rows
    ensures r.None? <==> |s.columns| == 0
    ensures r.Some? ==> |r.value| == n
  {
    ValueColumnFound(s.columns);
    match ChooseValueColumn(s.columns)
    case None => None
    case Some(c) => Some(s.data[c][..n])
  }

  predicate HasRequiredGases(frames: map<SensorType, Sheet>)
  {
    LpgSensor in frames && CoSensor in frames && MethaneSensor in frames
  }

  /** The number of rows used: the shortest of the three required sheets. */
  function CommonLength(frames: map<SensorType, Sheet>): nat
    requires HasRequiredGases(frames)
  {
    Min3(frames[LpgSensor].rows, frames[CoSensor].rows, frames[MethaneSensor].rows)
  }

  /** `df.columns[-1]` on a sheet without columns (IndexError). */
  const NoColumnsError := "index -1 is out of bounds"

  /** `values.min()` on a zero-length series, raised by the first log line of
      the first gas, LPG (ValueError). */
  const EmptyMinError := "zero-size array to reduction operation minimum which has no identity"

  /** The combined matrix before nan_to_num and the scaler: rows of methane,
      lpg, co and a derived H2S value, co / divisor + noise clipped to [0, 100]. */
  function Preprocess(frames: map<SensorType, Sheet>, divisor: nat -> real, noise: nat -> real): (r: Result<seq<Vector>>)
    requires forall t :: t in frames ==> WellFormedSheet(frames[t])
    requires forall i :: 10.0 <= divisor(i) <= 50.0
  {
    if !HasRequiredGases(frames) then Failure("Need at least LPG, CO, and Methane data")
    else
      var n := CommonLength(frames);
      var lpg := ValueSeries(frames[LpgSensor], n);
      var co := ValueSeries(frames[CoSensor], n);
      var methane := ValueSeries(frames[MethaneSensor], n);
      if lpg.None? then Failure(NoColumnsError)
      else if n == 0 then Failure(EmptyMinError)
      else if co.None? || methane.None? then Failure(NoColumnsError)
      else
        Success(seq(n, i requires 0 <= i < n =>
          Vector(methane.value[i], lpg.value[i], co.value[i],
                 Clip(co.value[i] / divisor(i) + noise(i), 0.0, 100.0))))
  }

  /** Preprocessing fails exactly when LPG, CO or methane is missing, one of
      their sheets has no columns, or one of them has no rows; the gases are
      handled in the order LPG, CO, methane, so an LPG sheet with columns and
      no common rows fails on its range log line. Otherwise every series is cut to the
      shortest sheet and the rows are methane, lpg, co, h2s, with h2s in [0, 100]. */
  lemma PreprocessShape(frames: map<SensorType, Sheet>, divisor: nat -> real, noise: nat -> real)
    requires forall t :: t in frames ==> WellFormedSheet(frames[t])
    requires forall i :: 10.0 <= divisor(i) <= 50.0
    ensures var r := Preprocess(frames, divisor, noise);
            && (r.Failure? <==>
                  !HasRequiredGases(frames) ||
                  |frames[LpgSensor].columns| == 0 || |frames[CoSensor].columns| == 0 ||
                  |frames[MethaneSensor].columns| == 0 || CommonLength(frames) == 0)
            && (r == Failure(EmptyMinError) <==>
                  HasRequiredGases(frames) && |frames[LpgSensor].columns| > 0 && CommonLength(frames) == 0)
            && (r.Success? ==>
                  var n := CommonLength(frames);
                  && |r.value| == n
                  && n <= frames[LpgSensor].rows && n <= frames[CoSensor].rows && n <= frames[MethaneSensor].rows
                  && (n == frames[LpgSensor].rows || n == frames[CoSensor].rows || n == frames[MethaneSensor].rows)
                  && forall i :: 0 <= i < n ==>
                       && r.value[i].methane == ValueSeries(frames[MethaneSensor], n).value[i]
                       && r.value[i].lpg == ValueSeries(frames[LpgSensor], n).value[i]
                       && r.value[i].co == ValueSeries(frames[CoSensor], n).value[i]
                       && 0.0 <= r.value[i].h2s <= 100.0)
  {
  }

  /** The smoke and flame sheets are loaded but play no part in the features. */
  lemma ExtraSensorsIgnored(frames: map<SensorType, Sheet>, divisor: nat -> real, noise: nat -> real)
    requires forall t :: t in frames ==> WellFormedSheet(frames[t])
    requires forall i :: 10.0 <= divisor(i) <= 50.0
    ensures Preprocess(frames, divisor, noise) == Preprocess(frames - {SmokeSensor, FlameSensor}, divisor, noise)
  {
    var core := frames - {SmokeSensor, FlameSensor};
    if HasRequiredGases(frames) {
      assert core[LpgSensor] == frames[LpgSensor];
      assert core[CoSensor] == frames[CoSensor];
      assert core[MethaneSensor] == frames[MethaneSensor];
    }
  }
}
