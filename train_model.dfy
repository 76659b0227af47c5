/** The data-selection part of the generic training script: which dataset a
    command-line argument selects, the column check of a custom CSV file, and
    how preprocess_data finds the four feature columns of a data frame. The
    frame is a map from column name to the column's values; the scaler fit,
    the model and the file reading are not part of this model. */
module TrainModel {
  import opened Outcomes
  import opened AnomalyScoring

  /** The feature columns, in the order of the reading vector. */
  const FeatureColumns: seq<string> := ["methane", "lpg", "co", "h2s"]

  // ---------------------------------------------------------------------------
  // Dataset dispatch

  datatype DatasetSource = Synthetic | CustomCsv(path: string) | ZenodoDirectory(path: string)

  predicate EndsWith(s: string, suffix: string)
  {
    |suffix| <= |s| && s[|s| - |suffix|..] == suffix
  }

  /** The --dataset argument of main: the word "synthetic", then a `.csv`
      suffix, then an existing directory; anything else is a ValueError. */
  function ChooseDataset(arg: string, isDirectory: bool): (r: Result<DatasetSource>)
    ensures r == Success(Synthetic) <==> arg == "synthetic"
    ensures r == Success(CustomCsv(arg)) <==> arg != "synthetic" && EndsWith(arg, ".csv")
    ensures r == Success(ZenodoDirectory(arg)) <==>
              arg != "synthetic" && !EndsWith(arg, ".csv") && isDirectory
    ensures r.Failure? <==> arg != "synthetic" && !EndsWith(arg, ".csv") && !isDirectory
    ensures r.Success? && !r.value.Synthetic? ==> r.value.path == arg
  {
    if arg == "synthetic" then Success(Synthetic)
    else if EndsWith(arg, ".csv") then Success(CustomCsv(arg))
    else if isDirectory then Success(ZenodoDirectory(arg))
    else Failure("Unknown dataset: " + arg)
  }

  /** The suffix test comes before the directory test, so a directory whose
      name ends in `.csv` is read as a CSV file. */
  lemma CsvSuffixBeatsDirectory()
    ensures ChooseDataset("runs.csv", true) == Success(CustomCsv("runs.csv"))
  {
    assert EndsWith("runs.csv", ".csv");
  }

  // ---------------------------------------------------------------------------
  // load_custom_csv

  /** The header check of load_custom_csv. */
  function CheckCustomCsv(header: set<string>): (r: Result<()>)
    ensures r.Success? <==> forall c :: c in FeatureColumns ==> c in header
  {
    if "methane" in header && "lpg" in header && "co" in header && "h2s" in header then Success(())
    else Failure("CSV must have columns: ['methane', 'lpg', 'co', 'h2s']")
  }

  // ---------------------------------------------------------------------------
  // Column aliasing in preprocess_data

  /** The other names preprocess_data accepts for a feature column, in the
      order it tries them. */
  function Aliases(feature: string): seq<string>
  {
    if feature == "methane" then ["CH4", "Methane"]
    else if feature == "lpg" then ["LPG"]
    else if feature == "co" then ["CO"]
    else if feature == "h2s" then ["H2S"]
    else []
  }

  /** The first of the names that is a column of the frame. */
  function FirstPresent(columns: map<string, seq<real>>, names: seq<string>): (r: Option<string>)
    ensures r.None? <==> forall k :: 0 <= k < |names| ==> names[k] !in columns
    ensures r.Some? ==>
              exists i :: 0 <= i < |names| && names[i] == r.value && r.value in columns &&
                          forall k :: 0 <= k < i ==> names[k] !in columns
  {
    if |names| == 0 then None
    else if names[0] in columns then Some(names[0])
    else
      var rest := FirstPresent(columns, names[1..]);
      assert forall k :: 1 <= k < |names| ==> names[k] == names[1..][k - 1];
      rest
  }

  /** The column a feature ends up with: its own, else a copy of the first
      alias present, else zeros. */
  function ResolvedColumn(columns: map<string, seq<real>>, rows: nat, feature: string): seq<real>
  {
    if feature in columns then columns[feature]
    else match FirstPresent(columns, Aliases(feature))
      case Some(alias) => columns[alias]
      case None => seq(rows, _ => 0.0)
  }

  /** All columns of a frame have one value per row. */
  ghost predicate Rectangular(columns: map<string, seq<real>>, rows: nat)
  {
    forall c :: c in columns ==> |columns[c]| == rows
  }

  /** An existing feature column is kept; a missing one is copied from the
      first alias present (CH4 before Methane); with none it is all zeros. */
  lemma ResolvedColumnCases(columns: map<string, seq<real>>, rows: nat, feature: string)
    requires Rectangular(columns, rows)
    ensures |ResolvedColumn(columns, rows, feature)| == rows
    ensures feature in columns ==> ResolvedColumn(columns, rows, feature) == columns[feature]
    ensures feature == "methane" && feature !in columns && "CH4" in columns ==>
              ResolvedColumn(columns, rows, feature) == columns["CH4"]
    ensures feature == "methane" && feature !in columns && "CH4" !in columns && "Methane" in columns ==>
              ResolvedColumn(columns, rows, feature) == columns["Methane"]
    ensures feature !in columns && (forall a :: a in Aliases(feature) ==> a !in columns) ==>
              forall i :: 0 <= i < rows ==> ResolvedColumn(columns, rows, feature)[i] == 0.0
  {
    if feature !in columns && feature == "methane" && "CH4" !in columns && "Methane" in columns {
      assert Aliases(feature)[1] == "Methane";
    }
  }

  /** A data frame whose columns preprocess_data adds to in place. */
  class DataFrame {
    var columns: map<string, seq<real>>
    const rows: nat

    ghost predicate Valid()
      reads this
    {
      Rectangular(columns, rows)
    }

    constructor(columns: map<string, seq<real>>, rows: nat)
      requires Rectangular(columns, rows)
      ensures Valid() && this.columns == columns && this.rows == rows
    {
      this.columns := columns;
      this.rows := rows;
    }

    /** One feature column: kept if present, else copied from its first
        alias present, else zero-filled. */
    method FillFeature(feature: string)
      requires Valid()
      modifies this
      ensures Valid()
      ensures columns == old(columns)[feature := ResolvedColumn(old(columns), rows, feature)]
    {
      ResolvedColumnCases(columns, rows, feature);
      if feature !in columns {
        var alias := FirstPresent(columns, Aliases(feature));
        if alias.Some? {
          columns := columns[feature := columns[alias.value]];
        } else {
          columns := columns[feature := seq(rows, _ => 0.0)];
        }
      }
    }

    /** The aliasing blocks and the zero-fill loop of preprocess_data. */
    method ResolveFeatureColumns()
      requires Valid()
      modifies this
      ensures Valid()
      ensures columns == ResolveAll(old(columns), rows)
    {
      ghost var original := columns;
      FillFeature("methane");
      FillFeature("lpg");
      FillFeature("co");
      FillFeature("h2s");
      ResolveInSequence(original, rows);
    }

    /** preprocess_data's feature matrix: one reading per row, columns in the
        order methane, lpg, co, h2s. */
    method FeatureMatrix() returns (data: seq<Vector>)
      requires Valid() && "methane" in columns && "lpg" in columns && "co" in columns && "h2s" in columns
      ensures |data| == rows
      ensures forall i :: 0 <= i < rows ==>
                data[i] == Vector(columns["methane"][i], columns["lpg"][i], columns["co"][i], columns["h2s"][i])
    {
      data := [];
      var i := 0;
      while i < rows
        invariant i <= rows && |data| == i
        invariant forall j :: 0 <= j < i ==>
                    data[j] == Vector(columns["methane"][j], columns["lpg"][j], columns["co"][j], columns["h2s"][j])
      {
        data := data + [Vector(columns["methane"][i], columns["lpg"][i], columns["co"][i], columns["h2s"][i])];
        i := i + 1;
      }
    }

    /** preprocess_data up to the scaler: resolve the columns, then read the matrix. */
    method Preprocess() returns (data: seq<Vector>)
      requires Valid()
      modifies this
      ensures Valid()
      ensures columns == ResolveAll(old(columns), rows)
      ensures |data| == rows
      ensures forall i :: 0 <= i < rows ==>
                data[i] == Vector(ResolvedColumn(old(columns), rows, "methane")[i],
                                  ResolvedColumn(old(columns), rows, "lpg")[i],
                                  ResolvedColumn(old(columns), rows, "co")[i],
                                  ResolvedColumn(old(columns), rows, "h2s")[i])
    {
      ResolveFeatureColumns();
      data := FeatureMatrix();
    }
  }

  /** The frame after preprocess_data's column resolution: the four feature
      columns resolved against the frame as it was, every other column kept. */
  function ResolveAll(columns: map<string, seq<real>>, rows: nat): (r: map<string, seq<real>>)
    ensures r.Keys == columns.Keys + {"methane", "lpg", "co", "h2s"}
  {
    columns["methane" := ResolvedColumn(columns, rows, "methane")]
           ["lpg" := ResolvedColumn(columns, rows, "lpg")]
           ["co" := ResolvedColumn(columns, rows, "co")]
           ["h2s" := ResolvedColumn(columns, rows, "h2s")]
  }

  /** Resolution keeps every column the frame had and gives each feature
      column one value per row. */
  lemma ResolveAllKeeps(columns: map<string, seq<real>>, rows: nat)
    requires Rectangular(columns, rows)
    ensures Rectangular(ResolveAll(columns, rows), rows)
    ensures forall c :: c in columns ==> ResolveAll(columns, rows)[c] == columns[c]
  {
    ResolvedColumnCases(columns, rows, "methane");
    ResolvedColumnCases(columns, rows, "lpg");
    ResolvedColumnCases(columns, rows, "co");
    ResolvedColumnCases(columns, rows, "h2s");
  }

  /** Resolving the features one after the other, each against the frame as
      the previous ones left it, is the same as resolving all of them against
      the original frame, because no alias is a feature column name. */
  lemma ResolveInSequence(c0: map<string, seq<real>>, rows: nat)
    ensures var c1 := c0["methane" := ResolvedColumn(c0, rows, "methane")];
            var c2 := c1["lpg" := ResolvedColumn(c1, rows, "lpg")];
            var c3 := c2["co" := ResolvedColumn(c2, rows, "co")];
            c3["h2s" := ResolvedColumn(c3, rows, "h2s")] == ResolveAll(c0, rows)
  {
    var c1 := c0["methane" := ResolvedColumn(c0, rows, "methane")];
    var c2 := c1["lpg" := ResolvedColumn(c1, rows, "lpg")];
    var c3 := c2["co" := ResolvedColumn(c2, rows, "co")];
    StepAgrees(c0, c1, rows, "lpg");
    StepAgrees(c0, c2, rows, "co");
    StepAgrees(c0, c3, rows, "h2s");
  }

  /** Resolving a feature column the frame lacks gives the same column after
      other feature columns were added. */
  lemma StepAgrees(before: map<string, seq<real>>, after: map<string, seq<real>>, rows: nat, feature: string)
    requires forall c :: c in before ==> c in after && after[c] == before[c]
    requires forall c :: c in after && c !in before ==> c in FeatureColumns && c != feature
    requires feature in FeatureColumns
    ensures ResolvedColumn(after, rows, feature) == ResolvedColumn(before, rows, feature)
  {
    var names := Aliases(feature);
    assert forall k :: 0 <= k < |names| ==> names[k] !in FeatureColumns;
    assert forall k :: 0 <= k < |names| ==> (names[k] in after <==> names[k] in before);
    AgreeOn(before, after, names);
  }

  lemma {:induction false} AgreeOn(before: map<string, seq<real>>, after: map<string, seq<real>>, names: seq<string>)
    requires forall k :: 0 <= k < |names| ==> (names[k] in after <==> names[k] in before)
    ensures FirstPresent(after, names) == FirstPresent(before, names)
    decreases |names|
  {
    if |names| > 0 && names[0] !in before {
      assert forall k :: 0 <= k < |names[1..]| ==> names[1..][k] == names[k + 1];
      AgreeOn(before, after, names[1..]);
    }
  }
}
