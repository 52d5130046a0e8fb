/** `get_all_growth_rates`: one result row per well column, in column
    order. Column names that are too short for the well test raise, and so
    does a failing estimate; nothing is caught, so either ends the run. */
module Aggregator {
  import opened Common
  import opened Mask
  import opened Estimator

  /** The ASCII letters and digits. */
  const AsciiUpper: set<char> := {'A','B','C','D','E','F','G','H','I','J','K','L','M','N','O','P','Q','R','S','T','U','V','W','X','Y','Z'}
  const AsciiLower: set<char> := {'a','b','c','d','e','f','g','h','i','j','k','l','m','n','o','p','q','r','s','t','u','v','w','x','y','z'}
  const AsciiDigits: set<char> := {'0','1','2','3','4','5','6','7','8','9'}

  /** `str.isalpha` on one character, ASCII letters only. */
  function IsAlpha(c: char): (b: bool)
    ensures b <==> c in AsciiUpper || c in AsciiLower
  {
    'A' <= c <= 'Z' || 'a' <= c <= 'z'
  }

  /** `str.isnumeric` on one character, ASCII digits only. */
  function IsNumeric(c: char): (b: bool)
    ensures b <==> c in AsciiDigits
  {
    '0' <= c <= '9'
  }

  /** A well identifier: a letter followed by a digit, then anything. */
  predicate IsWellName(name: string) {
    |name| >= 2 && IsAlpha(name[0]) && IsNumeric(name[1])
  }

  /** `cur_col[0].isalpha() and cur_col[1].isnumeric()`, evaluated left to
      right with short-circuit `and`: a name of length 0, or a one-letter
      name, raises IndexError; every other name is classified. */
  function WellNameTest(name: string): (r: Result<bool>)
    ensures r.Err? <==> |name| == 0 || (|name| == 1 && IsAlpha(name[0]))
    ensures r.Err? ==> r.error == ColumnNameIndexError(name)
    ensures r.Ok? ==> (r.value <==> IsWellName(name))
  {
    if |name| == 0 then Err(ColumnNameIndexError(name))
    else if !IsAlpha(name[0]) then Ok(false)
    else if |name| == 1 then Err(ColumnNameIndexError(name))
    else Ok(IsNumeric(name[1]))
  }

  /** 'Time' and other metadata columns are skipped; letter-digit names are
      wells; short names raise. */
  lemma WellNameExamples()
    ensures WellNameTest("Time") == Ok(false)
    ensures WellNameTest("A1") == Ok(true) && WellNameTest("H12") == Ok(true)
    ensures WellNameTest("AB") == Ok(false) && WellNameTest("1A") == Ok(false)
    ensures WellNameTest("7") == Ok(false)
    ensures WellNameTest("") == Err(ColumnNameIndexError(""))
    ensures WellNameTest("A") == Err(ColumnNameIndexError("A"))
  {
  }

  /** One column of the plate-reader table: its name and the log of its
      background-subtracted readings. */
  datatype Column = Column(name: string, logOD: seq<LogValue>)

  /** The fields the experiment holds after loading: the columns in table
      order, the shared time axis and the smoothing factor. */
  datatype Experiment = Experiment(columns: seq<Column>, elapsedMinutes: seq<real>, s: real)

  /** One row of the result table: `[well, growth_rate, max_time, max_index]`. */
  datatype Row = Row(well: string, growthRate: real, maxTime: real, maxIndex: nat)

  /** The per-column estimator of an experiment: `self.get_max_growth_rate`. */
  type ColumnEstimator = Column -> Result<Estimate>

  function EstimatorOf(e: Experiment, fit: SplineFit): ColumnEstimator
  {
    (c: Column) => MaxGrowthRate(c.logOD, e.elapsedMinutes, e.s, fit)
  }

  /** What one column contributes: the name test's error, nothing for a
      column that is not a well, the estimator's error, or a row holding the
      name and the estimate. */
  function ColumnRow(c: Column, estimate: ColumnEstimator): (r: Result<Option<Row>>)
    ensures r.Err? <==> WellNameTest(c.name).Err? || (IsWellName(c.name) && estimate(c).Err?)
    ensures r.Err? ==> r.error == (if WellNameTest(c.name).Err? then ColumnNameIndexError(c.name) else estimate(c).error)
    ensures r == Ok(None) <==> WellNameTest(c.name) == Ok(false)
    ensures r.Ok? && r.value.Some? ==>
              var row := r.value.value;
              && IsWellName(c.name) && row.well == c.name
              && estimate(c) == Ok(Estimate(row.growthRate, row.maxTime, row.maxIndex))
  {
    match WellNameTest(c.name)
    case Err(err) => Err(err)
    case Ok(false) => Ok(None)
    case Ok(true) =>
      match estimate(c)
      case Err(err) => Err(err)
      case Ok(e) => Ok(Some(Row(c.name, e.maxLogSlope, e.maxTime, e.maxIndex)))
  }

  /** The mask of well columns. */
  function WellMask(columns: seq<Column>): seq<bool>
  {
    seq(|columns|, i requires 0 <= i < |columns| => IsWellName(columns[i].name))
  }

  /** The result so far, after one more column. */
  function Step(acc: Result<seq<Row>>, c: Column, estimate: ColumnEstimator): Result<seq<Row>>
  {
    match acc
    case Err(err) => Err(err)
    case Ok(rows) =>
      match ColumnRow(c, estimate)
      case Err(err) => Err(err)
      case Ok(None) => Ok(rows)
      case Ok(Some(row)) => Ok(rows + [row])
  }

  /** The result of visiting the columns in order: the first error, or the
      rows of all well columns. */
  function GrowthRates(columns: seq<Column>, estimate: ColumnEstimator): (r: Result<seq<Row>>)
    ensures r.Ok? ==> |r.value| <= |columns|
  {
    if columns == [] then Ok([])
    else
      var n := |columns| - 1;
      Step(GrowthRates(columns[..n], estimate), columns[n], estimate)
  }

  /** Once a prefix of the columns has raised, the whole run has raised the
      same error. */
  lemma {:induction false} PrefixErrorPersists(columns: seq<Column>, estimate: ColumnEstimator, n: nat)
    requires n <= |columns|
    requires GrowthRates(columns[..n], estimate).Err?
    ensures GrowthRates(columns, estimate) == GrowthRates(columns[..n], estimate)
    decreases |columns|
  {
    if n < |columns| {
      var m := |columns| - 1;
      var prefix := columns[..m];
      assert prefix[..n] == columns[..n];
      PrefixErrorPersists(prefix, estimate, n);
    } else {
      assert columns[..n] == columns;
    }
  }

  /** The run succeeds exactly when no column raises. */
  lemma {:induction false} GrowthRatesOkIff(columns: seq<Column>, estimate: ColumnEstimator)
    ensures GrowthRates(columns, estimate).Ok? <==>
            forall i :: 0 <= i < |columns| ==> ColumnRow(columns[i], estimate).Ok?
  {
    if columns != [] {
      var n := |columns| - 1;
      GrowthRatesOkIff(columns[..n], estimate);
      assert forall i :: 0 <= i < n ==> columns[..n][i] == columns[i];
    }
  }

  /** A failed run reports the error of the first column that raised. */
  lemma {:induction false} GrowthRatesFirstError(columns: seq<Column>, estimate: ColumnEstimator)
    requires GrowthRates(columns, estimate).Err?
    ensures exists i :: 0 <= i < |columns| &&
              ColumnRow(columns[i], estimate) == Err(GrowthRates(columns, estimate).error) &&
              forall i' :: 0 <= i' < i ==> ColumnRow(columns[i'], estimate).Ok?
  {
    var n := |columns| - 1;
    var prefix := columns[..n];
    assert forall i :: 0 <= i < n ==> prefix[i] == columns[i];
    if GrowthRates(prefix, estimate).Err? {
      GrowthRatesFirstError(prefix, estimate);
      var i :| 0 <= i < n &&
               ColumnRow(prefix[i], estimate) == Err(GrowthRates(prefix, estimate).error) &&
               forall i' :: 0 <= i' < i ==> ColumnRow(prefix[i'], estimate).Ok?;
      assert ColumnRow(columns[i], estimate) == Err(GrowthRates(columns, estimate).error);
    } else {
      GrowthRatesOkIff(prefix, estimate);
      assert ColumnRow(columns[n], estimate) == Err(GrowthRates(columns, estimate).error);
    }
  }

  /** A successful run has one row per well column, in column order; each
      row carries the column's name and the fields of its estimate. */
  lemma {:induction false} GrowthRatesRows(columns: seq<Column>, estimate: ColumnEstimator)
    requires GrowthRates(columns, estimate).Ok?
    ensures var rows := GrowthRates(columns, estimate).value;
            var wells := Filter(columns, WellMask(columns));
            && |rows| == |wells|
            && forall j :: 0 <= j < |rows| ==>
                 && IsWellName(wells[j].name)
                 && rows[j].well == wells[j].name
                 && estimate(wells[j]) == Ok(Estimate(rows[j].growthRate, rows[j].maxTime, rows[j].maxIndex))
  {
    if columns == [] { return; }
    var mask := WellMask(columns);
    var n := |columns| - 1;
    var prefix := columns[..n];
    var rows := GrowthRates(columns, estimate).value;
    var wells := Filter(columns, mask);
    var rows' := GrowthRates(prefix, estimate).value;
    var wells' := Filter(prefix, WellMask(prefix));
    assert mask[..n] == WellMask(prefix);
    GrowthRatesRows(prefix, estimate);
    var last := ColumnRow(columns[n], estimate);
    assert last.Ok? && (last.value.Some? <==> mask[n]);
    if mask[n] {
      assert wells == wells' + [columns[n]];
      assert rows == rows' + [last.value.value];
    } else {
      assert wells == wells';
      assert rows == rows';
    }
  }

  /** Each row of a successful run reports the slope and time of its well's
      corrected estimate, and an index at or after the peak's position. */
  lemma RowsReportPeaks(e: Experiment, fit: SplineFit)
    requires GrowthRates(e.columns, EstimatorOf(e, fit)).Ok?
    ensures var rows := GrowthRates(e.columns, EstimatorOf(e, fit)).value;
            var wells := Filter(e.columns, WellMask(e.columns));
            && |rows| == |wells|
            && forall j :: 0 <= j < |rows| ==>
                 var p := MaxGrowthRatePeak(wells[j].logOD, e.elapsedMinutes, e.s, fit);
                 && p.Ok?
                 && rows[j].growthRate == p.value.maxLogSlope
                 && rows[j].maxTime == p.value.maxTime
                 && p.value.maxIndex <= rows[j].maxIndex
  {
    var rows := GrowthRates(e.columns, EstimatorOf(e, fit)).value;
    var wells := Filter(e.columns, WellMask(e.columns));
    GrowthRatesRows(e.columns, EstimatorOf(e, fit));
    forall j | 0 <= j < |rows|
      ensures MaxGrowthRatePeak(wells[j].logOD, e.elapsedMinutes, e.s, fit).Ok?
      ensures var p := MaxGrowthRatePeak(wells[j].logOD, e.elapsedMinutes, e.s, fit).value;
              && rows[j].growthRate == p.maxLogSlope
              && rows[j].maxTime == p.maxTime
              && p.maxIndex <= rows[j].maxIndex
    {
      assert EstimatorOf(e, fit)(wells[j]) == MaxGrowthRate(wells[j].logOD, e.elapsedMinutes, e.s, fit);
      SourceIndexCorrectIff(wells[j].logOD, e.elapsedMinutes, e.s, fit);
    }
  }

  /** `get_all_growth_rates` up to the data frame: visit the columns in
      order, skip the non-well ones, and append one row per well. */
  method GetAllGrowthRates(e: Experiment, fit: SplineFit) returns (r: Result<seq<Row>>)
    ensures r == GrowthRates(e.columns, EstimatorOf(e, fit))
    ensures r.Ok? <==> forall i :: 0 <= i < |e.columns| ==> ColumnRow(e.columns[i], EstimatorOf(e, fit)).Ok?
    ensures r.Ok? ==>
              var wells := Filter(e.columns, WellMask(e.columns));
              && |r.value| == |wells|
              && forall j :: 0 <= j < |r.value| ==>
                   && r.value[j].well == wells[j].name
                   && MaxGrowthRate(wells[j].logOD, e.elapsedMinutes, e.s, fit) ==
                      Ok(Estimate(r.value[j].growthRate, r.value[j].maxTime, r.value[j].maxIndex))
    ensures r.Ok? ==>
              var wells := Filter(e.columns, WellMask(e.columns));
              forall j :: 0 <= j < |r.value| ==>
                var p := MaxGrowthRatePeak(wells[j].logOD, e.elapsedMinutes, e.s, fit);
                && p.Ok?
                && r.value[j].growthRate == p.value.maxLogSlope
                && r.value[j].maxTime == p.value.maxTime
                && p.value.maxIndex <= r.value[j].maxIndex
  {
    ghost var estimate := EstimatorOf(e, fit);
    var growthRateData: seq<Row> := [];
    var i := 0;
    while i < |e.columns|
      invariant 0 <= i <= |e.columns|
      invariant GrowthRates(e.columns[..i], estimate) == Ok(growthRateData)
    {
      var col := e.columns[i];
      assert e.columns[..i + 1][..i] == e.columns[..i];
      var isWell := WellNameTest(col.name);
      if isWell.Err? {
        r := Err(isWell.error);
        PrefixErrorPersists(e.columns, estimate, i + 1);
        GrowthRatesOkIff(e.columns, estimate);
        return;
      }
      if isWell.value {
        var maxGrowth := MaxGrowthRate(col.logOD, e.elapsedMinutes, e.s, fit);
        assert maxGrowth == estimate(col);
        if maxGrowth.Err? {
          r := Err(maxGrowth.error);
          PrefixErrorPersists(e.columns, estimate, i + 1);
          GrowthRatesOkIff(e.columns, estimate);
          return;
        }
        var row := Row(col.name, maxGrowth.value.maxLogSlope, maxGrowth.value.maxTime, maxGrowth.value.maxIndex);
        growthRateData := growthRateData + [row];
      }
      i := i + 1;
    }
    assert e.columns[..i] == e.columns;
    r := Ok(growthRateData);
    GrowthRatesOkIff(e.columns, estimate);
    GrowthRatesRows(e.columns, estimate);
    RowsReportPeaks(e, fit);
  }
}
