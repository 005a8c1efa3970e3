/**
 * `backtest_prophet` without the forecasting library: the table is sorted by
 * date and renumbered, split into a training part and a held-out test part
 * with Python slicing, the training part is handed to a forecaster (a
 * parameter), the forecast is joined to the test rows on date, and the
 * mean absolute percentage error and the root mean squared error are
 * computed over the joined rows.
 */
module Backtest {
  import opened Wrappers
  import opened Tables
  import opened Reals

  // ---------------------------------------------------------------------------
  // Sorting and the chronological split (backtest.py:16-20)
  // ---------------------------------------------------------------------------

  /** All Date cells are timestamps, so sorting and joining on them compare instants. */
  predicate Dated(t: Table, d: nat) {
    forall k :: 0 <= k < |t.records| ==> d < |t.records[k].cells| && t.records[k].cells[d].Stamp?
  }

  /** `df.copy().sort_values('Date').reset_index(drop=True)`, with its KeyError and the model's TypeError. */
  function Prepare(df: Table): (r: Result<Table, Error>)
    requires WellFormed(df)
    ensures r.Err? <==> "Date" !in df.columns || !Dated(df, Position(df.columns, "Date").value)
    ensures r.Err? && "Date" !in df.columns ==> r.error == KeyError(["Date"])
    ensures r.Ok? ==> WellFormed(r.value) && r.value.columns == df.columns && r.value.indexName.None?
    ensures r.Ok? ==> var d := Position(df.columns, "Date").value;
              Dated(r.value, d) && SortedBy(r.value.records, ByColumn(d))
              && multiset(Rows(r.value.records)) == multiset(Rows(df.records))
              && forall k :: 0 <= k < |r.value.records| ==> r.value.records[k].index == Num(k as real)
  {
    match Position(df.columns, "Date")
    case None => Err(KeyError(["Date"]))
    case Some(d) =>
      if !Dated(df, d) then Err(TypeError("Date"))
      else
        SortedRenumbered(df, d);
        StillDated(df, d);
        Ok(ResetIndex(SortValues(df, d)))
  }

  /** Sorting and renumbering keeps every date a timestamp. */
  lemma StillDated(df: Table, d: nat)
    requires WellFormed(df) && Dated(df, d)
    ensures Dated(ResetIndex(SortValues(df, d)), d)
  {
    var r := ResetIndex(SortValues(df, d));
    SortedRenumbered(df, d);
    forall k | 0 <= k < |r.records| ensures d < |r.records[k].cells| && r.records[k].cells[d].Stamp? {
      var rows := Rows(df.records);
      assert r.records[k].cells in rows;
      var i :| 0 <= i < |rows| && rows[i] == r.records[k].cells;
      assert df.records[i].cells == r.records[k].cells;
    }
  }

  /** Python's normalisation of a slice bound i on a sequence of length len. */
  function SliceBound(i: int, len: nat): (r: nat)
    ensures r <= len
    ensures 0 <= i <= len ==> r == i
    ensures i < 0 && i + len >= 0 ==> r == len + i
    ensures i > len ==> r == len
    ensures i + len < 0 ==> r == 0
  {
    if i < 0 then (if len + i < 0 then 0 else len + i)
    else if i > len then len
    else i
  }

  /** Where `df[:-n]` stops and `df[-n:]` starts. */
  function Cut(n: int, len: nat): nat {
    SliceBound(-n, len)
  }

  /** `df[:-n]` */
  function Train(t: Table, n: int): Table {
    t.(records := t.records[..Cut(n, |t.records|)])
  }

  /** `df[-n:]` */
  function Test(t: Table, n: int): Table {
    t.(records := t.records[Cut(n, |t.records|)..])
  }

  /** The training rows followed by the test rows are the sorted table, whatever n is. */
  lemma SplitPartition(t: Table, n: int)
    ensures Train(t, n).records + Test(t, n).records == t.records
    ensures Train(t, n).columns == t.columns && Test(t, n).columns == t.columns
  {
  }

  /**
   * The holdout sizes: for 0 < n <= len the test part is the last n rows;
   * n = 0 (`[:-0]` is `[:0]`) and n >= len both give an empty training part
   * and the whole table as the test part; a negative n trains on the first -n
   * rows.
   */
  lemma SplitSizes(t: Table, n: int)
    ensures 0 < n <= |t.records| ==> |Test(t, n).records| == n && |Train(t, n).records| == |t.records| - n
    ensures n == 0 || n >= |t.records| ==> Train(t, n).records == [] && Test(t, n).records == t.records
    ensures n < 0 ==> |Train(t, n).records| == if -n <= |t.records| then -n else |t.records|
  {
  }

  /** No chronological leakage: on a table sorted by date, every training date precedes or equals every test date. */
  lemma NoLeakage(t: Table, n: int, d: nat)
    requires SortedBy(t.records, ByColumn(d))
    ensures forall a, b :: a in Train(t, n).records && b in Test(t, n).records ==> ByColumn(d)(a) <= ByColumn(d)(b)
  {
    var cut := Cut(n, |t.records|);
    forall a, b | a in Train(t, n).records && b in Test(t, n).records ensures ByColumn(d)(a) <= ByColumn(d)(b) {
      var i :| 0 <= i < cut && t.records[i] == a;
      var j :| cut <= j < |t.records| && t.records[j] == b;
      assert i < j;
    }
  }

  // ---------------------------------------------------------------------------
  // The training input (backtest.py:23)
  // ---------------------------------------------------------------------------

  const TrainingNames: map<string, string> := map["Date" := "ds", "CashInflow" := "y"]

  /** `train_df[['Date', 'CashInflow']].rename(columns={'Date': 'ds', 'CashInflow': 'y'})` */
  function TrainingInput(train: Table): (r: Result<Table, Error>)
    requires WellFormed(train)
    ensures r.Err? <==> "Date" !in train.columns || "CashInflow" !in train.columns
    ensures r.Err? ==> r.error == KeyError(Missing(["Date", "CashInflow"], train.columns))
    ensures r.Ok? ==> WellFormed(r.value) && r.value.columns == ["ds", "y"]
  {
    match Select(train, ["Date", "CashInflow"])
    case Err(e) => Err(e)
    case Ok(s) =>
      assert Relabel(["Date", "CashInflow"], TrainingNames) == ["ds", "y"];
      Ok(Rename(s, TrainingNames))
  }

  /** The forecaster sees only the training rows' dates and cash inflows, in order. */
  lemma TrainingInputRows(train: Table)
    requires WellFormed(train) && TrainingInput(train).Ok?
    ensures var p := TrainingInput(train).value;
      |p.records| == |train.records|
      && forall k :: 0 <= k < |p.records| ==>
           p.records[k].cells == [CellOf(train, k, "Date"), CellOf(train, k, "CashInflow")]
  {
    var s := Select(train, ["Date", "CashInflow"]).value;
    forall k | 0 <= k < |s.records| ensures s.records[k].cells == [CellOf(train, k, "Date"), CellOf(train, k, "CashInflow")] {
      assert s.records[k] in s.records;
    }
  }

  // ---------------------------------------------------------------------------
  // The join of the forecast with the test rows (backtest.py:39)
  // ---------------------------------------------------------------------------

  /** One row of the forecast: its date and the predicted value. */
  datatype ForecastPoint = ForecastPoint(ds: int, yhat: real)

  /** One row of the merge: a forecast row and a test row with the same date. */
  datatype Pair = Pair(point: ForecastPoint, row: Record)

  predicate OnDate(rec: Record, d: nat, ds: int) {
    d < |rec.cells| && rec.cells[d] == Stamp(ds)
  }

  function IsOnDate(d: nat, ds: int): Record -> bool {
    (rec: Record) => OnDate(rec, d, ds)
  }

  /** The test rows dated ds, in test order. */
  function DatedRows(test: seq<Record>, d: nat, ds: int): seq<Record> {
    Filter(test, IsOnDate(d, ds))
  }

  /**
   * `pd.merge(forecast[['ds', 'yhat']], test_df, left_on='ds', right_on='Date')`:
   * an inner join that keeps the forecast's order and, within one forecast
   * row, the test order.
   */
  function Join(forecast: seq<ForecastPoint>, test: seq<Record>, d: nat): seq<Pair> {
    if |forecast| == 0 then []
    else
      var f := forecast[0];
      Map(DatedRows(test, d, f.ds), (rec: Record) => Pair(f, rec)) + Join(forecast[1..], test, d)
  }

  /** The joined rows are exactly the pairs of a forecast row and a test row on the same date. */
  lemma {:induction false} JoinMembers(forecast: seq<ForecastPoint>, test: seq<Record>, d: nat, p: Pair)
    ensures p in Join(forecast, test, d) <==> p.point in forecast && p.row in test && OnDate(p.row, d, p.point.ds)
  {
    if |forecast| > 0 {
      var f := forecast[0];
      var here := Map(DatedRows(test, d, f.ds), (rec: Record) => Pair(f, rec));
      JoinMembers(forecast[1..], test, d, p);
      assert forecast == [f] + forecast[1..];
      if p in here {
        var i :| 0 <= i < |here| && here[i] == p;
        assert DatedRows(test, d, f.ds)[i] in DatedRows(test, d, f.ds);
      }
      if p.point == f && p.row in test && OnDate(p.row, d, f.ds) {
        var rows := DatedRows(test, d, f.ds);
        var i :| 0 <= i < |rows| && rows[i] == p.row;
        assert here[i] == p;
      }
    }
  }

  /** The dates the forecast covers. */
  function Dates(forecast: seq<ForecastPoint>): set<int> {
    set i | 0 <= i < |forecast| :: forecast[i].ds
  }

  predicate Covered(forecast: seq<ForecastPoint>, d: nat, rec: Record) {
    d < |rec.cells| && rec.cells[d].Stamp? && rec.cells[d].t in Dates(forecast)
  }

  function IsCovered(forecast: seq<ForecastPoint>, d: nat): Record -> bool {
    (rec: Record) => Covered(forecast, d, rec)
  }

  /**
   * With one forecast row per date, the join has one row for each test row
   * whose date the forecast covers: so at most as many rows as the test part,
   * and exactly as many when the forecast covers every test date.
   */
  lemma {:induction false} JoinSize(forecast: seq<ForecastPoint>, test: seq<Record>, d: nat)
    requires Distinct(Map(forecast, (f: ForecastPoint) => f.ds))
    ensures |Join(forecast, test, d)| == |Filter(test, IsCovered(forecast, d))|
    ensures |Join(forecast, test, d)| <= |test|
    ensures (forall rec :: rec in test ==> Covered(forecast, d, rec)) ==> |Join(forecast, test, d)| == |test|
  {
    var covered := IsCovered(forecast, d);
    if |forecast| == 0 {
      FilterNone(test, covered);
    } else {
      var f := forecast[0];
      var rest := forecast[1..];
      assert Map(rest, (f: ForecastPoint) => f.ds) == Map(forecast, (f: ForecastPoint) => f.ds)[1..];
      JoinSize(rest, test, d);
      var here := IsOnDate(d, f.ds);
      var later := IsCovered(rest, d);
      assert Dates(forecast) == {f.ds} + Dates(rest) by {
        forall x | x in Dates(forecast) ensures x in {f.ds} + Dates(rest) {
          var i :| 0 <= i < |forecast| && forecast[i].ds == x;
          if i > 0 { assert rest[i - 1].ds == x; }
        }
      }
      forall i | 0 <= i < |rest| ensures rest[i].ds != f.ds {
        assert Map(forecast, (f: ForecastPoint) => f.ds)[0] != Map(forecast, (f: ForecastPoint) => f.ds)[i + 1];
      }
      forall rec | rec in test ensures !(here(rec) && later(rec)) && (covered(rec) == (here(rec) || later(rec))) { }
      FilterDisjoint(test, here, later, covered);
    }
    if forall rec :: rec in test ==> covered(rec) {
      FilterAll(test, covered);
    }
  }

  // ---------------------------------------------------------------------------
  // The scores (backtest.py:42-50)
  // ---------------------------------------------------------------------------

  /** One scored row: the actual cash inflow and the forecast for that date. */
  datatype Obs = Obs(actual: real, predicted: real)

  /** The scores the backtest reports: MAPE in percent, and RMSE. */
  datatype Metrics = Metrics(mape: real, rmse: real)

  /** The machine epsilon of 64-bit floats, 2^-52, which guards MAPE against a zero actual. */
  const Epsilon: real := 1.0 / 4503599627370496.0

  /** |actual - predicted| / max(|actual|, epsilon) */
  function RelativeError(o: Obs): (r: real)
    ensures r >= 0.0
  {
    var denominator := if Abs(o.actual) > Epsilon then Abs(o.actual) else Epsilon;
    Abs(o.actual - o.predicted) / denominator
  }

  /** (actual - predicted)^2, zero exactly for an exact forecast. */
  function SquaredError(o: Obs): (r: real)
    ensures r >= 0.0
    ensures r == 0.0 <==> o.actual == o.predicted
  {
    SquareSign(o.actual - o.predicted);
    Square(o.actual - o.predicted)
  }

  /** `mean_absolute_percentage_error`, as a fraction (the caller scales it to percent). */
  function MeanRelativeError(obs: seq<Obs>): real
    requires |obs| > 0
  {
    Sum(Map(obs, RelativeError)) / |obs| as real
  }

  /** `mean_squared_error` */
  function MeanSquaredError(obs: seq<Obs>): real
    requires |obs| > 0
  {
    Sum(Map(obs, SquaredError)) / |obs| as real
  }

  /** The reported scores, unrounded; sqrt stands for `np.sqrt`. */
  function Score(obs: seq<Obs>, sqrt: real -> real): (m: Metrics)
    requires |obs| > 0
    ensures m.mape >= 0.0
    ensures RootOf(sqrt(MeanSquaredError(obs)), MeanSquaredError(obs)) ==> RootOf(m.rmse, MeanSquaredError(obs))
  {
    SumNonNegative(Map(obs, RelativeError));
    Metrics(MeanRelativeError(obs) * 100.0, sqrt(MeanSquaredError(obs)))
  }

  /** The mean squared error is never negative, and it is zero exactly when every forecast is exact. */
  lemma PerfectForecast(obs: seq<Obs>)
    requires |obs| > 0
    ensures MeanSquaredError(obs) >= 0.0
    ensures MeanSquaredError(obs) == 0.0 <==> forall i :: 0 <= i < |obs| ==> obs[i].actual == obs[i].predicted
  {
    var sq := Map(obs, SquaredError);
    SumNonNegative(sq);
    assert forall i :: 0 <= i < |obs| ==> sq[i] == SquaredError(obs[i]);
  }

  /** MAPE is zero exactly when every forecast is exact. */
  lemma PerfectPercentage(obs: seq<Obs>)
    requires |obs| > 0
    ensures MeanRelativeError(obs) == 0.0 <==> forall i :: 0 <= i < |obs| ==> obs[i].actual == obs[i].predicted
  {
    var rel := Map(obs, RelativeError);
    SumNonNegative(rel);
    forall i | 0 <= i < |obs| ensures rel[i] == 0.0 <==> obs[i].actual == obs[i].predicted {
      var o := obs[i];
      var denominator := if Abs(o.actual) > Epsilon then Abs(o.actual) else Epsilon;
      assert denominator > 0.0;
      assert rel[i] == Abs(o.actual - o.predicted) / denominator;
      if o.actual != o.predicted {
        assert Abs(o.actual - o.predicted) > 0.0;
      }
    }
  }

  // ---------------------------------------------------------------------------
  // The whole backtest
  // ---------------------------------------------------------------------------

  /** What the backtest returns: the scores and the forecast. */
  datatype Outcome = Outcome(metrics: Metrics, forecast: seq<ForecastPoint>)

  /** y_true = merged['CashInflow'], y_pred = merged['yhat']: every joined cash inflow must be a number. */
  function Observations(pairs: seq<Pair>, c: nat): (r: Result<seq<Obs>, Error>)
    ensures r.Err? <==> exists i :: 0 <= i < |pairs| && !Scorable(pairs[i], c)
    ensures r.Ok? ==> |r.value| == |pairs|
    ensures r.Ok? ==> forall i :: 0 <= i < |pairs| ==>
              r.value[i] == Obs(pairs[i].row.cells[c].x, pairs[i].point.yhat)
  {
    if exists i :: 0 <= i < |pairs| && !Scorable(pairs[i], c) then Err(ValueError("y_true is not numeric"))
    else Ok(seq(|pairs|, i requires 0 <= i < |pairs| => Obs(pairs[i].row.cells[c].x, pairs[i].point.yhat)))
  }

  predicate Scorable(p: Pair, c: nat) {
    c < |p.row.cells| && p.row.cells[c].Num?
  }

  /**
   * `backtest_prophet(df, n)` with the fit-and-predict step of backtest.py:26-36 as
   * the parameter forecaster (given the training input and n) and `np.sqrt` as
   * sqrt.  Errors: no Date column, a non-timestamp date, no CashInflow column,
   * a failing forecaster, a yhat column in the table (the merge then suffixes
   * both yhat columns and `merged['yhat']` raises a KeyError), an empty join,
   * a non-numeric actual.  Otherwise the scores of the joined rows.
   */
  function BacktestProphet(df: Table, n: int, forecaster: (Table, int) -> Result<seq<ForecastPoint>, Error>,
                           sqrt: real -> real): (r: Result<Outcome, Error>)
    requires WellFormed(df)
    ensures "Date" !in df.columns ==> r == Err(KeyError(["Date"]))
    ensures "Date" in df.columns && "CashInflow" !in df.columns && Dated(df, Position(df.columns, "Date").value) ==>
              r == Err(KeyError(["CashInflow"]))
    ensures r.Ok? ==> r.value.metrics.mape >= 0.0
    ensures r.Ok? ==>
              && Prepare(df).Ok? && "CashInflow" in df.columns
              && var sorted := Prepare(df).value;
                 var d, c := Position(df.columns, "Date").value, Position(df.columns, "CashInflow").value;
                 var pairs := Join(r.value.forecast, Test(sorted, n).records, d);
                 && TrainingInput(Train(sorted, n)).Ok?
                 && forecaster(TrainingInput(Train(sorted, n)).value, n) == Ok(r.value.forecast)
                 && |pairs| > 0 && Observations(pairs, c).Ok? && "yhat" !in df.columns
                 && r.value.metrics == Score(Observations(pairs, c).value, sqrt)
    ensures Prepare(df).Ok? && "CashInflow" in df.columns && "yhat" in df.columns ==>
              var train := Train(Prepare(df).value, n);
              TrainingInput(train).Ok? && forecaster(TrainingInput(train).value, n).Ok? ==> r == Err(KeyError(["yhat"]))
    ensures Prepare(df).Ok? && "CashInflow" in df.columns && "yhat" !in df.columns ==>
              var sorted := Prepare(df).value;
              var d, c := Position(df.columns, "Date").value, Position(df.columns, "CashInflow").value;
              var train := Train(sorted, n);
              TrainingInput(train).Ok? && forecaster(TrainingInput(train).value, n).Ok? ==>
                var pairs := Join(forecaster(TrainingInput(train).value, n).value, Test(sorted, n).records, d);
                |pairs| > 0 && Observations(pairs, c).Ok? ==> r.Ok?
  {
    match Prepare(df)
    case Err(e) => Err(e)
    case Ok(sorted) =>
      var d := Position(df.columns, "Date").value;
      var train, test := Train(sorted, n), Test(sorted, n);
      match TrainingInput(train)
      case Err(e) =>
        assert Missing(["Date", "CashInflow"], train.columns) == ["CashInflow"] by {
          assert Filter(["Date", "CashInflow"], (n: string) => n !in train.columns)
              == Filter(["Date"], (n: string) => n !in train.columns) + ["CashInflow"];
        }
        Err(e)
      case Ok(input) =>
        match forecaster(input, n)
        case Err(e) => Err(e)
        case Ok(forecast) =>
          var pairs := Join(forecast, test.records, d);
          if "yhat" in df.columns then Err(KeyError(["yhat"]))
          else if |pairs| == 0 then Err(ValueError("no forecast date matches a test date"))
          else
            var c := Position(df.columns, "CashInflow").value;
            match Observations(pairs, c)
            case Err(e) => Err(e)
            case Ok(obs) => Ok(Outcome(Score(obs, sqrt), forecast))
  }
}
