/**
 * `prepare_for_prophet`: the two-column table the forecasting library is
 * fitted on.  Date becomes `ds` (parsed as timestamps) and CashInflow
 * becomes `y`; every other column is dropped and the rows keep their order.
 */
module ProphetForecaster {
  import opened Wrappers
  import opened Tables

  const Required: seq<string> := ["Date", "CashInflow"]

  /** The renaming at prophet_forecaster.py:20. */
  const ProphetNames: map<string, string> := map["Date" := "ds", "CashInflow" := "y"]

  /** A Date cell that `pd.to_datetime` cannot parse. */
  predicate Unparseable(c: Cell, parse: Cell -> Option<int>) {
    ToDatetime(c, parse).None?
  }

  /**
   * The specification of `prepare_for_prophet`: a KeyError when Date or
   * CashInflow is absent; a ValueError when a date does not parse; otherwise
   * row k is (Date[k] as a timestamp, CashInflow[k]) under the labels ds and
   * y, with its index label.
   */
  function PrepareForProphet(t: Table, parse: Cell -> Option<int>): (r: Result<Table, Error>)
    requires WellFormed(t)
    ensures r.Err? <==> "Date" !in t.columns || "CashInflow" !in t.columns
                        || exists k :: 0 <= k < |t.records| && Unparseable(CellOf(t, k, "Date"), parse)
    ensures r.Err? && ("Date" !in t.columns || "CashInflow" !in t.columns) ==> r.error == MissingColumns(Required)
    ensures r.Ok? ==> WellFormed(r.value) && r.value.columns == ["ds", "y"] && r.value.indexName == t.indexName
    ensures r.Ok? ==> |r.value.records| == |t.records|
    ensures r.Ok? ==> forall k :: 0 <= k < |t.records| ==>
                        r.value.records[k].index == t.records[k].index
                        && Some(r.value.records[k].cells[0]) == ToDatetime(CellOf(t, k, "Date"), parse)
                        && r.value.records[k].cells[1] == CellOf(t, k, "CashInflow")
  {
    if "Date" !in t.columns || "CashInflow" !in t.columns then Err(MissingColumns(Required))
    else if exists k :: 0 <= k < |t.records| && Unparseable(CellOf(t, k, "Date"), parse) then
      Err(ValueError("unparseable date"))
    else Ok(Prepared(t, parse))
  }

  /** The successful case: Date and CashInflow projected, renamed ds and y, and ds parsed. */
  function Prepared(t: Table, parse: Cell -> Option<int>): (r: Table)
    requires WellFormed(t) && "Date" in t.columns && "CashInflow" in t.columns
    requires forall k :: 0 <= k < |t.records| ==> ToDatetime(CellOf(t, k, "Date"), parse).Some?
    ensures WellFormed(r) && r.columns == ["ds", "y"] && r.indexName == t.indexName
    ensures |r.records| == |t.records|
    ensures forall k :: 0 <= k < |t.records| ==>
              r.records[k].index == t.records[k].index
              && Some(r.records[k].cells[0]) == ToDatetime(CellOf(t, k, "Date"), parse)
              && r.records[k].cells[1] == CellOf(t, k, "CashInflow")
  {
    ProphetLabels();
    var projected := Rename(Projection(t, Required), ProphetNames);
    ProjectedCells(t, projected);
    var ds := seq(|t.records|, k requires 0 <= k < |t.records| => ToDatetime(CellOf(t, k, "Date"), parse).value);
    var r := Assign(projected, "ds", ds);
    assert r.columns == ["ds", "y"];
    forall k | 0 <= k < |t.records|
      ensures r.records[k].cells[0] == ds[k] && r.records[k].cells[1] == projected.records[k].cells[1]
    {
      AssignedRow(projected, ds, r, k);
    }
    r
  }

  /** The Date and CashInflow labels become ds and y. */
  lemma ProphetLabels()
    ensures Relabel(Required, ProphetNames) == ["ds", "y"] && Distinct(["ds", "y"])
  {
    var r := Relabel(Required, ProphetNames);
    assert r[0] == "ds" && r[1] == "y";
  }

  /** Row k after ds is overwritten: the new ds cell, and y unchanged. */
  lemma AssignedRow(projected: Table, ds: seq<Cell>, r: Table, k: int)
    requires WellFormed(projected) && projected.columns == ["ds", "y"] && |ds| == |projected.records|
    requires r == Assign(projected, "ds", ds) && 0 <= k < |projected.records|
    ensures r.records[k].cells[0] == ds[k] && r.records[k].cells[1] == projected.records[k].cells[1]
  {
    assert r.columns == ["ds", "y"] && r.columns[0] == "ds" && projected.columns[1] == "y";
  }

  /** After the projection and renaming, ds and y hold the Date and CashInflow cells. */
  lemma ProjectedCells(t: Table, projected: Table)
    requires WellFormed(t) && "Date" in t.columns && "CashInflow" in t.columns
    requires projected == Rename(Projection(t, Required), ProphetNames)
    ensures projected.columns == ["ds", "y"] && |projected.records| == |t.records|
    ensures forall k :: 0 <= k < |t.records| ==>
              projected.records[k].index == t.records[k].index
              && projected.records[k].cells == [CellOf(t, k, "Date"), CellOf(t, k, "CashInflow")]
  {
    var s := Projection(t, Required);
    assert Relabel(Required, ProphetNames) == ["ds", "y"];
    forall k | 0 <= k < |t.records|
      ensures projected.records[k].cells == [CellOf(t, k, "Date"), CellOf(t, k, "CashInflow")]
    {
      var cells := s.records[k].cells;
      assert s.records[k] in s.records;
      assert |cells| == 2 && cells[0] == CellOf(t, k, Required[0]) && cells[1] == CellOf(t, k, Required[1]);
    }
  }
}
