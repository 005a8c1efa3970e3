/**
 * The loader: what `fetch_stock_data` does with the table `yf.download`
 * returns (empty check, flattening of two-level column labels, the index
 * turned into a Date column, projection to Date, Close and Volume), and
 * `simulate_cash_inflow` (CashInflow = Close * Volume).
 */
module DataLoader {
  import opened Wrappers
  import opened Tables
  import opened Frames
  import opened Reals

  /** Column labels as downloaded: plain labels, or one tuple of levels per column. */
  datatype Header = Flat(names: seq<string>) | Levels(tuples: seq<seq<string>>)

  /** A downloaded table: its column labels, the name of its index and its rows. */
  datatype Download = Download(header: Header, indexName: Option<string>, records: seq<Record>)

  function Width(h: Header): nat {
    match h
    case Flat(names) => |names|
    case Levels(tuples) => |tuples|
  }

  /** A download is a proper table: every row has one cell per column and every label tuple has a first level. */
  predicate Shaped(d: Download) {
    Rectangular(d.records, Width(d.header))
    && (d.header.Levels? ==> forall i :: 0 <= i < |d.header.tuples| ==> |d.header.tuples[i]| > 0)
  }

  /** `[col[0] for col in df.columns]` on tuple labels; plain labels are kept. */
  function FlatLabels(h: Header): (r: seq<string>)
    requires h.Levels? ==> forall i :: 0 <= i < |h.tuples| ==> |h.tuples[i]| > 0
    ensures |r| == Width(h)
    ensures h.Flat? ==> r == h.names
    ensures h.Levels? ==> forall i :: 0 <= i < |r| ==> r[i] == h.tuples[i][0]
  {
    match h
    case Flat(names) => names
    case Levels(tuples) => seq(|tuples|, i requires 0 <= i < |tuples| => tuples[i][0])
  }

  /** The downloads the loader is specified for: flattening leaves no two columns with the same label. */
  predicate Loadable(d: Download) {
    Shaped(d) && Distinct(FlatLabels(d.header))
  }

  /** `df.empty`: no rows or no columns. */
  predicate Empty(d: Download) {
    |d.records| == 0 || Width(d.header) == 0
  }

  const Loaded: seq<string> := ["Date", "Close", "Volume"]

  /**
   * The specification of the post-download part of `fetch_stock_data`: a
   * ValueError for an empty download; otherwise the index joins the columns
   * (a ValueError when a column already has its name) and the table is
   * projected to Date, Close and Volume (a KeyError naming those absent).
   */
  function Fetch(ticker: string, d: Download): (r: Result<Table, Error>)
    requires Loadable(d)
    ensures r.Err? && r.error.NoData? <==> Empty(d)
    ensures r.Ok? ==> WellFormed(r.value) && r.value.columns == Loaded && |r.value.records| == |d.records|
  {
    if Empty(d) then Err(NoData(ticker))
    else
      match InsertIndex(Table(FlatLabels(d.header), d.indexName, d.records))
      case Err(e) => Err(e)
      case Ok(t) => Select(t, Loaded)
  }

  /**
   * `fetch_stock_data` after the download: the labels are flattened as the
   * frame is made from the download, the frame is re-indexed in place, then
   * projected.
   */
  method FetchStockData(ticker: string, d: Download) returns (r: Result<Table, Error>)
    requires Loadable(d)
    ensures r == Fetch(ticker, d)
  {
    if |d.records| == 0 || Width(d.header) == 0 {
      return Err(NoData(ticker));
    }
    var frame := new Frame.Copy(Table(FlatLabels(d.header), d.indexName, d.records));
    var err := frame.ResetIndex();
    if err.Some? {
      return Err(err.value);
    }
    r := Select(frame.Value(), Loaded);
  }

  /**
   * For a download indexed by Date that has Close and Volume columns (what
   * the price service delivers), each row of the result is that row's date,
   * close and volume, numbered 0..n-1 in download order.
   */
  lemma FetchedRows(ticker: string, d: Download, close: nat, volume: nat)
    requires Loadable(d) && !Empty(d) && d.indexName == Some("Date")
    requires "Date" !in FlatLabels(d.header)
    requires close < Width(d.header) && FlatLabels(d.header)[close] == "Close"
    requires volume < Width(d.header) && FlatLabels(d.header)[volume] == "Volume"
    ensures Fetch(ticker, d).Ok?
    ensures var t := Fetch(ticker, d).value;
      forall k :: 0 <= k < |d.records| ==>
        t.records[k] == Record(Num(k as real), [d.records[k].index, d.records[k].cells[close], d.records[k].cells[volume]])
  {
    var w := Table(FlatLabels(d.header), d.indexName, d.records);
    assert WellFormed(w) && w.columns[close] == "Close" && w.columns[volume] == "Volume";
    IndexedProjection(w, close, volume);
    assert Fetch(ticker, d) == Ok(Projection(InsertIndex(w).value, Loaded));
  }

  /** A table indexed by Date with Close and Volume columns: its index joins the columns and the projection keeps, row by row, date, close and volume. */
  lemma IndexedProjection(w: Table, close: nat, volume: nat)
    requires WellFormed(w) && w.indexName == Some("Date") && "Date" !in w.columns
    requires close < |w.columns| && w.columns[close] == "Close" && volume < |w.columns| && w.columns[volume] == "Volume"
    ensures InsertIndex(w).Ok? && forall n :: n in Loaded ==> n in InsertIndex(w).value.columns
    ensures forall k :: 0 <= k < |w.records| ==>
              Projection(InsertIndex(w).value, Loaded).records[k]
                == Record(Num(k as real), [w.records[k].index, w.records[k].cells[close], w.records[k].cells[volume]])
  {
    var u := InsertIndex(w).value;
    assert u.columns[0] == "Date" && u.columns[close + 1] == "Close" && u.columns[volume + 1] == "Volume";
    assert forall n :: n in Loaded ==> n in u.columns;
    forall k | 0 <= k < |w.records|
      ensures Projection(u, Loaded).records[k]
                == Record(Num(k as real), [w.records[k].index, w.records[k].cells[close], w.records[k].cells[volume]])
    {
      IndexedRow(w, u, k, close, volume);
    }
  }

  /** Row k of the projection of the indexed table. */
  lemma IndexedRow(w: Table, u: Table, k: nat, close: nat, volume: nat)
    requires WellFormed(w) && k < |w.records| && close < |w.columns| && volume < |w.columns|
    requires InsertIndex(w) == Ok(u)
    requires u.columns[0] == "Date" && u.columns[close + 1] == "Close" && u.columns[volume + 1] == "Volume"
    ensures forall n :: n in Loaded ==> n in u.columns
    ensures Projection(u, Loaded).records[k]
              == Record(Num(k as real), [w.records[k].index, w.records[k].cells[close], w.records[k].cells[volume]])
  {
    var source := w.records[k];
    assert source in w.records;
    assert u.records[k] == Record(Num(k as real), [source.index] + source.cells);
    ProjectedRow(u, Projection(u, Loaded), k, close + 1, volume + 1);
    Shifted(source.index, source.cells, close, volume);
  }

  /** Cell i of a row is cell i + 1 once its index label is put in front. */
  lemma Shifted(first: Cell, cells: seq<Cell>, close: nat, volume: nat)
    requires close < |cells| && volume < |cells|
    ensures var row := [first] + cells;
      row[0] == first && row[close + 1] == cells[close] && row[volume + 1] == cells[volume]
  {
  }

  lemma ProjectedRow(u: Table, t: Table, k: nat, close: nat, volume: nat)
    requires WellFormed(u) && k < |u.records|
    requires |u.columns| > 0 && u.columns[0] == "Date"
    requires close < |u.columns| && u.columns[close] == "Close" && volume < |u.columns| && u.columns[volume] == "Volume"
    requires t == Projection(u, Loaded)
    ensures t.records[k] == Record(u.records[k].index, [u.records[k].cells[0], u.records[k].cells[close], u.records[k].cells[volume]])
  {
    CellAt(u, k, 0);
    CellAt(u, k, close);
    CellAt(u, k, volume);
    assert t.records[k] in t.records;
  }

  // ---------------------------------------------------------------------------
  // simulate_cash_inflow
  // ---------------------------------------------------------------------------

  /**
   * `simulate_cash_inflow`: a KeyError when Close or Volume is absent, a
   * TypeError when either holds something other than numbers and missing
   * values; otherwise the table with CashInflow = Close * Volume, row by row,
   * and everything else as it was.
   */
  function CashInflow(t: Table): (r: Result<Table, Error>)
    requires WellFormed(t)
    ensures r.Err? <==> "Close" !in t.columns || "Volume" !in t.columns
                        || (exists k :: 0 <= k < |t.records| && !IsNumeric(CellOf(t, k, "Close")))
                        || (exists k :: 0 <= k < |t.records| && !IsNumeric(CellOf(t, k, "Volume")))
    ensures r.Err? && ("Close" !in t.columns || "Volume" !in t.columns) ==> r.error == MissingColumns(["Close", "Volume"])
    ensures r.Ok? ==> WellFormed(r.value) && r.value.indexName == t.indexName
    ensures r.Ok? ==> r.value.columns == if "CashInflow" in t.columns then t.columns else t.columns + ["CashInflow"]
    ensures r.Ok? ==> |r.value.records| == |t.records|
    ensures r.Ok? ==> forall k :: 0 <= k < |t.records| ==> r.value.records[k].index == t.records[k].index
    ensures r.Ok? ==> forall k, j :: 0 <= k < |t.records| && 0 <= j < |t.columns| && t.columns[j] != "CashInflow" ==>
                        r.value.records[k].cells[j] == t.records[k].cells[j]
  {
    if "Close" !in t.columns || "Volume" !in t.columns then Err(MissingColumns(["Close", "Volume"]))
    else
      match NumericColumn(t, "Close")
      case Err(e) => Err(e)
      case Ok(close) =>
        match NumericColumn(t, "Volume")
        case Err(e) => Err(e)
        case Ok(volume) => Ok(Assign(t, "CashInflow", Products(close, volume)))
  }

  /** `close * volume` on two numeric columns of the same length, row by row. */
  function Products(close: seq<Cell>, volume: seq<Cell>): (r: seq<Cell>)
    requires |close| == |volume|
    requires forall k :: 0 <= k < |close| ==> IsNumeric(close[k]) && IsNumeric(volume[k])
    ensures |r| == |close|
  {
    seq(|close|, k requires 0 <= k < |close| => Times(close[k], volume[k]))
  }

  /**
   * Each row's CashInflow is its Close times its Volume, and missing when
   * either is missing; so a positive close and a positive volume give a
   * positive inflow.
   */
  lemma InflowIsProduct(t: Table, k: nat)
    requires WellFormed(t) && CashInflow(t).Ok? && k < |t.records|
    ensures var r := CashInflow(t).value;
      var inflow, close, volume := CellOf(r, k, "CashInflow"), CellOf(t, k, "Close"), CellOf(t, k, "Volume");
      && (inflow.Num? <==> close.Num? && volume.Num?)
      && (inflow.Num? ==> inflow.x == Mul(close.x, volume.x))
      && (close.Num? && volume.Num? && close.x > 0.0 && volume.x > 0.0 ==> inflow.Num? && inflow.x > 0.0)
  {
    var close, volume := NumericColumn(t, "Close").value, NumericColumn(t, "Volume").value;
    var products := Products(close, volume);
    assert CashInflow(t).value == Assign(t, "CashInflow", products);
    assert products[k] == Times(close[k], volume[k]);
    AssignedCell(t, "CashInflow", products, k, "CashInflow");
    if close[k].Num? && volume[k].Num? && close[k].x > 0.0 && volume[k].x > 0.0 {
      MulPositive(close[k].x, volume[k].x);
    }
  }
}
