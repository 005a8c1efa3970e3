/**
 * `compute_aging_buckets`: a simulated split of each day's cash inflow into
 * four receivable-aging buckets, collected within 0-30, 31-60 and 61-90 days
 * and after 90 days, at the fixed shares 70%, 20%, 7% and 3%.
 */
module ArAging {
  import opened Wrappers
  import opened Tables

  const Inflow := "CashInflow"

  const Bucket0To30 := "bucket_0_30"
  const Bucket31To60 := "bucket_31_60"
  const Bucket61To90 := "bucket_61_90"
  const Bucket91Plus := "bucket_91_plus"

  const Buckets: seq<string> := [Bucket0To30, Bucket31To60, Bucket61To90, Bucket91Plus]

  /** The share of the inflow each bucket receives, in the order of Buckets. */
  const Shares: seq<real> := [0.70, 0.20, 0.07, 0.03]

  /** `cell * share`: a missing inflow gives a missing bucket. */
  function Portion(c: Cell, share: real): Cell
    requires IsNumeric(c)
  {
    if c.Num? then Num(c.x * share) else NA
  }

  function Portions(cells: seq<Cell>, share: real): (r: seq<Cell>)
    requires forall k :: 0 <= k < |cells| ==> IsNumeric(cells[k])
    ensures |r| == |cells| && forall k :: 0 <= k < |cells| ==> r[k] == Portion(cells[k], share)
  {
    seq(|cells|, k requires 0 <= k < |cells| => Portion(cells[k], share))
  }

  /** The four bucket columns of an inflow column, in the order of Buckets. */
  function BucketValues(cells: seq<Cell>): (r: seq<seq<Cell>>)
    requires forall k :: 0 <= k < |cells| ==> IsNumeric(cells[k])
    ensures |r| == 4 && forall i :: 0 <= i < 4 ==> |r[i]| == |cells|
    ensures forall i :: 0 <= i < 4 ==> r[i] == Portions(cells, Shares[i])
  {
    [Portions(cells, 0.70), Portions(cells, 0.20), Portions(cells, 0.07), Portions(cells, 0.03)]
  }

  /**
   * `compute_aging_buckets(df)`: a copy of the table with the four bucket
   * columns assigned in order; a KeyError when there is no CashInflow column
   * and a TypeError when it holds something other than numbers.  Rows, their
   * order and labels, and every column that is not a bucket are unchanged.
   */
  function ComputeAgingBuckets(t: Table): (r: Result<Table, Error>)
    requires WellFormed(t)
    ensures r.Err? <==> Inflow !in t.columns || exists k :: 0 <= k < |t.records| && !IsNumeric(CellOf(t, k, Inflow))
    ensures r.Err? && Inflow !in t.columns ==> r.error == KeyError([Inflow])
    ensures r.Ok? ==> WellFormed(r.value) && r.value.indexName == t.indexName && |r.value.records| == |t.records|
    ensures r.Ok? ==> r.value.columns == AddedAll(t.columns, Buckets)
    ensures r.Ok? ==> forall k :: 0 <= k < |t.records| ==> r.value.records[k].index == t.records[k].index
    ensures r.Ok? ==> forall k, name :: 0 <= k < |t.records| && name !in Buckets ==> CellOf(r.value, k, name) == CellOf(t, k, name)
  {
    match NumericColumn(t, Inflow)
    case Err(e) => Err(e)
    case Ok(cells) =>
      var r := AssignAll(t, Buckets, BucketValues(cells));
      assert forall k, name :: 0 <= k < |t.records| && name !in Buckets ==> CellOf(r, k, name) == CellOf(t, k, name) by {
        forall k, name | 0 <= k < |t.records| && name !in Buckets ensures CellOf(r, k, name) == CellOf(t, k, name) {
          AssignAllOther(t, Buckets, BucketValues(cells), k, name);
        }
      }
      Ok(r)
  }

  /** Row k of the result: bucket i holds Shares[i] of the row's inflow, and is missing when the inflow is missing. */
  lemma BucketCells(t: Table, k: nat)
    requires WellFormed(t) && ComputeAgingBuckets(t).Ok? && k < |t.records|
    ensures forall i :: 0 <= i < 4 ==> CellOf(ComputeAgingBuckets(t).value, k, Buckets[i]) == Portion(CellOf(t, k, Inflow), Shares[i])
  {
    var cells := NumericColumn(t, Inflow).value;
    var x := CellOf(t, k, Inflow);
    assert x == cells[k];
    var values := BucketValues(cells);
    var r := AssignAll(t, Buckets, values);
    assert ComputeAgingBuckets(t).value == r;
    BucketsAssigned(t, values, k);
    forall i | 0 <= i < 4 ensures CellOf(r, k, Buckets[i]) == Portion(x, Shares[i]) {
      assert values[i] == Portions(cells, Shares[i]);
    }
  }

  /** Assigning the four bucket columns in turn leaves bucket i holding values[i]. */
  lemma BucketsAssigned(t: Table, values: seq<seq<Cell>>, k: nat)
    requires WellFormed(t) && |values| == 4 && k < |t.records|
    requires forall i :: 0 <= i < 4 ==> |values[i]| == |t.records|
    ensures forall i :: 0 <= i < 4 ==> CellOf(AssignAll(t, Buckets, values), k, Buckets[i]) == values[i][k]
  {
    assert Distinct(Buckets);
    forall i | 0 <= i < 4 ensures CellOf(AssignAll(t, Buckets, values), k, Buckets[i]) == values[i][k] {
      AssignAllNamed(t, Buckets, values, k, i);
    }
  }

  /** The four bucket cells of row k, named. */
  lemma BucketsOfRow(t: Table, k: nat)
    requires WellFormed(t) && ComputeAgingBuckets(t).Ok? && k < |t.records|
    ensures var r, x := ComputeAgingBuckets(t).value, CellOf(t, k, Inflow);
      && CellOf(r, k, Bucket0To30) == Portion(x, 0.70)
      && CellOf(r, k, Bucket31To60) == Portion(x, 0.20)
      && CellOf(r, k, Bucket61To90) == Portion(x, 0.07)
      && CellOf(r, k, Bucket91Plus) == Portion(x, 0.03)
  {
    BucketCells(t, k);
    assert Buckets[0] == Bucket0To30 && Buckets[1] == Bucket31To60 && Buckets[2] == Bucket61To90 && Buckets[3] == Bucket91Plus;
  }

  /** The shares add up to one, so the four buckets of a row add up to its inflow. */
  lemma BucketsSum(t: Table, k: nat)
    requires WellFormed(t) && ComputeAgingBuckets(t).Ok? && k < |t.records|
    requires CellOf(t, k, Inflow).Num?
    ensures var r := ComputeAgingBuckets(t).value;
      && CellOf(r, k, Bucket0To30).Num? && CellOf(r, k, Bucket31To60).Num?
      && CellOf(r, k, Bucket61To90).Num? && CellOf(r, k, Bucket91Plus).Num?
      && CellOf(r, k, Bucket0To30).x + CellOf(r, k, Bucket31To60).x + CellOf(r, k, Bucket61To90).x + CellOf(r, k, Bucket91Plus).x
         == CellOf(t, k, Inflow).x
  {
    BucketsOfRow(t, k);
  }

  /** A non-negative inflow gives non-negative buckets, each at least as large as the next. */
  lemma BucketsOrdered(t: Table, k: nat)
    requires WellFormed(t) && ComputeAgingBuckets(t).Ok? && k < |t.records|
    requires CellOf(t, k, Inflow).Num? && CellOf(t, k, Inflow).x >= 0.0
    ensures var r := ComputeAgingBuckets(t).value;
      && CellOf(r, k, Bucket0To30).Num? && CellOf(r, k, Bucket31To60).Num?
      && CellOf(r, k, Bucket61To90).Num? && CellOf(r, k, Bucket91Plus).Num?
      && CellOf(r, k, Bucket0To30).x >= CellOf(r, k, Bucket31To60).x >= CellOf(r, k, Bucket61To90).x
         >= CellOf(r, k, Bucket91Plus).x >= 0.0
  {
    BucketsOfRow(t, k);
  }

  /** A missing inflow leaves all four buckets of its row missing. */
  lemma MissingInflow(t: Table, k: nat)
    requires WellFormed(t) && ComputeAgingBuckets(t).Ok? && k < |t.records|
    requires CellOf(t, k, Inflow).NA?
    ensures forall i :: 0 <= i < 4 ==> CellOf(ComputeAgingBuckets(t).value, k, Buckets[i]).NA?
  {
    BucketCells(t, k);
  }
}
