/**
 * The two outlier rules of the anomaly step.  Each reads one column, adds
 * its own flag column (and, for the Z-score rule, the scores) to a copy of
 * the table, and leaves every other column and the rows as they were.
 *
 * - IQR rule: a number is an outlier when it lies strictly below
 *   Q1 - 1.5 IQR or strictly above Q3 + 1.5 IQR, where Q1 and Q3 are the
 *   0.25 and 0.75 quantiles (pandas' linear interpolation) and IQR = Q3 - Q1.
 * - Z-score rule: a number x is an outlier when |x - mean| / std exceeds the
 *   threshold, std being the sample standard deviation.
 *
 * Missing cells are skipped by the statistics and are never flagged, like
 * NaN, which compares false with everything.
 */
module OutlierDetector {
  import opened Wrappers
  import opened Tables
  import opened Reals

  const IqrColumn := "Outlier_IQR"
  const ScoreColumn := "Z_score"
  const ZColumn := "Outlier_Z"

  /** The numbers of a column in row order; missing cells are skipped, as pandas does by default. */
  function Values(cells: seq<Cell>): (r: seq<real>)
    ensures |r| <= |cells|
    ensures forall x :: x in r <==> Num(x) in cells
  {
    if |cells| == 0 then []
    else
      assert cells == [cells[0]] + cells[1..];
      (if cells[0].Num? then [cells[0].x] else []) + Values(cells[1..])
  }

  // ---------------------------------------------------------------------------
  // Quantiles (outlier_detector.py:17-18)
  // ---------------------------------------------------------------------------

  predicate Ascending(s: seq<real>) {
    forall i, j :: 0 <= i < j < |s| ==> s[i] <= s[j]
  }

  function Id(x: real): real {
    x
  }

  /** The numbers in ascending order. */
  function Sorted(values: seq<real>): (r: seq<real>)
    ensures Ascending(r) && multiset(r) == multiset(values)
  {
    var r := SortBy(values, Id);
    assert forall i, j :: 0 <= i < j < |r| ==> Id(r[i]) <= Id(r[j]);
    r
  }

  /**
   * Where the q-quantile of n sorted numbers falls: the position (n - 1) q,
   * split into a whole index and a fraction.
   */
  function Rank(n: nat, q: real): (r: (nat, real))
    requires n > 0 && 0.0 <= q <= 1.0
    ensures r.0 < n && 0.0 <= r.1 < 1.0
    ensures r.0 as real + r.1 == Mul(q, (n - 1) as real)
  {
    var h := Mul(q, (n - 1) as real);
    MulNonNegative(q, (n - 1) as real);
    MulAtMost(q, (n - 1) as real);
    (h.Floor, h - h.Floor as real)
  }

  /**
   * pandas' linear interpolation on sorted numbers: the number at the whole
   * index, moved the fraction of the way towards the next one.  The result
   * lies between those two neighbours.
   */
  function Interpolate(s: seq<real>, q: real): (r: real)
    requires |s| > 0 && 0.0 <= q <= 1.0 && Ascending(s)
    ensures var i := Rank(|s|, q).0; s[i] <= r && (if i + 1 < |s| then r <= s[i + 1] else r == s[i])
  {
    var (i, f) := Rank(|s|, q);
    if i + 1 < |s| then
      MulNonNegative(f, s[i + 1] - s[i]);
      MulAtMost(f, s[i + 1] - s[i]);
      s[i] + Mul(f, s[i + 1] - s[i])
    else s[i]
  }

  /**
   * `Series.quantile(q)`: undefined (NaN) when the column has no numbers,
   * otherwise a value between the smallest and the largest of them.
   */
  function Quantile(values: seq<real>, q: real): (r: Option<real>)
    requires 0.0 <= q <= 1.0
    ensures r.None? <==> |values| == 0
    ensures r.Some? ==> (exists x :: x in values && x <= r.value) && (exists x :: x in values && r.value <= x)
  {
    if |values| == 0 then None
    else
      var s := Sorted(values);
      var i := Rank(|s|, q).0;
      SortedMember(values, s, i);
      SortedMember(values, s, if i + 1 < |s| then i + 1 else i);
      Some(Interpolate(s, q))
  }

  lemma SortedMember(values: seq<real>, s: seq<real>, i: nat)
    requires multiset(s) == multiset(values) && i < |s|
    ensures s[i] in values
  {
    assert s[i] in multiset(values);
  }

  /** A larger q never gives a smaller quantile; in particular Q1 <= Q3. */
  lemma QuantileMonotone(values: seq<real>, q: real, q': real)
    requires 0.0 <= q <= q' <= 1.0 && |values| > 0
    ensures Quantile(values, q).value <= Quantile(values, q').value
  {
    var s := Sorted(values);
    var n := |s|;
    var (i, f) := Rank(n, q);
    var (i', f') := Rank(n, q');
    MulMonotone(q, q', (n - 1) as real);
    if i == i' {
      if i + 1 < n {
        MulMonotone(f, f', s[i + 1] - s[i]);
      }
    } else {
      assert i < i';
      assert Interpolate(s, q) <= s[i + 1] <= s[i'] <= Interpolate(s, q');
    }
  }

  /** The 0-quantile is the smallest number and the 1-quantile the largest. */
  lemma QuantileExtremes(values: seq<real>)
    requires |values| > 0
    ensures forall x :: x in values ==> Quantile(values, 0.0).value <= x <= Quantile(values, 1.0).value
  {
    var s := Sorted(values);
    var n := |s|;
    MulZero((n - 1) as real);
    assert Rank(n, 0.0).0 == 0;
    assert Rank(n, 1.0).0 == n - 1;
    forall x | x in values ensures s[0] <= x <= s[n - 1] {
      assert x in multiset(s);
    }
  }

  // ---------------------------------------------------------------------------
  // The IQR rule (outlier_detector.py:16-25)
  // ---------------------------------------------------------------------------

  datatype Fences = Fences(lower: real, upper: real)

  /**
   * The fences Q1 - 1.5 IQR and Q3 + 1.5 IQR, undefined when the column has
   * no numbers.  They always enclose [Q1, Q3].
   */
  function IqrFences(values: seq<real>): (r: Option<Fences>)
    ensures r.None? <==> |values| == 0
    ensures r.Some? ==> r.value.lower <= Quantile(values, 0.25).value <= Quantile(values, 0.75).value <= r.value.upper
  {
    if |values| == 0 then None
    else
      var q1, q3 := Quantile(values, 0.25).value, Quantile(values, 0.75).value;
      QuantileMonotone(values, 0.25, 0.75);
      Some(Fences(q1 - 1.5 * (q3 - q1), q3 + 1.5 * (q3 - q1)))
  }

  /** `(x < lower) | (x > upper)` on one cell: false for a missing cell or undefined fences. */
  predicate IqrOutlier(c: Cell, fences: Option<Fences>) {
    c.Num? && fences.Some? && (c.x < fences.value.lower || c.x > fences.value.upper)
  }

  /**
   * `detect_outliers_iqr(df, column)`: a copy of the table with the boolean
   * column Outlier_IQR; a KeyError or TypeError when the column is absent or
   * not numeric.
   */
  function DetectOutliersIqr(t: Table, column: string): (r: Result<Table, Error>)
    requires WellFormed(t)
    ensures r.Err? <==> column !in t.columns || exists k :: 0 <= k < |t.records| && !IsNumeric(CellOf(t, k, column))
    ensures r.Err? && column !in t.columns ==> r.error == KeyError([column])
    ensures r.Ok? ==> WellFormed(r.value) && r.value.indexName == t.indexName
    ensures r.Ok? ==> r.value.columns == Added(t.columns, IqrColumn) && |r.value.records| == |t.records|
    ensures r.Ok? ==> forall k :: 0 <= k < |t.records| ==> r.value.records[k].index == t.records[k].index
    ensures r.Ok? ==> forall k, j :: 0 <= k < |t.records| && 0 <= j < |t.columns| && t.columns[j] != IqrColumn ==>
                        r.value.records[k].cells[j] == t.records[k].cells[j]
  {
    match NumericColumn(t, column)
    case Err(e) => Err(e)
    case Ok(cells) =>
      var fences := IqrFences(Values(cells));
      Ok(Assign(t, IqrColumn, seq(|cells|, k requires 0 <= k < |cells| => Flag(IqrOutlier(cells[k], fences)))))
  }

  /** The numbers of the target column, when it is numeric. */
  function ColumnValues(t: Table, column: string): seq<real>
    requires WellFormed(t) && NumericColumn(t, column).Ok?
  {
    Values(NumericColumn(t, column).value)
  }

  /**
   * The rule on one cell: flagged exactly when the cell is a number lying
   * strictly below Q1 - 1.5 (Q3 - Q1) or strictly above Q3 + 1.5 (Q3 - Q1);
   * a number equal to a fence and a missing cell are not flagged.
   */
  lemma IqrRule(vs: seq<real>, x: Cell)
    ensures IqrOutlier(x, IqrFences(vs))
            <==> x.Num? && |vs| > 0 &&
                 var q1, q3 := Quantile(vs, 0.25).value, Quantile(vs, 0.75).value;
                 (x.x < q1 - 1.5 * (q3 - q1) || x.x > q3 + 1.5 * (q3 - q1))
  {
    if |vs| > 0 {
      var q1, q3 := Quantile(vs, 0.25).value, Quantile(vs, 0.75).value;
      assert IqrFences(vs).value == Fences(q1 - 1.5 * (q3 - q1), q3 + 1.5 * (q3 - q1));
    }
  }

  /** Row k of the result: Outlier_IQR holds the rule applied to the row's cell, with the column's fences. */
  lemma IqrFlagged(t: Table, column: string, k: nat)
    requires WellFormed(t) && DetectOutliersIqr(t, column).Ok? && k < |t.records|
    ensures CellOf(DetectOutliersIqr(t, column).value, k, IqrColumn)
            == Flag(IqrOutlier(CellOf(t, k, column), IqrFences(ColumnValues(t, column))))
  {
    var cells := NumericColumn(t, column).value;
    var fences := IqrFences(Values(cells));
    var flags := seq(|cells|, i requires 0 <= i < |cells| => Flag(IqrOutlier(cells[i], fences)));
    assert CellOf(t, k, column) == cells[k];
    assert DetectOutliersIqr(t, column).value == Assign(t, IqrColumn, flags);
    AssignedCell(t, IqrColumn, flags, k, IqrColumn);
  }

  /** No number between Q1 and Q3 (inclusive) is ever flagged. */
  lemma IqrInterquartile(t: Table, column: string, k: nat)
    requires WellFormed(t) && DetectOutliersIqr(t, column).Ok? && k < |t.records|
    requires var x, vs := CellOf(t, k, column), ColumnValues(t, column);
      x.Num? && |vs| > 0 && Quantile(vs, 0.25).value <= x.x <= Quantile(vs, 0.75).value
    ensures CellOf(DetectOutliersIqr(t, column).value, k, IqrColumn) == Flag(false)
  {
    IqrFlagged(t, column, k);
    IqrRule(ColumnValues(t, column), CellOf(t, k, column));
    QuantileMonotone(ColumnValues(t, column), 0.25, 0.75);
  }

  /** A column whose numbers are all the same has IQR 0 and no row flagged. */
  lemma IqrConstant(t: Table, column: string, c: real)
    requires WellFormed(t) && DetectOutliersIqr(t, column).Ok?
    requires forall k :: 0 <= k < |t.records| ==> CellOf(t, k, column) in {NA, Num(c)}
    ensures forall k :: 0 <= k < |t.records| ==> CellOf(DetectOutliersIqr(t, column).value, k, IqrColumn) == Flag(false)
  {
    var cells := NumericColumn(t, column).value;
    assert forall k :: 0 <= k < |cells| ==> cells[k] in {NA, Num(c)};
    ConstantValues(cells, c);
    forall k | 0 <= k < |t.records|
      ensures CellOf(DetectOutliersIqr(t, column).value, k, IqrColumn) == Flag(false)
    {
      IqrFlagged(t, column, k);
      ConstantNotFlagged(Values(cells), c, CellOf(t, k, column));
    }
  }

  /** The numbers of a column whose cells are all missing or c are all c. */
  lemma ConstantValues(cells: seq<Cell>, c: real)
    requires forall k :: 0 <= k < |cells| ==> cells[k] in {NA, Num(c)}
    ensures forall v :: v in Values(cells) ==> v == c
  {
    forall v | v in Values(cells) ensures v == c {
      var k :| 0 <= k < |cells| && cells[k] == Num(v);
    }
  }

  /** When every number is c, both quartiles are c, so neither c nor a missing cell is flagged. */
  lemma ConstantNotFlagged(vs: seq<real>, c: real, x: Cell)
    requires forall v :: v in vs ==> v == c
    requires x in {NA, Num(c)}
    ensures !IqrOutlier(x, IqrFences(vs))
  {
    if |vs| > 0 {
      assert Quantile(vs, 0.25).value == c;
      assert Quantile(vs, 0.75).value == c;
    }
  }

  /**
   * The flags depend only on the target column: running the rule on its own
   * output gives the same table, unless the target is Outlier_IQR itself.
   */
  lemma IqrIdempotent(t: Table, column: string)
    requires WellFormed(t) && DetectOutliersIqr(t, column).Ok? && column != IqrColumn
    ensures DetectOutliersIqr(DetectOutliersIqr(t, column).value, column) == DetectOutliersIqr(t, column)
  {
    var cells := NumericColumn(t, column).value;
    var flags := seq(|cells|, k requires 0 <= k < |cells| => Flag(IqrOutlier(cells[k], IqrFences(Values(cells)))));
    var r := Assign(t, IqrColumn, flags);
    forall k | 0 <= k < |t.records| ensures CellOf(r, k, column) == CellOf(t, k, column) {
      AssignedCell(t, IqrColumn, flags, k, column);
    }
    var again := NumericColumn(r, column);
    assert column in r.columns;
    assert again.Ok?;
    assert again.value == cells;
    AssignTwice(t, IqrColumn, flags);
  }

  // ---------------------------------------------------------------------------
  // The Z-score rule (outlier_detector.py:41-47)
  // ---------------------------------------------------------------------------

  /** `Series.mean()`: undefined (NaN) when there are no numbers. */
  function Mean(values: seq<real>): (r: Option<real>)
    ensures r.None? <==> |values| == 0
  {
    if |values| == 0 then None else Some(Sum(values) / |values| as real)
  }

  function SquaredDeviation(m: real): real -> real {
    x => Square(x - m)
  }

  /**
   * The square of `Series.std()`: the sample variance, with n - 1 in the
   * denominator, undefined (NaN) for fewer than two numbers.
   */
  function Variance(values: seq<real>): (r: Option<real>)
    ensures r.None? <==> |values| < 2
    ensures r.Some? ==> r.value >= 0.0
    ensures r.Some? ==> (r.value == 0.0 <==> forall x :: x in values ==> x == Mean(values).value)
  {
    if |values| < 2 then None
    else
      var m := Mean(values).value;
      var deviations := Map(values, SquaredDeviation(m));
      forall i | 0 <= i < |values| ensures deviations[i] >= 0.0 && (deviations[i] == 0.0 <==> values[i] == m) {
        SquareSign(values[i] - m);
      }
      SumNonNegative(deviations);
      DivNonNegative(Sum(deviations), (|values| - 1) as real);
      assert (forall i :: 0 <= i < |values| ==> deviations[i] == 0.0) <==> (forall x :: x in values ==> x == m) by {
        if forall x :: x in values ==> x == m {
          forall i | 0 <= i < |values| ensures deviations[i] == 0.0 {
            assert values[i] in values;
          }
        }
        if forall i :: 0 <= i < |values| ==> deviations[i] == 0.0 {
          forall x | x in values ensures x == m {
            var i :| 0 <= i < |values| && values[i] == x;
          }
        }
      }
      Some(Sum(deviations) / (|values| - 1) as real)
  }

  /** The standard deviation, sqrt standing for `np.sqrt`. */
  function Deviation(values: seq<real>, sqrt: real -> real): Option<real> {
    match Variance(values)
    case None => None
    case Some(v) => Some(sqrt(v))
  }

  /** `(x - mean) / std` on one cell: missing when the cell is missing or a statistic is undefined or zero. */
  function ZScore(c: Cell, mean: Option<real>, std: Option<real>): Cell {
    if c.Num? && mean.Some? && std.Some? && std.value != 0.0 then Num((c.x - mean.value) / std.value) else NA
  }

  /** `z.abs() > threshold` on one cell: false for a missing score. */
  predicate ZOutlier(z: Cell, threshold: real) {
    z.Num? && Abs(z.x) > threshold
  }

  /** The Z_score column of a numeric column. */
  function Scores(cells: seq<Cell>, sqrt: real -> real): (r: seq<Cell>)
    ensures |r| == |cells|
  {
    var values := Values(cells);
    seq(|cells|, k requires 0 <= k < |cells| => ZScore(cells[k], Mean(values), Deviation(values, sqrt)))
  }

  /**
   * `detect_outliers_zscore(df, column, threshold)`: a copy of the table with
   * Z_score and then Outlier_Z assigned; a KeyError or TypeError when the
   * column is absent or not numeric.
   */
  function DetectOutliersZscore(t: Table, column: string, threshold: real, sqrt: real -> real): (r: Result<Table, Error>)
    requires WellFormed(t)
    ensures r.Err? <==> column !in t.columns || exists k :: 0 <= k < |t.records| && !IsNumeric(CellOf(t, k, column))
    ensures r.Err? && column !in t.columns ==> r.error == KeyError([column])
    ensures r.Ok? ==> WellFormed(r.value) && r.value.indexName == t.indexName
    ensures r.Ok? ==> r.value.columns == Added(Added(t.columns, ScoreColumn), ZColumn) && |r.value.records| == |t.records|
    ensures r.Ok? ==> forall k :: 0 <= k < |t.records| ==> r.value.records[k].index == t.records[k].index
    ensures r.Ok? ==> forall k, j :: 0 <= k < |t.records| && 0 <= j < |t.columns| && t.columns[j] != ScoreColumn && t.columns[j] != ZColumn ==>
                        r.value.records[k].cells[j] == t.records[k].cells[j]
  {
    match NumericColumn(t, column)
    case Err(e) => Err(e)
    case Ok(cells) => Ok(WithScores(t, Scores(cells, sqrt), threshold))
  }

  /** The table with Z_score set to the scores z and then Outlier_Z set to their test against the threshold. */
  function WithScores(t: Table, z: seq<Cell>, threshold: real): (r: Table)
    requires WellFormed(t) && |z| == |t.records|
    ensures WellFormed(r) && r.indexName == t.indexName
    ensures r.columns == Added(Added(t.columns, ScoreColumn), ZColumn) && |r.records| == |t.records|
    ensures forall k :: 0 <= k < |t.records| ==> r.records[k].index == t.records[k].index
    ensures forall k, j :: 0 <= k < |t.records| && 0 <= j < |t.columns| && t.columns[j] != ScoreColumn && t.columns[j] != ZColumn ==>
              r.records[k].cells[j] == t.records[k].cells[j]
  {
    var scored := Assign(t, ScoreColumn, z);
    assert forall j :: 0 <= j < |t.columns| ==> scored.columns[j] == t.columns[j];
    Assign(scored, ZColumn, seq(|z|, k requires 0 <= k < |z| => Flag(ZOutlier(z[k], threshold))))
  }

  /** The score of row k: `(df[column] - mean) / std` at that row. */
  function RowScore(t: Table, column: string, sqrt: real -> real, k: nat): Cell
    requires WellFormed(t) && NumericColumn(t, column).Ok? && k < |t.records|
  {
    var vs := ColumnValues(t, column);
    ZScore(CellOf(t, k, column), Mean(vs), Deviation(vs, sqrt))
  }

  /** The cells Z_score and Outlier_Z hold for row k. */
  lemma ZCells(t: Table, column: string, threshold: real, sqrt: real -> real, k: nat)
    requires WellFormed(t) && DetectOutliersZscore(t, column, threshold, sqrt).Ok? && k < |t.records|
    ensures var r, z := DetectOutliersZscore(t, column, threshold, sqrt).value, RowScore(t, column, sqrt, k);
      CellOf(r, k, ScoreColumn) == z && CellOf(r, k, ZColumn) == Flag(ZOutlier(z, threshold))
  {
    var cells := NumericColumn(t, column).value;
    var z := Scores(cells, sqrt);
    assert z[k] == RowScore(t, column, sqrt, k);
    assert DetectOutliersZscore(t, column, threshold, sqrt).value == WithScores(t, z, threshold);
    var scored := Assign(t, ScoreColumn, z);
    var flags := seq(|z|, i requires 0 <= i < |z| => Flag(ZOutlier(z[i], threshold)));
    assert WithScores(t, z, threshold) == Assign(scored, ZColumn, flags);
    AssignedCell(t, ScoreColumn, z, k, ScoreColumn);
    AssignedCell(scored, ZColumn, flags, k, ScoreColumn);
    AssignedCell(scored, ZColumn, flags, k, ZColumn);
  }

  /** A number in the column is among the numbers the statistics are taken over. */
  lemma Listed(t: Table, column: string, k: nat)
    requires WellFormed(t) && NumericColumn(t, column).Ok? && k < |t.records|
    ensures CellOf(t, k, column).Num? ==> CellOf(t, k, column).x in ColumnValues(t, column)
  {
    assert CellOf(t, k, column) == NumericColumn(t, column).value[k];
  }

  /**
   * The Z-score test without the square root, for one number x of the
   * column: when sqrt returns the root of the variance and the threshold is
   * not negative, x is flagged exactly when it has at least one other number
   * beside it and (x - mean)^2 > threshold^2 * variance.
   */
  lemma ZTest(vs: seq<real>, c: Cell, threshold: real, sqrt: real -> real)
    requires c.Num? ==> c.x in vs
    requires threshold >= 0.0
    requires |vs| >= 2 ==> RootOf(sqrt(Variance(vs).value), Variance(vs).value)
    ensures ZOutlier(ZScore(c, Mean(vs), Deviation(vs, sqrt)), threshold)
            <==> c.Num? && |vs| >= 2 && Square(c.x - Mean(vs).value) > Mul(Square(threshold), Variance(vs).value)
  {
    if c.Num? && |vs| >= 2 {
      var x := c.x;
      var m, v := Mean(vs).value, Variance(vs).value;
      var std := sqrt(v);
      SquareSign(std);
      if v == 0.0 {
        SquareSign(x - m);
        MulZero(Square(threshold));
      } else {
        SquaredTest(x - m, std, v, threshold);
      }
    }
  }

  /**
   * Row k's score passes the threshold exactly when its number x satisfies
   * the squared test above; a missing cell never does.  ZCells puts this
   * flag in the Outlier_Z column.
   */
  lemma ZFlagged(t: Table, column: string, threshold: real, sqrt: real -> real, k: nat)
    requires WellFormed(t) && NumericColumn(t, column).Ok? && k < |t.records|
    requires threshold >= 0.0
    requires var vs := ColumnValues(t, column); |vs| >= 2 ==> RootOf(sqrt(Variance(vs).value), Variance(vs).value)
    ensures var x, vs := CellOf(t, k, column), ColumnValues(t, column);
      (ZOutlier(RowScore(t, column, sqrt, k), threshold)
       <==> x.Num? && |vs| >= 2 && Square(x.x - Mean(vs).value) > Mul(Square(threshold), Variance(vs).value))
  {
    Listed(t, column, k);
    ZTest(ColumnValues(t, column), CellOf(t, k, column), threshold, sqrt);
  }

  /**
   * When every number of the column is c (and the square root of zero is
   * zero), every score is undefined: pandas computes 0/0, which is NaN.
   */
  lemma ConstantScores(cells: seq<Cell>, sqrt: real -> real, c: real)
    requires forall k :: 0 <= k < |cells| ==> cells[k] in {NA, Num(c)}
    requires RootOf(sqrt(0.0), 0.0)
    ensures forall k :: 0 <= k < |cells| ==> Scores(cells, sqrt)[k] == NA
  {
    var vs := Values(cells);
    assert forall x :: x in vs ==> x == c by {
      forall x | x in vs ensures x == c {
        var k :| 0 <= k < |cells| && cells[k] == Num(x);
      }
    }
    if |vs| >= 2 {
      forall i | 0 <= i < |vs| ensures vs[i] == c {
        assert vs[i] in vs;
      }
      SumConstant(vs, c);
      MulDiv(|vs| as real, c);
      assert Variance(vs).value == 0.0;
      RootOfZero(sqrt(0.0));
    }
  }

  /** A column whose numbers are all the same gets no Z-score outlier, and all its scores are missing. */
  lemma ZConstant(t: Table, column: string, threshold: real, sqrt: real -> real, c: real)
    requires WellFormed(t) && DetectOutliersZscore(t, column, threshold, sqrt).Ok?
    requires forall k :: 0 <= k < |t.records| ==> CellOf(t, k, column) in {NA, Num(c)}
    requires RootOf(sqrt(0.0), 0.0)
    ensures forall k :: 0 <= k < |t.records| ==>
              var r := DetectOutliersZscore(t, column, threshold, sqrt).value;
              CellOf(r, k, ScoreColumn) == NA && CellOf(r, k, ZColumn) == Flag(false)
  {
    ConstantScores(NumericColumn(t, column).value, sqrt, c);
    forall k | 0 <= k < |t.records|
      ensures var r := DetectOutliersZscore(t, column, threshold, sqrt).value;
              CellOf(r, k, ScoreColumn) == NA && CellOf(r, k, ZColumn) == Flag(false)
    {
      ZCells(t, column, threshold, sqrt, k);
    }
  }
}
