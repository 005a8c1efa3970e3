/**
 * A pandas DataFrame as a value.
 *
 * A table is an ordered list of distinct column labels, the name of its
 * index (if any), and one record per row.  A record carries the row's index
 * label and one cell per column.  The functions below are the handful of
 * DataFrame operations the pipeline uses, each as the value it produces:
 * column assignment, projection, renaming, row filtering, sorting and the
 * two forms of `reset_index`.
 */
module Tables {
  import opened Wrappers
  import opened Reals

  /** A cell: missing (NaN, NaT or None), a number, a string, a timestamp on an integer clock, or a boolean. */
  datatype Cell = NA | Num(x: real) | Text(s: string) | Stamp(t: int) | Flag(b: bool)

  /** A row: its index label and its cells, one per column. */
  datatype Record = Record(index: Cell, cells: seq<Cell>)

  datatype Table = Table(columns: seq<string>, indexName: Option<string>, records: seq<Record>)

  /** The exceptions pandas (and the pipeline) raise, by kind. */
  datatype Error =
    | KeyError(names: seq<string>)              // pandas: labels that are not columns
    | ValueError(reason: string)
    | TypeError(column: string)                 // arithmetic on a column that is not numeric
    | MissingRequired(available: seq<string>)   // the cleaner's own KeyError, listing the labels it saw
    | MissingColumns(required: seq<string>)     // a KeyError the pipeline raises itself, naming what it needs
    | NoData(ticker: string)                    // the loader's ValueError for an empty download

  predicate Distinct<T(==)>(s: seq<T>) {
    forall i, j :: 0 <= i < j < |s| ==> s[i] != s[j]
  }

  predicate Rectangular(rs: seq<Record>, width: nat) {
    forall rec :: rec in rs ==> |rec.cells| == width
  }

  /** Column labels are unique and every row has one cell per column. */
  predicate WellFormed(t: Table) {
    Distinct(t.columns) && Rectangular(t.records, |t.columns|)
  }

  /** A number or a missing value: the cells pandas arithmetic is defined on here. */
  predicate IsNumeric(c: Cell) {
    c.Num? || c.NA?
  }

  /** Element-wise `a * b` on numeric cells: a missing operand gives a missing result. */
  function Times(a: Cell, b: Cell): (r: Cell)
    requires IsNumeric(a) && IsNumeric(b)
    ensures r.Num? <==> a.Num? && b.Num?
    ensures r.Num? ==> r.x == Mul(a.x, b.x)
    ensures !r.Num? ==> r == NA
  {
    if a.Num? && b.Num? then Num(Mul(a.x, b.x)) else NA
  }

  /** Python's `next((x for x in s if p(x)), None)`, as a position: the first element satisfying p. */
  function FirstIndex<T>(s: seq<T>, p: T -> bool): (r: Option<nat>)
    ensures r.None? ==> forall i :: 0 <= i < |s| ==> !p(s[i])
    ensures r.Some? ==> r.value < |s| && p(s[r.value])
    ensures r.Some? ==> forall i :: 0 <= i < r.value ==> !p(s[i])
  {
    if |s| == 0 then None
    else if p(s[0]) then Some(0)
    else match FirstIndex(s[1..], p)
      case None => None
      case Some(k) => Some(k + 1)
  }

  /** The position of a column label. */
  function Position(names: seq<string>, name: string): (r: Option<nat>)
    ensures r.Some? <==> name in names
    ensures r.Some? ==> r.value < |names| && names[r.value] == name
  {
    FirstIndex(names, (n: string) => n == name)
  }

  lemma PositionOf(names: seq<string>, j: nat)
    requires Distinct(names) && j < |names|
    ensures Position(names, names[j]) == Some(j)
  {
  }

  /** The elements of s that satisfy keep, in their original order. */
  function Filter<T(!new)>(s: seq<T>, keep: T -> bool): (r: seq<T>)
    ensures |r| <= |s|
    ensures forall x :: x in r <==> x in s && keep(x)
  {
    if |s| == 0 then []
    else
      var init := s[..|s| - 1];
      assert s == init + [s[|s| - 1]];
      Filter(init, keep) + if keep(s[|s| - 1]) then [s[|s| - 1]] else []
  }

  /** Filtering a sequence extended by x: the filtered prefix, then x if it is kept. */
  lemma FilterSnoc<T(!new)>(s: seq<T>, x: T, keep: T -> bool)
    ensures Filter(s + [x], keep) == Filter(s, keep) + if keep(x) then [x] else []
  {
    assert (s + [x])[..|s|] == s;
  }

  /** Filtering a sequence of three elements, one element at a time. */
  lemma FilterThree<T(!new)>(a: T, b: T, c: T, keep: T -> bool)
    ensures Filter([a, b, c], keep)
            == (if keep(a) then [a] else []) + (if keep(b) then [b] else []) + (if keep(c) then [c] else [])
  {
    assert [a, b, c] == [] + [a] + [b] + [c];
    FilterSnoc([], a, keep);
    FilterSnoc([a], b, keep);
    FilterSnoc([a, b], c, keep);
  }

  /** Filtering keeps every copy of a kept element and no copy of a dropped one. */
  lemma {:induction false} FilterMultiplicity<T(!new)>(s: seq<T>, keep: T -> bool, x: T)
    ensures multiset(Filter(s, keep))[x] == if keep(x) then multiset(s)[x] else 0
  {
    if |s| > 0 {
      var init := s[..|s| - 1];
      assert s == init + [s[|s| - 1]];
      FilterMultiplicity(init, keep, x);
    }
  }

  lemma {:induction false} FilterAll<T(!new)>(s: seq<T>, keep: T -> bool)
    requires forall x :: x in s ==> keep(x)
    ensures Filter(s, keep) == s
  {
    if |s| > 0 {
      var init := s[..|s| - 1];
      assert s == init + [s[|s| - 1]];
      FilterAll(init, keep);
    }
  }

  lemma {:induction false} FilterNone<T(!new)>(s: seq<T>, keep: T -> bool)
    requires forall x :: x in s ==> !keep(x)
    ensures Filter(s, keep) == []
  {
    if |s| > 0 {
      var init := s[..|s| - 1];
      assert s == init + [s[|s| - 1]];
      FilterNone(init, keep);
    }
  }

  /** Two filters that never keep the same element keep, between them, what their disjunction keeps. */
  lemma {:induction false} FilterDisjoint<T(!new)>(s: seq<T>, p: T -> bool, q: T -> bool, pq: T -> bool)
    requires forall x :: x in s ==> !(p(x) && q(x)) && pq(x) == (p(x) || q(x))
    ensures |Filter(s, p)| + |Filter(s, q)| == |Filter(s, pq)|
  {
    if |s| > 0 {
      var init := s[..|s| - 1];
      assert s == init + [s[|s| - 1]];
      assert s[|s| - 1] in s;
      FilterDisjoint(init, p, q, pq);
    }
  }

  function Map<T, U>(s: seq<T>, f: T -> U): (r: seq<U>)
    ensures |r| == |s| && forall i :: 0 <= i < |s| ==> r[i] == f(s[i])
  {
    seq(|s|, i requires 0 <= i < |s| => f(s[i]))
  }

  /** Applying f to two orderings of the same elements gives two orderings of the same results. */
  lemma {:induction false} MapPermutation<T, U>(s: seq<T>, t: seq<T>, f: T -> U)
    requires multiset(s) == multiset(t)
    ensures multiset(Map(s, f)) == multiset(Map(t, f))
    decreases |s|
  {
    if |s| == 0 {
      assert |t| == |multiset(t)| == 0;
    } else {
      var x := s[0];
      assert x in multiset(t);
      var i :| 0 <= i < |t| && t[i] == x;
      var rest := t[..i] + t[i + 1..];
      RemoveAt(t, i);
      RemoveAt(s, 0);
      assert s[..0] + s[1..] == s[1..];
      MapPermutation(s[1..], rest, f);
      MapRemove(t, i, f);
      MapRemove(s, 0, f);
    }
  }

  /** Mapping a sequence gives the mapped sequence without element i, plus f of element i. */
  lemma MapRemove<T, U>(t: seq<T>, i: nat, f: T -> U)
    requires i < |t|
    ensures multiset(Map(t, f)) == multiset(Map(t[..i] + t[i + 1..], f)) + multiset{f(t[i])}
  {
    var a, m, b := Map(t[..i], f), Map([t[i]], f), Map(t[i + 1..], f);
    assert m == [f(t[i])];
    assert t == t[..i] + t[i..];
    assert t[i..] == [t[i]] + t[i + 1..];
    MapConcat(t[..i], t[i..], f);
    MapConcat([t[i]], t[i + 1..], f);
    MapConcat(t[..i], t[i + 1..], f);
    assert Map(t, f) == a + (m + b);
  }

  lemma RemoveAt<T>(t: seq<T>, i: nat)
    requires i < |t|
    ensures t == t[..i] + t[i..] && t[i..] == [t[i]] + t[i + 1..]
    ensures multiset(t[..i] + t[i + 1..]) == multiset(t) - multiset{t[i]}
  {
    assert t == t[..i] + [t[i]] + t[i + 1..];
  }

  lemma MapConcat<T, U>(a: seq<T>, b: seq<T>, f: T -> U)
    ensures Map(a + b, f) == Map(a, f) + Map(b, f)
  {
  }

  lemma {:induction false} FilterCongruent<T(!new)>(s: seq<T>, p: T -> bool, q: T -> bool)
    requires forall x :: x in s ==> p(x) == q(x)
    ensures Filter(s, p) == Filter(s, q)
  {
    if |s| > 0 {
      FilterCongruent(s[..|s| - 1], p, q);
    }
  }

  lemma {:induction false} FilterFilter<T(!new)>(s: seq<T>, p: T -> bool, q: T -> bool, pq: T -> bool)
    requires forall x :: x in s ==> pq(x) == (p(x) && q(x))
    ensures Filter(Filter(s, p), q) == Filter(s, pq)
  {
    if |s| > 0 {
      var init := s[..|s| - 1];
      FilterFilter(init, p, q, pq);
      var last := s[|s| - 1];
      var fp := Filter(init, p) + if p(last) then [last] else [];
      assert Filter(s, p) == fp;
      if p(last) {
        assert fp[..|fp| - 1] == Filter(init, p);
      } else {
        assert fp == Filter(init, p);
      }
    }
  }

  lemma {:induction false} FilterMap<T(!new), U(!new)>(s: seq<T>, f: T -> U, q: U -> bool, qf: T -> bool)
    requires forall x :: x in s ==> qf(x) == q(f(x))
    ensures Filter(Map(s, f), q) == Map(Filter(s, qf), f)
  {
    if |s| > 0 {
      var init, last := s[..|s| - 1], s[|s| - 1];
      assert s == init + [last];
      assert last in s;
      var ms := Map(s, f);
      assert ms[..|ms| - 1] == Map(init, f);
      assert ms[|ms| - 1] == f(last);
      FilterMap(init, f, q, qf);
      var rest := Filter(init, qf);
      assert Filter(s, qf) == rest + if qf(last) then [last] else [];
      assert Filter(ms, q) == Map(rest, f) + if q(f(last)) then [f(last)] else [];
      if qf(last) {
        MapConcat(rest, [last], f);
      }
    }
  }

  /** The cells of column j, top to bottom. */
  function Column(t: Table, j: nat): (r: seq<Cell>)
    requires Rectangular(t.records, |t.columns|) && j < |t.columns|
    ensures |r| == |t.records| && forall k :: 0 <= k < |r| ==> r[k] == t.records[k].cells[j]
  {
    seq(|t.records|, k requires 0 <= k < |t.records| => t.records[k].cells[j])
  }

  /** One row after `df[name] = v`: the cell at position `at` replaced, or v appended when there is no such column. */
  function AssignCell(rec: Record, at: Option<nat>, v: Cell): Record {
    match at
    case Some(j) => if j < |rec.cells| then rec.(cells := rec.cells[j := v]) else rec
    case None => Record(rec.index, rec.cells + [v])
  }

  /** `df[name] = values`: the column called name is overwritten where it stands, or appended last. */
  function Assign(t: Table, name: string, values: seq<Cell>): (r: Table)
    requires WellFormed(t) && |values| == |t.records|
    ensures WellFormed(r) && r.indexName == t.indexName && |r.records| == |t.records|
    ensures r.columns == if name in t.columns then t.columns else t.columns + [name]
    ensures forall k :: 0 <= k < |r.records| ==> r.records[k].index == t.records[k].index
    ensures forall k, j :: 0 <= k < |t.records| && 0 <= j < |t.columns| && t.columns[j] != name ==>
              r.records[k].cells[j] == t.records[k].cells[j]
    ensures forall k, j :: 0 <= k < |r.records| && 0 <= j < |r.columns| && r.columns[j] == name ==>
              r.records[k].cells[j] == values[k]
  {
    var at := Position(t.columns, name);
    var columns := if at.Some? then t.columns else t.columns + [name];
    assert Distinct(columns) by {
      forall i, i' | 0 <= i < i' < |columns| ensures columns[i] != columns[i'] {
        if at.None? && i' == |t.columns| { assert columns[i] in t.columns; }
      }
    }
    var records := seq(|t.records|, k requires 0 <= k < |t.records| => AssignCell(t.records[k], at, values[k]));
    assert forall k :: 0 <= k < |records| ==> |records[k].cells| == |columns| by {
      forall k | 0 <= k < |records| ensures |records[k].cells| == |columns| {
        assert t.records[k] in t.records;
      }
    }
    Table(columns, t.indexName, records)
  }

  /** The labels after `df[name] = ...`: unchanged when name is a column, name appended otherwise. */
  function Added(columns: seq<string>, name: string): seq<string> {
    if name in columns then columns else columns + [name]
  }

  /**
   * `df[column]` read as numbers: the column's cells, a KeyError
   * when there is no such column, and a TypeError when a cell is neither a
   * number nor missing.
   */
  function NumericColumn(t: Table, column: string): (r: Result<seq<Cell>, Error>)
    requires WellFormed(t)
    ensures r.Err? <==> column !in t.columns || exists k :: 0 <= k < |t.records| && !IsNumeric(CellOf(t, k, column))
    ensures r.Err? && column !in t.columns ==> r.error == KeyError([column])
    ensures r.Ok? ==> |r.value| == |t.records|
    ensures r.Ok? ==> forall k :: 0 <= k < |t.records| ==> r.value[k] == CellOf(t, k, column) && IsNumeric(r.value[k])
  {
    match ColumnNamed(t, column)
    case Err(e) => Err(e)
    case Ok(cells) =>
      assert forall k :: 0 <= k < |t.records| ==> CellOf(t, k, column) == cells[k];
      if exists k :: 0 <= k < |cells| && !IsNumeric(cells[k]) then Err(TypeError(column)) else Ok(cells)
  }

  /** Reading a cell back after `df[name] = values`: the assigned column holds the values, every other column is as it was. */
  lemma AssignedCell(t: Table, name: string, values: seq<Cell>, k: nat, other: string)
    requires WellFormed(t) && |values| == |t.records| && k < |t.records|
    ensures CellOf(Assign(t, name, values), k, name) == values[k]
    ensures other != name ==> CellOf(Assign(t, name, values), k, other) == CellOf(t, k, other)
  {
    var r := Assign(t, name, values);
    var j := Position(r.columns, name).value;
    assert CellOf(r, k, name) == r.records[k].cells[j];
    if other != name && other in t.columns {
      var i := Position(t.columns, other).value;
      assert r.columns[i] == other;
      PositionOf(r.columns, i);
    }
  }

  /** Assigning the same values to the same column twice changes nothing the second time. */
  lemma AssignTwice(t: Table, name: string, values: seq<Cell>)
    requires WellFormed(t) && |values| == |t.records|
    ensures Assign(Assign(t, name, values), name, values) == Assign(t, name, values)
  {
    var r := Assign(t, name, values);
    var r' := Assign(r, name, values);
    assert name in r.columns;
    assert r'.columns == r.columns;
    forall k | 0 <= k < |r.records| ensures r'.records[k] == r.records[k] {
      assert r.records[k] in r.records && r'.records[k] in r'.records;
      forall j | 0 <= j < |r.columns| ensures r'.records[k].cells[j] == r.records[k].cells[j] {
        if r.columns[j] != name {
          assert r'.records[k].cells[j] == r.records[k].cells[j];
        }
      }
    }
    assert r'.records == r.records;
  }

  /** The labels after assigning each of names in turn. */
  function AddedAll(columns: seq<string>, names: seq<string>): seq<string>
    decreases |names|
  {
    if |names| == 0 then columns else AddedAll(Added(columns, names[0]), names[1..])
  }

  /** `df[names[0]] = values[0]`, then `df[names[1]] = values[1]`, and so on. */
  function AssignAll(t: Table, names: seq<string>, values: seq<seq<Cell>>): (r: Table)
    requires WellFormed(t) && |values| == |names|
    requires forall i :: 0 <= i < |values| ==> |values[i]| == |t.records|
    ensures WellFormed(r) && r.indexName == t.indexName && |r.records| == |t.records|
    ensures r.columns == AddedAll(t.columns, names)
    ensures forall k :: 0 <= k < |r.records| ==> r.records[k].index == t.records[k].index
    decreases |names|
  {
    if |names| == 0 then t
    else AssignAll(Assign(t, names[0], values[0]), names[1..], values[1..])
  }

  /** After AssignAll, a column that is not among the names reads as before. */
  lemma {:induction false} AssignAllOther(t: Table, names: seq<string>, values: seq<seq<Cell>>, k: nat, other: string)
    requires WellFormed(t) && |values| == |names| && k < |t.records| && other !in names
    requires forall i :: 0 <= i < |values| ==> |values[i]| == |t.records|
    ensures CellOf(AssignAll(t, names, values), k, other) == CellOf(t, k, other)
    decreases |names|
  {
    if |names| > 0 {
      var first := Assign(t, names[0], values[0]);
      assert other !in names[1..];
      AssignAllOther(first, names[1..], values[1..], k, other);
      AssignedCell(t, names[0], values[0], k, other);
    }
  }

  /** After AssignAll with distinct names, the column names[i] holds values[i]. */
  lemma {:induction false} AssignAllNamed(t: Table, names: seq<string>, values: seq<seq<Cell>>, k: nat, i: nat)
    requires WellFormed(t) && |values| == |names| && Distinct(names) && k < |t.records| && i < |names|
    requires forall i :: 0 <= i < |values| ==> |values[i]| == |t.records|
    ensures CellOf(AssignAll(t, names, values), k, names[i]) == values[i][k]
    decreases |names|
  {
    var first := Assign(t, names[0], values[0]);
    if i == 0 {
      assert names[0] !in names[1..] by {
        forall i' | 0 <= i' < |names[1..]| ensures names[1..][i'] != names[0] {
          assert names[1..][i'] == names[i' + 1];
        }
      }
      AssignAllOther(first, names[1..], values[1..], k, names[0]);
      AssignedCell(t, names[0], values[0], k, names[0]);
    } else {
      assert names[i] == names[1..][i - 1] && values[i] == values[1..][i - 1];
      assert Distinct(names[1..]) by {
        forall a, b | 0 <= a < b < |names[1..]| ensures names[1..][a] != names[1..][b] {
          assert names[1..][a] == names[a + 1] && names[1..][b] == names[b + 1];
        }
      }
      AssignAllNamed(first, names[1..], values[1..], k, i - 1);
    }
  }

  /** The positions of the given labels among the columns. */
  function Positions(columns: seq<string>, names: seq<string>): (r: seq<nat>)
    requires forall n :: n in names ==> n in columns
    ensures |r| == |names|
    ensures forall i :: 0 <= i < |r| ==> r[i] < |columns| && columns[r[i]] == names[i]
  {
    seq(|names|, i requires 0 <= i < |names| => Position(columns, names[i]).value)
  }

  /** The cells of each row, without the index labels. */
  function Rows(records: seq<Record>): (r: seq<seq<Cell>>)
    ensures |r| == |records| && forall k :: 0 <= k < |r| ==> r[k] == records[k].cells
  {
    Map(records, (rec: Record) => rec.cells)
  }

  /** `df[name]` for one label: its cells, or the KeyError pandas raises for an absent label. */
  function ColumnNamed(t: Table, name: string): (r: Result<seq<Cell>, Error>)
    requires WellFormed(t)
    ensures r.Err? <==> name !in t.columns
    ensures r.Err? ==> r.error == KeyError([name])
    ensures r.Ok? ==> |r.value| == |t.records|
    ensures r.Ok? ==> forall k, j :: 0 <= k < |t.records| && 0 <= j < |t.columns| && t.columns[j] == name ==>
                        r.value[k] == t.records[k].cells[j]
  {
    match Position(t.columns, name)
    case None => Err(KeyError([name]))
    case Some(j) => Ok(Column(t, j))
  }

  /** The cell of row k in the column labelled name (missing when there is no such column). */
  function CellOf(t: Table, k: nat, name: string): Cell
    requires WellFormed(t) && k < |t.records|
  {
    match Position(t.columns, name)
    case None => NA
    case Some(j) =>
      assert t.records[k] in t.records;
      t.records[k].cells[j]
  }

  /** The cell under the label of column j is the j-th cell of the row. */
  lemma CellAt(t: Table, k: nat, j: nat)
    requires WellFormed(t) && k < |t.records| && j < |t.columns|
    ensures CellOf(t, k, t.columns[j]) == t.records[k].cells[j]
  {
    PositionOf(t.columns, j);
  }

  /**
   * `pd.to_datetime` on one cell, with the parser of everything that is neither
   * missing nor already a timestamp given as a parameter: a missing value stays
   * missing (NaT), a timestamp stays itself, and None means the cell does not parse.
   */
  function ToDatetime(c: Cell, parse: Cell -> Option<int>): (r: Option<Cell>)
    ensures r.Some? ==> r.value.Stamp? || r.value.NA?
    ensures c.NA? || c.Stamp? ==> r == Some(c)
  {
    match c
    case NA => Some(NA)
    case Stamp(_) => Some(c)
    case _ => match parse(c) case Some(n) => Some(Stamp(n)) case None => None
  }

  /** The labels among names that are not columns, in the order given. */
  function Missing(names: seq<string>, columns: seq<string>): (r: seq<string>)
    ensures forall n :: n in r <==> n in names && n !in columns
    ensures |r| == 0 <==> forall n :: n in names ==> n in columns
  {
    var r := Filter(names, (n: string) => n !in columns);
    assert |r| > 0 ==> r[0] in r;
    r
  }

  /** `df[names]`: the listed columns in the listed order, or a KeyError naming the absent ones. */
  function Select(t: Table, names: seq<string>): (r: Result<Table, Error>)
    requires WellFormed(t) && Distinct(names)
    ensures r.Err? <==> exists n :: n in names && n !in t.columns
    ensures r.Err? ==> r.error == KeyError(Missing(names, t.columns))
    ensures r.Ok? ==> WellFormed(r.value) && r.value.columns == names && r.value.indexName == t.indexName
    ensures r.Ok? ==> |r.value.records| == |t.records|
    ensures r.Ok? ==> forall k :: 0 <= k < |t.records| ==> r.value.records[k].index == t.records[k].index
    ensures r.Ok? ==> forall k, i :: 0 <= k < |t.records| && 0 <= i < |names| ==>
                        r.value.records[k].cells[i] == CellOf(t, k, names[i])
  {
    var missing := Missing(names, t.columns);
    if |missing| > 0 then
      assert missing[0] in missing;
      Err(KeyError(missing))
    else Ok(Projection(t, names))
  }

  /** The table of the listed columns, when all of them are present. */
  function Projection(t: Table, names: seq<string>): (r: Table)
    requires WellFormed(t) && Distinct(names) && forall n :: n in names ==> n in t.columns
    ensures WellFormed(r) && r.columns == names && r.indexName == t.indexName && |r.records| == |t.records|
    ensures forall k :: 0 <= k < |t.records| ==> r.records[k].index == t.records[k].index
    ensures forall k, i :: 0 <= k < |t.records| && 0 <= i < |names| ==> r.records[k].cells[i] == CellOf(t, k, names[i])
  {
    var pos := Positions(t.columns, names);
    var records := seq(|t.records|, k requires 0 <= k < |t.records| =>
                     Record(t.records[k].index, seq(|names|, i requires 0 <= i < |names| => t.records[k].cells[pos[i]])));
    assert forall k, i :: 0 <= k < |t.records| && 0 <= i < |names| ==> records[k].cells[i] == CellOf(t, k, names[i]) by {
      forall k, i | 0 <= k < |t.records| && 0 <= i < |names| ensures records[k].cells[i] == CellOf(t, k, names[i]) {
        CellAt(t, k, pos[i]);
      }
    }
    Table(names, t.indexName, records)
  }

  /** The labels after `rename(columns=mapping)`: mapped labels change, the others stay. */
  function Relabel(columns: seq<string>, mapping: map<string, string>): (r: seq<string>)
    ensures |r| == |columns|
    ensures forall i :: 0 <= i < |r| ==> r[i] == if columns[i] in mapping then mapping[columns[i]] else columns[i]
  {
    seq(|columns|, i requires 0 <= i < |columns| => if columns[i] in mapping then mapping[columns[i]] else columns[i])
  }

  /** `df.rename(columns=mapping)`; the data is untouched. */
  function Rename(t: Table, mapping: map<string, string>): (r: Table)
    requires WellFormed(t) && Distinct(Relabel(t.columns, mapping))
    ensures WellFormed(r) && r.records == t.records && r.indexName == t.indexName
    ensures r.columns == Relabel(t.columns, mapping)
  {
    t.(columns := Relabel(t.columns, mapping))
  }

  /** Boolean row selection `df[mask]`: the rows that satisfy keep, with their index labels. */
  function Where(t: Table, keep: Record -> bool): (r: Table)
    requires WellFormed(t)
    ensures WellFormed(r) && r.columns == t.columns && r.indexName == t.indexName
    ensures r.records == Filter(t.records, keep)
  {
    t.(records := Filter(t.records, keep))
  }

  /** None of the cells at the given positions is missing. */
  predicate Complete(rec: Record, subset: seq<nat>) {
    forall i :: 0 <= i < |subset| ==> subset[i] < |rec.cells| && !rec.cells[subset[i]].NA?
  }

  function IsComplete(subset: seq<nat>): Record -> bool {
    (rec: Record) => Complete(rec, subset)
  }

  /** `df.dropna(subset=...)`: the rows with no missing value among the given columns. */
  function DropNA(t: Table, subset: seq<nat>): (r: Table)
    requires WellFormed(t)
    ensures WellFormed(r) && r.columns == t.columns && r.indexName == t.indexName
    ensures forall rec :: rec in r.records <==> rec in t.records && Complete(rec, subset)
  {
    Where(t, IsComplete(subset))
  }

  predicate SortedBy<T>(s: seq<T>, key: T -> real) {
    forall i, j :: 0 <= i < j < |s| ==> key(s[i]) <= key(s[j])
  }

  function Insert<T(!new)>(x: T, s: seq<T>, key: T -> real): (r: seq<T>)
    requires SortedBy(s, key)
    ensures SortedBy(r, key) && multiset(r) == multiset(s) + multiset{x}
  {
    if |s| == 0 || key(x) <= key(s[0]) then
      InsertFirst(x, s, key);
      [x] + s
    else
      var rest := Insert(x, s[1..], key);
      InsertAfter(x, s, rest, key);
      [s[0]] + rest
  }

  /** An element no larger than the head of a sorted sequence goes in front of it. */
  lemma InsertFirst<T>(x: T, s: seq<T>, key: T -> real)
    requires SortedBy(s, key) && (|s| == 0 || key(x) <= key(s[0]))
    ensures SortedBy([x] + s, key) && multiset([x] + s) == multiset(s) + multiset{x}
  {
    forall y | y in s ensures key(x) <= key(y) {
      var i :| 0 <= i < |s| && s[i] == y;
    }
    SortedCons(x, s, key);
  }

  /** An element larger than the head goes into the tail; the head stays in front. */
  lemma InsertAfter<T>(x: T, s: seq<T>, rest: seq<T>, key: T -> real)
    requires SortedBy(s, key) && |s| > 0 && key(s[0]) < key(x)
    requires SortedBy(rest, key) && multiset(rest) == multiset(s[1..]) + multiset{x}
    ensures SortedBy([s[0]] + rest, key) && multiset([s[0]] + rest) == multiset(s) + multiset{x}
  {
    assert s == [s[0]] + s[1..];
    forall y | y in rest ensures key(s[0]) <= key(y) {
      assert y in multiset(rest);
      if y != x {
        assert y in s[1..];
      }
    }
    SortedCons(s[0], rest, key);
  }

  /** A sorted sequence stays sorted with an element in front that is at most every element. */
  lemma SortedCons<T>(x: T, s: seq<T>, key: T -> real)
    requires SortedBy(s, key) && forall y :: y in s ==> key(x) <= key(y)
    ensures SortedBy([x] + s, key)
  {
    var r := [x] + s;
    forall i, j | 0 <= i < j < |r| ensures key(r[i]) <= key(r[j]) {
      assert r[j] == s[j - 1];
      if i > 0 {
        assert r[i] == s[i - 1];
      }
    }
  }

  /** A sort on a real-valued key: the result is ordered by the key and holds the same elements. */
  function SortBy<T(!new)>(s: seq<T>, key: T -> real): (r: seq<T>)
    ensures SortedBy(r, key) && multiset(r) == multiset(s)
  {
    if |s| == 0 then []
    else
      assert s == [s[0]] + s[1..];
      Insert(s[0], SortBy(s[1..], key), key)
  }

  /**
   * The order pandas sorts a column of timestamps or numbers in.  Missing and
   * other cells get 0.0 here, where pandas puts NaT last; every sort in the
   * pipeline is on a column whose cells are all timestamps (Backtest.Dated,
   * DataCleaner.CleanedUsable), so that case never arises.
   */
  function OrderKey(c: Cell): real {
    match c
    case Stamp(t) => t as real
    case Num(x) => x
    case _ => 0.0
  }

  function ByColumn(j: nat): Record -> real {
    (rec: Record) => if j < |rec.cells| then OrderKey(rec.cells[j]) else 0.0
  }

  /** `df.sort_values(column j)`: the same rows, with their labels, in non-decreasing order of that column. */
  function SortValues(t: Table, j: nat): (r: Table)
    requires WellFormed(t)
    ensures WellFormed(r) && r.columns == t.columns && r.indexName == t.indexName
    ensures SortedBy(r.records, ByColumn(j)) && multiset(r.records) == multiset(t.records)
  {
    var sorted := SortBy(t.records, ByColumn(j));
    assert forall rec :: rec in sorted ==> rec in multiset(t.records);
    t.(records := sorted)
  }

  /** `reset_index(drop=True)`: the rows keep their cells and are relabelled 0, 1, ..., n-1. */
  function ResetIndex(t: Table): (r: Table)
    requires WellFormed(t)
    ensures WellFormed(r) && r.columns == t.columns && r.indexName.None?
    ensures |r.records| == |t.records|
    ensures forall k :: 0 <= k < |r.records| ==> r.records[k] == Record(Num(k as real), t.records[k].cells)
  {
    Table(t.columns, None, seq(|t.records|, k requires 0 <= k < |t.records| => Record(Num(k as real), t.records[k].cells)))
  }

  /**
   * `sort_values(column j).reset_index(drop=True)`: rows in non-decreasing
   * order of column j, numbered 0..n-1, holding the same cells as before up to order.
   */
  lemma SortedRenumbered(t: Table, j: nat)
    requires WellFormed(t)
    ensures var r := ResetIndex(SortValues(t, j));
      && SortedBy(r.records, ByColumn(j))
      && (forall k :: 0 <= k < |r.records| ==> r.records[k].index == Num(k as real))
      && multiset(Rows(r.records)) == multiset(Rows(t.records))
      && forall k :: 0 <= k < |r.records| ==> r.records[k].cells in multiset(Rows(t.records))
  {
    var sorted := SortValues(t, j);
    var r := ResetIndex(sorted);
    assert Rows(r.records) == Rows(sorted.records);
    MapPermutation(sorted.records, t.records, (rec: Record) => rec.cells);
    forall a, b | 0 <= a < b < |r.records| ensures ByColumn(j)(r.records[a]) <= ByColumn(j)(r.records[b]) {
      assert r.records[a].cells == sorted.records[a].cells && r.records[b].cells == sorted.records[b].cells;
    }
    forall k | 0 <= k < |r.records| ensures r.records[k].cells in multiset(Rows(t.records)) {
      assert Rows(r.records)[k] in multiset(Rows(r.records));
    }
  }

  /** The label `reset_index()` gives the column it makes from the index. */
  function IndexColumnName(t: Table): string {
    match t.indexName
    case Some(n) => n
    case None => if "index" in t.columns then "level_0" else "index"
  }

  /**
   * `reset_index()` keeping the index: it becomes the first column and the rows are
   * relabelled 0..n-1; a ValueError when a column of that name already exists.
   */
  function InsertIndex(t: Table): (r: Result<Table, Error>)
    requires WellFormed(t)
    ensures r.Err? <==> IndexColumnName(t) in t.columns
    ensures r.Ok? ==> WellFormed(r.value) && r.value.columns == [IndexColumnName(t)] + t.columns
    ensures r.Ok? ==> r.value.indexName.None? && |r.value.records| == |t.records|
    ensures r.Ok? ==> forall k :: 0 <= k < |t.records| ==>
                        r.value.records[k] == Record(Num(k as real), [t.records[k].index] + t.records[k].cells)
  {
    var name := IndexColumnName(t);
    if name in t.columns then Err(ValueError("cannot insert " + name + ", already exists"))
    else
      var columns := [name] + t.columns;
      assert Distinct(columns) by {
        forall i, i' | 0 <= i < i' < |columns| ensures columns[i] != columns[i'] {
          if i == 0 { assert columns[i'] in t.columns; }
        }
      }
      Ok(Table(columns, None, seq(|t.records|, k requires 0 <= k < |t.records| =>
                                Record(Num(k as real), [t.records[k].index] + t.records[k].cells))))
  }
}
