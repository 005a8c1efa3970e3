/**
 * A DataFrame edited in place.  The pipeline copies its input and then
 * renames, drops rows from, assigns columns of and re-indexes that copy
 * step by step; each of those steps is a method here, proved to leave the
 * frame equal to the corresponding value-level operation of module Tables.
 */
module Frames {
  import opened Wrappers
  import opened Tables

  class Frame {
    var columns: seq<string>
    var indexName: Option<string>
    var records: seq<Record>

    /** The frame's current contents as a table. */
    function Value(): Table
      reads this
    {
      Table(columns, indexName, records)
    }

    ghost predicate Valid()
      reads this
    {
      WellFormed(Value())
    }

    /** `df.copy()`: a new frame holding t; later edits do not reach the caller's table. */
    constructor Copy(t: Table)
      requires WellFormed(t)
      ensures Valid() && Value() == t
    {
      columns, indexName, records := t.columns, t.indexName, t.records;
    }

    /** `df.rename(columns=mapping, inplace=True)` */
    method Rename(mapping: map<string, string>)
      requires Valid() && Distinct(Relabel(columns, mapping))
      modifies this
      ensures Valid() && Value() == Tables.Rename(old(Value()), mapping)
    {
      var renamed: seq<string> := [];
      var i := 0;
      while i < |columns|
        invariant 0 <= i <= |columns| && |renamed| == i
        invariant forall m :: 0 <= m < i ==> renamed[m] == if columns[m] in mapping then mapping[columns[m]] else columns[m]
      {
        var c := columns[i];
        renamed := renamed + [if c in mapping then mapping[c] else c];
        i := i + 1;
      }
      columns := renamed;
    }

    /**
     * `df.dropna(subset=names, inplace=True)`: drops every row with a missing value in one of the
     * named columns; when some of the names are not columns pandas raises a KeyError listing them
     * and the frame is unchanged.
     */
    method DropNA(names: seq<string>) returns (err: Option<Error>)
      requires Valid()
      modifies this
      ensures err.Some? <==> |Missing(names, old(columns))| > 0
      ensures err.Some? ==> err.value == KeyError(Missing(names, old(columns))) && Value() == old(Value())
      ensures err.None? ==> forall n :: n in names ==> n in old(columns)
      ensures err.None? ==> Valid() && Value() == Tables.DropNA(old(Value()), Positions(old(columns), names))
    {
      var missing := Missing(names, columns);
      if |missing| > 0 {
        return Some(KeyError(missing));
      }
      var subset := Positions(columns, names);
      var kept: seq<Record> := [];
      var k := 0;
      while k < |records|
        invariant 0 <= k <= |records|
        invariant kept == Filter(records[..k], IsComplete(subset))
      {
        assert records[..k + 1][..k] == records[..k];
        if Complete(records[k], subset) {
          kept := kept + [records[k]];
        }
        k := k + 1;
      }
      assert records[..k] == records;
      records := kept;
      err := None;
    }

    /** `df[name] = values` */
    method SetColumn(name: string, values: seq<Cell>)
      requires Valid() && |values| == |records|
      modifies this
      ensures Valid() && Value() == Assign(old(Value()), name, values)
    {
      var at := Position(columns, name);
      var updated: seq<Record> := [];
      var k := 0;
      while k < |records|
        invariant 0 <= k <= |records| && |updated| == k
        invariant forall i :: 0 <= i < k ==> updated[i] == AssignCell(records[i], at, values[i])
      {
        updated := updated + [AssignCell(records[k], at, values[k])];
        k := k + 1;
      }
      if at.None? {
        columns := columns + [name];
      }
      records := updated;
    }

    /**
     * `df.reset_index(inplace=True)`: the index becomes the first column and the rows are
     * numbered 0..n-1; when a column of that name exists pandas raises and the frame is unchanged.
     */
    method ResetIndex() returns (err: Option<Error>)
      requires Valid()
      modifies this
      ensures err.Some? <==> InsertIndex(old(Value())).Err?
      ensures err.Some? ==> err.value == InsertIndex(old(Value())).error && Value() == old(Value())
      ensures err.None? ==> Valid() && Value() == InsertIndex(old(Value())).value
    {
      var name := IndexColumnName(Value());
      if name in columns {
        return Some(ValueError("cannot insert " + name + ", already exists"));
      }
      var numbered: seq<Record> := [];
      var k := 0;
      while k < |records|
        invariant 0 <= k <= |records| && |numbered| == k
        invariant forall i :: 0 <= i < k ==> numbered[i] == Record(Num(i as real), [records[i].index] + records[i].cells)
      {
        numbered := numbered + [Record(Num(k as real), [records[k].index] + records[k].cells)];
        k := k + 1;
      }
      columns, indexName, records := [name] + columns, None, numbered;
      err := None;
    }
  }
}
