/**
 * The stock-data cleaner (`clean_stock_data`).
 *
 * Column labels are lowercased and stripped; the first label containing
 * "date", "close" and "volume" takes that role and is renamed Date, Close and
 * Volume; a missing role is a KeyError listing the available labels.  Rows
 * with a missing role value are dropped, the three values are coerced (a
 * value that does not parse becomes missing and its row is dropped), rows
 * whose volume is not positive are dropped, and what is left is sorted by
 * date and renumbered 0..n-1.
 */
module DataCleaner {
  import opened Wrappers
  import opened Tables
  import opened Frames

  // ---------------------------------------------------------------------------
  // Label normalisation: `col.lower().strip()`
  // ---------------------------------------------------------------------------

  /** The characters Python's `str.isspace` accepts, which `str.strip()` removes. */
  predicate IsSpace(c: char) {
    c == ' ' || ('\t' <= c <= '\r') || ('\U{1c}' <= c <= '\U{1f}') || c == '\U{85}' || c == '\U{a0}'
    || c == '\U{1680}' || ('\U{2000}' <= c <= '\U{200a}') || c == '\U{2028}' || c == '\U{2029}'
    || c == '\U{202f}' || c == '\U{205f}' || c == '\U{3000}'
  }

  predicate IsUpper(c: char) {
    'A' <= c <= 'Z'
  }

  function LowerChar(c: char): (r: char)
    ensures !IsUpper(r)
    ensures IsSpace(r) <==> IsSpace(c)
  {
    if IsUpper(c) then (c as int - 'A' as int + 'a' as int) as char else c
  }

  /** `str.lower()` on the ASCII letters. */
  function Lower(s: string): (r: string)
    ensures |r| == |s| && forall i :: 0 <= i < |s| ==> r[i] == LowerChar(s[i])
  {
    seq(|s|, i requires 0 <= i < |s| => LowerChar(s[i]))
  }

  /** The number of whitespace characters s starts with. */
  function LeadingSpaces(s: string): (n: nat)
    ensures n <= |s| && (n == |s| || !IsSpace(s[n]))
    ensures forall i :: 0 <= i < n ==> IsSpace(s[i])
  {
    if |s| > 0 && IsSpace(s[0]) then 1 + LeadingSpaces(s[1..]) else 0
  }

  /** The number of whitespace characters s ends with. */
  function TrailingSpaces(s: string): (n: nat)
    ensures n <= |s| && (n == |s| || !IsSpace(s[|s| - 1 - n]))
    ensures forall i :: |s| - n <= i < |s| ==> IsSpace(s[i])
  {
    if |s| > 0 && IsSpace(s[|s| - 1]) then 1 + TrailingSpaces(s[..|s| - 1]) else 0
  }

  /**
   * `str.strip()`: s without its leading and trailing whitespace.  The result
   * is the piece of s starting after the leading whitespace; everything after
   * it is whitespace; it neither starts nor ends with whitespace.
   */
  function Strip(s: string): (r: string)
    ensures var a := LeadingSpaces(s);
      && a + |r| <= |s| && r == s[a..a + |r|]
      && forall i :: a + |r| <= i < |s| ==> IsSpace(s[i])
    ensures |r| > 0 ==> !IsSpace(r[0]) && !IsSpace(r[|r| - 1])
  {
    var a := LeadingSpaces(s);
    var rest := s[a..];
    var b := TrailingSpaces(rest);
    var r := rest[..|rest| - b];
    assert r == s[a..a + |r|];
    r
  }

  /** The label `clean_stock_data` matches on. */
  function Normalize(col: string): string {
    Strip(Lower(col))
  }

  /** A normalised label is lower-case and has no surrounding whitespace. */
  lemma NormalizeShape(col: string)
    ensures forall i :: 0 <= i < |Normalize(col)| ==> !IsUpper(Normalize(col)[i])
    ensures |Normalize(col)| > 0 ==> !IsSpace(Normalize(col)[0]) && !IsSpace(Normalize(col)[|Normalize(col)| - 1])
  {
    var low := Lower(col);
    var r := Strip(low);
    var a := LeadingSpaces(low);
    forall i | 0 <= i < |r| ensures !IsUpper(r[i]) {
      assert r[i] == low[a + i];
    }
  }

  /** Normalising twice is normalising once. */
  lemma {:induction false} NormalizeIdempotent(col: string)
    ensures Normalize(Normalize(col)) == Normalize(col)
  {
    var n := Normalize(col);
    NormalizeShape(col);
    assert Lower(n) == n;
    LeadingNone(n);
    TrailingNone(n);
  }

  lemma LeadingNone(s: string)
    requires |s| == 0 || !IsSpace(s[0])
    ensures LeadingSpaces(s) == 0
  {
  }

  lemma TrailingNone(s: string)
    requires |s| == 0 || !IsSpace(s[|s| - 1])
    ensures TrailingSpaces(s) == 0
  {
  }

  // ---------------------------------------------------------------------------
  // Role matching: `next((col for col in df.columns if 'date' in col), None)`
  // ---------------------------------------------------------------------------

  /** p occurs in s starting at position i. */
  predicate OccursAt(s: string, p: string, i: int) {
    0 <= i && i + |p| <= |s| && s[i..i + |p|] == p
  }

  /** Python's `p in s` for strings. */
  function Contains(s: string, p: string): bool
    decreases |s|
  {
    if |p| > |s| then false
    else if s[..|p|] == p then true
    else Contains(s[1..], p)
  }

  /** `p in s` holds exactly when p occurs in s as a contiguous piece. */
  lemma {:induction false} ContainsIff(s: string, p: string)
    ensures Contains(s, p) <==> exists i :: OccursAt(s, p, i)
    decreases |s|
  {
    if |p| > |s| {
    } else if s[..|p|] == p {
      assert OccursAt(s, p, 0);
    } else {
      ContainsIff(s[1..], p);
      if Contains(s[1..], p) {
        var i :| OccursAt(s[1..], p, i);
        assert s[i + 1..i + 1 + |p|] == s[1..][i..i + |p|];
        assert OccursAt(s, p, i + 1);
      }
      if i :| OccursAt(s, p, i) {
        assert i != 0;
        assert s[1..][i - 1..i - 1 + |p|] == s[i..i + |p|];
        assert OccursAt(s[1..], p, i - 1);
      }
    }
  }

  function FirstContaining(names: seq<string>, key: string): Option<nat> {
    FirstIndex(names, (n: string) => Contains(n, key))
  }

  /** The positions of the columns that take the Date, Close and Volume roles. */
  datatype Roles = Roles(date: nat, close: nat, volume: nat)

  function MatchRoles(names: seq<string>): Option<Roles> {
    var d, c, v := FirstContaining(names, "date"), FirstContaining(names, "close"), FirstContaining(names, "volume");
    if d.Some? && c.Some? && v.Some? then Some(Roles(d.value, c.value, v.value)) else None
  }

  /**
   * A column takes a role exactly when it is the first, in column order, whose
   * label contains the role's key; the roles are all matched exactly when
   * some label contains each key.
   */
  lemma RoleMatching(names: seq<string>)
    ensures MatchRoles(names).Some? <==>
              (exists i :: 0 <= i < |names| && Contains(names[i], "date"))
              && (exists i :: 0 <= i < |names| && Contains(names[i], "close"))
              && (exists i :: 0 <= i < |names| && Contains(names[i], "volume"))
    ensures MatchRoles(names).Some? ==>
              var roles := MatchRoles(names).value;
              IsFirstContaining(names, "date", roles.date)
              && IsFirstContaining(names, "close", roles.close)
              && IsFirstContaining(names, "volume", roles.volume)
  {
  }

  predicate IsFirstContaining(names: seq<string>, key: string, i: nat) {
    i < |names| && Contains(names[i], key) && forall j :: 0 <= j < i ==> !Contains(names[j], key)
  }

  function NormalizedColumns(columns: seq<string>): (r: seq<string>)
    ensures |r| == |columns| && forall i :: 0 <= i < |r| ==> r[i] == Normalize(columns[i])
  {
    Map(columns, Normalize)
  }

  /** The inputs the cleaner is specified for: no two labels normalise alike. */
  predicate Cleanable(df: Table) {
    WellFormed(df) && Distinct(NormalizedColumns(df.columns))
  }

  /** The labels of the `subset` at data_cleaner.py:44. */
  const Standard: seq<string> := ["Date", "Close", "Volume"]

  /** The `rename` at data_cleaner.py:37: the three role columns get their standard labels. */
  function RoleMapping(names: seq<string>, roles: Roles): map<string, string>
    requires roles.date < |names| && roles.close < |names| && roles.volume < |names|
  {
    map[names[roles.date] := "Date", names[roles.close] := "Close", names[roles.volume] := "Volume"]
  }

  function CleanColumns(names: seq<string>, roles: Roles): seq<string>
    requires roles.date < |names| && roles.close < |names| && roles.volume < |names|
  {
    Relabel(names, RoleMapping(names, roles))
  }

  /**
   * The standard label a cleaned column gets, if it takes a role.  When one
   * column takes several roles, the later entry of the dict at data_cleaner.py:37-41 wins.
   */
  function RoleLabel(roles: Roles, k: nat): Option<string> {
    if k == roles.volume then Some("Volume")
    else if k == roles.close then Some("Close")
    else if k == roles.date then Some("Date")
    else None
  }

  predicate InWidth(roles: Roles, width: nat) {
    roles.date < width && roles.close < width && roles.volume < width
  }

  predicate ValidRoles(roles: Roles, width: nat) {
    InWidth(roles, width) && roles.date != roles.close && roles.date != roles.volume && roles.close != roles.volume
  }

  lemma CleanColumnAt(names: seq<string>, roles: Roles, k: nat)
    requires Distinct(names) && k < |names| && InWidth(roles, |names|)
    ensures CleanColumns(names, roles)[k] == RoleLabel(roles, k).GetOr(names[k])
  {
    var m := RoleMapping(names, roles);
    if RoleLabel(roles, k).None? {
      assert names[k] != names[roles.date] && names[k] != names[roles.close] && names[k] != names[roles.volume];
      assert names[k] !in m;
    }
  }

  /** No normalised label is one of the standard labels, which start with a capital. */
  lemma NotStandard(col: string)
    ensures Normalize(col) != "Date" && Normalize(col) != "Close" && Normalize(col) != "Volume"
  {
    NormalizeShape(col);
    assert IsUpper("Date"[0]) && IsUpper("Close"[0]) && IsUpper("Volume"[0]);
  }

  /** The cleaned labels are distinct: the standard labels cannot clash with lower-case ones. */
  lemma CleanColumnsDistinct(names: seq<string>, roles: Roles)
    requires Distinct(names) && InWidth(roles, |names|)
    requires forall k :: 0 <= k < |names| ==> names[k] != "Date" && names[k] != "Close" && names[k] != "Volume"
    ensures Distinct(CleanColumns(names, roles))
  {
    var cols := CleanColumns(names, roles);
    forall i, j | 0 <= i < j < |cols| ensures cols[i] != cols[j] {
      CleanColumnAt(names, roles, i);
      CleanColumnAt(names, roles, j);
    }
  }

  /**
   * When one column takes two roles, data_cleaner.py:37 gives it only the later
   * label, so the labels of data_cleaner.py:44 that no column carries are exactly the ones lost this
   * way; when the roles are distinct none is lost.
   */
  lemma SharedRoles(names: seq<string>, roles: Roles)
    requires Distinct(names) && InWidth(roles, |names|)
    requires forall k :: 0 <= k < |names| ==> names[k] != "Date" && names[k] != "Close" && names[k] != "Volume"
    ensures Missing(Standard, CleanColumns(names, roles)) ==
              (if roles.date == roles.close || roles.date == roles.volume then ["Date"] else [])
              + (if roles.close == roles.volume then ["Close"] else [])
  {
    var cols := CleanColumns(names, roles);
    forall k | 0 <= k < |cols| ensures cols[k] == RoleLabel(roles, k).GetOr(names[k]) {
      CleanColumnAt(names, roles, k);
    }
    assert cols[roles.volume] == "Volume";
    if roles.close != roles.volume {
      assert cols[roles.close] == "Close";
    } else {
      assert "Close" !in cols;
    }
    if roles.date != roles.close && roles.date != roles.volume {
      assert cols[roles.date] == "Date";
    } else {
      assert "Date" !in cols;
    }
    MissingStandard(cols);
  }

  /** The standard labels absent from cols, in the order Date, Close, Volume. */
  lemma MissingStandard(cols: seq<string>)
    ensures Missing(Standard, cols) == (if "Date" !in cols then ["Date"] else [])
                                       + (if "Close" !in cols then ["Close"] else [])
                                       + (if "Volume" !in cols then ["Volume"] else [])
  {
    var missing := (n: string) => n !in cols;
    assert Missing(Standard, cols) == Filter(Standard, missing);
    FilterThree("Date", "Close", "Volume", missing);
  }

  /** The cleaned labels: the roles take their standard labels, every other column keeps its normalised one. */
  lemma CleanColumnsShape(df: Table, roles: Roles)
    requires Cleanable(df) && ValidRoles(roles, |df.columns|)
    ensures var cols := CleanColumns(NormalizedColumns(df.columns), roles);
      && Distinct(cols) && |cols| == |df.columns|
      && forall k :: 0 <= k < |cols| ==> cols[k] == RoleLabel(roles, k).GetOr(Normalize(df.columns[k]))
  {
    var names := NormalizedColumns(df.columns);
    forall k | 0 <= k < |names| ensures names[k] != "Date" && names[k] != "Close" && names[k] != "Volume" {
      NotStandard(df.columns[k]);
    }
    CleanColumnsDistinct(names, roles);
    forall k | 0 <= k < |names| ensures CleanColumns(names, roles)[k] == RoleLabel(roles, k).GetOr(Normalize(df.columns[k])) {
      CleanColumnAt(names, roles, k);
    }
  }

  lemma NormalizeDate()
    ensures Normalize(" DATE ") == "date"
  {
    var low := Lower(" DATE ");
    assert low == " date " by {
      forall i | 0 <= i < 6 ensures low[i] == " date "[i] {
        assert low[i] == LowerChar(" DATE "[i]);
      }
    }
    assert " date "[1..] == "date ";
    LeadingNone("date ");
    assert LeadingSpaces(" date ") == 1;
    assert "date "[..4] == "date";
    TrailingNone("date");
    assert TrailingSpaces("date ") == 1;
  }

  lemma NormalizeOthers()
    ensures Normalize("close_price") == "close_price" && Normalize("VOL") == "vol"
  {
    assert Lower("close_price") == "close_price";
    assert Lower("VOL") == "vol";
    LeadingNone("close_price");
    TrailingNone("close_price");
    LeadingNone("vol");
    TrailingNone("vol");
  }

  /** A label can only contain a key if it contains the key's first character. */
  lemma ContainsFirst(s: string, p: string)
    requires |p| > 0 && Contains(s, p)
    ensures p[0] in s
  {
    ContainsIff(s, p);
    var i :| OccursAt(s, p, i);
    assert s[i] == s[i..i + |p|][0];
  }

  lemma NoVolume()
    ensures FirstContaining(["date", "close_price", "vol"], "volume").None?
  {
    var names := ["date", "close_price", "vol"];
    if Contains(names[1], "volume") {
      ContainsFirst(names[1], "volume");
      assert false;
    }
    assert !Contains(names[0], "volume") && !Contains(names[2], "volume");
  }

  /**
   * An abbreviated volume label is not recognised: " DATE ", "close_price" and
   * "VOL" normalise to "date", "close_price" and "vol", and no label contains
   * "volume", so the cleaner raises its KeyError.
   */
  lemma AbbreviatedVolume(df: Table, ps: Parsers)
    requires Cleanable(df) && df.columns == [" DATE ", "close_price", "VOL"]
    ensures Clean(df, ps) == Err(MissingRequired(["date", "close_price", "vol"]))
  {
    NormalizeDate();
    NormalizeOthers();
    assert NormalizedColumns(df.columns) == ["date", "close_price", "vol"];
    NoVolume();
  }

  // ---------------------------------------------------------------------------
  // Coercion and row filtering (data_cleaner.py:44-51)
  // ---------------------------------------------------------------------------

  /**
   * The element parsers behind `pd.to_datetime` and `pd.to_numeric`, for cells
   * that are neither missing nor already of the target type.
   */
  datatype Parsers = Parsers(date: Cell -> Option<int>, number: Cell -> Option<real>)

  /** `pd.to_datetime(..., errors='coerce')` on one cell. */
  function CoerceDate(c: Cell, ps: Parsers): (r: Cell)
    ensures r.Stamp? || r.NA?
    ensures c.Stamp? ==> r == c
  {
    ToDatetime(c, ps.date).GetOr(NA)
  }

  /** `pd.to_numeric(..., errors='coerce')` on one cell. */
  function CoerceNumber(c: Cell, ps: Parsers): (r: Cell)
    ensures r.Num? || r.NA?
    ensures c.Num? ==> r == c
  {
    match c
    case NA => NA
    case Num(_) => c
    case _ => match ps.number(c) case Some(x) => Num(x) case None => NA
  }

  predicate InRange(rec: Record, roles: Roles) {
    roles.date < |rec.cells| && roles.close < |rec.cells| && roles.volume < |rec.cells|
  }

  /** A row after the three column assignments at data_cleaner.py:45-47. */
  function Coerce(rec: Record, roles: Roles, ps: Parsers): (r: Record)
    ensures r.index == rec.index && |r.cells| == |rec.cells|
  {
    if InRange(rec, roles) then
      rec.(cells := rec.cells[roles.date := CoerceDate(rec.cells[roles.date], ps)]
                             [roles.close := CoerceNumber(rec.cells[roles.close], ps)]
                             [roles.volume := CoerceNumber(rec.cells[roles.volume], ps)])
    else rec
  }

  function Coercion(roles: Roles, ps: Parsers): Record -> Record {
    (rec: Record) => Coerce(rec, roles, ps)
  }

  /** A cleaned row: a timestamp, a number and a positive number in the three roles. */
  predicate Usable(rec: Record, roles: Roles) {
    InRange(rec, roles)
    && rec.cells[roles.date].Stamp? && rec.cells[roles.close].Num?
    && rec.cells[roles.volume].Num? && rec.cells[roles.volume].x > 0.0
  }

  function RolePositions(roles: Roles): seq<nat> {
    [roles.date, roles.close, roles.volume]
  }

  /** Once the roles carry their standard labels, looking those labels up finds the role positions. */
  lemma StandardPositions(cols: seq<string>, roles: Roles)
    requires Distinct(cols) && ValidRoles(roles, |cols|)
    requires cols[roles.date] == "Date" && cols[roles.close] == "Close" && cols[roles.volume] == "Volume"
    ensures forall n :: n in Standard ==> n in cols
    ensures Positions(cols, Standard) == RolePositions(roles)
  {
    var p := Positions(cols, Standard);
    assert cols[p[0]] == cols[roles.date] && cols[p[1]] == cols[roles.close] && cols[p[2]] == cols[roles.volume];
  }

  /** An input row is kept when none of its three role values is missing and, coerced, it is usable. */
  predicate Survives(rec: Record, roles: Roles, ps: Parsers) {
    Complete(rec, RolePositions(roles)) && Usable(Coerce(rec, roles, ps), roles)
  }

  function Survival(roles: Roles, ps: Parsers): Record -> bool {
    (rec: Record) => Survives(rec, roles, ps)
  }

  /** The surviving input rows, coerced, in input order and with their original index labels. */
  function Survivors(records: seq<Record>, roles: Roles, ps: Parsers): seq<Record> {
    Map(Filter(records, Survival(roles, ps)), Coercion(roles, ps))
  }

  /** Coercion keeps every row's width. */
  lemma SurvivorsWidth(records: seq<Record>, width: nat, roles: Roles, ps: Parsers)
    requires Rectangular(records, width)
    ensures Rectangular(Survivors(records, roles, ps), width)
  {
    var kept := Filter(records, Survival(roles, ps));
    var out := Survivors(records, roles, ps);
    forall x | x in out ensures |x.cells| == width {
      var i :| 0 <= i < |out| && out[i] == x;
      assert kept[i] in kept;
    }
  }

  /** Exactly the coerced forms of the input rows that survive appear among the survivors. */
  lemma SurvivorsExactly(records: seq<Record>, roles: Roles, ps: Parsers, x: Record)
    ensures x in Survivors(records, roles, ps) <==>
              exists rec :: rec in records && Survives(rec, roles, ps) && x == Coerce(rec, roles, ps)
  {
    var kept := Filter(records, Survival(roles, ps));
    if x in Survivors(records, roles, ps) {
      var i :| 0 <= i < |kept| && Survivors(records, roles, ps)[i] == x;
      assert kept[i] in kept;
    }
    if rec :| rec in records && Survives(rec, roles, ps) && x == Coerce(rec, roles, ps) {
      assert rec in kept;
      var i :| 0 <= i < |kept| && kept[i] == rec;
      assert Survivors(records, roles, ps)[i] == x;
    }
  }

  /** `df['Volume'] > 0` as a row mask (data_cleaner.py:51). */
  function PositiveVolume(v: nat): Record -> bool {
    (rec: Record) => v < |rec.cells| && rec.cells[v].Num? && rec.cells[v].x > 0.0
  }

  /** The survival test is the source's three row filters, applied to one row. */
  lemma SurvivesIff(rec: Record, roles: Roles, ps: Parsers)
    requires InRange(rec, roles)
    requires roles.date != roles.close && roles.date != roles.volume && roles.close != roles.volume
    ensures var y := Coerce(rec, roles, ps);
      Survives(rec, roles, ps) ==
      (Complete(rec, RolePositions(roles)) && Complete(y, RolePositions(roles)) && PositiveVolume(roles.volume)(y))
  {
    var y := Coerce(rec, roles, ps);
    var d, c, v := roles.date, roles.close, roles.volume;
    assert y.cells[d] == CoerceDate(rec.cells[d], ps);
    assert y.cells[c] == CoerceNumber(rec.cells[c], ps);
    assert y.cells[v] == CoerceNumber(rec.cells[v], ps);
    CompleteRoles(y, roles);
    CompleteRoles(rec, roles);
  }

  lemma CompleteRoles(rec: Record, roles: Roles)
    requires InRange(rec, roles)
    ensures Complete(rec, RolePositions(roles)) <==>
              !rec.cells[roles.date].NA? && !rec.cells[roles.close].NA? && !rec.cells[roles.volume].NA?
  {
    var p := RolePositions(roles);
    if !rec.cells[roles.date].NA? && !rec.cells[roles.close].NA? && !rec.cells[roles.volume].NA? {
      forall i | 0 <= i < |p| ensures p[i] < |rec.cells| && !rec.cells[p[i]].NA? {
        if i == 0 {} else if i == 1 {} else {}
      }
    }
    if Complete(rec, p) {
      assert p[0] == roles.date && p[1] == roles.close && p[2] == roles.volume;
    }
  }

  /**
   * The drop / coerce / drop / filter sequence of data_cleaner.py:44-51 keeps exactly the
   * survivors: the three filters of the source fuse into the one survival test.
   */
  lemma {:induction false} FilterPipeline(records: seq<Record>, width: nat, roles: Roles, ps: Parsers)
    requires Rectangular(records, width)
    requires roles.date < width && roles.close < width && roles.volume < width
    requires roles.date != roles.close && roles.date != roles.volume && roles.close != roles.volume
    ensures Filter(Filter(Map(Filter(records, IsComplete(RolePositions(roles))), Coercion(roles, ps)),
                          IsComplete(RolePositions(roles))), PositiveVolume(roles.volume))
            == Survivors(records, roles, ps)
  {
    var complete := IsComplete(RolePositions(roles));
    var coerce := Coercion(roles, ps);
    var once := Filter(records, complete);
    var usable := (rec: Record) => complete(rec) && PositiveVolume(roles.volume)(rec);
    FilterFilter(Map(once, coerce), complete, PositiveVolume(roles.volume), usable);
    var usableAfter := (rec: Record) => usable(coerce(rec));
    forall x | x in Map(once, coerce) ensures usable(x) == (complete(x) && PositiveVolume(roles.volume)(x)) { }
    FilterMap(once, coerce, usable, usableAfter);
    forall x | x in records ensures Survival(roles, ps)(x) == (complete(x) && usableAfter(x)) {
      SurvivesIff(x, roles, ps);
    }
    FilterFilter(records, complete, usableAfter, Survival(roles, ps));
  }

  // ---------------------------------------------------------------------------
  // The cleaner
  // ---------------------------------------------------------------------------

  /**
   * The specification of `clean_stock_data`: a KeyError listing the normalised
   * labels when a role is unmatched; the KeyError of the `dropna` at data_cleaner.py:44 when
   * one column takes two roles; otherwise the cleaned table.
   */
  function Clean(df: Table, ps: Parsers): (r: Result<Table, Error>)
    requires Cleanable(df)
    ensures r.Err? <==> MatchRoles(NormalizedColumns(df.columns)).None?
                        || !ValidRoles(MatchRoles(NormalizedColumns(df.columns)).value, |df.columns|)
  {
    var names := NormalizedColumns(df.columns);
    match MatchRoles(names)
    case None => Err(MissingRequired(names))
    case Some(roles) =>
      if ValidRoles(roles, |names|) then Ok(Cleaned(df, roles, ps))
      else Err(KeyError(Missing(Standard, CleanColumns(names, roles))))
  }

  /** The survivors under the cleaned labels, sorted by date and renumbered. */
  function Cleaned(df: Table, roles: Roles, ps: Parsers): (r: Table)
    requires Cleanable(df) && ValidRoles(roles, |df.columns|)
    ensures WellFormed(r)
  {
    ResetIndex(SortedSurvivors(df, roles, ps))
  }

  /** The cleaned table before renumbering: the survivors under the cleaned labels, sorted by date. */
  function SortedSurvivors(df: Table, roles: Roles, ps: Parsers): (r: Table)
    requires Cleanable(df) && ValidRoles(roles, |df.columns|)
    ensures WellFormed(r) && r.columns == CleanColumns(NormalizedColumns(df.columns), roles)
    ensures SortedBy(r.records, ByColumn(roles.date))
    ensures multiset(r.records) == multiset(Survivors(df.records, roles, ps))
  {
    var names := NormalizedColumns(df.columns);
    CleanColumnsShape(df, roles);
    SurvivorsWidth(df.records, |names|, roles, ps);
    SortValues(Table(CleanColumns(names, roles), df.indexName, Survivors(df.records, roles, ps)), roles.date)
  }

  /** The cleaned table carries the cleaned labels: the standard labels in the role columns, the normalised ones elsewhere. */
  lemma CleanedLabels(df: Table, roles: Roles, ps: Parsers)
    requires Cleanable(df) && ValidRoles(roles, |df.columns|)
    ensures var r := Cleaned(df, roles, ps);
      && r.indexName.None? && |r.columns| == |df.columns|
      && forall k :: 0 <= k < |r.columns| ==> r.columns[k] == RoleLabel(roles, k).GetOr(Normalize(df.columns[k]))
  {
    CleanColumnsShape(df, roles);
  }

  /** The cleaned rows are numbered 0..n-1 in non-decreasing date order. */
  lemma CleanedOrder(df: Table, roles: Roles, ps: Parsers)
    requires Cleanable(df) && ValidRoles(roles, |df.columns|)
    ensures var r := Cleaned(df, roles, ps);
      && SortedBy(r.records, ByColumn(roles.date))
      && forall k :: 0 <= k < |r.records| ==> r.records[k].index == Num(k as real)
  {
    var sorted := SortedSurvivors(df, roles, ps);
    var r := Cleaned(df, roles, ps);
    assert r == ResetIndex(sorted);
    forall i, j | 0 <= i < j < |r.records| ensures ByColumn(roles.date)(r.records[i]) <= ByColumn(roles.date)(r.records[j]) {
      assert r.records[i].cells == sorted.records[i].cells && r.records[j].cells == sorted.records[j].cells;
    }
  }

  /** Every cleaned row has a timestamp date, a numeric close and a positive numeric volume. */
  lemma CleanedUsable(df: Table, roles: Roles, ps: Parsers)
    requires Cleanable(df) && ValidRoles(roles, |df.columns|)
    ensures var r := Cleaned(df, roles, ps);
      forall k :: 0 <= k < |r.records| ==> Usable(r.records[k], roles)
  {
    var sorted := SortedSurvivors(df, roles, ps);
    var r := Cleaned(df, roles, ps);
    assert r == ResetIndex(sorted);
    forall k | 0 <= k < |r.records| ensures Usable(r.records[k], roles) {
      var x := sorted.records[k];
      assert x in multiset(Survivors(df.records, roles, ps));
      SurvivorsExactly(df.records, roles, ps, x);
    }
  }

  /** Up to order, the cleaned rows are exactly the coerced surviving input rows. */
  lemma CleanedPermutation(df: Table, roles: Roles, ps: Parsers)
    requires Cleanable(df) && ValidRoles(roles, |df.columns|)
    ensures multiset(Rows(Cleaned(df, roles, ps).records)) == multiset(Rows(Survivors(df.records, roles, ps)))
  {
    var sorted := SortedSurvivors(df, roles, ps);
    var r := Cleaned(df, roles, ps);
    assert r == ResetIndex(sorted);
    assert Rows(r.records) == Rows(sorted.records);
    MapPermutation(sorted.records, Survivors(df.records, roles, ps), (rec: Record) => rec.cells);
  }

  /**
   * `clean_stock_data` as the source runs it: copy the frame, normalise the
   * labels and look for the three roles.
   */
  method CleanStockData(df: Table, ps: Parsers) returns (r: Result<Table, Error>)
    requires Cleanable(df)
    ensures r == Clean(df, ps)
  {
    var frame := new Frame.Copy(df);
    var lowered := map c | c in frame.columns :: Normalize(c);
    Lowered(df.columns, lowered);
    frame.Rename(lowered);
    var names := frame.columns;
    var roles := MatchRoles(names);
    if roles.None? {
      return Err(MissingRequired(names));
    }
    r := CleanMatched(frame, df, roles.value, ps);
  }

  /** Renaming every label by the mapping at data_cleaner.py:33 normalises each of them. */
  lemma Lowered(columns: seq<string>, lowered: map<string, string>)
    requires lowered == map c | c in columns :: Normalize(c)
    ensures Relabel(columns, lowered) == NormalizedColumns(columns)
  {
    var r, n := Relabel(columns, lowered), NormalizedColumns(columns);
    forall i | 0 <= i < |columns| ensures r[i] == n[i] {
      assert columns[i] in lowered;
    }
  }

  /**
   * The rest of `clean_stock_data` once the roles are found: rename, drop,
   * coerce and drop in place, then filter, sort and renumber.
   */
  method CleanMatched(frame: Frame, df: Table, roles: Roles, ps: Parsers) returns (r: Result<Table, Error>)
    requires Cleanable(df) && InWidth(roles, |df.columns|)
    requires frame.Valid() && frame.Value() == df.(columns := NormalizedColumns(df.columns))
    modifies frame
    ensures ValidRoles(roles, |df.columns|) ==> r == Ok(Cleaned(df, roles, ps))
    ensures !ValidRoles(roles, |df.columns|) ==>
              r == Err(KeyError(Missing(Standard, CleanColumns(NormalizedColumns(df.columns), roles))))
  {
    var names := frame.columns;
    forall k | 0 <= k < |names| ensures names[k] != "Date" && names[k] != "Close" && names[k] != "Volume" {
      NotStandard(df.columns[k]);
    }
    CleanColumnsDistinct(names, roles);
    SharedRoles(names, roles);
    frame.Rename(RoleMapping(names, roles));
    ghost var width := |frame.columns|;
    ghost var cols := frame.columns;
    assert cols == CleanColumns(names, roles);
    var err := frame.DropNA(Standard);
    if err.Some? {
      return Err(err.value);
    }
    CleanColumnsShape(df, roles);
    StandardPositions(cols, roles);
    assert frame.records == Filter(df.records, IsComplete(RolePositions(roles)));
    var cleaned := CleanComplete(frame, df, roles, ps);
    r := Ok(cleaned);
  }

  /**
   * data_cleaner.py:45-54 once the rows with a missing role value are gone: coerce in
   * place, drop the rows that failed to parse, keep the positive volumes,
   * sort by date and renumber.
   */
  method CleanComplete(frame: Frame, df: Table, roles: Roles, ps: Parsers) returns (r: Table)
    requires Cleanable(df) && ValidRoles(roles, |df.columns|)
    requires frame.Valid() && frame.indexName == df.indexName
    requires frame.columns == CleanColumns(NormalizedColumns(df.columns), roles)
    requires frame.records == Filter(df.records, IsComplete(RolePositions(roles)))
    modifies frame
    ensures r == Cleaned(df, roles, ps)
  {
    var names := NormalizedColumns(df.columns);
    ghost var width := |frame.columns|;
    CleanColumnsShape(df, roles);
    StandardPositions(frame.columns, roles);
    ghost var complete := IsComplete(RolePositions(roles));
    CoerceRoles(frame, roles, ps);
    assert frame.records == Map(Filter(df.records, complete), Coercion(roles, ps));
    var err := frame.DropNA(Standard);
    assert err.None?;
    assert frame.records == Filter(Map(Filter(df.records, complete), Coercion(roles, ps)), complete);
    var kept := Where(frame.Value(), PositiveVolume(roles.volume));
    FilterPipeline(df.records, width, roles, ps);
    assert kept == Table(CleanColumns(names, roles), df.indexName, Survivors(df.records, roles, ps));
    r := ResetIndex(SortValues(kept, roles.date));
    assert SortValues(kept, roles.date) == SortedSurvivors(df, roles, ps);
  }

  /** data_cleaner.py:45-47 on the frame: the date, close and volume columns are coerced in place. */
  method CoerceRoles(frame: Frame, roles: Roles, ps: Parsers)
    requires frame.Valid() && ValidRoles(roles, |frame.columns|)
    requires frame.columns[roles.date] == "Date" && frame.columns[roles.close] == "Close"
    requires frame.columns[roles.volume] == "Volume"
    modifies frame
    ensures frame.Valid()
    ensures frame.Value() == old(frame.Value()).(records := Map(old(frame.records), Coercion(roles, ps)))
  {
    ghost var t := frame.Value();
    frame.SetColumn("Date", Map(Column(frame.Value(), roles.date), (x: Cell) => CoerceDate(x, ps)));
    frame.SetColumn("Close", Map(Column(frame.Value(), roles.close), (x: Cell) => CoerceNumber(x, ps)));
    frame.SetColumn("Volume", Map(Column(frame.Value(), roles.volume), (x: Cell) => CoerceNumber(x, ps)));
    CoercionAssigns(t, roles, ps);
  }

  /** The three column assignments at data_cleaner.py:45-47 coerce each row's role cells and nothing else. */
  lemma CoercionAssigns(t: Table, roles: Roles, ps: Parsers)
    requires WellFormed(t)
    requires roles.date < |t.columns| && roles.close < |t.columns| && roles.volume < |t.columns|
    requires t.columns[roles.date] == "Date" && t.columns[roles.close] == "Close" && t.columns[roles.volume] == "Volume"
    ensures
      var t1 := Assign(t, "Date", Map(Column(t, roles.date), (x: Cell) => CoerceDate(x, ps)));
      var t2 := Assign(t1, "Close", Map(Column(t1, roles.close), (x: Cell) => CoerceNumber(x, ps)));
      var t3 := Assign(t2, "Volume", Map(Column(t2, roles.volume), (x: Cell) => CoerceNumber(x, ps)));
      t3 == t.(records := Map(t.records, Coercion(roles, ps)))
  {
    var d, c, v := roles.date, roles.close, roles.volume;
    var t1 := Assign(t, "Date", Map(Column(t, d), (x: Cell) => CoerceDate(x, ps)));
    var t2 := Assign(t1, "Close", Map(Column(t1, c), (x: Cell) => CoerceNumber(x, ps)));
    var t3 := Assign(t2, "Volume", Map(Column(t2, v), (x: Cell) => CoerceNumber(x, ps)));
    var expected := Map(t.records, Coercion(roles, ps));
    forall k | 0 <= k < |t.records| ensures t3.records[k] == expected[k] {
      CoercedRow(t, roles, ps, t1, t2, t3, k);
    }
    assert t3.records == expected;
  }

  /** Row k after the three assignments is the row with its role cells coerced. */
  lemma CoercedRow(t: Table, roles: Roles, ps: Parsers, t1: Table, t2: Table, t3: Table, k: int)
    requires WellFormed(t) && 0 <= k < |t.records|
    requires roles.date < |t.columns| && roles.close < |t.columns| && roles.volume < |t.columns|
    requires t.columns[roles.date] == "Date" && t.columns[roles.close] == "Close" && t.columns[roles.volume] == "Volume"
    requires t1 == Assign(t, "Date", Map(Column(t, roles.date), (x: Cell) => CoerceDate(x, ps)))
    requires WellFormed(t1) && t1.columns == t.columns
    requires t2 == Assign(t1, "Close", Map(Column(t1, roles.close), (x: Cell) => CoerceNumber(x, ps)))
    requires WellFormed(t2) && t2.columns == t.columns
    requires t3 == Assign(t2, "Volume", Map(Column(t2, roles.volume), (x: Cell) => CoerceNumber(x, ps)))
    ensures t3.records[k] == Coerce(t.records[k], roles, ps)
  {
    var rec := t.records[k];
    assert rec in t.records;
    assert InRange(rec, roles);
    var d, c, v := roles.date, roles.close, roles.volume;
    var want := Coerce(rec, roles, ps).cells;
    assert want == rec.cells[d := CoerceDate(rec.cells[d], ps)][c := CoerceNumber(rec.cells[c], ps)][v := CoerceNumber(rec.cells[v], ps)];
    assert t1.records[k].cells[c] == rec.cells[c] && t2.records[k].cells[v] == t1.records[k].cells[v] == rec.cells[v];
    forall j | 0 <= j < |want| ensures t3.records[k].cells[j] == want[j] {
      if j == v {
      } else if j == c {
        assert t3.records[k].cells[j] == t2.records[k].cells[j];
      } else if j == d {
        assert t3.records[k].cells[j] == t2.records[k].cells[j] == t1.records[k].cells[j];
      } else {
        assert t3.records[k].cells[j] == t2.records[k].cells[j] == t1.records[k].cells[j];
      }
    }
  }
}
