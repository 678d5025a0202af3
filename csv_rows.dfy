/** The permissive CSV loading of config_loader.py: `_detect_csv_type`,
    `_get_required_columns` and the row logic of `_load_csv_file`, over rows
    `csv.DictReader` has already parsed. */
module CsvRows {
  import opened Common

  datatype CsvType = Domains | Stacks

  /** `_detect_csv_type`. `firstLine` is the first line of the file, or
      `None` when reading it fails. */
  function DetectCsvType(path: string, firstLine: Option<string>): CsvType {
    var p := Lower(path);
    if Contains(p, "/domains/") then Domains
    else if Contains(p, "/stacks/") then Stacks
    else if firstLine.None? then Domains
    else
      var line := Lower(firstLine.value);
      if Contains(line, "stack") || Contains(line, "framework") then Stacks else Domains
  }

  /** `s` occurs in `a + s + b`. */
  lemma ContainsMiddle(a: string, s: string, b: string)
    ensures Contains(a + s + b, s)
  {
    assert (a + s + b)[|a|..|a| + |s|] == s;
    assert OccursAt(a + s + b, s, |a|);
  }

  lemma LowerAppend(a: string, b: string)
    ensures Lower(a + b) == Lower(a) + Lower(b)
  {
  }

  /** Lower-casing `a + s + b` keeps `s` when `s` has no upper-case letter. */
  lemma LowerAround(a: string, s: string, b: string)
    requires Lower(s) == s
    ensures Lower(a + s + b) == Lower(a) + s + Lower(b)
  {
    LowerAppend(a + s, b);
    LowerAppend(a, s);
  }

  /** A file whose path has a `domains` directory anywhere in it is read as
      a domain file, whatever directory it sits in. */
  lemma DomainsAnywhere(dir: string, rest: string, firstLine: Option<string>)
    ensures DetectCsvType(dir + "/domains/" + rest, firstLine) == Domains
  {
    assert Lower("/domains/") == "/domains/";
    LowerAround(dir, "/domains/", rest);
    ContainsMiddle(Lower(dir), "/domains/", Lower(rest));
  }

  /** A stack file below a configuration directory that itself lies under a
      directory named `domains`. */
  const NestedStacksPath: string := "/srv" + "/domains/" + "cfg" + "/stacks/" + "tokens.csv"

  /** The file at `NestedStacksPath` sits in a `stacks` directory, yet it is
      read as a domain file. */
  lemma NestedStacksReadAsDomains(firstLine: Option<string>)
    ensures Contains(Lower(NestedStacksPath), "/stacks/")
    ensures DetectCsvType(NestedStacksPath, firstLine) == Domains
  {
    var head := "/srv" + "/domains/" + "cfg";
    var tail := "tokens.csv";
    assert NestedStacksPath == "/srv" + "/domains/" + ("cfg" + "/stacks/" + tail);
    DomainsAnywhere("/srv", "cfg" + "/stacks/" + tail, firstLine);
    assert Lower("/stacks/") == "/stacks/";
    LowerAround(head, "/stacks/", tail);
    ContainsMiddle(Lower(head), "/stacks/", Lower(tail));
  }

  /** `_get_required_columns` */
  function RequiredColumns(t: CsvType): seq<string> {
    match t
    case Domains => ["term", "description", "examples", "category"]
    case Stacks => ["Category", "Guideline", "Description", "Do", "Don't"]
  }

  /** A missing value in one of these columns drops the row. */
  predicate IsCritical(col: string) {
    col == "name" || col == "title" || col == "description"
  }

  /** Only `description` of a domain file is both required and critical:
      the stack columns are capitalised, so none of them is. */
  lemma CriticalRequired(t: CsvType, col: string)
    ensures col in RequiredColumns(t) && IsCritical(col) <==> t == Domains && col == "description"
  {
  }

  // ------------------------------------------------------------- row issues

  /** The per-row warnings, one constructor per message of the source. */
  datatype RowIssue =
    | MissingField(col: string, row: nat)
    | DefaultUsed(col: string, row: nat)
    | InvalidPriority(row: nat)
    | TruncatedValue(col: string, row: nat)

  /** The entries of the warning list: the missing-column warning of a file,
      one `row_warning` per issue of a kept row, one `row_error` per dropped row. */
  datatype Warning =
    | SchemaWarning(file: string, missing: seq<string>)
    | RowWarning(file: string, row: nat, issue: RowIssue)
    | RowError(file: string, row: nat, issues: seq<RowIssue>)

  /** `not any(v.strip() for v in row.values() if v)` */
  predicate BlankRow(row: Table) {
    forall i :: 0 <= i < |row| ==> IsBlank(row[i].1)
  }

  /** `col not in row or not row[col].strip()` */
  predicate MissingValue(row: Table, col: string) {
    Get(row, col).None? || IsBlank(Get(row, col).value)
  }

  // ----------------------------------------------------- required columns

  datatype RowCheck = RowCheck(row: Table, valid: bool, issues: seq<RowIssue>)

  /** The required-column loop over `cols`: a missing critical field marks
      the row invalid, any other missing field gets `default_<col>`. */
  function FillRequired(row: Table, cols: seq<string>, idx: nat): RowCheck
    decreases |cols|
  {
    if cols == [] then RowCheck(row, true, [])
    else
      var prev := FillRequired(row, cols[..|cols| - 1], idx);
      var col := cols[|cols| - 1];
      if !MissingValue(prev.row, col) then prev
      else if IsCritical(col) then prev.(valid := false, issues := prev.issues + [MissingField(col, idx)])
      else prev.(row := Set(prev.row, col, "default_" + col), issues := prev.issues + [DefaultUsed(col, idx)])
  }

  lemma DefaultNotBlank(col: string)
    ensures !IsBlank("default_" + col)
  {
    assert ("default_" + col)[0] == 'd';
  }

  /** The loop never touches a critical column or a column outside `cols`. */
  lemma {:induction false} FillRequiredKeeps(row: Table, cols: seq<string>, idx: nat)
    ensures forall col :: IsCritical(col) || col !in cols ==>
      Get(FillRequired(row, cols, idx).row, col) == Get(row, col)
    decreases |cols|
  {
    if cols != [] {
      var init := cols[..|cols| - 1];
      FillRequiredKeeps(row, init, idx);
      assert cols == init + [cols[|cols| - 1]];
    }
  }

  /** Afterwards every non-critical column of `cols` is present and not blank. */
  lemma {:induction false} FillRequiredFills(row: Table, cols: seq<string>, idx: nat)
    ensures forall col :: col in cols && !IsCritical(col) ==> !MissingValue(FillRequired(row, cols, idx).row, col)
    decreases |cols|
  {
    if cols != [] {
      var init := cols[..|cols| - 1];
      var col := cols[|cols| - 1];
      FillRequiredFills(row, init, idx);
      assert cols == init + [col];
      var prev := FillRequired(row, init, idx);
      if MissingValue(prev.row, col) && !IsCritical(col) {
        DefaultNotBlank(col);
      }
    }
  }

  /** The loop keeps the row valid exactly when no critical column of `cols`
      is missing. */
  lemma {:induction false} FillRequiredValid(row: Table, cols: seq<string>, idx: nat)
    ensures FillRequired(row, cols, idx).valid <==>
      forall col :: col in cols && IsCritical(col) ==> !MissingValue(row, col)
    decreases |cols|
  {
    if cols != [] {
      var init := cols[..|cols| - 1];
      FillRequiredValid(row, init, idx);
      FillRequiredKeeps(row, init, idx);
      assert cols == init + [cols[|cols| - 1]];
    }
  }

  /** The required-column loop of `_load_csv_file`. */
  method FillRequiredColumns(row: Table, cols: seq<string>, idx: nat) returns (c: RowCheck)
    ensures c == FillRequired(row, cols, idx)
  {
    c := RowCheck(row, true, []);
    var i := 0;
    while i < |cols|
      invariant 0 <= i <= |cols|
      invariant c == FillRequired(row, cols[..i], idx)
    {
      var col := cols[i];
      assert cols[..i + 1][..i] == cols[..i];
      var v := Get(c.row, col);
      if v.None? || IsBlank(v.value) {
        if IsCritical(col) {
          c := c.(valid := false, issues := c.issues + [MissingField(col, idx)]);
        } else {
          c := c.(row := Set(c.row, col, "default_" + col), issues := c.issues + [DefaultUsed(col, idx)]);
        }
      }
      i := i + 1;
    }
    assert cols[..i] == cols;
  }

  // --------------------------------------------------------------- priority

  predicate IsDigit(c: char) {
    '0' <= c <= '9'
  }

  /** Decimal digits with single underscores between them (PEP 515). */
  predicate IsDigitRun(s: string)
    decreases |s|
  {
    && s != []
    && IsDigit(s[0])
    && (|s| == 1 || (if s[1] == '_' then IsDigitRun(s[2..]) else IsDigitRun(s[1..])))
  }

  /** `int(s)` succeeds, for ASCII text without a digit limit: surrounding
      whitespace, an optional sign, then digits. */
  predicate IsPythonInt(s: string) {
    var t := Strip(s);
    if t != [] && (t[0] == '+' || t[0] == '-') then IsDigitRun(t[1..]) else IsDigitRun(t)
  }

  lemma FiveIsInt()
    ensures IsPythonInt("5")
  {
    assert TrimStart("5") == "5";
    assert TrimEnd("5") == "5";
  }

  /** A `priority` that `int()` rejects becomes '5'. */
  function NormalisePriority(row: Table, idx: nat): (r: (Table, seq<RowIssue>))
    ensures Get(r.0, "priority").None? || IsPythonInt(Get(r.0, "priority").value)
    ensures forall col :: col != "priority" ==> Get(r.0, col) == Get(row, col)
    ensures Get(row, "priority").Some? && IsPythonInt(Get(row, "priority").value) ==> r.0 == row
  {
    var p := Get(row, "priority");
    if p.Some? && !IsPythonInt(p.value) then
      FiveIsInt();
      (Set(row, "priority", "5"), [InvalidPriority(idx)])
    else (row, [])
  }

  // ------------------------------------------------------------- truncation

  /** `value[:1000] + "..."` for values longer than 1000 characters. */
  function Truncate(v: string): (r: string)
    ensures |r| <= 1003
    ensures |v| <= 1000 ==> r == v
    ensures |v| > 1000 ==> |r| == 1003 && r[..1000] == v[..1000]
  {
    if |v| > 1000 then v[..1000] + "..." else v
  }

  /** The row with every long value truncated, keys and order unchanged. */
  function TruncateRow(row: Table): (r: Table)
    ensures |r| == |row|
    ensures forall i :: 0 <= i < |row| ==> r[i] == (row[i].0, Truncate(row[i].1))
  {
    seq(|row|, i requires 0 <= i < |row| => (row[i].0, Truncate(row[i].1)))
  }

  /** One warning per truncated column, in column order. */
  function LongIssues(row: Table, idx: nat): seq<RowIssue>
    decreases |row|
  {
    if row == [] then []
    else
      var last := row[|row| - 1];
      LongIssues(row[..|row| - 1], idx) + (if |last.1| > 1000 then [TruncatedValue(last.0, idx)] else [])
  }

  /** Looking a column up after truncation gives its value truncated. */
  lemma {:induction false} GetTruncated(row: Table, col: string)
    ensures Get(TruncateRow(row), col).Some? == Get(row, col).Some?
    ensures Get(row, col).Some? ==> Get(TruncateRow(row), col).value == Truncate(Get(row, col).value)
    decreases |row|
  {
    if row != [] {
      GetTruncated(row[1..], col);
      assert TruncateRow(row)[1..] == TruncateRow(row[1..]);
    }
  }

  /** The truncation loop of `_load_csv_file`. */
  method TruncateLongValues(row: Table, idx: nat) returns (out: Table, issues: seq<RowIssue>)
    ensures out == TruncateRow(row)
    ensures issues == LongIssues(row, idx)
  {
    out := row;
    issues := [];
    var i := 0;
    while i < |row|
      invariant 0 <= i <= |row|
      invariant |out| == |row|
      invariant forall j :: 0 <= j < i ==> out[j] == (row[j].0, Truncate(row[j].1))
      invariant forall j :: i <= j < |row| ==> out[j] == row[j]
      invariant issues == LongIssues(row[..i], idx)
    {
      var (col, value) := row[i];
      assert row[..i + 1][..i] == row[..i];
      if |value| > 1000 {
        out := out[i := (col, value[..1000] + "...")];
        issues := issues + [TruncatedValue(col, idx)];
      }
      i := i + 1;
    }
    assert row[..i] == row;
  }

  // ------------------------------------------------------------ one row

  datatype RowOutcome =
    | Skipped
    | Dropped(issues: seq<RowIssue>)
    | Kept(row: Table, issues: seq<RowIssue>)

  /** What `_load_csv_file` does with the reader row numbered `idx`. */
  function RowResult(row: Table, t: CsvType, idx: nat): RowOutcome {
    if BlankRow(row) then Skipped
    else
      var c := FillRequired(row, RequiredColumns(t), idx);
      var p := NormalisePriority(c.row, idx);
      var issues := c.issues + p.1 + LongIssues(p.0, idx);
      if c.valid then Kept(TruncateRow(p.0), issues) else Dropped(issues)
  }

  /** A non-blank row is dropped exactly when one of its type's critical
      required columns is missing or blank: for a domain file that is
      `description`, and a stack row is never dropped. */
  lemma RowDropped(row: Table, t: CsvType, idx: nat)
    ensures RowResult(row, t, idx).Skipped? <==> BlankRow(row)
    ensures RowResult(row, t, idx).Dropped? <==>
      !BlankRow(row) && t == Domains && MissingValue(row, "description")
  {
    var cols := RequiredColumns(t);
    FillRequiredValid(row, cols, idx);
    if t == Domains {
      assert "description" in cols;
    }
    forall col | col in cols && IsCritical(col)
      ensures t == Domains && col == "description"
    {
      CriticalRequired(t, col);
    }
  }

  /** A kept row has every required column present and not blank, no value
      longer than 1003 characters, and a `priority` that is an integer for
      `int()` unless truncation cut it to 1003 characters. */
  lemma KeptRow(row: Table, t: CsvType, idx: nat)
    requires RowResult(row, t, idx).Kept?
    ensures var r := RowResult(row, t, idx).row;
      && (forall col :: col in RequiredColumns(t) ==> !MissingValue(r, col))
      && (forall i :: 0 <= i < |r| ==> |r[i].1| <= 1003)
      && (Get(r, "priority").None? || IsPythonInt(Get(r, "priority").value) || |Get(r, "priority").value| == 1003)
  {
    var c := FillRequired(row, RequiredColumns(t), idx);
    var p := NormalisePriority(c.row, idx);
    forall col | col in RequiredColumns(t)
      ensures !MissingValue(TruncateRow(p.0), col)
    {
      RequiredKept(row, t, idx, col);
    }
    GetTruncated(p.0, "priority");
  }

  lemma RequiredNotPriority(t: CsvType, col: string)
    requires col in RequiredColumns(t)
    ensures col != "priority"
  {
    var cols := RequiredColumns(t);
    var i :| 0 <= i < |cols| && cols[i] == col;
    assert cols[i][0] != 'p';
  }

  /** After the loop over `cols` has kept the row valid, every column of
      `cols` is present and not blank. */
  lemma RequiredFilled(row: Table, cols: seq<string>, idx: nat, col: string)
    requires FillRequired(row, cols, idx).valid && col in cols
    ensures !MissingValue(FillRequired(row, cols, idx).row, col)
  {
    if IsCritical(col) {
      FillRequiredValid(row, cols, idx);
      FillRequiredKeeps(row, cols, idx);
    } else {
      FillRequiredFills(row, cols, idx);
    }
  }

  /** One required column of a kept row survives every later step. */
  lemma RequiredKept(row: Table, t: CsvType, idx: nat, col: string)
    requires !BlankRow(row) && FillRequired(row, RequiredColumns(t), idx).valid
    requires col in RequiredColumns(t)
    ensures var p := NormalisePriority(FillRequired(row, RequiredColumns(t), idx).row, idx);
      !MissingValue(TruncateRow(p.0), col)
  {
    var c := FillRequired(row, RequiredColumns(t), idx);
    var p := NormalisePriority(c.row, idx);
    RequiredFilled(row, RequiredColumns(t), idx, col);
    RequiredNotPriority(t, col);
    assert Get(p.0, col) == Get(c.row, col);
    GetTruncated(p.0, col);
    var v := Get(c.row, col).value;
    if |v| > 1000 {
      assert Truncate(v)[1000] == '.';
    }
  }

  /** The per-row checks of `_load_csv_file`. */
  method CheckRow(row: Table, t: CsvType, idx: nat) returns (outcome: RowOutcome)
    ensures outcome == RowResult(row, t, idx)
  {
    var blank := true;
    var i := 0;
    while i < |row|
      invariant 0 <= i <= |row|
      invariant blank <==> forall j :: 0 <= j < i ==> IsBlank(row[j].1)
    {
      if !IsBlank(row[i].1) {
        blank := false;
      }
      i := i + 1;
    }
    if blank {
      return Skipped;
    }
    var c := FillRequiredColumns(row, RequiredColumns(t), idx);
    var p := NormalisePriority(c.row, idx);
    var truncated, long := TruncateLongValues(p.0, idx);
    var issues := c.issues + p.1 + long;
    if c.valid {
      outcome := Kept(truncated, issues);
    } else {
      outcome := Dropped(issues);
    }
  }

  // ------------------------------------------------------------- one file

  /** Loader metadata: `_source`, `_row` and `_warnings`. */
  datatype Meta = Meta(source: string, row: nat, warnings: seq<RowIssue>)

  /** A data item: its string fields in order, and the loader's metadata
      when it came from an external CSV file. */
  datatype Item = Item(fields: Table, meta: Option<Meta>)

  /** A CSV file as `csv.DictReader` reads it: its path, header and rows. */
  datatype CsvFile = CsvFile(path: string, fieldnames: seq<string>, rows: seq<Table>)

  /** `set(required_columns) - set(fieldnames)`, listed in the order of the
      required columns. */
  function MissingColumns(fieldnames: seq<string>, t: CsvType): seq<string> {
    MissingFrom(RequiredColumns(t), fieldnames)
  }

  /** The columns of `cols`, in order, that are not among `fieldnames`. */
  function MissingFrom(cols: seq<string>, fieldnames: seq<string>): seq<string>
    decreases |cols|
  {
    if cols == [] then []
    else
      var col := cols[|cols| - 1];
      MissingFrom(cols[..|cols| - 1], fieldnames) + (if col in fieldnames then [] else [col])
  }

  /** A column is reported missing exactly when it is required and absent
      from the header. */
  lemma {:induction false} MissingFromSpec(cols: seq<string>, fieldnames: seq<string>)
    ensures forall col :: col in MissingFrom(cols, fieldnames) <==> col in cols && col !in fieldnames
    decreases |cols|
  {
    if cols != [] {
      var init := cols[..|cols| - 1];
      MissingFromSpec(init, fieldnames);
      assert cols == init + [cols[|cols| - 1]];
    }
  }

  function SchemaWarnings(file: CsvFile, t: CsvType): seq<Warning> {
    var missing := MissingColumns(file.fieldnames, t);
    if missing != [] then [SchemaWarning(file.path, missing)] else []
  }

  /** The `row_warning` entries of a kept row. */
  function RowWarnings(path: string, idx: nat, issues: seq<RowIssue>): (w: seq<Warning>)
    ensures |w| == |issues|
    ensures forall i :: 0 <= i < |issues| ==> w[i] == RowWarning(path, idx, issues[i])
  {
    seq(|issues|, i requires 0 <= i < |issues| => RowWarning(path, idx, issues[i]))
  }

  /** The fate of each reader row, numbered from 1. */
  function Outcomes(rows: seq<Table>, t: CsvType): (o: seq<RowOutcome>)
    ensures |o| == |rows|
    ensures forall i :: 0 <= i < |rows| ==> o[i] == RowResult(rows[i], t, i + 1)
  {
    seq(|rows|, i requires 0 <= i < |rows| => RowResult(rows[i], t, i + 1))
  }

  /** The data and row warnings the loop collects from the fates of the rows. */
  function Collected(path: string, outcomes: seq<RowOutcome>): (seq<Item>, seq<Warning>)
    decreases |outcomes|
  {
    if outcomes == [] then ([], [])
    else Extended(Collected(path, outcomes[..|outcomes| - 1]), path, |outcomes|, outcomes[|outcomes| - 1])
  }

  /** The data and warnings after the row numbered `idx`, with fate `o`. */
  function Extended(prev: (seq<Item>, seq<Warning>), path: string, idx: nat, o: RowOutcome): (seq<Item>, seq<Warning>) {
    match o
    case Skipped => prev
    case Dropped(issues) => (prev.0, prev.1 + [RowError(path, idx, issues)])
    case Kept(r, issues) =>
      (prev.0 + [Item(r, Some(Meta(path, idx, issues)))], prev.1 + RowWarnings(path, idx, issues))
  }

  lemma CollectedStep(path: string, outcomes: seq<RowOutcome>, i: nat)
    requires i < |outcomes|
    ensures Collected(path, outcomes[..i + 1]) == Extended(Collected(path, outcomes[..i]), path, i + 1, outcomes[i])
  {
    assert outcomes[..i + 1][..i] == outcomes[..i];
  }

  /** What `_load_csv_file` returns and the warnings it records. */
  function LoadedRows(file: CsvFile, t: CsvType): (seq<Item>, seq<Warning>) {
    var rows := Collected(file.path, Outcomes(file.rows, t));
    (rows.0, SchemaWarnings(file, t) + rows.1)
  }

  /** The row loop of `_load_csv_file` (the type is chosen by the caller). */
  method LoadRows(file: CsvFile, t: CsvType) returns (data: seq<Item>, warnings: seq<Warning>)
    ensures (data, warnings) == LoadedRows(file, t)
  {
    data := [];
    var rowWarnings: seq<Warning> := [];
    var rows := file.rows;
    ghost var outcomes := Outcomes(rows, t);
    var i := 0;
    while i < |rows|
      invariant 0 <= i <= |rows|
      invariant (data, rowWarnings) == Collected(file.path, outcomes[..i])
    {
      var idx := i + 1;
      CollectedStep(file.path, outcomes, i);
      var outcome := CheckRow(rows[i], t, idx);
      match outcome {
        case Skipped =>
        case Dropped(issues) =>
          rowWarnings := rowWarnings + [RowError(file.path, idx, issues)];
        case Kept(r, issues) =>
          data := data + [Item(r, Some(Meta(file.path, idx, issues)))];
          rowWarnings := rowWarnings + RowWarnings(file.path, idx, issues);
      }
      i := i + 1;
    }
    assert outcomes[..i] == outcomes;
    warnings := SchemaWarnings(file, t) + rowWarnings;
  }

  // ------------------------------------------------- which rows became what

  /** The row numbers, from 1, of the rows kept (`kept`) or dropped (`!kept`). */
  function RowsWhere(outcomes: seq<RowOutcome>, kept: bool): seq<nat>
    decreases |outcomes|
  {
    if outcomes == [] then []
    else
      var n := |outcomes|;
      var o := outcomes[n - 1];
      RowsWhere(outcomes[..n - 1], kept) + (if (kept && o.Kept?) || (!kept && o.Dropped?) then [n] else [])
  }

  /** The `_row` of each item. */
  function DataRows(data: seq<Item>): seq<nat>
    decreases |data|
  {
    if data == [] then []
    else DataRows(data[..|data| - 1]) + [data[|data| - 1].meta.GetOr(Meta("", 0, [])).row]
  }

  /** The row of each `row_error`, in order. */
  function ErrorRows(w: seq<Warning>): seq<nat>
    decreases |w|
  {
    if w == [] then []
    else ErrorRows(w[..|w| - 1]) + (if w[|w| - 1].RowError? then [w[|w| - 1].row] else [])
  }

  lemma {:induction false} ErrorRowsAppend(a: seq<Warning>, b: seq<Warning>)
    ensures ErrorRows(a + b) == ErrorRows(a) + ErrorRows(b)
    decreases |b|
  {
    if b == [] {
      assert a + b == a;
    } else {
      var init := b[..|b| - 1];
      var last := b[|b| - 1];
      ErrorRowsAppend(a, init);
      assert (a + b)[..|a + b| - 1] == a + init;
      assert (a + b)[|a + b| - 1] == last;
      var tail := if last.RowError? then [last.row] else [];
      assert ErrorRows(a + b) == ErrorRows(a + init) + tail;
      assert ErrorRows(b) == ErrorRows(init) + tail;
    }
  }

  lemma {:induction false} NoErrorRows(w: seq<Warning>)
    requires forall i :: 0 <= i < |w| ==> !w[i].RowError?
    ensures ErrorRows(w) == []
    decreases |w|
  {
    if w != [] {
      NoErrorRows(w[..|w| - 1]);
    }
  }

  /** Every kept row becomes one item, in reader order, and every dropped
      row yields exactly one `row_error`, in reader order; skipped rows
      yield neither. */
  lemma {:induction false} CollectedOrder(path: string, outcomes: seq<RowOutcome>)
    ensures DataRows(Collected(path, outcomes).0) == RowsWhere(outcomes, true)
    ensures ErrorRows(Collected(path, outcomes).1) == RowsWhere(outcomes, false)
    decreases |outcomes|
  {
    if outcomes != [] {
      var n := |outcomes|;
      var init := outcomes[..n - 1];
      CollectedOrder(path, init);
      var prev := Collected(path, init);
      match outcomes[n - 1]
      case Skipped =>
      case Dropped(issues) =>
        ErrorRowsAppend(prev.1, [RowError(path, n, issues)]);
        assert ErrorRows([RowError(path, n, issues)]) == [n];
      case Kept(r, issues) =>
        ErrorRowsAppend(prev.1, RowWarnings(path, n, issues));
        NoErrorRows(RowWarnings(path, n, issues));
        assert (prev.0 + [Item(r, Some(Meta(path, n, issues)))])[..|prev.0|] == prev.0;
    }
  }

  /** `item` is what the loop made of a kept row of the file at `path`:
      it carries the path, the row number and that row's warnings, and its
      fields are the checked row. */
  predicate ItemFromRow(item: Item, path: string, outcomes: seq<RowOutcome>) {
    && item.meta.Some?
    && item.meta.value.source == path
    && 1 <= item.meta.value.row <= |outcomes|
    && outcomes[item.meta.value.row - 1] == Kept(item.fields, item.meta.value.warnings)
  }

  lemma ItemFromLongerRows(item: Item, path: string, init: seq<RowOutcome>, outcomes: seq<RowOutcome>)
    requires ItemFromRow(item, path, init)
    requires |init| <= |outcomes| && init == outcomes[..|init|]
    ensures ItemFromRow(item, path, outcomes)
  {
    assert outcomes[item.meta.value.row - 1] == init[item.meta.value.row - 1];
  }

  /** Every item comes from a kept row of the file. */
  lemma {:induction false} CollectedItems(path: string, outcomes: seq<RowOutcome>)
    ensures forall item :: item in Collected(path, outcomes).0 ==> ItemFromRow(item, path, outcomes)
    decreases |outcomes|
  {
    if outcomes != [] {
      var n := |outcomes|;
      var init := outcomes[..n - 1];
      CollectedItems(path, init);
      var prev := Collected(path, init).0;
      var data := Collected(path, outcomes).0;
      var o := outcomes[n - 1];
      assert data == prev + (if o.Kept? then [Item(o.row, Some(Meta(path, n, o.issues)))] else []);
      forall item | item in data
        ensures ItemFromRow(item, path, outcomes)
      {
        if item in prev {
          ItemFromLongerRows(item, path, init, outcomes);
        }
      }
    }
  }

  /** What `_load_csv_file` makes of a file: its items are its kept rows, in
      reader order, each the checked row with its row number and warnings;
      its `row_error` entries are its dropped rows, one each, in order. */
  lemma LoadedRowsSpec(file: CsvFile, t: CsvType)
    ensures DataRows(LoadedRows(file, t).0) == RowsWhere(Outcomes(file.rows, t), true)
    ensures ErrorRows(LoadedRows(file, t).1) == RowsWhere(Outcomes(file.rows, t), false)
    ensures forall item :: item in LoadedRows(file, t).0 ==> ItemFromRow(item, file.path, Outcomes(file.rows, t))
  {
    var outcomes := Outcomes(file.rows, t);
    CollectedOrder(file.path, outcomes);
    CollectedItems(file.path, outcomes);
    LoadedErrorRows(file, t);
  }

  lemma LoadedErrorRows(file: CsvFile, t: CsvType)
    ensures ErrorRows(LoadedRows(file, t).1) == RowsWhere(Outcomes(file.rows, t), false)
  {
    var outcomes := Outcomes(file.rows, t);
    CollectedOrder(file.path, outcomes);
    ErrorRowsAppend(SchemaWarnings(file, t), Collected(file.path, outcomes).1);
    NoErrorRows(SchemaWarnings(file, t));
  }

  /** A stack file loses no row: every row is skipped or kept, so it yields
      no `row_error`. */
  lemma StackRowsNeverDropped(file: CsvFile)
    ensures ErrorRows(LoadedRows(file, Stacks).1) == []
  {
    LoadedErrorRows(file, Stacks);
    StackOutcomesNotDropped(file.rows);
    NoneDropped(Outcomes(file.rows, Stacks));
  }

  lemma StackOutcomesNotDropped(rows: seq<Table>)
    ensures forall i :: 0 <= i < |rows| ==> !Outcomes(rows, Stacks)[i].Dropped?
  {
    forall i | 0 <= i < |rows|
      ensures !Outcomes(rows, Stacks)[i].Dropped?
    {
      RowDropped(rows[i], Stacks, i + 1);
    }
  }

  lemma {:induction false} NoneDropped(outcomes: seq<RowOutcome>)
    requires forall i :: 0 <= i < |outcomes| ==> !outcomes[i].Dropped?
    ensures RowsWhere(outcomes, false) == []
    decreases |outcomes|
  {
    if outcomes != [] {
      NoneDropped(outcomes[..|outcomes| - 1]);
    }
  }
}
