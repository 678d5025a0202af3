/** The file validators of config_loader.py over already-parsed data:
    `_validate_main_config`, `_validate_brand_config` and
    `_validate_csv_file`. */
module JsonValidation {
  import opened Common
  import opened HexColor
  import opened CsvRows

  /** A value `json.load` returns. An object keeps its keys in file order. */
  datatype Json =
    | JNull
    | JBool(b: bool)
    | JInt(i: int)
    | JFloat(r: real)
    | JStr(s: string)
    | JArray(elems: seq<Json>)
    | JObject(members: seq<(string, Json)>)

  /** The value of the first member named `key`. */
  function Lookup(members: seq<(string, Json)>, key: string): (r: Option<Json>)
    ensures r.Some? <==> exists i :: 0 <= i < |members| && members[i].0 == key
    ensures r.Some? ==> (key, r.value) in members
  {
    if members == [] then None
    else if members[0].0 == key then Some(members[0].1)
    else
      var r := Lookup(members[1..], key);
      assert forall i :: 0 < i < |members| ==> members[i] == members[1..][i - 1];
      r
  }

  /** `key in v` for a string key, or None where Python raises `TypeError`
      (a number, a boolean or null on the right). */
  function PyIn(key: string, v: Json): (r: Option<bool>)
    ensures r.Some? <==> v.JObject? || v.JArray? || v.JStr?
  {
    match v
    case JObject(m) => Some(Lookup(m, key).Some?)
    case JArray(e) => Some(JStr(key) in e)
    case JStr(s) => Some(Contains(s, key))
    case _ => None
  }

  /** `v[key]` for a string key, or None where Python raises. */
  function PyIndex(v: Json, key: string): Option<Json> {
    if v.JObject? then Lookup(v.members, key) else None
  }

  /** `isinstance(v, int)`: booleans are integers in Python. */
  predicate IsPyInt(v: Json) {
    v.JInt? || v.JBool?
  }

  // ------------------------------------------------------------ main config

  datatype MainConfigError =
    | MainInvalidJson
    | MissingVersion
    | MaxEntriesNotInt
    | MainValidationError

  /** The errors of the `performance` check, given `performance` is present. */
  function PerformanceErrors(perf: Json): seq<MainConfigError> {
    match PyIn("max_entries", perf)
    case None => [MainValidationError]
    case Some(present) =>
      if !present then []
      else
        match PyIndex(perf, "max_entries")
        case None => [MainValidationError]
        case Some(m) => if IsPyInt(m) then [] else [MaxEntriesNotInt]
  }

  /** The errors `_validate_main_config` reports on the parsed file (None
      when the file is not JSON), in order. */
  function MainConfigErrors(doc: Option<Json>): seq<MainConfigError> {
    if doc.None? then [MainInvalidJson]
    else
      var d := doc.value;
      match PyIn("version", d)
      case None => [MainValidationError]
      case Some(hasVersion) =>
        var first := if hasVersion then [] else [MissingVersion];
        if PyIn("performance", d) != Some(true) then first
        else
          match PyIndex(d, "performance")
          case None => first + [MainValidationError]
          case Some(perf) => first + PerformanceErrors(perf)
  }

  /** `_validate_main_config` */
  method ValidateMainConfig(doc: Option<Json>) returns (valid: bool, errors: seq<MainConfigError>)
    ensures errors == MainConfigErrors(doc)
    ensures valid <==> errors == []
  {
    valid := true;
    errors := [];
    if doc.None? {
      return false, [MainInvalidJson];
    }
    var d := doc.value;
    var hasVersion := PyIn("version", d);
    if hasVersion.None? {
      return false, [MainValidationError];
    }
    if !hasVersion.value {
      errors := errors + [MissingVersion];
      valid := false;
    }
    if PyIn("performance", d) == Some(true) {
      var perf := PyIndex(d, "performance");
      if perf.None? {
        return false, errors + [MainValidationError];
      }
      var hasMax := PyIn("max_entries", perf.value);
      if hasMax.None? {
        return false, errors + [MainValidationError];
      }
      if hasMax.value {
        var m := PyIndex(perf.value, "max_entries");
        if m.None? {
          return false, errors + [MainValidationError];
        }
        if !IsPyInt(m.value) {
          errors := errors + [MaxEntriesNotInt];
          valid := false;
        }
      }
    }
  }

  /** For a JSON object, the main config is valid exactly when it has a
      `version` and its `performance`, if present, is an object whose
      `max_entries`, if present, is an integer, or a list or string in
      which `max_entries` does not occur. */
  lemma MainObjectValid(members: seq<(string, Json)>)
    ensures var perf := Lookup(members, "performance");
      MainConfigErrors(Some(JObject(members))) == [] <==>
        && Lookup(members, "version").Some?
        && (perf.Some? ==>
              || (perf.value.JObject? && (Lookup(perf.value.members, "max_entries").Some? ==>
                                           IsPyInt(Lookup(perf.value.members, "max_entries").value)))
              || (perf.value.JArray? && JStr("max_entries") !in perf.value.elems)
              || (perf.value.JStr? && !Contains(perf.value.s, "max_entries")))
  {
  }

  /** `MissingVersion` is reported exactly for a parsed object, list or
      string in which `version` does not occur, and every error is reported
      at most once. */
  lemma MainConfigErrorsSpec(doc: Option<Json>)
    ensures MissingVersion in MainConfigErrors(doc) <==>
      doc.Some? && PyIn("version", doc.value) == Some(false)
    ensures |MainConfigErrors(doc)| <= 2
    ensures MainConfigErrors(doc) == [] ==> doc.Some? && PyIn("version", doc.value) == Some(true)
  {
    if doc.Some? && PyIn("version", doc.value).Some? && PyIn("performance", doc.value) == Some(true) {
      var perf := PyIndex(doc.value, "performance");
      if perf.Some? {
        assert MissingVersion !in PerformanceErrors(perf.value);
      }
    }
  }

  /** The membership test also accepts a list holding the string "version":
      `["version"]` passes as a valid main config. */
  lemma VersionListAccepted()
    ensures MainConfigErrors(Some(JArray([JStr("version")]))) == []
  {
    assert JStr("performance") !in [JStr("version")];
  }

  // ------------------------------------------------------------- brand file

  datatype BrandFileError =
    | BrandInvalidJson
    | MissingSection(field: string)
    | MissingPrimary
    | InvalidHex(name: string, value: string)
    | BrandValidationError

  datatype BrandFileValidation = BrandFileValidation(valid: bool, errors: seq<BrandFileError>, missingFields: seq<string>)

  const RequiredSections: seq<string> := ["colors", "typography"]

  /** The fields of `fields`, in order, that do not occur in `d`. */
  function MissingSections(d: Json, fields: seq<string>): seq<string>
    decreases |fields|
  {
    if fields == [] then []
    else
      var f := fields[|fields| - 1];
      MissingSections(d, fields[..|fields| - 1]) + (if PyIn(f, d) == Some(false) then [f] else [])
  }

  function SectionErrors(missing: seq<string>): (e: seq<BrandFileError>)
    ensures |e| == |missing| && forall i :: 0 <= i < |missing| ==> e[i] == MissingSection(missing[i])
  {
    seq(|missing|, i requires 0 <= i < |missing| => MissingSection(missing[i]))
  }

  /** The hex check of the `colors.items()` loop. */
  function HexErrors(colors: seq<(string, Json)>): seq<BrandFileError>
    decreases |colors|
  {
    if colors == [] then []
    else
      var (name, v) := colors[|colors| - 1];
      HexErrors(colors[..|colors| - 1]) + (if v.JStr? && !IsHexColorText(v.s) then [InvalidHex(name, v.s)] else [])
  }

  /** The errors of the `colors` section check. */
  function ColorsErrors(d: Json): seq<BrandFileError> {
    if PyIn("colors", d) != Some(true) then []
    else
      match PyIndex(d, "colors")
      case None => [BrandValidationError]
      case Some(colors) =>
        match PyIn("primary", colors)
        case None => [BrandValidationError]
        case Some(hasPrimary) =>
          (if hasPrimary then [] else [MissingPrimary])
          + (if colors.JObject? then HexErrors(colors.members) else [BrandValidationError])
  }

  /** The errors and missing fields `_validate_brand_config` reports on the
      parsed file (None when the file is not JSON). */
  function BrandFileErrors(doc: Option<Json>): (seq<BrandFileError>, seq<string>) {
    if doc.None? then ([BrandInvalidJson], [])
    else
      var d := doc.value;
      if PyIn("colors", d).None? then ([BrandValidationError], [])
      else
        var missing := MissingSections(d, RequiredSections);
        (SectionErrors(missing) + ColorsErrors(d), missing)
  }

  /** `_validate_brand_config` */
  method ValidateBrandFile(doc: Option<Json>) returns (v: BrandFileValidation)
    ensures (v.errors, v.missingFields) == BrandFileErrors(doc)
    ensures v.valid <==> v.errors == []
  {
    if doc.None? {
      return BrandFileValidation(false, [BrandInvalidJson], []);
    }
    var d := doc.value;
    if PyIn("colors", d).None? {
      // membership in a number, boolean or null raises on the first field
      return BrandFileValidation(false, [BrandValidationError], []);
    }
    var valid := true;
    var errors: seq<BrandFileError> := [];
    var missing: seq<string> := [];
    var i := 0;
    while i < |RequiredSections|
      invariant 0 <= i <= |RequiredSections|
      invariant missing == MissingSections(d, RequiredSections[..i])
      invariant errors == SectionErrors(missing)
      invariant valid <==> errors == []
    {
      var field := RequiredSections[i];
      assert RequiredSections[..i + 1][..i] == RequiredSections[..i];
      if PyIn(field, d) == Some(false) {
        missing := missing + [field];
        errors := errors + [MissingSection(field)];
        valid := false;
      }
      i := i + 1;
    }
    assert RequiredSections[..i] == RequiredSections;
    var colorErrors := ValidateColors(d);
    errors := errors + colorErrors;
    v := BrandFileValidation(errors == [], errors, missing);
  }

  /** The `colors` part of `_validate_brand_config`. */
  method ValidateColors(d: Json) returns (errors: seq<BrandFileError>)
    ensures errors == ColorsErrors(d)
  {
    errors := [];
    if PyIn("colors", d) != Some(true) {
      return;
    }
    var colors := PyIndex(d, "colors");
    if colors.None? {
      return [BrandValidationError];
    }
    var hasPrimary := PyIn("primary", colors.value);
    if hasPrimary.None? {
      return [BrandValidationError];
    }
    if !hasPrimary.value {
      errors := [MissingPrimary];
    }
    if !colors.value.JObject? {
      // `.items()` exists only on a dict
      return errors + [BrandValidationError];
    }
    var members := colors.value.members;
    var hexErrors: seq<BrandFileError> := [];
    var i := 0;
    while i < |members|
      invariant 0 <= i <= |members|
      invariant hexErrors == HexErrors(members[..i])
    {
      var (name, value) := members[i];
      assert members[..i + 1][..i] == members[..i];
      if value.JStr? && !IsHexColorText(value.s) {
        hexErrors := hexErrors + [InvalidHex(name, value.s)];
      }
      i := i + 1;
    }
    assert members[..i] == members;
    errors := errors + hexErrors;
  }

  lemma {:induction false} HexErrorsSpec(colors: seq<(string, Json)>)
    ensures forall e :: e in HexErrors(colors) ==> e.InvalidHex?
    ensures forall name, value :: InvalidHex(name, value) in HexErrors(colors) <==>
      (name, JStr(value)) in colors && !IsHexColorText(value)
    decreases |colors|
  {
    if colors != [] {
      var init := colors[..|colors| - 1];
      var last := colors[|colors| - 1];
      HexErrorsSpec(init);
      assert colors == init + [last];
      var tail := if last.1.JStr? && !IsHexColorText(last.1.s) then [InvalidHex(last.0, last.1.s)] else [];
      assert HexErrors(colors) == HexErrors(init) + tail;
      forall name, value
        ensures InvalidHex(name, value) in HexErrors(colors) <==> (name, JStr(value)) in colors && !IsHexColorText(value)
      {
        assert (name, JStr(value)) in colors <==> (name, JStr(value)) in init || (name, JStr(value)) == last;
      }
    }
  }

  lemma {:induction false} MissingSectionsSpec(members: seq<(string, Json)>, fields: seq<string>)
    ensures forall f :: f in MissingSections(JObject(members), fields) <==>
      f in fields && Lookup(members, f).None?
    decreases |fields|
  {
    if fields != [] {
      var init := fields[..|fields| - 1];
      MissingSectionsSpec(members, init);
      assert fields == init + [fields[|fields| - 1]];
    }
  }

  /** For a JSON object, a section is reported missing exactly when the
      object lacks it. */
  lemma BrandObjectSections(members: seq<(string, Json)>)
    ensures var r := BrandFileErrors(Some(JObject(members)));
      && (forall f :: f in r.1 <==> f in RequiredSections && Lookup(members, f).None?)
      && (forall f :: MissingSection(f) in r.0 <==> f in r.1)
  {
    MissingSectionsSpec(members, RequiredSections);
    var missing := MissingSections(JObject(members), RequiredSections);
    ColorsErrorsNoSection(JObject(members));
    forall f
      ensures MissingSection(f) in SectionErrors(missing) <==> f in missing
    {
      if MissingSection(f) in SectionErrors(missing) {
        var i :| 0 <= i < |missing| && SectionErrors(missing)[i] == MissingSection(f);
      }
      if f in missing {
        var i :| 0 <= i < |missing| && missing[i] == f;
        assert SectionErrors(missing)[i] == MissingSection(f);
      }
    }
  }

  lemma ColorsErrorsNoSection(d: Json)
    ensures forall e :: e in ColorsErrors(d) ==> !e.MissingSection?
  {
    if PyIn("colors", d) == Some(true) {
      var colors := PyIndex(d, "colors");
      if colors.Some? && colors.value.JObject? {
        HexErrorsSpec(colors.value.members);
      }
    }
  }

  /** When `colors` is an object, a colour is reported as invalid hex
      exactly when its value is a string that is not `#` and six hex digits. */
  lemma BrandObjectHex(members: seq<(string, Json)>)
    requires Lookup(members, "colors").Some? && Lookup(members, "colors").value.JObject?
    ensures var colors := Lookup(members, "colors").value;
      forall name, value :: InvalidHex(name, value) in BrandFileErrors(Some(JObject(members))).0 <==>
        (name, JStr(value)) in colors.members && !IsHexColorText(value)
  {
    var colors := Lookup(members, "colors").value;
    HexErrorsSpec(colors.members);
    var missing := MissingSections(JObject(members), RequiredSections);
    assert forall e :: e in SectionErrors(missing) ==> e.MissingSection?;
  }

  lemma HexErrorsEmpty(colors: seq<(string, Json)>)
    ensures HexErrors(colors) == [] <==>
      forall name, value :: (name, JStr(value)) in colors ==> IsHexColorText(value)
  {
    HexErrorsSpec(colors);
    var he := HexErrors(colors);
    if he != [] {
      var e := he[0];
      assert e in he;
      assert InvalidHex(e.name, e.value) in he;
    }
  }

  lemma ColorsErrorsEmpty(members: seq<(string, Json)>)
    requires Lookup(members, "colors").Some?
    ensures var colors := Lookup(members, "colors").value;
      ColorsErrors(JObject(members)) == [] <==>
        && colors.JObject?
        && Lookup(colors.members, "primary").Some?
        && HexErrors(colors.members) == []
  {
  }

  lemma NoMissingSections(members: seq<(string, Json)>)
    ensures MissingSections(JObject(members), RequiredSections) == [] <==>
      Lookup(members, "colors").Some? && Lookup(members, "typography").Some?
  {
    assert RequiredSections[..1] == ["colors"];
    assert RequiredSections[..1][..0] == [];
  }

  /** A brand file object is valid exactly when it has both sections,
      `colors` is an object with a `primary`, and every string colour is
      valid hex. */
  lemma BrandObjectValid(members: seq<(string, Json)>)
    ensures var colors := Lookup(members, "colors");
      BrandFileErrors(Some(JObject(members))).0 == [] <==>
        && Lookup(members, "typography").Some?
        && colors.Some? && colors.value.JObject?
        && Lookup(colors.value.members, "primary").Some?
        && forall name, value :: (name, JStr(value)) in colors.value.members ==> IsHexColorText(value)
  {
    var d := JObject(members);
    var missing := MissingSections(d, RequiredSections);
    NoMissingSections(members);
    var errors := BrandFileErrors(Some(d)).0;
    assert errors == SectionErrors(missing) + ColorsErrors(d);
    assert errors == [] <==> missing == [] && ColorsErrors(d) == [] by {
      assert |SectionErrors(missing)| == |missing|;
    }
    var colors := Lookup(members, "colors");
    if colors.Some? {
      ColorsErrorsEmpty(members);
      if colors.value.JObject? {
        HexErrorsEmpty(colors.value.members);
      }
    }
  }

  // --------------------------------------------------------------- CSV file

  datatype CsvFileError =
    | MissingRequiredColumns(columns: seq<string>)
    | EmptyRequiredField(column: string, row: nat)

  datatype CsvFileValidation = CsvFileValidation(valid: bool, errors: seq<CsvFileError>, rowCount: nat)

  /** The required columns, in order, that the row has with a blank value. */
  function EmptyFields(row: Table, cols: seq<string>, idx: nat): seq<CsvFileError>
    decreases |cols|
  {
    if cols == [] then []
    else
      var col := cols[|cols| - 1];
      var v := Get(row, col);
      EmptyFields(row, cols[..|cols| - 1], idx) + (if v.Some? && IsBlank(v.value) then [EmptyRequiredField(col, idx)] else [])
  }

  /** The blank-field errors of the rows, numbered from 1. */
  function RowFieldErrors(rows: seq<Table>, cols: seq<string>): seq<CsvFileError>
    decreases |rows|
  {
    if rows == [] then []
    else RowFieldErrors(rows[..|rows| - 1], cols) + EmptyFields(rows[|rows| - 1], cols, |rows|)
  }

  /** The errors `_validate_csv_file` reports for a file of type `t`. */
  function CsvFileErrors(file: CsvFile, t: CsvType): seq<CsvFileError> {
    HeaderErrors(file.fieldnames, t) + RowFieldErrors(file.rows, RequiredColumns(t))
  }

  /** The missing-columns error of a header, if any. */
  function HeaderErrors(fieldnames: seq<string>, t: CsvType): seq<CsvFileError> {
    var missing := MissingColumns(fieldnames, t);
    if missing != [] then [MissingRequiredColumns(missing)] else []
  }

  /** `_validate_csv_file` */
  method ValidateCsvFile(file: CsvFile, t: CsvType) returns (v: CsvFileValidation)
    ensures v.errors == CsvFileErrors(file, t)
    ensures v.rowCount == |file.rows|
    ensures v.valid <==> v.errors == []
  {
    var cols := RequiredColumns(t);
    var errors := HeaderErrors(file.fieldnames, t);
    var head := errors;
    var rowCount := 0;
    while rowCount < |file.rows|
      invariant 0 <= rowCount <= |file.rows|
      invariant errors == head + RowFieldErrors(file.rows[..rowCount], cols)
    {
      var row := file.rows[rowCount];
      RowErrorsStep(head, errors, file.rows, cols, rowCount);
      var rowErrors := CheckRowFields(row, cols, rowCount + 1);
      errors := errors + rowErrors;
      rowCount := rowCount + 1;
    }
    assert file.rows[..rowCount] == file.rows;
    v := CsvFileValidation(errors == [], errors, rowCount);
  }

  /** One more row extends the errors collected so far by its blank fields. */
  lemma RowErrorsStep(head: seq<CsvFileError>, errors: seq<CsvFileError>, rows: seq<Table>, cols: seq<string>, k: nat)
    requires k < |rows| && errors == head + RowFieldErrors(rows[..k], cols)
    ensures errors + EmptyFields(rows[k], cols, k + 1) == head + RowFieldErrors(rows[..k + 1], cols)
  {
    assert rows[..k + 1][..k] == rows[..k];
  }

  /** The inner loop of `_validate_csv_file` over the required columns. */
  method CheckRowFields(row: Table, cols: seq<string>, idx: nat) returns (errors: seq<CsvFileError>)
    ensures errors == EmptyFields(row, cols, idx)
  {
    errors := [];
    var i := 0;
    while i < |cols|
      invariant 0 <= i <= |cols|
      invariant errors == EmptyFields(row, cols[..i], idx)
    {
      assert cols[..i + 1][..i] == cols[..i];
      var v := Get(row, cols[i]);
      if v.Some? && IsBlank(v.value) {
        errors := errors + [EmptyRequiredField(cols[i], idx)];
      }
      i := i + 1;
    }
    assert cols[..i] == cols;
  }

  lemma {:induction false} EmptyFieldsSpec(row: Table, cols: seq<string>, idx: nat)
    ensures forall e :: e in EmptyFields(row, cols, idx) ==> e.EmptyRequiredField? && e.row == idx
    ensures forall col :: EmptyRequiredField(col, idx) in EmptyFields(row, cols, idx) <==>
      col in cols && Get(row, col).Some? && IsBlank(Get(row, col).value)
    decreases |cols|
  {
    if cols != [] {
      var init := cols[..|cols| - 1];
      EmptyFieldsSpec(row, init, idx);
      assert cols == init + [cols[|cols| - 1]];
    }
  }

  lemma {:induction false} RowFieldErrorsSpec(rows: seq<Table>, cols: seq<string>)
    ensures forall e :: e in RowFieldErrors(rows, cols) ==> e.EmptyRequiredField? && 1 <= e.row <= |rows|
    ensures forall col, n: nat :: EmptyRequiredField(col, n) in RowFieldErrors(rows, cols) <==>
      1 <= n <= |rows| && col in cols && Get(rows[n - 1], col).Some? && IsBlank(Get(rows[n - 1], col).value)
    decreases |rows|
  {
    if rows != [] {
      var init := rows[..|rows| - 1];
      RowFieldErrorsSpec(init, cols);
      EmptyFieldsSpec(rows[|rows| - 1], cols, |rows|);
      assert forall j :: 0 <= j < |init| ==> init[j] == rows[j];
    }
  }

  /** A blank-field error names a row, counted from 1, and a required column
      that row has with a blank value, and every such pair is reported. */
  lemma CsvFileErrorsSpec(file: CsvFile, t: CsvType)
    ensures forall col, n: nat :: EmptyRequiredField(col, n) in CsvFileErrors(file, t) <==>
      1 <= n <= |file.rows| && col in RequiredColumns(t)
      && Get(file.rows[n - 1], col).Some? && IsBlank(Get(file.rows[n - 1], col).value)
    ensures MissingColumns(file.fieldnames, t) != [] <==> CsvFileErrors(file, t) != [] && CsvFileErrors(file, t)[0].MissingRequiredColumns?
  {
    RowFieldErrorsSpec(file.rows, RequiredColumns(t));
    var re := RowFieldErrors(file.rows, RequiredColumns(t));
    if re != [] {
      assert re[0] in re;
    }
  }

  /** A file of type `t` that passes validation and whose rows all carry
      every required column loses no row when it is loaded as type `t`:
      every row is kept and none yields a `row_error`. */
  lemma ValidFileKeepsEveryRow(file: CsvFile, t: CsvType)
    requires CsvFileErrors(file, t) == []
    requires forall i, col :: 0 <= i < |file.rows| && col in RequiredColumns(t) ==> Has(file.rows[i], col)
    ensures forall i :: 0 <= i < |file.rows| ==> Outcomes(file.rows, t)[i].Kept?
    ensures ErrorRows(LoadedRows(file, t).1) == []
  {
    ValidRowsFilled(file, t);
    ValidRowsKept(file, t);
    LoadedRowsSpec(file, t);
    NoneDropped(Outcomes(file.rows, t));
  }

  /** Rows whose required values are all present and not blank are all kept. */
  lemma ValidRowsKept(file: CsvFile, t: CsvType)
    requires forall i, col :: 0 <= i < |file.rows| && col in RequiredColumns(t) ==>
      Has(file.rows[i], col) && !IsBlank(Get(file.rows[i], col).value)
    ensures forall i :: 0 <= i < |file.rows| ==> RowResult(file.rows[i], t, i + 1).Kept?
  {
    forall i | 0 <= i < |file.rows|
      ensures RowResult(file.rows[i], t, i + 1).Kept?
    {
      FilledRowKept(file.rows, t, i);
    }
  }

  lemma FilledRowKept(rows: seq<Table>, t: CsvType, i: nat)
    requires i < |rows|
    requires forall j, col :: 0 <= j < |rows| && col in RequiredColumns(t) ==>
      Has(rows[j], col) && !IsBlank(Get(rows[j], col).value)
    ensures RowResult(rows[i], t, i + 1).Kept?
  {
    ValidRowKept(rows[i], t, i + 1);
  }

  /** In a file that passes validation, no required value present in a row is blank. */
  lemma ValidRowsFilled(file: CsvFile, t: CsvType)
    requires CsvFileErrors(file, t) == []
    ensures forall i, col :: 0 <= i < |file.rows| && col in RequiredColumns(t) && Has(file.rows[i], col) ==>
      !IsBlank(Get(file.rows[i], col).value)
  {
    var re := RowFieldErrors(file.rows, RequiredColumns(t));
    assert |re| <= |CsvFileErrors(file, t)|;
    RowFieldErrorsSpec(file.rows, RequiredColumns(t));
    forall i, col | 0 <= i < |file.rows| && col in RequiredColumns(t) && Has(file.rows[i], col)
      ensures !IsBlank(Get(file.rows[i], col).value)
    {
      assert EmptyRequiredField(col, i + 1) !in re;
    }
  }

  lemma ValidRowKept(row: Table, t: CsvType, idx: nat)
    requires forall col :: col in RequiredColumns(t) ==> Has(row, col) && !IsBlank(Get(row, col).value)
    ensures RowResult(row, t, idx).Kept?
  {
    var col := RequiredColumns(t)[0];
    assert col in RequiredColumns(t);
    var k :| 0 <= k < |row| && row[k] == (col, Get(row, col).value);
    assert !BlankRow(row);
    if t == Domains {
      assert "description" in RequiredColumns(t);
    }
    RowDropped(row, t, idx);
  }
}
