/** The `ConfigLoader` class of config_loader.py: the load result and its
    entry accounting (`load_external_config`), the warning accumulator of
    `_load_csv_file`, `merge_with_builtin`, and the timestamp-checked cache. */
module Loader {
  import opened Common
  import opened CsvRows
  import opened JsonValidation
  import opened Merge

  /** An entry of a section's `errors` list. */
  datatype LoadError =
    | MainConfigInvalidJson
    | MainConfigLoadError

  /** The `domains` or `stacks` part of the load result. */
  datatype Section = Section(files: seq<string>, data: seq<Item>, errors: seq<LoadError>)

  /** A `performance.warnings` entry: the entry count and the limit it exceeds. */
  datatype PerfWarning = TooManyEntries(total: nat, limit: Json)

  datatype Performance = Performance(maxEntries: Json, currentEntries: nat, warnings: seq<PerfWarning>)

  /** What `load_external_config` returns. The brand and reasoning parts are
      read from files and are taken as given. */
  datatype LoadedConfig = LoadedConfig(
    enabled: bool,
    domains: Section,
    stacks: Section,
    brandConfig: Json,
    reasoningRules: seq<Json>,
    performance: Performance)

  /** `config.json` as the loader finds it. */
  datatype MainConfigFile = NoMainConfig | UnparsableMainConfig | MainConfig(doc: Json)

  /** The `max_entries` limit the main config sets (default 1000) and the
      error its reading adds to the domain section's errors. */
  function MaxEntriesSetting(main: MainConfigFile): (r: (Json, seq<LoadError>))
    ensures r.1 != [] ==> r.0 == JInt(1000)
  {
    match main
    case NoMainConfig => (JInt(1000), [])
    case UnparsableMainConfig => (JInt(1000), [MainConfigInvalidJson])
    case MainConfig(d) =>
      if !d.JObject? then (JInt(1000), [MainConfigLoadError])
      else
        var perf := Lookup(d.members, "performance").GetOr(JObject([]));
        if !perf.JObject? then (JInt(1000), [MainConfigLoadError])
        else (Lookup(perf.members, "max_entries").GetOr(JInt(1000)), [])
  }

  /** A value `total > limit` can compare with an `int` without raising. */
  predicate IsNumber(v: Json) {
    v.JInt? || v.JBool? || v.JFloat?
  }

  /** `total > limit` */
  predicate Exceeds(total: nat, limit: Json)
    requires IsNumber(limit)
  {
    match limit
    case JInt(i) => total > i
    case JBool(b) => total > (if b then 1 else 0)
    case JFloat(r) => total as real > r
  }

  /** The paths of the files, in order. */
  function Paths(files: seq<CsvFile>): (p: seq<string>)
    ensures |p| == |files| && forall i :: 0 <= i < |files| ==> p[i] == files[i].path
  {
    seq(|files|, i requires 0 <= i < |files| => files[i].path)
  }

  /** What `_load_csv_file` makes of each file, read as type `t`. */
  function FileLoads(files: seq<CsvFile>, t: CsvType): (r: seq<(seq<Item>, seq<Warning>)>)
    ensures |r| == |files| && forall i {:trigger r[i]} :: 0 <= i < |files| ==> r[i] == LoadedRows(files[i], t)
  {
    seq(|files|, i requires 0 <= i < |files| => LoadedRows(files[i], t))
  }

  /** The items of the loads, concatenated in order. */
  function ConcatData(loads: seq<(seq<Item>, seq<Warning>)>): seq<Item>
    decreases |loads|
  {
    if loads == [] then [] else ConcatData(loads[..|loads| - 1]) + loads[|loads| - 1].0
  }

  /** The warnings of the loads, concatenated in order. */
  function ConcatWarnings(loads: seq<(seq<Item>, seq<Warning>)>): seq<Warning>
    decreases |loads|
  {
    if loads == [] then [] else ConcatWarnings(loads[..|loads| - 1]) + loads[|loads| - 1].1
  }

  lemma PathsStep(files: seq<CsvFile>, i: nat)
    requires i < |files|
    ensures Paths(files[..i + 1]) == Paths(files[..i]) + [files[i].path]
  {
  }

  /** One more load extends the items and the warnings collected so far. */
  lemma LoadStep(before: seq<Warning>, data: seq<Item>, w: seq<Warning>, loads: seq<(seq<Item>, seq<Warning>)>, i: nat)
    requires i < |loads|
    requires data == ConcatData(loads[..i]) && w == before + ConcatWarnings(loads[..i])
    ensures data + loads[i].0 == ConcatData(loads[..i + 1])
    ensures w + loads[i].1 == before + ConcatWarnings(loads[..i + 1])
  {
    assert loads[..i + 1][..i] == loads[..i];
  }

  /** The items of the files, loaded as type `t`, concatenated in order. */
  function AllData(files: seq<CsvFile>, t: CsvType): seq<Item> {
    ConcatData(FileLoads(files, t))
  }

  /** The warnings the files record, in order. */
  function AllWarnings(files: seq<CsvFile>, t: CsvType): seq<Warning> {
    ConcatWarnings(FileLoads(files, t))
  }

  const EmptySection := Section([], [], [])

  /** The load result for a configuration directory that exists or not,
      with the given main config, CSV files of its `domains` and `stacks`
      directories, brand config and reasoning rules. */
  function ExternalConfig(dirExists: bool, main: MainConfigFile, domainFiles: seq<CsvFile>, stackFiles: seq<CsvFile>,
                          brandConfig: Json, reasoningRules: seq<Json>): LoadedConfig
    requires dirExists ==> IsNumber(MaxEntriesSetting(main).0)
  {
    if !dirExists then
      LoadedConfig(false, EmptySection, EmptySection, JObject([]), [], Performance(JInt(1000), 0, []))
    else
      var (limit, mainErrors) := MaxEntriesSetting(main);
      var domains := Section(Paths(domainFiles), AllData(domainFiles, Domains), mainErrors);
      var stacks := Section(Paths(stackFiles), AllData(stackFiles, Stacks), []);
      Assembled(domains, stacks, limit, brandConfig, reasoningRules)
  }

  /** The enabled load result from its sections, with its entry count and
      performance warning. */
  function Assembled(domains: Section, stacks: Section, limit: Json, brandConfig: Json, reasoningRules: seq<Json>): LoadedConfig
    requires IsNumber(limit)
  {
    var total := |domains.data| + |stacks.data|;
    var warnings := if Exceeds(total, limit) then [TooManyEntries(total, limit)] else [];
    LoadedConfig(true, domains, stacks, brandConfig, reasoningRules, Performance(limit, total, warnings))
  }

  /** A missing configuration directory gives a disabled, empty result with
      the default limit of 1000 entries and no entries. */
  lemma MissingDirectory(main: MainConfigFile, domainFiles: seq<CsvFile>, stackFiles: seq<CsvFile>,
                         brandConfig: Json, reasoningRules: seq<Json>)
    ensures var c := ExternalConfig(false, main, domainFiles, stackFiles, brandConfig, reasoningRules);
      && !c.enabled
      && c.domains.files == [] && c.domains.data == [] && c.domains.errors == []
      && c.stacks.files == [] && c.stacks.data == [] && c.stacks.errors == []
      && c.reasoningRules == []
      && c.performance == Performance(JInt(1000), 0, [])
  {
  }

  /** With the directory present, the entry count is the number of domain
      items plus the number of stack items, and there is one performance
      warning exactly when that count strictly exceeds the limit; with no
      usable limit in the main config the limit is 1000. */
  lemma EntryAccounting(main: MainConfigFile, domainFiles: seq<CsvFile>, stackFiles: seq<CsvFile>,
                        brandConfig: Json, reasoningRules: seq<Json>)
    requires IsNumber(MaxEntriesSetting(main).0)
    ensures var c := ExternalConfig(true, main, domainFiles, stackFiles, brandConfig, reasoningRules);
      && c.enabled
      && c.domains.files == Paths(domainFiles) && c.stacks.files == Paths(stackFiles)
      && c.performance.currentEntries == |c.domains.data| + |c.stacks.data|
      && |c.performance.warnings| <= 1
      && (c.performance.warnings != [] <==> Exceeds(c.performance.currentEntries, c.performance.maxEntries))
      && (main.NoMainConfig? || main.UnparsableMainConfig? ==>
            (c.performance.warnings != [] <==> c.performance.currentEntries > 1000))
      && (main.UnparsableMainConfig? ==> c.domains.errors == [MainConfigInvalidJson])
  {
  }

  // ------------------------------------------------------------- row fates

  lemma {:induction false} NoErrorsInLoads(files: seq<CsvFile>, loads: seq<(seq<Item>, seq<Warning>)>)
    requires |loads| <= |files| && forall i :: 0 <= i < |loads| ==> loads[i] == LoadedRows(files[i], Stacks)
    ensures ErrorRows(ConcatWarnings(loads)) == []
    decreases |loads|
  {
    if loads != [] {
      var n := |loads| - 1;
      NoErrorsInLoads(files, loads[..n]);
      StackRowsNeverDropped(files[n]);
      ErrorRowsAppend(ConcatWarnings(loads[..n]), loads[n].1);
    }
  }

  /** Read with their directory's type, the files of the `stacks` directory
      lose no row: they yield no `row_error`. */
  lemma StacksDirectoryKeepsRows(files: seq<CsvFile>)
    ensures ErrorRows(AllWarnings(files, Stacks)) == []
  {
    NoErrorsInLoads(files, FileLoads(files, Stacks));
  }

  lemma {:induction false} NoKeptNoData(path: string, outcomes: seq<RowOutcome>)
    requires forall i :: 0 <= i < |outcomes| ==> !outcomes[i].Kept?
    ensures Collected(path, outcomes).0 == []
    decreases |outcomes|
  {
    if outcomes != [] {
      NoKeptNoData(path, outcomes[..|outcomes| - 1]);
    }
  }

  /** As written, the type of a file comes from its whole path: the rows of
      a stacks file under a `domains` directory lack the lower-case
      `description` column, so each non-blank row becomes a `row_error` and
      the file yields no items, while read as a stacks file it keeps every
      non-blank row. */
  lemma NestedStacksFileLosesRows(rows: seq<Table>, firstLine: Option<string>)
    requires forall i :: 0 <= i < |rows| ==> !Has(rows[i], "description")
    ensures var file := CsvFile(NestedStacksPath, RequiredColumns(Stacks), rows);
      && LoadedRows(file, DetectCsvType(file.path, firstLine)).0 == []
      && (forall i :: 0 <= i < |rows| && !BlankRow(rows[i]) ==> Outcomes(rows, Domains)[i].Dropped?)
      && (forall i :: 0 <= i < |rows| && !BlankRow(rows[i]) ==> Outcomes(rows, Stacks)[i].Kept?)
  {
    NestedStacksReadAsDomains(firstLine);
    UndescribedRowsDropped(CsvFile(NestedStacksPath, RequiredColumns(Stacks), rows));
    StackRowsKept(rows);
  }

  /** Rows without a `description` column, read as domain rows, are all
      dropped or skipped, so the file yields no items. */
  lemma UndescribedRowsDropped(file: CsvFile)
    requires forall i :: 0 <= i < |file.rows| ==> !Has(file.rows[i], "description")
    ensures LoadedRows(file, Domains).0 == []
    ensures forall i :: 0 <= i < |file.rows| && !BlankRow(file.rows[i]) ==> Outcomes(file.rows, Domains)[i].Dropped?
  {
    DomainOutcomesNotKept(file.rows);
    NoKeptNoData(file.path, Outcomes(file.rows, Domains));
  }

  lemma DomainOutcomesNotKept(rows: seq<Table>)
    requires forall i :: 0 <= i < |rows| ==> !Has(rows[i], "description")
    ensures forall i :: 0 <= i < |rows| ==> !Outcomes(rows, Domains)[i].Kept?
    ensures forall i :: 0 <= i < |rows| && !BlankRow(rows[i]) ==> Outcomes(rows, Domains)[i].Dropped?
  {
    forall i | 0 <= i < |rows|
      ensures !Outcomes(rows, Domains)[i].Kept?
      ensures !BlankRow(rows[i]) ==> Outcomes(rows, Domains)[i].Dropped?
    {
      RowDropped(rows[i], Domains, i + 1);
    }
  }

  /** Read as stack rows, the non-blank rows are all kept. */
  lemma StackRowsKept(rows: seq<Table>)
    ensures forall i :: 0 <= i < |rows| && !BlankRow(rows[i]) ==> Outcomes(rows, Stacks)[i].Kept?
  {
    forall i | 0 <= i < |rows| && !BlankRow(rows[i])
      ensures Outcomes(rows, Stacks)[i].Kept?
    {
      RowDropped(rows[i], Stacks, i + 1);
    }
  }

  // ------------------------------------------------------------------ cache

  /** A cache entry: the configuration, when it was stored, and the
      configuration directory it came from. */
  datatype CacheEntry = CacheEntry(config: LoadedConfig, timestamp: real, path: string)

  /** The directory has not been modified since the entry was stored. */
  predicate Fresh(e: CacheEntry, mtime: string -> Option<real>) {
    mtime(e.path).Some? && mtime(e.path).value <= e.timestamp
  }

  /** `cache_config` on the cache contents. */
  function Stored(cache: map<string, CacheEntry>, key: string, config: LoadedConfig, now: real, path: string): map<string, CacheEntry> {
    cache[key := CacheEntry(config, now, path)]
  }

  /** `get_cached_config` on the cache contents: the result and the cache after. */
  function CacheLookup(cache: map<string, CacheEntry>, key: string, mtime: string -> Option<real>)
    : (Option<LoadedConfig>, map<string, CacheEntry>)
  {
    if key !in cache then (None, cache)
    else if Fresh(cache[key], mtime) then (Some(cache[key].config), cache)
    else (None, cache - {key})
  }

  /** A configuration just stored is returned while its directory has not
      been modified since, and the cache is left as it is. */
  lemma CacheHit(cache: map<string, CacheEntry>, key: string, config: LoadedConfig, now: real, path: string,
                 mtime: string -> Option<real>)
    requires mtime(path).Some? && mtime(path).value <= now
    ensures var stored := Stored(cache, key, config, now, path);
      CacheLookup(stored, key, mtime) == (Some(config), stored)
  {
  }

  /** A miss returns nothing and changes nothing; an entry whose directory
      is gone or newer is removed, returns nothing, and a second lookup
      misses; no other key is touched. */
  lemma CacheLookupSpec(cache: map<string, CacheEntry>, key: string, mtime: string -> Option<real>)
    ensures var (r, after) := CacheLookup(cache, key, mtime);
      && (key !in cache ==> r.None? && after == cache)
      && (key in cache && !Fresh(cache[key], mtime) ==>
            r.None? && key !in after && CacheLookup(after, key, mtime) == (None, after))
      && (key in cache && Fresh(cache[key], mtime) ==> r == Some(cache[key].config))
      && (forall k :: k != key ==> (k in after <==> k in cache) && (k in cache ==> after[k] == cache[k]))
  {
  }

  // ------------------------------------------------------------------ merge

  /** The built-in data of the skill. */
  datatype BuiltinData = BuiltinData(domains: seq<Item>, stacks: seq<Item>)

  /** What `merge_with_builtin` returns. */
  datatype MergedData = MergedData(
    domains: seq<Item>,
    stacks: seq<Item>,
    brandConfig: Json,
    reasoningRules: seq<Json>,
    conflicts: seq<Conflict>,
    statistics: Statistics)

  // ------------------------------------------------------------ the loader

  /** `ConfigLoader.__init__`: an explicit non-empty path, else the
      `.ui-ux-pro-max-config` directory of the working directory. */
  function InitialPath(configPath: Option<string>, cwd: string): string {
    if configPath.Some? && configPath.value != "" then configPath.value else cwd + "/.ui-ux-pro-max-config"
  }

  class ConfigLoader {
    var configPath: string
    var cache: map<string, CacheEntry>
    /** `_validation_warnings`: every warning recorded since the last clear. */
    var validationWarnings: seq<Warning>

    constructor(configPath: Option<string>, cwd: string)
      ensures this.configPath == InitialPath(configPath, cwd)
      ensures cache == map[] && validationWarnings == []
    {
      this.configPath := InitialPath(configPath, cwd);
      cache := map[];
      validationWarnings := [];
    }

    /** `_load_csv_file` for a file of type `t`: returns its items and
        records its warnings after those already recorded. */
    method LoadCsvFile(file: CsvFile, t: CsvType) returns (data: seq<Item>)
      modifies this
      ensures data == LoadedRows(file, t).0
      ensures validationWarnings == old(validationWarnings) + LoadedRows(file, t).1
      ensures configPath == old(configPath) && cache == old(cache)
    {
      var warnings;
      data, warnings := LoadRows(file, t);
      validationWarnings := validationWarnings + warnings;
    }

    /** The loop of `load_external_config` over the CSV files of one directory. */
    method LoadSection(files: seq<CsvFile>, t: CsvType) returns (section: Section)
      modifies this
      ensures section == Section(Paths(files), AllData(files, t), [])
      ensures validationWarnings == old(validationWarnings) + AllWarnings(files, t)
      ensures configPath == old(configPath) && cache == old(cache)
    {
      ghost var loads := FileLoads(files, t);
      var paths: seq<string> := [];
      var data: seq<Item> := [];
      var i := 0;
      while i < |files|
        invariant 0 <= i <= |files|
        invariant paths == Paths(files[..i])
        invariant data == ConcatData(loads[..i])
        invariant validationWarnings == old(validationWarnings) + ConcatWarnings(loads[..i])
        invariant configPath == old(configPath) && cache == old(cache)
      {
        data, paths := LoadNext(files, t, loads, i, data, paths, old(validationWarnings));
        i := i + 1;
      }
      assert files[..i] == files;
      assert loads[..i] == loads;
      section := Section(paths, data, []);
    }

    /** One pass of the loop of `LoadSection`: the `i`-th file's items
        extend `data` and its warnings are recorded. */
    method LoadNext(files: seq<CsvFile>, t: CsvType, ghost loads: seq<(seq<Item>, seq<Warning>)>, i: nat,
                    data: seq<Item>, paths: seq<string>, ghost before: seq<Warning>)
      returns (data': seq<Item>, paths': seq<string>)
      requires loads == FileLoads(files, t) && i < |files|
      requires data == ConcatData(loads[..i]) && paths == Paths(files[..i])
      requires validationWarnings == before + ConcatWarnings(loads[..i])
      modifies this
      ensures data' == ConcatData(loads[..i + 1]) && paths' == Paths(files[..i + 1])
      ensures validationWarnings == before + ConcatWarnings(loads[..i + 1])
      ensures configPath == old(configPath) && cache == old(cache)
    {
      LoadStep(before, data, validationWarnings, loads, i);
      PathsStep(files, i);
      var items := LoadCsvFile(files[i], t);
      data' := data + items;
      paths' := paths + [files[i].path];
    }

    /** `load_external_config`. The directory's existence, the main config,
        the CSV files of its `domains` and `stacks` directories (each read
        with its directory's type) and the brand and reasoning parts are
        inputs. */
    method LoadExternalConfig(pathArg: Option<string>, dirExists: bool, main: MainConfigFile,
                              domainFiles: seq<CsvFile>, stackFiles: seq<CsvFile>,
                              brandConfig: Json, reasoningRules: seq<Json>) returns (config: LoadedConfig)
      requires dirExists ==> IsNumber(MaxEntriesSetting(main).0)
      modifies this
      ensures configPath == if pathArg.Some? && pathArg.value != "" then pathArg.value else old(configPath)
      ensures cache == old(cache)
      ensures config == ExternalConfig(dirExists, main, domainFiles, stackFiles, brandConfig, reasoningRules)
      ensures validationWarnings ==
        if dirExists then old(validationWarnings) + AllWarnings(domainFiles, Domains) + AllWarnings(stackFiles, Stacks)
        else old(validationWarnings)
    {
      if pathArg.Some? && pathArg.value != "" {
        configPath := pathArg.value;
      }
      if !dirExists {
        return LoadedConfig(false, EmptySection, EmptySection, JObject([]), [], Performance(JInt(1000), 0, []));
      }
      config := LoadDirectory(main, domainFiles, stackFiles, brandConfig, reasoningRules);
    }

    /** `load_external_config` once the directory is known to exist. */
    method LoadDirectory(main: MainConfigFile, domainFiles: seq<CsvFile>, stackFiles: seq<CsvFile>,
                         brandConfig: Json, reasoningRules: seq<Json>) returns (config: LoadedConfig)
      requires IsNumber(MaxEntriesSetting(main).0)
      modifies this
      ensures configPath == old(configPath) && cache == old(cache)
      ensures config == ExternalConfig(true, main, domainFiles, stackFiles, brandConfig, reasoningRules)
      ensures validationWarnings == old(validationWarnings) + AllWarnings(domainFiles, Domains) + AllWarnings(stackFiles, Stacks)
    {
      var setting := MaxEntriesSetting(main);
      var domains := LoadSection(domainFiles, Domains);
      domains := domains.(errors := setting.1);
      var stacks := LoadSection(stackFiles, Stacks);
      config := Assembled(domains, stacks, setting.0, brandConfig, reasoningRules);
    }

    /** `get_validation_warnings` */
    method GetValidationWarnings() returns (w: seq<Warning>)
      ensures w == validationWarnings
    {
      w := validationWarnings;
    }

    /** `clear_validation_warnings` */
    method ClearValidationWarnings()
      modifies this
      ensures validationWarnings == []
      ensures configPath == old(configPath) && cache == old(cache)
    {
      validationWarnings := [];
    }

    /** `cache_config`: stores the configuration with the current time and
        the current configuration directory. */
    method CacheConfig(config: LoadedConfig, key: string, now: real)
      modifies this
      ensures cache == Stored(old(cache), key, config, now, configPath)
      ensures configPath == old(configPath) && validationWarnings == old(validationWarnings)
    {
      cache := cache[key := CacheEntry(config, now, configPath)];
    }

    /** `get_cached_config`, with the directories' modification times as an input. */
    method GetCachedConfig(key: string, mtime: string -> Option<real>) returns (r: Option<LoadedConfig>)
      modifies this
      ensures (r, cache) == CacheLookup(old(cache), key, mtime)
      ensures configPath == old(configPath) && validationWarnings == old(validationWarnings)
    {
      if key !in cache {
        return None;
      }
      var entry := cache[key];
      if mtime(entry.path).Some? {
        var current := mtime(entry.path).value;
        if current <= entry.timestamp {
          return Some(entry.config);
        }
      }
      cache := cache - {key};
      r := None;
    }

    /** `merge_with_builtin`: the built-in items of each kind followed by
        the external items whose key is new, the brand and reasoning parts
        of the external configuration, the conflict log, and statistics in
        which the total is the built-in count plus the external count minus
        the duplicates and every conflict counts as resolved. */
    method MergeWithBuiltin(external: LoadedConfig, builtin: BuiltinData) returns (merged: MergedData)
      ensures merged.domains == builtin.domains + NewItems(builtin.domains, external.domains.data)
      ensures merged.stacks == builtin.stacks + NewItems(builtin.stacks, external.stacks.data)
      ensures merged.conflicts == Merged(builtin.domains, external.domains.data, "domains").1
                                  + Merged(builtin.stacks, external.stacks.data, "stacks").1
      ensures merged.brandConfig == external.brandConfig && merged.reasoningRules == external.reasoningRules
      ensures merged.statistics.builtinEntries == |builtin.domains| + |builtin.stacks|
      ensures merged.statistics.externalEntries == |external.domains.data| + |external.stacks.data|
      ensures merged.statistics.totalEntries == |merged.domains| + |merged.stacks|
      ensures merged.statistics.duplicatesFound == DuplicateCount(merged.conflicts)
      ensures merged.statistics.totalEntries + merged.statistics.duplicatesFound
              == merged.statistics.builtinEntries + merged.statistics.externalEntries
      ensures merged.statistics.conflictsResolved == |merged.conflicts|
    {
      var domains, domainConflicts := MergeWithConflictResolution(builtin.domains, external.domains.data, "domains");
      var stacks, stackConflicts := MergeWithConflictResolution(builtin.stacks, external.stacks.data, "stacks");
      var conflicts := domainConflicts + stackConflicts;
      var statistics := Stats(builtin.domains, builtin.stacks, external.domains.data, external.stacks.data,
                              domains, stacks, conflicts);
      merged := MergedData(domains, stacks, external.brandConfig, external.reasoningRules, conflicts, statistics);
      MergedItems(builtin.domains, external.domains.data, "domains");
      MergedItems(builtin.stacks, external.stacks.data, "stacks");
      StatsSpec(builtin.domains, builtin.stacks, external.domains.data, external.stacks.data);
    }
  }
}
