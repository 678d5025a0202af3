# Brand processor and configuration loader of ui-ux-pro-max

This project models two parts of the ui-ux-pro-max design assistant in Dafny:

- **The brand processor** (`brand_processor.py`). It applies a brand profile to a list of search results. Each result gets its default Tailwind colours and its fonts replaced by the brand's, and a `:root` block of CSS variables added to its snippet. Results that mention an avoided style are dropped. Preferred styles and a design philosophy raise a result's score, and the list is re-sorted by score. The brand processor also validates a brand profile and checks colour pairs against the WCAG contrast levels.
- **The configuration loader** (`config_loader.py`). It reads an external configuration directory. CSV files are loaded permissively: rows missing a non-critical field get default values, invalid priorities are reset to 5, and long values are truncated. A row missing a critical field is skipped with an error. The loader counts the entries against the configured `max_entries` limit, merges external entries with the built-in ones (built-in entries win on a key collision), validates `config.json`, the brand file and CSV files, and keeps a timestamp-checked cache.

Modules, one per file:

| module | file | contents |
|---|---|---|
| `Common` | common.dfy | `Option`, JSON leaf values, and the ASCII Python `str` operations |
| `HexColor` | hex_color.dfy | `#rrggbb` validation, parsing and printing, and both round trips |
| `BrandTypes` | brand_types.dfy | the brand profile, the search result with its `brand_applied` record, and the helpers the model takes as parameters |
| `BrandValidation` | brand_validation.dfy | `check_color_accessibility`, `validate_brand_config` and its three section validators |
| `StyleFilter` | style_filter.dfy | `filter_by_style_preferences`, `_apply_design_philosophy`, and the stable descending sort by score |
| `BrandCode` | brand_code.dfy | colour and font substitution in snippets, `_apply_brand_colors`, `generate_css_variables`, `generate_brand_aware_examples` |
| `BrandApply` | brand_apply.dfy | `apply_brand_config` and `_apply_brand_typography_single` |
| `CsvRows` | csv_rows.dfy | `_detect_csv_type`, `_get_required_columns`, and the row-by-row work of `_load_csv_file` |
| `Merge` | merge.dfy | item keys, key similarity, field conflicts, `_merge_with_conflict_resolution`, and the merge statistics |
| `JsonValidation` | json_validation.dfy | parsed JSON, `_validate_main_config`, `_validate_brand_config`, `_validate_csv_file` |
| `Loader` | config_loader.dfy | the `ConfigLoader` class: `load_external_config`, the warning accumulator, `merge_with_builtin`, and the cache |

Where the source works step by step, the model does too. Each loop becomes a method proved against a specification function. The `ConfigLoader` object becomes a class whose fields are `configPath`, `cache` and `validationWarnings`. Pure computations become functions, and what the source promises about them is proved as lemmas.

## Model

Every path below is under `cli/assets/.shared/ui-ux-pro-max/scripts/`.

| member | source | states |
|---|---|---|
| HexColor.HexToRgb | cli/assets/.shared/ui-ux-pro-max/scripts/brand_processor.py:827-830 | a valid colour parses to three components, each in 0..255 |
| HexColor.LStripHash | cli/assets/.shared/ui-ux-pro-max/scripts/brand_processor.py:827-830 | `lstrip('#')` removes exactly the one leading `#` of a valid colour |
| HexColor.FormatByte | cli/assets/.shared/ui-ux-pro-max/scripts/brand_processor.py:832-834 | `{:02x}` prints a byte as its high and its low hex digit, lower-case |
| HexColor.RgbToHexRoundTrip | cli/assets/.shared/ui-ux-pro-max/scripts/brand_processor.py:821-834 | for components in 0..255, `_rgb_to_hex` gives seven characters that pass `_is_valid_hex_color`, and `_hex_to_rgb` gives the components back |
| HexColor.HexToRgbRoundTrip | cli/assets/.shared/ui-ux-pro-max/scripts/brand_processor.py:821-834 | printing a parsed valid colour gives `#` plus its six digits lower-cased, even for text the pattern accepts with a trailing newline |
| BrandValidation.CheckColorAccessibility | cli/assets/.shared/ui-ux-pro-max/scripts/brand_processor.py:632-679 | invalid colours give ratio 0, no compliance and level Fail; otherwise AA iff the ratio is at least 4.5, AAA iff at least 7.0, AAA implies AA, and the level is AAA, AA or Fail exactly as those hold |
| BrandValidation.ValidNames | cli/assets/.shared/ui-ux-pro-max/scripts/brand_processor.py:498-508 | the names reported present are exactly those whose colour is present and valid |
| BrandValidation.CollectValidNames | cli/assets/.shared/ui-ux-pro-max/scripts/brand_processor.py:498-508 | the loop over colour names returns `ValidNames` |
| BrandValidation.ValidNamesAppend | cli/assets/.shared/ui-ux-pro-max/scripts/brand_processor.py:494-508 | checking the required names and then the recommended names is checking all of them |
| BrandValidation.ContrastIssues | cli/assets/.shared/ui-ux-pro-max/scripts/brand_processor.py:510-523 | every issue names the primary colour and a background on which it fails AA, and every such background has an issue |
| BrandValidation.CollectContrastIssues | cli/assets/.shared/ui-ux-pro-max/scripts/brand_processor.py:510-523 | the loop over the three backgrounds returns `ContrastIssues` |
| BrandValidation.ValidateColorsSection | cli/assets/.shared/ui-ux-pro-max/scripts/brand_processor.py:484-525 | the section is valid iff the primary colour is present and valid hex; otherwise `primary` is the one missing name; contrast is checked only when a primary key exists; the method builds exactly `ColorsReportOf`, whose recommended names follow the required one and whose contrast issues are the backgrounds the primary misses AA on |
| BrandValidation.ValidateTypographySection | cli/assets/.shared/ui-ux-pro-max/scripts/brand_processor.py:527-563 | the section is valid iff a primary or secondary font family is named; the fonts available are the primary names then the secondary names; the Google Fonts import is valid iff a named primary font has a truthy import; the fallback chains are the truthy fallbacks of the named primary then secondary font, never more than the fonts available; the scale is valid iff it is one of the known type scales |
| BrandValidation.ValidateStylePreferencesSection | cli/assets/.shared/ui-ux-pro-max/scripts/brand_processor.py:565-589 | valid iff no style is both preferred and avoided; the conflicts are exactly the styles in both lists; the style count is the sum of the two list lengths; a recommendation is made iff both lists are empty |
| BrandValidation.ValidateBrandConfig | cli/assets/.shared/ui-ux-pro-max/scripts/brand_processor.py:423-482 | completeness is 0.4 for a colours section, 0.4 for a typography section and 0.2 for style preferences, so it lies in [0, 1]; the profile is valid iff it has colours with a valid primary and a valid typography section; the errors are exactly a missing colours section then a missing typography section, each iff absent; a present section carries its own validator's report and an absent one the empty report, for colours, typography and style preferences; any error makes the profile invalid |
| StyleFilter.FindPhilosophy | cli/assets/.shared/ui-ux-pro-max/scripts/brand_processor.py:313-331 | the entry found has the asked name, and there is none iff the table has no entry of that name |
| StyleFilter.PhilosophyBoost | cli/assets/.shared/ui-ux-pro-max/scripts/brand_processor.py:313-331 | the boost is 1.0, 1.2 or 1.3 |
| StyleFilter.PhilosophyBoostSpec | cli/assets/.shared/ui-ux-pro-max/scripts/brand_processor.py:313-331 | the boost differs from 1.0 iff the lower-cased philosophy is in the table and one of its keywords occurs in the result's lower-cased term and description, and it is then that philosophy's boost |
| StyleFilter.PhilosophyFactor | cli/assets/.shared/ui-ux-pro-max/scripts/brand_processor.py:296-300 | the factor applied to a score is 1.0, 1.2 or 1.3 |
| StyleFilter.RestyleScore | cli/assets/.shared/ui-ux-pro-max/scripts/brand_processor.py:283-300 | the new score is the old score (1.0 when absent) times one factor from {1.0, 1.2, 1.3, 1.5, 1.8, 1.95}, so several matching preferred styles boost only once; a score stays absent only if it was absent |
| StyleFilter.ScaledBoost | cli/assets/.shared/ui-ux-pro-max/scripts/brand_processor.py:284-300 | the preference boost followed by the philosophy boost multiplies the score by their product |
| StyleFilter.RestyleRecord | cli/assets/.shared/ui-ux-pro-max/scripts/brand_processor.py:283-306 | restyling changes only the score and sets `styles_filtered` on an existing record, leaving the record's other fields unchanged |
| StyleFilter.MentionsAvoided | cli/assets/.shared/ui-ux-pro-max/scripts/brand_processor.py:269-281 | the loop reports a result iff some avoided style, lower-cased, occurs in its lower-cased term, description and reasoning |
| StyleFilter.RestyleResult | cli/assets/.shared/ui-ux-pro-max/scripts/brand_processor.py:283-306 | the boosting loops return the restyled result |
| StyleFilter.ScaleScore | cli/assets/.shared/ui-ux-pro-max/scripts/brand_processor.py:297-300 | the philosophy step returns the scaled score |
| StyleFilter.StyleKeptMembers | cli/assets/.shared/ui-ux-pro-max/scripts/brand_processor.py:265-306 | the results kept are exactly the restyled copies of the input results that mention no avoided style |
| StyleFilter.FilteredFrom | cli/assets/.shared/ui-ux-pro-max/scripts/brand_processor.py:265-309 | every result returned is the restyled copy of an input result that mentions no avoided style |
| StyleFilter.InsertSorted | cli/assets/.shared/ui-ux-pro-max/scripts/brand_processor.py:309 | inserting into a list sorted by descending score keeps it sorted |
| StyleFilter.SortSorted | cli/assets/.shared/ui-ux-pro-max/scripts/brand_processor.py:309 | the sorted list is ordered by non-increasing score, a missing score counting as 0 |
| StyleFilter.SortPermutation | cli/assets/.shared/ui-ux-pro-max/scripts/brand_processor.py:309 | the sorted list is a permutation of its input |
| StyleFilter.InsertStable | cli/assets/.shared/ui-ux-pro-max/scripts/brand_processor.py:309 | insertion keeps the relative order of the results that share a score |
| StyleFilter.SortStable | cli/assets/.shared/ui-ux-pro-max/scripts/brand_processor.py:309 | results with equal scores keep their input order, as Python's stable `sort(reverse=True)` does |
| StyleFilter.FilterByStylePreferences | cli/assets/.shared/ui-ux-pro-max/scripts/brand_processor.py:238-311 | empty preferences or an empty list return the input; otherwise the kept, restyled results sorted by score |
| StyleFilter.FilterOutcome | cli/assets/.shared/ui-ux-pro-max/scripts/brand_processor.py:238-311 | the returned list is sorted by score, is a permutation of the kept results, keeps the order of equal scores, and holds only restyled results that mention no avoided style |
| BrandCode.Lighten | cli/assets/.shared/ui-ux-pro-max/scripts/brand_processor.py:836-847 | a colour that is not valid hex comes back unchanged |
| BrandCode.Darken | cli/assets/.shared/ui-ux-pro-max/scripts/brand_processor.py:849-860 | a colour that is not valid hex comes back unchanged |
| BrandCode.ColorMapping | cli/assets/.shared/ui-ux-pro-max/scripts/brand_processor.py:371-391 | the mapping has six entries keyed by the six default Tailwind colours in the source's order |
| BrandCode.SubstituteAllAbsent | cli/assets/.shared/ui-ux-pro-max/scripts/brand_processor.py:385-389 | a snippet containing none of the mapped colours comes back unchanged |
| BrandCode.SubstituteAllIdentity | cli/assets/.shared/ui-ux-pro-max/scripts/brand_processor.py:385-389 | a mapping whose every colour maps to itself leaves any snippet unchanged |
| BrandCode.ReplaceColorsInCode | cli/assets/.shared/ui-ux-pro-max/scripts/brand_processor.py:371-391 | the replacement loop applies the mapping's substitutions in order |
| BrandCode.ReplaceColorsAbsent | cli/assets/.shared/ui-ux-pro-max/scripts/brand_processor.py:371-391 | a snippet that contains none of the six default colours comes back unchanged |
| BrandCode.ApplyBrandColors | cli/assets/.shared/ui-ux-pro-max/scripts/brand_processor.py:747-774 | the method returns `BrandColorsApplied` |
| BrandCode.SwapBlues | cli/assets/.shared/ui-ux-pro-max/scripts/brand_processor.py:759-765 | there are no more recorded swaps than blues, each swap takes one of the blues to the primary colour, and a snippet with no swap is unchanged |
| BrandCode.SwapBluesRecordsIff | cli/assets/.shared/ui-ux-pro-max/scripts/brand_processor.py:759-765 | a swap is recorded iff the snippet contains at least one of the blues tried |
| BrandCode.SwapBluesKeeps | cli/assets/.shared/ui-ux-pro-max/scripts/brand_processor.py:759-765 | replacing other colour tokens of the same length never removes an occurrence of a blue, whatever the replacement text |
| BrandCode.SwapBluesRecordsEvery | cli/assets/.shared/ui-ux-pro-max/scripts/brand_processor.py:759-765 | for distinct colour tokens of one length, every blue the original snippet contains is swapped and recorded with the primary colour |
| BrandCode.SwapBluesReplaced | cli/assets/.shared/ui-ux-pro-max/scripts/brand_processor.py:759-765 | for a primary written as a `#` token of the blues' length and not one of them, no blue is left in the returned snippet, and the primary is in it once a swap is recorded |
| BrandCode.BrandColorsSwapped | cli/assets/.shared/ui-ux-pro-max/scripts/brand_processor.py:747-774 | for such a primary, the snippet comes back with no default blue, and with the primary colour whenever it had a default blue |
| Common.ReplaceAllKeepsToken | cli/assets/.shared/ui-ux-pro-max/scripts/brand_processor.py:764 | `str.replace` of one `#` colour token keeps every occurrence of a different token of the same length |
| Common.ReplaceAllNoToken | cli/assets/.shared/ui-ux-pro-max/scripts/brand_processor.py:764 | `str.replace` of one `#` colour token by another of the same length removes every occurrence of the first and creates no occurrence of any other such token |
| Common.ReplaceAllLeavesReplacement | cli/assets/.shared/ui-ux-pro-max/scripts/brand_processor.py:764 | `str.replace` of a pattern that occurs leaves the replacement text in the result |
| BrandCode.BrandColorsApplied | cli/assets/.shared/ui-ux-pro-max/scripts/brand_processor.py:747-774 | an empty colours section or an empty snippet leaves the result unchanged; the text and score are always kept, and so is whether a record exists |
| BrandCode.BrandColorsRecord | cli/assets/.shared/ui-ux-pro-max/scripts/brand_processor.py:747-774 | at most three replacements are recorded, each a default blue mapped to the brand's primary colour; none without a primary colour; some replacement is recorded iff a primary colour is set and the snippet contains one of the default blues, and then every default blue the snippet contains is recorded; for a primary that is a seven-character `#` colour other than the blues, a recorded swap leaves the primary in the snippet and no default blue remains; the snippet is unchanged when none is recorded; the colours modification is noted iff it was already noted or a replacement is recorded |
| BrandCode.ReplaceFonts | cli/assets/.shared/ui-ux-pro-max/scripts/brand_processor.py:393-421 | an empty snippet, or a brand naming neither font, leaves the snippet unchanged |
| BrandCode.CssFrame | cli/assets/.shared/ui-ux-pro-max/scripts/brand_processor.py:681-745 | the CSS text starts with a `:root {` line and ends with a `}` line |
| BrandCode.ColorLinesEntries | cli/assets/.shared/ui-ux-pro-max/scripts/brand_processor.py:693-721 | there is one variable line per named colour, neutral shade and semantic colour, in order |
| BrandCode.CssColorLines | cli/assets/.shared/ui-ux-pro-max/scripts/brand_processor.py:691-721 | with a colours section, the colour lines come right after the `:root {` line, in order |
| BrandCode.GenerateCssVariables | cli/assets/.shared/ui-ux-pro-max/scripts/brand_processor.py:681-745 | the method's line-by-line output is the specified CSS text |
| BrandCode.AppendColors | cli/assets/.shared/ui-ux-pro-max/scripts/brand_processor.py:693-721 | the colour loops append exactly the colour lines |
| BrandCode.AppendTypography | cli/assets/.shared/ui-ux-pro-max/scripts/brand_processor.py:723-743 | the typography part appends exactly the font lines |
| BrandCode.AppendFonts | cli/assets/.shared/ui-ux-pro-max/scripts/brand_processor.py:723-743 | the font loop appends one line per font present |
| BrandCode.AppendEntries | cli/assets/.shared/ui-ux-pro-max/scripts/brand_processor.py:712-742 | a key-value loop appends one `--<prefix><key>: <value>;` line per entry, in order |
| BrandCode.BrandAwareCode | cli/assets/.shared/ui-ux-pro-max/scripts/brand_processor.py:333-369 | an empty snippet stays empty; otherwise the result is the snippet with brand colours and fonts, with the CSS block and a blank line put before it only when the snippet mentions css and has no `:root` yet |
| BrandCode.GenerateBrandAwareExamples | cli/assets/.shared/ui-ux-pro-max/scripts/brand_processor.py:333-369 | the method changes only the code snippet, to `BrandAwareCode` |
| BrandCode.BrandAwareHasRoot | cli/assets/.shared/ui-ux-pro-max/scripts/brand_processor.py:333-369 | a brand-aware snippet that mentions css or `:root` contains `:root`, and one that gained a block starts with the `:root {` line |
| BrandApply.BrandTypographyApplied | cli/assets/.shared/ui-ux-pro-max/scripts/brand_processor.py:191-236 | an empty section changes nothing; the text and score are kept; fonts are rewritten only in a non-empty snippet with a named primary font; the record lists the primary and secondary font names and notes the modification iff there are any |
| BrandApply.EnhancedAll | cli/assets/.shared/ui-ux-pro-max/scripts/brand_processor.py:45-70 | every result is enhanced, in order, and none is dropped |
| BrandApply.ApplyBrandConfig | cli/assets/.shared/ui-ux-pro-max/scripts/brand_processor.py:22-76 | the method returns `BrandApplication`: the input itself for an empty profile or list, the enhanced list without style preferences, and the filtered and sorted enhanced list with them |
| BrandApply.EnhanceAll | cli/assets/.shared/ui-ux-pro-max/scripts/brand_processor.py:45-70 | the loop returns every result enhanced, in order |
| BrandApply.EnhanceResult | cli/assets/.shared/ui-ux-pro-max/scripts/brand_processor.py:46-68 | one loop body: fresh record, colours, typography when the section is non-empty, then the brand-aware snippet |
| BrandApply.EnhancedRecord | cli/assets/.shared/ui-ux-pro-max/scripts/brand_processor.py:45-70 | an enhanced result keeps its text and score; its record carries the brand's industry and `styles_filtered` false; every colour swap goes to the primary colour |
| BrandApply.ApplyWithoutStyles | cli/assets/.shared/ui-ux-pro-max/scripts/brand_processor.py:33-76 | without style preferences the count and order are kept, and each result gets a record with the brand's industry |
| BrandApply.ApplyWithStylesOrdered | cli/assets/.shared/ui-ux-pro-max/scripts/brand_processor.py:72-76 | with style preferences the output is no longer than the input and is sorted by score |
| BrandApply.ApplyWithStyles | cli/assets/.shared/ui-ux-pro-max/scripts/brand_processor.py:45-76 | with style preferences every returned result is an enhanced input result that mentions no avoided style, restyled, marked as filtered, and carrying the brand's industry |
| BrandApply.RestyledEnhanced | cli/assets/.shared/ui-ux-pro-max/scripts/brand_processor.py:283-306 | a restyled enhanced result is marked as filtered and keeps the brand's industry |
| CsvRows.DomainsAnywhere | cli/assets/.shared/ui-ux-pro-max/scripts/config_loader.py:256-262 | any path with `/domains/` anywhere is read as a domains file |
| CsvRows.NestedStacksReadAsDomains | cli/assets/.shared/ui-ux-pro-max/scripts/config_loader.py:256-262 | a file in a `stacks` directory under a directory called `domains` is read as a domains file, although its path contains `/stacks/` |
| CsvRows.CriticalRequired | cli/assets/.shared/ui-ux-pro-max/scripts/config_loader.py:199-203 | among the required columns, the only critical one is the `description` of the domains type; `Description` of stacks is not critical |
| CsvRows.DefaultNotBlank | cli/assets/.shared/ui-ux-pro-max/scripts/config_loader.py:204-207 | a `default_<col>` filler is never blank |
| CsvRows.FillRequiredKeeps | cli/assets/.shared/ui-ux-pro-max/scripts/config_loader.py:198-207 | critical columns, and columns that are not required, are left as they were |
| CsvRows.FillRequiredFills | cli/assets/.shared/ui-ux-pro-max/scripts/config_loader.py:198-207 | after the required-field check, no required non-critical column is missing or blank |
| CsvRows.FillRequiredValid | cli/assets/.shared/ui-ux-pro-max/scripts/config_loader.py:198-207 | a row stays valid iff no required critical column is missing or blank |
| CsvRows.FillRequiredColumns | cli/assets/.shared/ui-ux-pro-max/scripts/config_loader.py:198-207 | the loop over the required columns returns `FillRequired` |
| CsvRows.FiveIsInt | cli/assets/.shared/ui-ux-pro-max/scripts/config_loader.py:209-215 | the fallback priority `5` is one `int()` accepts |
| CsvRows.NormalisePriority | cli/assets/.shared/ui-ux-pro-max/scripts/config_loader.py:209-215 | afterwards the priority is absent or parses as an int; other columns are untouched; a priority that parses is kept |
| CsvRows.Truncate | cli/assets/.shared/ui-ux-pro-max/scripts/config_loader.py:217-221 | values up to 1000 characters are kept; longer ones become their first 1000 characters plus `...` |
| CsvRows.TruncateRow | cli/assets/.shared/ui-ux-pro-max/scripts/config_loader.py:217-221 | every column keeps its name and position, and its value is truncated |
| CsvRows.GetTruncated | cli/assets/.shared/ui-ux-pro-max/scripts/config_loader.py:217-221 | a column is present after truncation iff it was before, with its value truncated |
| CsvRows.TruncateLongValues | cli/assets/.shared/ui-ux-pro-max/scripts/config_loader.py:217-221 | the loop returns the truncated row and one issue per long value |
| CsvRows.RowDropped | cli/assets/.shared/ui-ux-pro-max/scripts/config_loader.py:189-247 | a row is skipped silently iff it is blank, and dropped with an error iff it is not blank and lacks a critical required value |
| CsvRows.KeptRow | cli/assets/.shared/ui-ux-pro-max/scripts/config_loader.py:198-229 | a kept row has every required column filled, no value longer than 1003 characters, and a priority that is absent, an int, or a truncated long value |
| CsvRows.RequiredKept | cli/assets/.shared/ui-ux-pro-max/scripts/config_loader.py:198-221 | the priority and truncation steps keep a filled required column filled |
| CsvRows.CheckRow | cli/assets/.shared/ui-ux-pro-max/scripts/config_loader.py:189-247 | one iteration of the row loop returns `RowResult` |
| CsvRows.MissingFromSpec | cli/assets/.shared/ui-ux-pro-max/scripts/config_loader.py:179-187 | the missing columns are exactly the required columns not in the header |
| CsvRows.RowWarnings | cli/assets/.shared/ui-ux-pro-max/scripts/config_loader.py:231-238 | a kept row gives one warning per issue, in order |
| CsvRows.Outcomes | cli/assets/.shared/ui-ux-pro-max/scripts/config_loader.py:189 | row `i` is judged with the one-based row number `i + 1` |
| CsvRows.CollectedStep | cli/assets/.shared/ui-ux-pro-max/scripts/config_loader.py:223-247 | collecting one more row extends the data and warnings by that row's contribution |
| CsvRows.LoadRows | cli/assets/.shared/ui-ux-pro-max/scripts/config_loader.py:165-247 | the loading loop returns `LoadedRows`: the schema warning, then each row's data and warnings |
| CsvRows.ErrorRowsAppend | cli/assets/.shared/ui-ux-pro-max/scripts/config_loader.py:249-252 | the error rows of appended warning lists are the error rows of each, in order |
| CsvRows.CollectedOrder | cli/assets/.shared/ui-ux-pro-max/scripts/config_loader.py:223-247 | the data holds exactly the kept row numbers in order, and the row errors exactly the dropped ones |
| CsvRows.CollectedItems | cli/assets/.shared/ui-ux-pro-max/scripts/config_loader.py:224-229 | every item loaded is a kept row tagged with its file, row number and own warnings |
| CsvRows.LoadedRowsSpec | cli/assets/.shared/ui-ux-pro-max/scripts/config_loader.py:165-254 | for a whole file, the kept rows become data in order, the dropped rows become errors in order, and each item carries its source |
| CsvRows.LoadedErrorRows | cli/assets/.shared/ui-ux-pro-max/scripts/config_loader.py:239-247 | the row errors of a file are exactly its dropped rows |
| CsvRows.StackRowsNeverDropped | cli/assets/.shared/ui-ux-pro-max/scripts/config_loader.py:198-207 | a file read as stacks never drops a row |
| Merge.FirstPlain | cli/assets/.shared/ui-ux-pro-max/scripts/config_loader.py:390-395 | the fallback value is the first value that is non-empty and does not start with `_`, and there is none iff no value qualifies |
| Merge.ItemKey | cli/assets/.shared/ui-ux-pro-max/scripts/config_loader.py:380-397 | with identifying fields set, the key is their values joined by `|`; without them, the key is `unknown` when no value qualifies as a fallback, and at most 50 characters long in every case (a fallback that strips and lower-cases to `unknown` gives the same key); the fallback key is the first qualifying value, lower-cased, stripped and cut to 50 characters |
| Merge.ItemKeyLowerCase | cli/assets/.shared/ui-ux-pro-max/scripts/config_loader.py:380-397 | item keys contain no upper-case letter |
| Merge.ItemKeyByIdentity | cli/assets/.shared/ui-ux-pro-max/scripts/config_loader.py:385-388 | items that agree on the identifying fields, when one is set, have the same key |
| Merge.JaccardBounds | cli/assets/.shared/ui-ux-pro-max/scripts/config_loader.py:445-448 | for non-empty word sets, the ratio is in [0, 1], and 1 iff the sets are equal |
| Merge.SimilaritySpec | cli/assets/.shared/ui-ux-pro-max/scripts/config_loader.py:433-448 | similarity is symmetric, in [0, 1], 0 when either key has no words, and 1 iff both keys have the same non-empty word set |
| Merge.ConflictingFields | cli/assets/.shared/ui-ux-pro-max/scripts/config_loader.py:412-417 | each reported field is in both items, does not start with `_`, and has different values |
| Merge.FindConflictingFields | cli/assets/.shared/ui-ux-pro-max/scripts/config_loader.py:412-417 | the field loop returns `ConflictingFields` |
| Merge.FieldConflictsSpec | cli/assets/.shared/ui-ux-pro-max/scripts/config_loader.py:399-431 | each field conflict names a built-in item whose key is more than 0.7 similar, and lists a non-empty set of differing fields |
| Merge.DetectFieldConflicts | cli/assets/.shared/ui-ux-pro-max/scripts/config_loader.py:399-431 | the loop over built-in items returns `FieldConflicts` |
| Merge.FirstWithKey | cli/assets/.shared/ui-ux-pro-max/scripts/config_loader.py:358 | the built-in item found is in the list and has the asked key |
| Merge.FindFirstWithKey | cli/assets/.shared/ui-ux-pro-max/scripts/config_loader.py:358 | the search returns `FirstWithKey` |
| Merge.BuiltinKeys | cli/assets/.shared/ui-ux-pro-max/scripts/config_loader.py:344-349 | the index holds exactly the built-in items' keys |
| Merge.NewItems | cli/assets/.shared/ui-ux-pro-max/scripts/config_loader.py:352-372 | no more items are added than there are external items |
| Merge.MergedItems | cli/assets/.shared/ui-ux-pro-max/scripts/config_loader.py:339-378 | the merged list is all built-in items followed by the external items whose key no built-in item has |
| Merge.MergedDuplicates | cli/assets/.shared/ui-ux-pro-max/scripts/config_loader.py:352-376 | the duplicate conflicts name exactly the colliding external keys, in order |
| Merge.AddedPlusColliding | cli/assets/.shared/ui-ux-pro-max/scripts/config_loader.py:352-372 | every external item is either added or counted as a duplicate, never both |
| Merge.AddedOrShadowed | cli/assets/.shared/ui-ux-pro-max/scripts/config_loader.py:352-372 | an external item is added unless a built-in item has its key |
| Merge.AllShadowed | cli/assets/.shared/ui-ux-pro-max/scripts/config_loader.py:352-372 | when every external key is built in, nothing is added |
| Merge.MergeAgain | cli/assets/.shared/ui-ux-pro-max/scripts/config_loader.py:339-378 | merging the same external items into the merged list again changes nothing |
| Merge.MergeWithConflictResolution | cli/assets/.shared/ui-ux-pro-max/scripts/config_loader.py:332-378 | the method returns `Merged` |
| Merge.DuplicateCountKeys | cli/assets/.shared/ui-ux-pro-max/scripts/config_loader.py:328 | the duplicate count equals the number of duplicate conflicts |
| Merge.StatsSpec | cli/assets/.shared/ui-ux-pro-max/scripts/config_loader.py:323-328 | total entries plus duplicates found equals built-in plus external entries |
| JsonValidation.Lookup | cli/assets/.shared/ui-ux-pro-max/scripts/config_loader.py:529-531 | a key is found iff some member has it, and the value found belongs to that key |
| JsonValidation.PyIn | cli/assets/.shared/ui-ux-pro-max/scripts/config_loader.py:524 | `in` has an answer iff the value is an object, array or string; on anything else it raises |
| JsonValidation.ValidateMainConfig | cli/assets/.shared/ui-ux-pro-max/scripts/config_loader.py:511-542 | the check returns `MainConfigErrors`, and valid iff there are none |
| JsonValidation.MainObjectValid | cli/assets/.shared/ui-ux-pro-max/scripts/config_loader.py:519-533 | an object passes iff it has a `version` key and its `performance`, when present, is an object whose `max_entries` is an int when present, or a list or string in which `max_entries` does not occur |
| JsonValidation.MainConfigErrorsSpec | cli/assets/.shared/ui-ux-pro-max/scripts/config_loader.py:519-540 | at most two errors; the missing-version error appears iff `in` answers false; no errors means a document that has `version` |
| JsonValidation.VersionListAccepted | cli/assets/.shared/ui-ux-pro-max/scripts/config_loader.py:524 | a JSON list holding the string `version` passes the main-config check |
| JsonValidation.SectionErrors | cli/assets/.shared/ui-ux-pro-max/scripts/config_loader.py:558-562 | one missing-section error per missing field, in order |
| JsonValidation.ValidateBrandFile | cli/assets/.shared/ui-ux-pro-max/scripts/config_loader.py:544-584 | the check returns `BrandFileErrors`, and valid iff there are no errors |
| JsonValidation.ValidateColors | cli/assets/.shared/ui-ux-pro-max/scripts/config_loader.py:564-575 | the colours check returns `ColorsErrors` |
| JsonValidation.HexErrorsSpec | cli/assets/.shared/ui-ux-pro-max/scripts/config_loader.py:571-575 | a hex error is reported for a name and value iff that string entry fails `^#[0-9A-Fa-f]{6}$`; non-string entries are ignored |
| JsonValidation.MissingSectionsSpec | cli/assets/.shared/ui-ux-pro-max/scripts/config_loader.py:557-562 | the missing fields are exactly the required sections the object lacks |
| JsonValidation.BrandObjectSections | cli/assets/.shared/ui-ux-pro-max/scripts/config_loader.py:557-562 | the missing fields and the missing-section errors agree, one to one |
| JsonValidation.BrandObjectHex | cli/assets/.shared/ui-ux-pro-max/scripts/config_loader.py:564-575 | with a colours object, a hex error is reported for exactly the string colours that fail the pattern |
| JsonValidation.BrandObjectValid | cli/assets/.shared/ui-ux-pro-max/scripts/config_loader.py:544-575 | a brand object has no errors iff it has a typography section and a colours object with a `primary` entry, and every string colour is valid hex |
| JsonValidation.ValidateCsvFile | cli/assets/.shared/ui-ux-pro-max/scripts/config_loader.py:586-622 | the check returns `CsvFileErrors` and the row count, and valid iff there are no errors |
| JsonValidation.CheckRowFields | cli/assets/.shared/ui-ux-pro-max/scripts/config_loader.py:613-616 | the column loop returns `EmptyFields` |
| JsonValidation.EmptyFieldsSpec | cli/assets/.shared/ui-ux-pro-max/scripts/config_loader.py:613-616 | a row has an empty-field error for a column iff the column is required, present and blank |
| JsonValidation.RowFieldErrorsSpec | cli/assets/.shared/ui-ux-pro-max/scripts/config_loader.py:609-616 | the empty-field errors name exactly the required, present, blank cells with their one-based row numbers |
| JsonValidation.CsvFileErrorsSpec | cli/assets/.shared/ui-ux-pro-max/scripts/config_loader.py:600-616 | the missing-columns error comes first iff columns are missing, and the empty-field errors are exactly the blank required cells |
| JsonValidation.ValidFileKeepsEveryRow | cli/assets/.shared/ui-ux-pro-max/scripts/config_loader.py:586-622 | a file that validates, read with the same type and with every required cell present, loads every row with no row error |
| JsonValidation.ValidRowsFilled | cli/assets/.shared/ui-ux-pro-max/scripts/config_loader.py:609-616 | in a valid file every present required cell is non-blank |
| JsonValidation.ValidRowKept | cli/assets/.shared/ui-ux-pro-max/scripts/config_loader.py:198-229 | a row whose required columns are all present and non-blank is kept |
| Loader.MaxEntriesSetting | cli/assets/.shared/ui-ux-pro-max/scripts/config_loader.py:74-123 | an error while reading `config.json` leaves the limit at its default of 1000 |
| Loader.Paths | cli/assets/.shared/ui-ux-pro-max/scripts/config_loader.py:128-131 | the section lists each file's path, in order |
| Loader.FileLoads | cli/assets/.shared/ui-ux-pro-max/scripts/config_loader.py:128-145 | each file of a directory is loaded with that directory's type |
| Loader.MissingDirectory | cli/assets/.shared/ui-ux-pro-max/scripts/config_loader.py:44-58 | a missing directory gives a disabled, empty result with limit 1000 and no entries |
| Loader.EntryAccounting | cli/assets/.shared/ui-ux-pro-max/scripts/config_loader.py:125-155 | the entry count is the domain plus stack items; there is at most one performance warning, issued iff the count exceeds the limit (1000 without a readable main config); an unparsable main config gives one domains error |
| Loader.StacksDirectoryKeepsRows | cli/assets/.shared/ui-ux-pro-max/scripts/config_loader.py:136-145 | files in the stacks directory, read as stacks, drop no row |
| Loader.NestedStacksFileLosesRows | cli/assets/.shared/ui-ux-pro-max/scripts/config_loader.py:256-262 | the nested stacks file of the finding, with rows that have no lower-case `description`, loads no data; its non-blank rows are all dropped as domains rows but would all be kept as stacks rows |
| Loader.UndescribedRowsDropped | cli/assets/.shared/ui-ux-pro-max/scripts/config_loader.py:198-203 | a domains file whose rows lack `description` loads no data, and every non-blank row is dropped |
| Loader.CacheHit | cli/assets/.shared/ui-ux-pro-max/scripts/config_loader.py:742-783 | a config cached after the directory's last change is returned, and the cache is left as it was |
| Loader.CacheLookupSpec | cli/assets/.shared/ui-ux-pro-max/scripts/config_loader.py:756-783 | an unknown key gives nothing; a stale entry gives nothing and is removed; a fresh entry gives its config; other keys are untouched |
| Loader.ConfigLoader.constructor | cli/assets/.shared/ui-ux-pro-max/scripts/config_loader.py:20-29 | the path is the argument when given, else `.ui-ux-pro-max-config` under the working directory; the cache and the warnings start empty |
| Loader.ConfigLoader.LoadCsvFile | cli/assets/.shared/ui-ux-pro-max/scripts/config_loader.py:165-254 | returns the file's data and appends its warnings to the loader's warnings |
| Loader.ConfigLoader.LoadSection | cli/assets/.shared/ui-ux-pro-max/scripts/config_loader.py:125-145 | a directory's section lists its files and all their data, and its warnings are appended in file order |
| Loader.ConfigLoader.LoadNext | cli/assets/.shared/ui-ux-pro-max/scripts/config_loader.py:128-134 | one file's step extends the paths, data and warnings by that file's share |
| Loader.ConfigLoader.LoadExternalConfig | cli/assets/.shared/ui-ux-pro-max/scripts/config_loader.py:31-163 | a non-empty path argument replaces the loader's path; the result is `ExternalConfig`, and warnings are added only when the directory exists |
| Loader.ConfigLoader.LoadDirectory | cli/assets/.shared/ui-ux-pro-max/scripts/config_loader.py:60-155 | an existing directory gives `ExternalConfig`, with the domains warnings before the stacks warnings |
| Loader.ConfigLoader.GetValidationWarnings | cli/assets/.shared/ui-ux-pro-max/scripts/config_loader.py:624-631 | returns the warnings collected so far |
| Loader.ConfigLoader.ClearValidationWarnings | cli/assets/.shared/ui-ux-pro-max/scripts/config_loader.py:633-635 | empties the warnings and changes nothing else |
| Loader.ConfigLoader.CacheConfig | cli/assets/.shared/ui-ux-pro-max/scripts/config_loader.py:742-754 | stores the config under the key with the time and the loader's current path |
| Loader.ConfigLoader.GetCachedConfig | cli/assets/.shared/ui-ux-pro-max/scripts/config_loader.py:756-783 | the result and the new cache are `CacheLookup` of the old cache |
| Loader.ConfigLoader.MergeWithBuiltin | cli/assets/.shared/ui-ux-pro-max/scripts/config_loader.py:275-330 | built-in items are followed by the new external ones for each kind; brand and reasoning are passed through; the statistics count the built-in and external items, the merged items as the total, every conflict as resolved and the duplicate conflicts as the duplicates found, so that total plus duplicates equals built-in plus external |

## Left out

- File and directory access (`open`, `csv.DictReader`, `json.load`, `glob`, `exists`, `stat`) is not modelled. The directory's existence, the parsed main config, the CSV files (path, header, rows) and the brand and reasoning parts are inputs. The order in which `glob` lists files is taken as given.
- Loading the brand file and the reasoning rules (config_loader.py lines 83-115) is not modelled, nor their error messages. They are inputs to `LoadExternalConfig`. A `brand` or `reasoning` entry of `config.json` that is not an object makes the source add a "main config" error. The model reports that error only for a document or `performance` entry that is not an object.
- The `metadata` part of the load result (path, `last_modified`, `version`) is not modelled, because it holds clock and filesystem times.
- A file that raises while loading (an unreadable file, or a row of a short CSV line whose missing cells are `None`) is not modelled; the source reports it in the section's `errors`.
- Loader.ConfigLoader.LoadExternalConfig: requires a `max_entries` that Python can compare with an int. On any other value (a string, a list, an object) the source raises `TypeError` out of `load_external_config`.
- Loader.ConfigLoader.LoadExternalConfig: reads each directory's files with that directory's type, which is the intended behaviour (see Findings). The source re-detects the type from the path; the two differ only in the case the finding describes and in the first-line sniffing of `_detect_csv_type`.
- CsvRows.MissingFromSpec: the missing columns are listed in required-column order. The source joins a Python `set`, whose order is unspecified. Warnings are modelled as structured values, not formatted messages.
- JSON objects are association lists. A duplicate key finds its first occurrence, where `json.load` keeps the last.
- Floating-point arithmetic is modelled with `real`. The lightening and darkening of colours (`colorsys`), the WCAG contrast ratio and the luminance are parameters of the model (`Helpers`), so their numeric results are not modelled.
- BrandValidation.ValidateColorsSection: colour leaves (`primary`, `secondary`, `accent`) are strings in the model. A profile whose primary is a number, a list or JSON null is not representable; the source reports such a primary as missing and still runs the contrast check on it, which fails it against every background with ratio 0.
- CsvRows.NormalisePriority: `IsPythonInt` accepts ASCII digits only and any number of them. Python's `int()` also accepts the decimal digits of other scripts, which the model resets to `5` with a warning, and since Python 3.11 it rejects more than 4300 digits, which the model keeps.
- BrandValidation.CheckColorAccessibility: reports the unrounded ratio. The source rounds it to two decimals for display but decides compliance on the unrounded value, as the model does.
- BrandCode.ReplaceFonts: the regular-expression rewriting of font declarations is a parameter, so the model states only when the snippet is left alone.
- `extract_brand_colors` beyond reading the colours section, and `color_cache` and `accessibility_cache`, are not modelled; the caches never change a result.
- `_adjust_brand_relevance_score` returns its argument and is not modelled.
- The `filter_stats` counters of `filter_by_style_preferences` are never returned and are not modelled.
- StyleFilter.FilterByStylePreferences: the source updates the dicts it is given in place (score and `styles_filtered`), and the model returns new values. The sort is a function on the sequence, not an in-place `list.sort`.
- `lower`, `strip` and `split` are modelled on ASCII only; Unicode case mapping and Unicode white space are not.
- The content-sniffing branch of `_detect_csv_type` takes the file's first line as an input, and a file that cannot be read falls back to domains.
- `validate_configuration`, `get_config_status`, `discover_config_files` and the module-level helpers of config_loader.py are not modelled. They only combine the validators above with file-system listings.

## Findings

| source | as written | input that shows it | evidently intended | confidence | as-written member | corrected member |
|---|---|---|---|---|---|---|
| cli/assets/.shared/ui-ux-pro-max/scripts/config_loader.py:256-262 | `_detect_csv_type` looks for `/domains/` anywhere in the whole lower-cased path, before it looks for `/stacks/` | configuration directory `/srv/domains/cfg`: its stacks file `/srv/domains/cfg/stacks/tokens.csv` is read as a domains file, so its rows (which have `Description`, not `description`) are all dropped | a file in the configuration's `stacks` directory is read as a stacks file, whatever directories lie above the configuration | not executed | CsvRows.NestedStacksReadAsDomains, Loader.NestedStacksFileLosesRows | Loader.ConfigLoader.LoadExternalConfig, Loader.StacksDirectoryKeepsRows |
