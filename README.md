# PerfKit Explorer widget query compiler, in Dafny

This project models the part of PerfKit Explorer that turns a dashboard
widget's declarative query configuration into SQL for BigQuery's legacy
dialect, together with the helpers around it:

- `QueryBuilderService` (`query_builder.dfy`): the display-mode rule,
  `createSimpleFilter`, the relative and absolute date expressions,
  `%%NAME%%` token substitution, and `getSql`, which builds the field
  columns, the `timestamp` bounds, the raw / grouped / itemized label
  projections, the `product_name`/`test`/`metric`/`owner` dimension
  filters and the (optionally PERDAY-partitioned) table expression, and hands
  them to the SQL assembly library's `formatQuery`.
- `QueryResultDataService` helpers (`query_result_data.dfy`): column
  lookups by type and by id, the extraction of label keys from the packed
  `|name:value|` labels column, the tooltip role rule, and the message shown
  when a fetch returns an error.
- `ConfigService` (`config_service.dfy`): the eight application settings,
  `populate` and `toJSON`.
- `js_strings.dfy` states the JavaScript and Closure string primitives the
  code relies on (`isEmptyOrWhitespace`, `join`, `split`, `slice(0, -n)`,
  global replace); `query_types.dfy` holds `isEmptySafe` on filter values and
  the filter and query-property records the compiler produces; `wrappers.dfy`
  holds `Option` and `Result`.

The SQL assembly library (`BigQueryBuilder.formatQuery` and its
`build*Args` helpers) is not part of this model: `GetSql` takes it as a
function parameter `format`, and `Compile` states exactly which arguments
it receives. `GetSql`'s thrown PERDAY error becomes a `Result.Err`.

Three behaviours of the code that the model reproduces:

- In grouped mode the alias filter is placed in the aggregations and filters
  slots of the group-side properties; its group-by slot stays empty
  (`client/components/widget/query/builder/query-builder-service.js:388-391`).
- An end date that is not CUSTOM leaves the end boundary unset, so its
  `timestamp` clause reads `TIMESTAMP_TO_SEC(null)` and a PERDAY range ends
  at `CURRENT_TIMESTAMP()` (`client/components/widget/query/builder/query-builder-service.js:330-344`, `client/components/widget/query/builder/query-builder-service.js:498-500`).
- A single grouping name is wrapped in `(`...`)` and several in
  `CONCAT(`...`)`; an empty name list leaves only `)` after the five-character
  slice (`client/components/widget/query/builder/query-builder-service.js:375-379`).

## Model

| member | source | states |
|---|---|---|
| QueryBuilder.ColumnDisplayMode | client/components/widget/query/builder/query-builder-service.js:107-121 | HIDDEN exactly when values are given, the list is non-empty and its first value is neither null nor an empty or whitespace-only string; COLUMN otherwise |
| QueryBuilder.NonBlankMembers | client/components/widget/query/builder/query-builder-service.js:149-156 | a value becomes a clause iff it is in the input and not empty-safe blank |
| QueryBuilder.NonBlankConcat | client/components/widget/query/builder/query-builder-service.js:149-156 | clause filtering distributes over concatenation, so clauses keep the input order |
| QueryBuilder.NonBlankEmpty | client/components/widget/query/builder/query-builder-service.js:149-156 | there are no clauses iff every value is blank |
| QueryBuilder.DefaultModeMatchesClauses | client/components/widget/query/builder/query-builder-service.js:107-158 | a filter that defaults to HIDDEN has its first value as its first clause; a filter without clauses defaults to COLUMN |
| QueryBuilder.QueryBuilderService.CreateSimpleFilter | client/components/widget/query/builder/query-builder-service.js:140-159 | field and alias as given; explicit display mode or the default rule; no clauses without values; otherwise clause i is the i-th non-blank value with the given rule or EQ |
| QueryBuilder.SimpleFilter | client/components/widget/query/builder/query-builder-service.js:140-159 | defines the filter `createSimpleFilter` returns: one clause per non-blank value with the rule or EQ, the explicit or default display mode, the alias |
| QueryBuilder.RelativeDateFunction | client/components/widget/query/builder/query-builder-service.js:167-171 | the text is `DATE_ADD(CURRENT_TIMESTAMP(), -`, the offset, `, "`, the unit, `")`, at the stated positions |
| QueryBuilder.AbsoluteDateFunction | client/components/widget/query/builder/query-builder-service.js:179-181 | the text is `TIMESTAMP('`, the literal timestamp, `')` |
| QueryBuilder.DateFunctionKind | client/components/widget/query/builder/query-builder-service.js:311-344 | a boundary starts with `TIMESTAMP('` iff the date is CUSTOM, and with the relative-now prefix iff it is not |
| QueryBuilder.StartBoundary | client/components/widget/query/builder/query-builder-service.js:311-328 | the start boundary is set iff a start date is present |
| QueryBuilder.EndBoundary | client/components/widget/query/builder/query-builder-service.js:330-344 | the end boundary is set iff the end date is present and CUSTOM |
| QueryBuilder.EpochText | client/components/widget/query/builder/query-builder-service.js:336-340 | an unset boundary is rendered as `TIMESTAMP_TO_SEC(null)` |
| QueryBuilder.DateFiltersShape | client/components/widget/query/builder/query-builder-service.js:311-354 | one HIDDEN `timestamp` filter per present date, start (GE) before end (LE), each with one expression clause wrapping the boundary in `TIMESTAMP_TO_SEC`; a relative end date yields `TIMESTAMP_TO_SEC(null)` |
| QueryBuilder.DateFilters | client/components/widget/query/builder/query-builder-service.js:311-354 | defines the date filters: the start bound (GE), then the end bound (LE), each only when its date is present |
| QueryBuilder.QueryBuilderService.AppendDateFilters | client/components/widget/query/builder/query-builder-service.js:311-354 | appends exactly the date filters and returns the start and end boundaries the PERDAY table expression uses |
| QueryBuilder.GroupPrefixStep | client/components/widget/query/builder/query-builder-service.js:375-378 | each loop step extends the partial group expression by one extraction and the `,'_',` separator |
| QueryBuilder.Extraction | client/components/widget/query/builder/query-builder-service.js:377 | defines the `REGEXP_EXTRACT` expression that reads tag `name` out of the packed labels column |
| QueryBuilder.GroupQuery | client/components/widget/query/builder/query-builder-service.js:374-379 | defines the group expression: opener, one extraction and `,'_',` per name, the last five characters sliced off, then `)` |
| QueryBuilder.GroupQueryShape | client/components/widget/query/builder/query-builder-service.js:374-379 | the group expression is the opener, the extractions joined by `,'_',`, and `)`; `CONCAT(` for several names; `(extraction)` for one; only `)` for none |
| QueryBuilder.QueryBuilderService.BuildGroupQuery | client/components/widget/query/builder/query-builder-service.js:375-379 | the loop and the five-character slice build exactly the group expression |
| QueryBuilder.ItemizedProjectionsAt | client/components/widget/query/builder/query-builder-service.js:395-399 | the i-th itemized projection extracts label i and is aliased to it |
| QueryBuilder.ItemizedProjections | client/components/widget/query/builder/query-builder-service.js:395-399 | defines the itemized projections, one per label key, in key order |
| QueryBuilder.LabelProjections | client/components/widget/query/builder/query-builder-service.js:361-406 | defines the projections of the raw, grouped and itemized label modes |
| QueryBuilder.GroupProperties | client/components/widget/query/builder/query-builder-service.js:357-392 | defines the group-side properties: the alias filter in the aggregations and filters slots in grouped mode without a secondary group, empty otherwise |
| QueryBuilder.SortFields | client/components/widget/query/builder/query-builder-service.js:361-371 | defines the sort list: `labels` in raw mode, empty otherwise |
| QueryBuilder.RawMode | client/components/widget/query/builder/query-builder-service.js:361-372 | without labels: bare `labels`, `unit`, `value` projections, sorted by `labels`, empty group side |
| QueryBuilder.GroupedMode | client/components/widget/query/builder/query-builder-service.js:372-392 | with a primary group and no secondary group: the group expression aliased to the names joined by `_`, then `AVG(value)` as `value`; the alias sits in the group side's aggregations and filters; no sort |
| QueryBuilder.SecondaryGroupMode | client/components/widget/query/builder/query-builder-service.js:380-393 | a defined secondary group adds no projection and leaves the group side empty |
| QueryBuilder.ItemizedMode | client/components/widget/query/builder/query-builder-service.js:394-406 | with labels and no primary group: one extraction per label key in order, then `unit` and `value`; empty group side; no sort |
| QueryBuilder.QueryBuilderService.AppendLabelProjections | client/components/widget/query/builder/query-builder-service.js:356-406 | appends exactly the projections of the selected mode and returns its group-side properties and sort list |
| QueryBuilder.QueryBuilderService.AppendItemized | client/components/widget/query/builder/query-builder-service.js:395-399 | appends one aliased extraction per label key, in key order |
| QueryBuilder.DimensionFilterShape | client/components/widget/query/builder/query-builder-service.js:408-438 | a dimension filter is a HIDDEN, unaliased filter on its field with one EQ clause on its value, or none if the value is blank |
| QueryBuilder.StaticFilters | client/components/widget/query/builder/query-builder-service.js:408-438 | defines the dimension filters: product_name, test, metric, then runby on the field `owner`, each only when truthy |
| QueryBuilder.StaticFiltersShape | client/components/widget/query/builder/query-builder-service.js:408-438 | one dimension filter per truthy value among product_name, test, metric and runby; product_name first, runby last and on the field `owner` |
| QueryBuilder.QueryBuilderService.AppendDimension | client/components/widget/query/builder/query-builder-service.js:408-414 | appends a HIDDEN dimension filter only when its value is truthy |
| QueryBuilder.QueryBuilderService.AppendStaticFilters | client/components/widget/query/builder/query-builder-service.js:408-438 | appends exactly the four optional dimension filters in source order |
| QueryBuilder.TableId | client/components/widget/query/builder/query-builder-service.js:485-489 | `dataset.table`, prefixed by `project:` iff the project is non-empty |
| QueryBuilder.FieldColumns | client/components/widget/query/builder/query-builder-service.js:307-310 | one bare COLUMN filter per result field, in order |
| QueryBuilder.SelectFilters | client/components/widget/query/builder/query-builder-service.js:307-438 | defines the select-side filters: field columns, date filters, label projections, dimension filters |
| QueryBuilder.TableExpression | client/components/widget/query/builder/query-builder-service.js:491-505 | an error with the PERDAY message iff PERDAY has no start boundary; `[table]` without partitioning |
| QueryBuilder.PerDayRange | client/components/widget/query/builder/query-builder-service.js:493-502 | a PERDAY range runs from the start boundary to the CUSTOM end date, or to `CURRENT_TIMESTAMP()` otherwise |
| QueryBuilder.SelectFiltersOrder | client/components/widget/query/builder/query-builder-service.js:307-438 | the select-side filters are the result fields as bare columns, then the date filters, then the label projections, then the dimension filters |
| QueryBuilder.Compile | client/components/widget/query/builder/query-builder-service.js:476-515 | fails iff PERDAY partitioning has no start date, with the PERDAY message; otherwise no select-side aggregations or group-bys, no group-side group-bys, one table expression and the model's row limit |
| QueryBuilder.ReplaceEachConcat | client/components/widget/query/builder/query-builder-service.js:193-204 | applying a parameter list is applying its first part, then its second part |
| QueryBuilder.ReplaceEach | client/components/widget/query/builder/query-builder-service.js:194-200 | defines the parameter loop: each parameter's token replaced globally by its value, in list order |
| QueryBuilder.Substitute | client/components/widget/query/builder/query-builder-service.js:193-204 | defines `replaceTokens`: an empty query is returned as is, otherwise every parameter is applied |
| QueryBuilder.SubstituteNoop | client/components/widget/query/builder/query-builder-service.js:193-204 | an empty query or an empty parameter list leaves the text unchanged |
| QueryBuilder.SubstituteExample | client/components/widget/query/builder/query-builder-service.js:186-204 | `SELECT %%LIMIT%%` with LIMIT = 10 becomes `SELECT 10` |
| QueryBuilder.QueryBuilderService.constructor | client/components/widget/query/builder/query-builder-service.js:90-96 | both token delimiters are `%%` |
| QueryBuilder.QueryBuilderService.ReplaceTokens | client/components/widget/query/builder/query-builder-service.js:193-204 | the result is every parameter applied in list order to a non-empty query, and the query itself when empty or without parameters |
| QueryBuilder.QueryBuilderService.GetSql | client/components/widget/query/builder/query-builder-service.js:216-523 | fails iff PERDAY partitioning has no start date, with the PERDAY message; otherwise the text is the assembly of the compiled request with the parameters substituted |
| JsStrings.ReplaceAllAbsent | client/components/widget/query/builder/query-builder-service.js:196-199 | a global replace leaves text without an occurrence of the token unchanged |
| JsStrings.ReplaceAllFirst | client/components/widget/query/builder/query-builder-service.js:196-199 | a global replace replaces the first occurrence and resumes after it (left to right, non-overlapping) |
| JsStrings.TerminatedJoin | client/components/widget/query/builder/query-builder-service.js:375-379 | text built by appending each piece and a separator is the joined pieces plus one trailing separator |
| JsStrings.DropLast | client/components/widget/query/builder/query-builder-service.js:379 | `slice(0, -n)` for n > 0 drops the last n characters, and yields the empty string when there are fewer |
| JsStrings.Split | client/components/widget/query/query-result-data-service.js:202-204 | `split` on one character yields at least one piece and no piece contains the separator |
| JsStrings.SplitJoin | client/components/widget/query/query-result-data-service.js:202 | joining the pieces of `split(c)` with `c` gives back the text, so the pieces are exactly the separated entries |
| JsStrings.ReplaceAll | client/components/widget/query/builder/query-builder-service.js:196-199 | defines the global replace of a literal pattern: occurrences replaced left to right without overlap; an empty pattern inserts the value before every character and at the end |
| JsStrings.Join | client/components/widget/query/builder/query-builder-service.js:374 | defines `join`: the pieces with the separator between consecutive ones; a single piece is returned as is |
| JsStrings.IsWhitespace | client/components/widget/query/builder/query-builder-service.js:116 | defines the characters `isEmptyOrWhitespace` treats as whitespace (`\s` and the no-break space) |
| JsStrings.IsBlank | client/components/widget/query/query-result-data-service.js:274 | defines `isEmptyOrWhitespace`: the string is empty or all whitespace |
| QueryTypes.IsEmptySafe | client/components/widget/query/builder/query-builder-service.js:152 | defines `isEmptySafe` on a filter value: null and blank strings are empty, a number never is |
| JsStrings.SplitFirstPiece | client/components/widget/query/query-result-data-service.js:204 | the first piece of a split ends at the first separator |
| JsStrings.RemoveChar | client/components/widget/query/query-result-data-service.js:204 | removing `|` leaves no `|` and adds no character |
| QueryResultData.GetColumnIndexesOfType | client/components/widget/query/query-result-data-service.js:135-151 | the indices returned are in range, strictly increasing, and are exactly those of the columns whose type is the type or in the list |
| QueryResultData.GetColumnIndexesOfId | client/components/widget/query/query-result-data-service.js:153-169 | the indices returned are in range, strictly increasing, and are exactly those of the columns whose id is the id or in the list |
| QueryResultData.LabelKey | client/components/widget/query/query-result-data-service.js:204 | a label key contains neither `|` nor `:` |
| QueryResultData.LabelKeyOfTag | client/components/widget/query/query-result-data-service.js:204 | the key of a `|name:value|` entry is `name`, the name the compiler's extraction expression looks up |
| QueryResultData.EntryKeysMembers | client/components/widget/query/query-result-data-service.js:202-206 | the keys of a row are exactly the keys of its comma-separated entries |
| QueryResultData.EntryKeys | client/components/widget/query/query-result-data-service.js:203-206 | defines the keys of the entries of one labels cell |
| QueryResultData.LabelKeys | client/components/widget/query/query-result-data-service.js:201-207 | defines the keys of the labels cells of all rows |
| QueryResultData.LabelKeysMembers | client/components/widget/query/query-result-data-service.js:201-207 | a key is found iff some entry of some row's labels cell has it |
| QueryResultData.ExtractLabels | client/components/widget/query/query-result-data-service.js:192-210 | without a `labels` column the map is empty; otherwise its keys are exactly the keys of all rows' labels cells, each mapped to itself |
| QueryResultData.WithRoles | client/components/widget/query/query-result-data-service.js:218-239 | a `tooltip` column gets role `tooltip` and keeps its properties, or gets `{role: tooltip}` when it has none; other columns are unchanged |
| QueryResultData.WithRolesIdempotent | client/components/widget/query/query-result-data-service.js:218-239 | applying the role rule twice is applying it once |
| QueryResultData.ApplyRoles | client/components/widget/query/query-result-data-service.js:218-239 | every listed column ends in the state the role rule gives its initial state, also when a column object is listed twice |
| QueryResultData.FetchErrorMessage | client/components/widget/query/query-result-data-service.js:273-280 | the message is the fixed prefix, the data-source type and `: `, then the error text, or the "no details" text when the error is blank; the detail is never blank |
| Config.PopulatedField | client/components/config/config-service.js:87-119 | after `populate`, each setting holds the value the data defines for its key (null included), and its old value otherwise |
| Config.Populated | client/components/config/config-service.js:87-119 | defines `populate` on the settings: each setting whose key the data defines takes that value, the others keep theirs |
| Config.PopulateNoKeys | client/components/config/config-service.js:87-119 | data defining none of the eight keys changes nothing |
| Config.PopulateIdempotent | client/components/config/config-service.js:87-119 | populating twice from the same data is populating once |
| Config.PopulateIgnoresOtherKeys | client/components/config/config-service.js:87-119 | keys other than the eight settings never influence `populate` |
| Config.PopulateComplete | client/components/config/config-service.js:87-119 | data defining all eight keys determines the settings regardless of their previous values |
| Config.Exported | client/components/config/config-service.js:128-141 | `toJSON` output has the base object's keys plus the eight setting keys, the settings' values under them, and the base's other values unchanged |
| Config.PopulateExported | client/components/config/config-service.js:87-141 | populating from the object `toJSON` produced restores exactly the exported settings |
| Config.ConfigService.constructor | client/components/config/config-service.js:44-78 | the settings start from the initial configuration |
| Config.ConfigService.Populate | client/components/config/config-service.js:87-119 | the new settings are the old ones updated with every key the data defines |
| Config.ConfigService.ToJson | client/components/config/config-service.js:128-141 | writes onto the given object, or a fresh one when none is given, the exported settings; the service itself is unchanged |

## Left out

- I/O and framework wiring: `fetchResults`' HTTP request, work queue, cache, promise handling and error-service calls, `console.log` output, and `ConfigService.refresh` / `update`: `refresh` fetches the configuration over HTTP and hands the response data to `populate` (modelled by `Populate`), and `update` posts the output of `toJSON` (modelled by `ToJson`) and then reports 'Global config updated.' through the error service; the pure error-message rule of `fetchResults` is modelled as `FetchErrorMessage`.
- The SQL assembly library (`BigQueryBuilder.formatQuery` and `build*Args`) is not part of this model; it is a parameter of `GetSql`.
- `parseDates_` converts strings to `Date` objects, which the model has no counterpart for.
- The code inside block comments of `getSql` (an older copy of the date and dimension blocks, explicit label filters, `official` and metadata filters) is dead and not modelled.
- QueryBuilder.QueryBuilderService.ReplaceTokens: models `RegExp` replacement only for tokens without regular-expression metacharacters and values without `$` patterns (precondition `LiteralParams`), where it is a literal left-to-right replace.
- QueryBuilder.QueryBuilderService.GetSql: `dataLabels` is a list of label keys in the object's enumeration order; a labels object whose keys JavaScript enumerates in a different order (integer-like keys) is not modelled. `dataLabels` defined with `dataGroups` undefined makes the source throw a TypeError and is excluded by `ValidHints`. A null or undefined `params` is modelled as the empty list, which the source treats the same way.
- QueryBuilder.Custom: the value of the `DateFilterType.CUSTOM` tag is not visible in these files and is taken to be `CUSTOM`; only its equality with a date's `filter_type` matters.
- Dimension values and date texts are strings; the source's truthiness tests are modelled as non-emptiness, and a non-string value in those positions is not modelled. Numeric filter values are integers.
- QueryResultData.ExtractLabels: when there is at least one row, requires at most one column with id `labels`; with two such columns the source indexes the first row with a two-element array and fails (with no rows it returns `{}`, which the model also does). Every row must have a labels cell. Cell values are strings.
- Config: settings are JSON scalars (numbers as integers); nested objects and arrays as setting values are not modelled.
- JsStrings.DropLast: modelled for n > 0 only; `slice(0, -0)` would return the empty string, and the source only slices with n = 5.
- Angular dependency injection, the filter-config directive and the tests are outside this model.
