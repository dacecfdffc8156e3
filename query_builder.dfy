/**
 * The widget query compiler: `QueryBuilderService` turns a query-config model
 * plus hints about the previous result (`dataLabels`, `dataGroups`) into the
 * arguments of the SQL assembly library's `formatQuery`, and substitutes
 * `%%NAME%%` parameter tokens into the text it returns.
 *
 * The specification functions below state, piece by piece, what the compiler
 * hands to `formatQuery`; the class's methods build the same values step by
 * step, as the source does, and are proved to agree with them.
 */
module QueryBuilder {
  import opened Wrappers
  import opened JsStrings
  import opened QueryTypes

  /** The `DateFilterType.CUSTOM` tag; every other tag selects a relative date. */
  const Custom: string := "CUSTOM"

  /** A start or end date of the query: a relative offset or a literal timestamp in `text`. */
  datatype DateFilter = DateFilter(filterType: string, filterValue: string, text: string)

  /**
   * `model.filters`. A dimension filter that is absent or empty is "" (the
   * source tests each one for truthiness).
   */
  datatype QueryFilters = QueryFilters(startDate: Option<DateFilter>, endDate: Option<DateFilter>,
                                       productName: string, test: string, metric: string,
                                       runby: string)

  /** `model.results`: the names of the explicit output columns and the row limit. */
  datatype QueryResults = QueryResults(fields: seq<string>, rowLimit: int)

  /** `QueryConfigModel`, as far as the compiler reads it. */
  datatype QueryConfig = QueryConfig(filters: QueryFilters, results: QueryResults)

  /** The grouping hint: each key is either undefined or a list of label names. */
  datatype DataGroups = DataGroups(primaryGroup: Option<seq<string>>, secondaryGroup: Option<seq<string>>)

  /** `QueryTablePartitioning`: only PERDAY changes the table expression. */
  datatype TablePartitioning = OneTable | PerDay

  /** `DashboardParam`: a saved value for the token `%%name%%`. */
  datatype DashboardParam = DashboardParam(name: string, value: string)

  const PerDayError: string := "Start date is required when PERDAY table partitioning is used."
  const RelativePrefix: string := "DATE_ADD(CURRENT_TIMESTAMP(), -"
  const AbsolutePrefix: string := "TIMESTAMP('"
  const CurrentTimestamp: string := "CURRENT_TIMESTAMP()"
  const GroupSeparator: string := ",'_',"

  // ---------------------------------------------------------------------------
  // Display mode and single-field filters

  /** `getColumnDisplayMode`: a filter pinned to a concrete first value is hidden. */
  function ColumnDisplayMode(values: Option<seq<Value>>): (m: DisplayMode)
    ensures m == Hidden <==> values.Some? && |values.value| > 0 && !IsEmptySafe(values.value[0])
  {
    var first := if values.Some? && |values.value| > 0 then values.value[0] else Null;
    if first != Null && !(first.Str? && IsBlank(first.s)) then Hidden else Column
  }

  /** The values of `vs` that are not empty or blank, in input order. */
  function NonBlank(vs: seq<Value>): seq<Value>
  {
    if vs == [] then []
    else NonBlank(vs[..|vs| - 1]) + (if IsEmptySafe(vs[|vs| - 1]) then [] else [vs[|vs| - 1]])
  }

  /** One single-value clause per non-blank value. */
  function Clauses(vs: seq<Value>, rule: MatchRule): seq<FilterClause>
  {
    var nb := NonBlank(vs);
    seq(|nb|, i requires 0 <= i < |nb| => FilterClause([nb[i]], rule, false))
  }

  /** The filter `createSimpleFilter` builds. */
  function SimpleFilter(field: string, values: Option<seq<Value>>, rule: Option<MatchRule>,
                        mode: Option<DisplayMode>, alias: Option<string>): Filter
  {
    Filter(field,
           if values.Some? then Clauses(values.value, rule.GetOr(EQ)) else [],
           if mode.Some? then mode.value else ColumnDisplayMode(values),
           alias)
  }

  /** A value is kept iff it is in the input and not blank. */
  lemma {:induction false} NonBlankMembers(vs: seq<Value>)
    ensures forall x :: x in NonBlank(vs) <==> x in vs && !IsEmptySafe(x)
  {
    if vs != [] {
      var init := vs[..|vs| - 1];
      NonBlankMembers(init);
      assert vs == init + [vs[|vs| - 1]];
    }
  }

  /** Filtering commutes with concatenation, so the kept values stay in input order. */
  lemma {:induction false} NonBlankConcat(a: seq<Value>, b: seq<Value>)
    ensures NonBlank(a + b) == NonBlank(a) + NonBlank(b)
    decreases |b|
  {
    if b == [] {
      assert a + b == a;
    } else {
      var init := b[..|b| - 1];
      assert (a + b)[..|a + b| - 1] == a + init;
      NonBlankConcat(a, init);
    }
  }

  /** An all-blank (or empty) value list yields no clause at all. */
  lemma NonBlankEmpty(vs: seq<Value>)
    ensures NonBlank(vs) == [] <==> forall x :: x in vs ==> IsEmptySafe(x)
  {
    NonBlankMembers(vs);
    if NonBlank(vs) != [] {
      assert NonBlank(vs)[0] in NonBlank(vs);
    }
  }

  /**
   * The default display mode agrees with the clauses: a filter that defaults to
   * HIDDEN has its first value as its first clause, and a filter without
   * clauses defaults to COLUMN.
   */
  lemma DefaultModeMatchesClauses(vs: seq<Value>)
    ensures ColumnDisplayMode(Some(vs)) == Hidden ==> NonBlank(vs) != [] && NonBlank(vs)[0] == vs[0]
    ensures NonBlank(vs) == [] ==> ColumnDisplayMode(Some(vs)) == Column
  {
    if vs != [] {
      NonBlankConcat([vs[0]], vs[1..]);
      assert [vs[0]] + vs[1..] == vs;
      assert NonBlank([vs[0]]) == NonBlank([]) + (if IsEmptySafe(vs[0]) then [] else [vs[0]]);
    }
  }

  // ---------------------------------------------------------------------------
  // Date expressions

  /** `getRelativeDateFunction`: the unit written is the date filter's `filter_type`. */
  function RelativeDateFunction(d: DateFilter): (r: string)
    ensures |r| == |RelativePrefix| + |d.filterValue| + 3 + |d.filterType| + 2
    ensures r[..|RelativePrefix|] == RelativePrefix
    ensures r[|RelativePrefix|..|RelativePrefix| + |d.filterValue|] == d.filterValue
    ensures r[|RelativePrefix| + |d.filterValue|..|RelativePrefix| + |d.filterValue| + 3] == ", \""
    ensures r[|RelativePrefix| + |d.filterValue| + 3..|r| - 2] == d.filterType
    ensures r[|r| - 2..] == "\")"
  {
    RelativePrefix + d.filterValue + ", \"" + d.filterType + "\")"
  }

  /** `getAbsoluteDateFunction`: the literal text is quoted inside `TIMESTAMP(...)`. */
  function AbsoluteDateFunction(d: DateFilter): (r: string)
    ensures |r| == |AbsolutePrefix| + |d.text| + 2
    ensures r[..|AbsolutePrefix|] == AbsolutePrefix
    ensures r[|AbsolutePrefix|..|r| - 2] == d.text
    ensures r[|r| - 2..] == "')"
  {
    AbsolutePrefix + d.text + "')"
  }

  /** The boundary expression of a date filter, chosen by its `filter_type`. */
  function DateFunction(d: DateFilter): string
  {
    if d.filterType == Custom then AbsoluteDateFunction(d) else RelativeDateFunction(d)
  }

  /** A custom date becomes an absolute timestamp and never the relative function, and vice versa. */
  lemma DateFunctionKind(d: DateFilter)
    ensures |DateFunction(d)| > |AbsolutePrefix|
    ensures DateFunction(d)[..|AbsolutePrefix|] == AbsolutePrefix <==> d.filterType == Custom
    ensures (|DateFunction(d)| >= |RelativePrefix| && DateFunction(d)[..|RelativePrefix|] == RelativePrefix)
            <==> d.filterType != Custom
  {
    var r := DateFunction(d);
    if d.filterType == Custom {
      assert r[0] == 'T' && RelativePrefix[0] == 'D';
      if |r| >= |RelativePrefix| {
        assert r[..|RelativePrefix|][0] == r[0];
      }
    } else {
      assert r[0] == 'D' && AbsolutePrefix[0] == 'T';
      assert r[..|AbsolutePrefix|][0] == r[0];
    }
  }

  /** The start boundary: set whenever a start date is present. */
  function StartBoundary(f: QueryFilters): (b: Option<string>)
    ensures b.Some? <==> f.startDate.Some?
  {
    if f.startDate.Some? then Some(DateFunction(f.startDate.value)) else None
  }

  /** The end boundary: set only by a CUSTOM end date; a relative end date leaves it null. */
  function EndBoundary(f: QueryFilters): (b: Option<string>)
    ensures b.Some? <==> f.endDate.Some? && f.endDate.value.filterType == Custom
  {
    if f.endDate.Some? && f.endDate.value.filterType == Custom
    then Some(AbsoluteDateFunction(f.endDate.value))
    else None
  }

  /** The text of an epoch-seconds bound; JavaScript renders an unset boundary as `null`. */
  function EpochText(boundary: Option<string>): (t: string)
    ensures boundary.None? ==> t == "TIMESTAMP_TO_SEC(null)"
  {
    "TIMESTAMP_TO_SEC(" + boundary.GetOr("null") + ")"
  }

  /** A hidden `timestamp` filter bounded by one expression clause. */
  function TimestampFilter(boundary: Option<string>, rule: MatchRule): Filter
  {
    Filter("timestamp", [FilterClause([Str(EpochText(boundary))], rule, true)], Hidden, None)
  }

  /** The date filters: the start bound (GE) then the end bound (LE), each only if its date is present. */
  function DateFilters(f: QueryFilters): seq<Filter>
  {
    (if f.startDate.Some? then [TimestampFilter(StartBoundary(f), GE)] else [])
    + (if f.endDate.Some? then [TimestampFilter(EndBoundary(f), LE)] else [])
  }

  /** What the date filters are, as the compiler emits them. */
  lemma DateFiltersShape(f: QueryFilters)
    ensures |DateFilters(f)| == (if f.startDate.Some? then 1 else 0) + (if f.endDate.Some? then 1 else 0)
    ensures forall x :: x in DateFilters(f) ==>
              x.fieldName == "timestamp" && x.displayMode == Hidden && x.fieldAlias == None
              && |x.clauses| == 1 && x.clauses[0].isExpression && |x.clauses[0].values| == 1
    ensures f.startDate.Some? ==>
              DateFilters(f)[0].clauses[0] == FilterClause([Str("TIMESTAMP_TO_SEC(" + DateFunction(f.startDate.value) + ")")], GE, true)
    ensures f.endDate.Some? && f.endDate.value.filterType != Custom ==>
              DateFilters(f)[|DateFilters(f)| - 1].clauses[0] == FilterClause([Str("TIMESTAMP_TO_SEC(null)")], LE, true)
    ensures f.endDate.Some? && f.endDate.value.filterType == Custom ==>
              DateFilters(f)[|DateFilters(f)| - 1].clauses[0]
              == FilterClause([Str("TIMESTAMP_TO_SEC(" + AbsoluteDateFunction(f.endDate.value) + ")")], LE, true)
  {
  }

  // ---------------------------------------------------------------------------
  // Label projections

  /** The expression that pulls the value of tag `name` out of a `|name:value|` packed labels column. */
  function Extraction(name: string): string
  {
    "REGEXP_EXTRACT(labels, r'\\|" + name + ":(.*?)\\|')"
  }

  /** A bare, aliased projection (no values, so no clauses, and COLUMN by default). */
  function Projection(expr: string, alias: string): Filter
  {
    SimpleFilter(expr, None, None, None, Some(alias))
  }

  /** The opening of the group expression. */
  function GroupOpener(names: seq<string>): string
  {
    if |names| > 1 then "CONCAT(" else "("
  }

  /** The grouping expression: one extraction and separator per name, the trailing separator sliced off, and `)`. */
  function GroupQuery(names: seq<string>): string
  {
    DropLast(GroupOpener(names) + Terminated(Extractions(names), GroupSeparator), |GroupSeparator|) + ")"
  }

  /** The extractions of a list of names. */
  function Extractions(names: seq<string>): (r: seq<string>)
    ensures |r| == |names|
  {
    seq(|names|, i requires 0 <= i < |names| => Extraction(names[i]))
  }

  /** The loop's partial expression after name `i` is the partial expression before it plus that name's piece. */
  lemma GroupPrefixStep(names: seq<string>, i: nat)
    requires i < |names|
    ensures GroupOpener(names) + Terminated(Extractions(names[..i]), GroupSeparator) + Extraction(names[i]) + GroupSeparator
            == GroupOpener(names) + Terminated(Extractions(names[..i + 1]), GroupSeparator)
  {
    var xs := Extractions(names[..i + 1]);
    assert xs[..i] == Extractions(names[..i]);
    TerminatedStep(xs, GroupSeparator, i);
    assert xs[..i + 1] == xs;
    var opener, done := GroupOpener(names), Terminated(xs[..i], GroupSeparator);
    assert opener + done + xs[i] + GroupSeparator == opener + (done + xs[i] + GroupSeparator);
  }

  /**
   * The group expression: `CONCAT(` for several names, `(` for one, then one
   * extraction per name separated by `,'_',`, then `)`. With no name at all,
   * slicing removes the opening too and only `)` is left.
   */
  lemma GroupQueryShape(names: seq<string>)
    ensures names != [] ==>
              GroupQuery(names) == GroupOpener(names) + Join(Extractions(names), GroupSeparator) + ")"
    ensures names == [] ==> GroupQuery(names) == ")"
    ensures |names| > 1 ==> GroupQuery(names)[..7] == "CONCAT("
    ensures |names| == 1 ==> GroupQuery(names) == "(" + Extraction(names[0]) + ")"
  {
    if names != [] {
      TerminatedJoin(Extractions(names), GroupSeparator);
      var body := GroupOpener(names) + Join(Extractions(names), GroupSeparator);
      assert GroupOpener(names) + Terminated(Extractions(names), GroupSeparator) == body + GroupSeparator;
      assert DropLast(body + GroupSeparator, |GroupSeparator|) == body;
      if |names| == 1 {
        assert Extractions(names) == [Extraction(names[0])];
      }
    }
  }

  /** Itemized mode: one extraction per discovered label, aliased to that label. */
  function ItemizedProjections(keys: seq<string>): (r: seq<Filter>)
    ensures |r| == |keys|
  {
    if keys == [] then []
    else ItemizedProjections(keys[..|keys| - 1])
         + [Projection(Extraction(keys[|keys| - 1]), keys[|keys| - 1])]
  }

  lemma {:induction false} ItemizedProjectionsAt(keys: seq<string>, i: nat)
    requires i < |keys|
    ensures ItemizedProjections(keys)[i] == Filter(Extraction(keys[i]), [], Column, Some(keys[i]))
    decreases |keys|
  {
    if i < |keys| - 1 {
      ItemizedProjectionsAt(keys[..|keys| - 1], i);
    }
  }

  /** The result-shape hints are usable: defined labels come with defined groups (else line 372 throws). */
  predicate ValidHints(dataLabels: Option<seq<string>>, dataGroups: Option<DataGroups>)
  {
    dataLabels.Some? ==> dataGroups.Some?
  }

  /** Grouped mode: labels are known and a primary group is defined. */
  predicate IsGrouped(dataLabels: Option<seq<string>>, dataGroups: Option<DataGroups>)
  {
    dataLabels.Some? && dataGroups.Some? && dataGroups.value.primaryGroup.Some?
  }

  /** The projections of the selected label mode. */
  function LabelProjections(dataLabels: Option<seq<string>>, dataGroups: Option<DataGroups>): seq<Filter>
    requires ValidHints(dataLabels, dataGroups)
  {
    if dataLabels.None? then
      [Projection("labels", "labels"), Projection("unit", "unit"), Projection("value", "value")]
    else if dataGroups.value.primaryGroup.Some? then
      var names := dataGroups.value.primaryGroup.value;
      if dataGroups.value.secondaryGroup.None? then
        [Projection(GroupQuery(names), Join(names, "_")), Projection("AVG(value)", "value")]
      else []
    else
      ItemizedProjections(dataLabels.value) + [Projection("unit", "unit"), Projection("value", "value")]
  }

  /** The group-side properties: the alias filter sits in the aggregations and filters slots. */
  function GroupProperties(dataLabels: Option<seq<string>>, dataGroups: Option<DataGroups>): QueryProperties
    requires ValidHints(dataLabels, dataGroups)
  {
    if IsGrouped(dataLabels, dataGroups) && dataGroups.value.secondaryGroup.None? then
      var alias := Join(dataGroups.value.primaryGroup.value, "_");
      QueryProperties([Projection(alias, alias)], [Projection(alias, alias)], [])
    else EmptyProperties
  }

  /** The sort list: `labels` in raw mode, nothing otherwise. */
  function SortFields(dataLabels: Option<seq<string>>): seq<string>
  {
    if dataLabels.None? then ["labels"] else []
  }

  /** Raw mode: bare `labels`, `unit`, `value`, sorted by `labels`, nothing grouped. */
  lemma RawMode(dataGroups: Option<DataGroups>)
    ensures LabelProjections(None, dataGroups)
            == [Filter("labels", [], Column, Some("labels")), Filter("unit", [], Column, Some("unit")),
                Filter("value", [], Column, Some("value"))]
    ensures SortFields(None) == ["labels"]
    ensures GroupProperties(None, dataGroups) == EmptyProperties
  {
  }

  /**
   * Grouped mode without a secondary group: the group expression aliased to
   * the names joined by `_`, then `AVG(value)` aliased `value`; the group side
   * carries the alias in its aggregations and filters slots, not in group_bys.
   */
  lemma GroupedMode(labels: seq<string>, names: seq<string>)
    ensures var g := Some(DataGroups(Some(names), None));
            var alias := Join(names, "_");
            && LabelProjections(Some(labels), g)
               == [Filter(GroupQuery(names), [], Column, Some(alias)), Filter("AVG(value)", [], Column, Some("value"))]
            && GroupProperties(Some(labels), g)
               == QueryProperties([Filter(alias, [], Column, Some(alias))], [Filter(alias, [], Column, Some(alias))], [])
            && SortFields(Some(labels)) == []
  {
  }

  /** A defined secondary group adds nothing at all. */
  lemma SecondaryGroupMode(labels: seq<string>, names: seq<string>, secondary: seq<string>)
    ensures LabelProjections(Some(labels), Some(DataGroups(Some(names), Some(secondary)))) == []
    ensures GroupProperties(Some(labels), Some(DataGroups(Some(names), Some(secondary)))) == EmptyProperties
  {
  }

  /** Itemized mode: one extraction per label key, in key order, then bare `unit` and `value`. */
  lemma ItemizedMode(labels: seq<string>, g: DataGroups)
    requires g.primaryGroup.None?
    ensures var p := LabelProjections(Some(labels), Some(g));
            && |p| == |labels| + 2
            && (forall i :: 0 <= i < |labels| ==> p[i] == Filter(Extraction(labels[i]), [], Column, Some(labels[i])))
            && p[|labels|] == Filter("unit", [], Column, Some("unit"))
            && p[|labels| + 1] == Filter("value", [], Column, Some("value"))
    ensures GroupProperties(Some(labels), Some(g)) == EmptyProperties
    ensures SortFields(Some(labels)) == []
  {
    forall i | 0 <= i < |labels| {
      ItemizedProjectionsAt(labels, i);
    }
  }

  // ---------------------------------------------------------------------------
  // Dimension filters, columns and table

  /** A hidden single-value EQ filter on `field`; a blank value leaves it without clauses. */
  function DimensionFilter(field: string, value: string): Filter
  {
    SimpleFilter(field, Some([Str(value)]), None, Some(Hidden), None)
  }

  /** The filter for one dimension, present only if its value is truthy. */
  function OptionalDimension(field: string, value: string): (r: seq<Filter>)
    ensures |r| == if value != "" then 1 else 0
  {
    if value != "" then [DimensionFilter(field, value)] else []
  }

  /** The static dimension filters in source order; `runby` filters the field `owner`. */
  function StaticFilters(f: QueryFilters): seq<Filter>
  {
    OptionalDimension("product_name", f.productName) + OptionalDimension("test", f.test)
    + OptionalDimension("metric", f.metric) + OptionalDimension("owner", f.runby)
  }

  /** Every dimension filter is a HIDDEN, unaliased EQ filter on exactly its value (or on nothing if blank). */
  lemma DimensionFilterShape(field: string, value: string)
    ensures DimensionFilter(field, value).fieldName == field
    ensures DimensionFilter(field, value).displayMode == Hidden
    ensures DimensionFilter(field, value).fieldAlias == None
    ensures !IsBlank(value) ==> DimensionFilter(field, value).clauses == [FilterClause([Str(value)], EQ, false)]
    ensures IsBlank(value) ==> DimensionFilter(field, value).clauses == []
  {
    assert [Str(value)][..0] == [];
    assert NonBlank([Str(value)]) == if IsBlank(value) then [] else [Str(value)];
  }

  /**
   * Every static filter is a HIDDEN dimension filter, one per truthy value;
   * `runby` is the last one and filters the field `owner`.
   */
  lemma StaticFiltersShape(f: QueryFilters)
    ensures |StaticFilters(f)| == (if f.productName != "" then 1 else 0) + (if f.test != "" then 1 else 0)
                                  + (if f.metric != "" then 1 else 0) + (if f.runby != "" then 1 else 0)
    ensures forall x :: x in StaticFilters(f) ==> x.displayMode == Hidden && x.fieldAlias == None
    ensures f.productName != "" ==> StaticFilters(f)[0] == DimensionFilter("product_name", f.productName)
    ensures f.runby != "" ==> StaticFilters(f)[|StaticFilters(f)| - 1] == DimensionFilter("owner", f.runby)
  {
    DimensionFilterShape("product_name", f.productName);
    DimensionFilterShape("test", f.test);
    DimensionFilterShape("metric", f.metric);
    DimensionFilterShape("owner", f.runby);
  }

  /** One bare COLUMN filter per result field. */
  function FieldColumns(fields: seq<string>): (r: seq<Filter>)
    ensures |r| == |fields|
  {
    seq(|fields|, i requires 0 <= i < |fields| => Filter(fields[i], [], Column, None))
  }

  /** `dataset.table`, prefixed `project:` iff the project is non-empty. */
  function TableId(projectId: string, datasetName: string, tableName: string): (id: string)
    ensures |id| == (if projectId == "" then 0 else |projectId| + 1) + |datasetName| + 1 + |tableName|
    ensures projectId == "" ==> id == datasetName + "." + tableName
    ensures projectId != "" ==> id[..|projectId| + 1] == projectId + ":"
                                && id[|projectId| + 1..] == datasetName + "." + tableName
  {
    (if projectId != "" then projectId + ":" else "") + datasetName + "." + tableName
  }

  /** The table expression; PERDAY partitioning needs a start boundary and defaults the end to now. */
  function TableExpression(tableId: string, partition: TablePartitioning,
                           start: Option<string>, end: Option<string>): (r: Result<string, string>)
    ensures r.Err? <==> partition == PerDay && start.None?
    ensures r.Err? ==> r.error == PerDayError
    ensures partition == OneTable ==> r == Ok("[" + tableId + "]")
  {
    if partition == PerDay then
      if start.None? then Err(PerDayError)
      else Ok("(TABLE_DATE_RANGE([" + tableId + "], " + start.value + ", " + end.GetOr(CurrentTimestamp) + "))")
    else Ok("[" + tableId + "]")
  }

  // ---------------------------------------------------------------------------
  // The compiled request

  /** The select-side filters, in emission order. */
  function SelectFilters(model: QueryConfig, dataLabels: Option<seq<string>>, dataGroups: Option<DataGroups>): seq<Filter>
    requires ValidHints(dataLabels, dataGroups)
  {
    FieldColumns(model.results.fields) + DateFilters(model.filters)
    + LabelProjections(dataLabels, dataGroups) + StaticFilters(model.filters)
  }

  /** What `getSql` hands to `formatQuery`, or the error it throws. */
  function Compile(model: QueryConfig, projectId: string, datasetName: string, tableName: string,
                   dataLabels: Option<seq<string>>, dataGroups: Option<DataGroups>,
                   partition: TablePartitioning): (r: Result<FormatRequest, string>)
    requires ValidHints(dataLabels, dataGroups)
    ensures r.Err? <==> partition == PerDay && model.filters.startDate.None?
    ensures r.Err? ==> r.error == PerDayError
    ensures r.Ok? ==> && r.value.properties.aggregations == []
                      && r.value.properties.groupBys == []
                      && r.value.groupProperties.groupBys == []
                      && |r.value.tableExpressions| == 1
                      && r.value.rowLimit == model.results.rowLimit
  {
    var table := TableExpression(TableId(projectId, datasetName, tableName), partition,
                                 StartBoundary(model.filters), EndBoundary(model.filters));
    match table
    case Err(e) => Err(e)
    case Ok(t) =>
      Ok(FormatRequest(QueryProperties([], SelectFilters(model, dataLabels, dataGroups), []), [t],
                       GroupProperties(dataLabels, dataGroups), SortFields(dataLabels),
                       model.results.rowLimit))
  }

  /**
   * The order of the select-side filters: first the result fields as bare
   * columns, then the date bounds, then the label projections, then the
   * dimension filters.
   */
  lemma SelectFiltersOrder(model: QueryConfig, dataLabels: Option<seq<string>>, dataGroups: Option<DataGroups>)
    requires ValidHints(dataLabels, dataGroups)
    ensures var s := SelectFilters(model, dataLabels, dataGroups);
            var n := |model.results.fields|;
            var d := |DateFilters(model.filters)|;
            var p := |LabelProjections(dataLabels, dataGroups)|;
            && |s| == n + d + p + |StaticFilters(model.filters)|
            && (forall i :: 0 <= i < n ==> s[i] == Filter(model.results.fields[i], [], Column, None))
            && s[n..n + d] == DateFilters(model.filters)
            && s[n + d..n + d + p] == LabelProjections(dataLabels, dataGroups)
            && s[n + d + p..] == StaticFilters(model.filters)
  {
    var a := FieldColumns(model.results.fields);
    ConcatParts(a, DateFilters(model.filters), LabelProjections(dataLabels, dataGroups), StaticFilters(model.filters));
  }

  /** The slices of a four-part concatenation are its parts. */
  lemma ConcatParts<T>(a: seq<T>, b: seq<T>, c: seq<T>, d: seq<T>)
    ensures var s := a + b + c + d;
            && |s| == |a| + |b| + |c| + |d|
            && s[..|a|] == a
            && s[|a|..|a| + |b|] == b
            && s[|a| + |b|..|a| + |b| + |c|] == c
            && s[|a| + |b| + |c|..] == d
  {
  }

  /**
   * PERDAY partitioning: the range spans from the start boundary to the end
   * boundary, which is `CURRENT_TIMESTAMP()` unless a CUSTOM end date is given.
   */
  lemma PerDayRange(model: QueryConfig, projectId: string, datasetName: string, tableName: string,
                    dataLabels: Option<seq<string>>, dataGroups: Option<DataGroups>)
    requires ValidHints(dataLabels, dataGroups)
    requires model.filters.startDate.Some?
    ensures var r := Compile(model, projectId, datasetName, tableName, dataLabels, dataGroups, PerDay);
            var end := if model.filters.endDate.Some? && model.filters.endDate.value.filterType == Custom
                       then AbsoluteDateFunction(model.filters.endDate.value) else CurrentTimestamp;
            r.Ok? && r.value.tableExpressions
                     == ["(TABLE_DATE_RANGE([" + TableId(projectId, datasetName, tableName) + "], "
                         + DateFunction(model.filters.startDate.value) + ", " + end + "))"]
  {
  }

  // ---------------------------------------------------------------------------
  // Token substitution

  /** A regular-expression metacharacter. */
  predicate IsRegexMeta(c: char)
  {
    c in "\\^$.|?*+()[]{}"
  }

  /** Applies the parameters in list order, each to every occurrence of its token. */
  function ReplaceEach(query: string, tokenStart: string, tokenEnd: string, params: seq<DashboardParam>): string
    decreases |params|
  {
    if params == [] then query
    else ReplaceEach(ReplaceAll(query, tokenStart + params[0].name + tokenEnd, params[0].value),
                     tokenStart, tokenEnd, params[1..])
  }

  /** `replaceTokens`: a falsy query is returned unchanged; otherwise every parameter is applied. */
  function Substitute(query: string, tokenStart: string, tokenEnd: string, params: seq<DashboardParam>): string
  {
    if query == "" then query else ReplaceEach(query, tokenStart, tokenEnd, params)
  }

  /** Applying a list of parameters is applying its first part and then its second part. */
  lemma {:induction false} ReplaceEachConcat(query: string, tokenStart: string, tokenEnd: string,
                                             ps: seq<DashboardParam>, qs: seq<DashboardParam>)
    ensures ReplaceEach(query, tokenStart, tokenEnd, ps + qs)
            == ReplaceEach(ReplaceEach(query, tokenStart, tokenEnd, ps), tokenStart, tokenEnd, qs)
    decreases |ps|
  {
    if ps == [] {
      assert ps + qs == qs;
    } else {
      assert (ps + qs)[1..] == ps[1..] + qs;
      ReplaceEachConcat(ReplaceAll(query, tokenStart + ps[0].name + tokenEnd, ps[0].value),
                        tokenStart, tokenEnd, ps[1..], qs);
    }
  }

  /** An empty parameter list or a falsy query leaves the text unchanged. */
  lemma SubstituteNoop(query: string, tokenStart: string, tokenEnd: string, params: seq<DashboardParam>)
    requires query == "" || params == []
    ensures Substitute(query, tokenStart, tokenEnd, params) == query
  {
  }

  /** `%%LIMIT%%` with value `10` turns `SELECT %%LIMIT%%` into `SELECT 10`. */
  lemma SubstituteExample()
    ensures Substitute("SELECT %%LIMIT%%", "%%", "%%", [DashboardParam("LIMIT", "10")]) == "SELECT 10"
  {
    var p := DashboardParam("LIMIT", "10");
    var find := "%%" + p.name + "%%";
    var a, q := "SELECT ", "SELECT %%LIMIT%%";
    assert q == a + find + "";
    assert forall i :: 0 <= i < |a| ==> a[i] != find[0];
    NoOccurrenceBeforeFind(a, find, "");
    ReplaceAllFirst(a, find, "", p.value);
    assert ReplaceAll("", find, p.value) == "";
    assert ReplaceAll(q, find, p.value) == "SELECT 10";
    assert [p][1..] == [];
    assert ReplaceEach(q, "%%", "%%", [p]) == ReplaceEach(ReplaceAll(q, find, p.value), "%%", "%%", []);
  }

  /** The pattern cannot start inside a prefix that lacks its first character. */
  lemma NoOccurrenceBeforeFind(a: string, find: string, b: string)
    requires find != []
    requires forall i :: 0 <= i < |a| ==> a[i] != find[0]
    ensures forall i :: 0 <= i < |a| ==> !OccursAt(a + find + b, find, i)
  {
    forall i | 0 <= i < |a| ensures !OccursAt(a + find + b, find, i) {
      var s := a + find + b;
      assert s[i] == a[i];
      if i + |find| <= |s| {
        assert s[i..i + |find|][0] == s[i];
      }
    }
  }

  // ---------------------------------------------------------------------------
  // The service

  class QueryBuilderService {
    /** The character sequence that opens a parameter token. */
    var tokenStart: string
    /** The character sequence that closes a parameter token. */
    var tokenEnd: string

    constructor()
      ensures tokenStart == "%%" && tokenEnd == "%%"
    {
      tokenStart := "%%";
      tokenEnd := "%%";
    }

    /** The token a parameter named `name` replaces. */
    function Token(name: string): string
      reads this
    {
      tokenStart + name + tokenEnd
    }

    /**
     * Literal replacement is what the source's `RegExp` replace does when the
     * token holds no metacharacter and the value no `$` pattern.
     */
    predicate LiteralParams(params: seq<DashboardParam>)
      reads this
    {
      forall p :: p in params ==> (forall c :: c in Token(p.name) ==> !IsRegexMeta(c)) && '$' !in p.value
    }

    /** `createSimpleFilter`: one clause per non-blank value, in input order. */
    method CreateSimpleFilter(field: string, values: Option<seq<Value>>, rule: Option<MatchRule>,
                              mode: Option<DisplayMode>, alias: Option<string>) returns (f: Filter)
      ensures f.fieldName == field && f.fieldAlias == alias
      ensures f.displayMode == if mode.Some? then mode.value else ColumnDisplayMode(values)
      ensures values.None? ==> f.clauses == []
      ensures values.Some? ==>
                && |f.clauses| == |NonBlank(values.value)|
                && forall i :: 0 <= i < |f.clauses| ==>
                     f.clauses[i] == FilterClause([NonBlank(values.value)[i]], rule.GetOr(EQ), false)
      ensures f == SimpleFilter(field, values, rule, mode, alias)
    {
      var matchRule := if rule.Some? then rule.value else EQ;
      var displayMode := if mode.Some? then mode.value else ColumnDisplayMode(values);
      var clauses: seq<FilterClause> := [];
      if values.Some? {
        var vs := values.value;
        for ctr := 0 to |vs|
          invariant clauses == Clauses(vs[..ctr], matchRule)
        {
          var value := vs[ctr];
          assert vs[..ctr + 1][..ctr] == vs[..ctr];
          if !IsEmptySafe(value) {
            clauses := clauses + [FilterClause([value], matchRule, false)];
          }
        }
        assert vs[..|vs|] == vs;
      }
      f := Filter(field, clauses, displayMode, alias);
    }

    /** `replaceTokens`: the parameters are applied in list order. */
    method ReplaceTokens(query: string, params: seq<DashboardParam>) returns (r: string)
      requires LiteralParams(params)
      ensures r == Substitute(query, tokenStart, tokenEnd, params)
      ensures query == "" || params == [] ==> r == query
    {
      r := query;
      if query != "" {
        for i := 0 to |params|
          invariant ReplaceEach(r, tokenStart, tokenEnd, params[i..])
                    == ReplaceEach(query, tokenStart, tokenEnd, params)
        {
          assert params[i..][1..] == params[i + 1..];
          r := ReplaceAll(r, Token(params[i].name), params[i].value);
        }
      }
    }

    /**
     * The label-mode block of `getSql`: raw, grouped or itemized projections
     * appended to `filters`, with the group-side properties and sort list.
     */
    method AppendLabelProjections(filters: seq<Filter>, dataLabels: Option<seq<string>>,
                                  dataGroups: Option<DataGroups>)
      returns (result: seq<Filter>, groupProperties: QueryProperties, fieldSortOrders: seq<string>)
      requires ValidHints(dataLabels, dataGroups)
      ensures result == filters + LabelProjections(dataLabels, dataGroups)
      ensures groupProperties == GroupProperties(dataLabels, dataGroups)
      ensures fieldSortOrders == SortFields(dataLabels)
    {
      result := filters;
      groupProperties := EmptyProperties;
      fieldSortOrders := [];
      if dataLabels.None? {
        var labels := CreateSimpleFilter("labels", None, None, None, Some("labels"));
        var unit := CreateSimpleFilter("unit", None, None, None, Some("unit"));
        var value := CreateSimpleFilter("value", None, None, None, Some("value"));
        result := result + [labels, unit, value];
        fieldSortOrders := fieldSortOrders + ["labels"];
      } else if dataGroups.value.primaryGroup.Some? {
        var names := dataGroups.value.primaryGroup.value;
        var primaryGroup := Join(names, "_");
        var primaryGroupQuery := BuildGroupQuery(names);
        if dataGroups.value.secondaryGroup.None? {
          var group := CreateSimpleFilter(primaryGroupQuery, None, None, None, Some(primaryGroup));
          var average := CreateSimpleFilter("AVG(value)", None, None, None, Some("value"));
          result := result + [group, average];
          var aggregation := CreateSimpleFilter(primaryGroup, None, None, None, Some(primaryGroup));
          var filter := CreateSimpleFilter(primaryGroup, None, None, None, Some(primaryGroup));
          groupProperties := QueryProperties([aggregation], [filter], []);
        }
      } else {
        result := AppendItemized(result, dataLabels.value);
        var unit := CreateSimpleFilter("unit", None, None, None, Some("unit"));
        var value := CreateSimpleFilter("value", None, None, None, Some("value"));
        result := result + [unit, value];
      }
    }

    /** The loop of `getSql` that builds the group expression, one extraction and separator per name. */
    method BuildGroupQuery(names: seq<string>) returns (primaryGroupQuery: string)
      ensures primaryGroupQuery == GroupQuery(names)
    {
      primaryGroupQuery := GroupOpener(names);
      for i := 0 to |names|
        invariant primaryGroupQuery == GroupOpener(names) + Terminated(Extractions(names[..i]), GroupSeparator)
      {
        GroupPrefixStep(names, i);
        primaryGroupQuery := primaryGroupQuery + Extraction(names[i]) + GroupSeparator;
      }
      assert names[..|names|] == names;
      // slice(0, -5): the separator is five characters long
      primaryGroupQuery := DropLast(primaryGroupQuery, |GroupSeparator|) + ")";
    }

    /** The itemized loop of `getSql`: one extraction per label key, in key order. */
    method AppendItemized(filters: seq<Filter>, keys: seq<string>) returns (result: seq<Filter>)
      ensures result == filters + ItemizedProjections(keys)
    {
      result := filters;
      for i := 0 to |keys|
        invariant result == filters + ItemizedProjections(keys[..i])
      {
        assert keys[..i + 1][..i] == keys[..i];
        var projection := CreateSimpleFilter(Extraction(keys[i]), None, None, None, Some(keys[i]));
        result := result + [projection];
      }
      assert keys[..|keys|] == keys;
    }

    /**
     * The date block of `getSql`: the start and end boundaries and their
     * `timestamp` filters appended to `filters`.
     */
    method AppendDateFilters(filters: seq<Filter>, f: QueryFilters)
      returns (result: seq<Filter>, startFilter: Option<string>, endFilter: Option<string>)
      ensures result == filters + DateFilters(f)
      ensures startFilter == StartBoundary(f) && endFilter == EndBoundary(f)
    {
      var startDateClause: Option<FilterClause> := None;
      var endDateClause: Option<FilterClause> := None;
      startFilter, endFilter := None, None;
      if f.startDate.Some? {
        var d := f.startDate.value;
        if d.filterType == Custom {
          startFilter := Some(AbsoluteDateFunction(d));
        } else {
          startFilter := Some(RelativeDateFunction(d));
        }
        startDateClause := Some(FilterClause([Str("TIMESTAMP_TO_SEC(" + startFilter.value + ")")], GE, true));
      }
      if f.endDate.Some? {
        var d := f.endDate.value;
        if d.filterType == Custom {
          endFilter := Some(AbsoluteDateFunction(d));
          endDateClause := Some(FilterClause([Str("TIMESTAMP_TO_SEC(" + endFilter.value + ")")], LE, true));
        } else {
          endDateClause := Some(FilterClause([Str("TIMESTAMP_TO_SEC(null)")], LE, true));
        }
      }
      result := filters;
      if startDateClause.Some? {
        result := result + [Filter("timestamp", [startDateClause.value], Hidden, None)];
      }
      if endDateClause.Some? {
        result := result + [Filter("timestamp", [endDateClause.value], Hidden, None)];
      }
      assert startDateClause.Some? ==> Filter("timestamp", [startDateClause.value], Hidden, None)
                                       == TimestampFilter(StartBoundary(f), GE);
      assert endDateClause.Some? ==> Filter("timestamp", [endDateClause.value], Hidden, None)
                                     == TimestampFilter(EndBoundary(f), LE);
    }

    /** One dimension of the dimension-filter block: a HIDDEN filter on `field` if `value` is truthy. */
    method AppendDimension(filters: seq<Filter>, field: string, value: string) returns (result: seq<Filter>)
      ensures result == filters + OptionalDimension(field, value)
    {
      result := filters;
      if value != "" {
        var dimension := CreateSimpleFilter(field, Some([Str(value)]), None, Some(Hidden), None);
        result := result + [dimension];
      }
    }

    /** The dimension-filter block of `getSql`: product_name, test, metric and owner, each if truthy. */
    method AppendStaticFilters(filters: seq<Filter>, f: QueryFilters) returns (result: seq<Filter>)
      ensures result == filters + StaticFilters(f)
    {
      ghost var product := OptionalDimension("product_name", f.productName);
      ghost var test := OptionalDimension("test", f.test);
      ghost var metric := OptionalDimension("metric", f.metric);
      ghost var owner := OptionalDimension("owner", f.runby);
      result := AppendDimension(filters, "product_name", f.productName);
      result := AppendDimension(result, "test", f.test);
      assert result == filters + (product + test);
      result := AppendDimension(result, "metric", f.metric);
      assert result == filters + (product + test + metric);
      result := AppendDimension(result, "owner", f.runby);
      assert result == filters + (product + test + metric + owner);
    }

    /**
     * `getSql`: builds the filters, the date bounds, the label projections, the
     * dimension filters and the table expression step by step, hands them to
     * the SQL assembly library `format`, and substitutes the parameters.
     */
    method GetSql(model: QueryConfig, projectId: string, datasetName: string, tableName: string,
                  dataLabels: Option<seq<string>>, dataGroups: Option<DataGroups>,
                  tablePartition: TablePartitioning, params: seq<DashboardParam>,
                  format: FormatRequest -> string) returns (sql: Result<string, string>)
      requires ValidHints(dataLabels, dataGroups)
      requires LiteralParams(params)
      ensures sql.Err? <==> tablePartition == PerDay && model.filters.startDate.None?
      ensures sql.Err? ==> sql.error == PerDayError
      ensures sql.Ok? ==>
                var request := Compile(model, projectId, datasetName, tableName, dataLabels, dataGroups,
                                       tablePartition);
                request.Ok? && sql.value == Substitute(format(request.value), tokenStart, tokenEnd, params)
    {
      var fieldFilters: seq<Filter> := [];
      var fields := model.results.fields;
      for i := 0 to |fields|
        invariant fieldFilters == FieldColumns(fields[..i])
      {
        fieldFilters := fieldFilters + [Filter(fields[i], [], Column, None)];
      }
      assert fields[..|fields|] == fields;

      var startFilter, endFilter;
      fieldFilters, startFilter, endFilter := AppendDateFilters(fieldFilters, model.filters);
      var groupProperties, fieldSortOrders;
      fieldFilters, groupProperties, fieldSortOrders := AppendLabelProjections(fieldFilters, dataLabels, dataGroups);
      fieldFilters := AppendStaticFilters(fieldFilters, model.filters);
      assert fieldFilters == SelectFilters(model, dataLabels, dataGroups);

      var aggregations: seq<Filter> := [];
      var queryProperties := QueryProperties(aggregations, fieldFilters, []);

      var tableId := datasetName + "." + tableName;
      if projectId != "" {
        tableId := projectId + ":" + tableId;
      }
      var tableExpression := "";
      if tablePartition == PerDay {
        if startFilter.None? {
          return Err(PerDayError);
        }
        if endFilter.None? {
          endFilter := Some(CurrentTimestamp);
        }
        tableExpression := "(TABLE_DATE_RANGE([" + tableId + "], " + startFilter.value + ", " + endFilter.value + "))";
      } else {
        tableExpression := "[" + tableId + "]";
      }

      assert tableId == TableId(projectId, datasetName, tableName);
      assert Ok(tableExpression) == TableExpression(tableId, tablePartition, StartBoundary(model.filters),
                                                    EndBoundary(model.filters));
      var request := FormatRequest(queryProperties, [tableExpression], groupProperties, fieldSortOrders,
                                   model.results.rowLimit);
      assert Compile(model, projectId, datasetName, tableName, dataLabels, dataGroups, tablePartition) == Ok(request);
      var text := format(request);
      text := ReplaceTokens(text, params);
      sql := Ok(text);
    }
  }
}
