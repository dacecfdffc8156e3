/**
 * The value types the query compiler hands to the SQL assembly library
 * (`Filter`, `FilterClause`, `QueryProperties`) and the argument bundle of
 * `formatQuery`. Their constructors and the text assembly itself are outside
 * this model: a `Filter` here records exactly the arguments its constructor
 * was given.
 */
module QueryTypes {
  import opened Wrappers
  import opened JsStrings

  /** A filter value as the source admits it: a string, a number or null. */
  datatype Value = Str(s: string) | Num(n: int) | Null

  /** `goog.string.isEmptySafe`: null and blank strings are empty; a number never is. */
  predicate IsEmptySafe(v: Value) {
    match v
    case Null => true
    case Str(s) => IsBlank(s)
    case Num(_) => false
  }

  /** `FilterClause.MatchRule`, as far as the compiler uses it. */
  datatype MatchRule = EQ | GE | LE | CT

  /** `Filter.DisplayMode`. */
  datatype DisplayMode = Column | Hidden

  /**
   * `new FilterClause(values, matchRule, isExpression)`; an omitted
   * `isExpression` argument is recorded as false.
   */
  datatype FilterClause = FilterClause(values: seq<Value>, matchRule: MatchRule, isExpression: bool)

  /** `new Filter(fieldName, clauses, displayMode, fieldAlias)`. */
  datatype Filter = Filter(fieldName: string, clauses: seq<FilterClause>, displayMode: DisplayMode,
                           fieldAlias: Option<string>)

  /**
   * `new QueryProperties(aggregations, filters, groupBys)`. The compiler never
   * puts an `Aggregation` in the first slot: it holds either nothing or
   * filters, so the slot is typed as filters here.
   */
  datatype QueryProperties = QueryProperties(aggregations: seq<Filter>, filters: seq<Filter>,
                                             groupBys: seq<Filter>)

  const EmptyProperties := QueryProperties([], [], [])

  /**
   * The arguments of one `formatQuery` call: the select and where arguments
   * are both built from `properties`, the group arguments from `groupProperties`.
   */
  datatype FormatRequest = FormatRequest(properties: QueryProperties, tableExpressions: seq<string>,
                                         groupProperties: QueryProperties, sortFields: seq<string>,
                                         rowLimit: int)
}
