/**
 * The result-shape helpers of `QueryResultDataService`: column lookups by type
 * or id, the extraction of `|name:value|` label keys that feeds the compiler's
 * `dataLabels`, the tooltip role rule, and the fetch error message.
 */
module QueryResultData {
  import opened Wrappers
  import opened JsStrings

  /** A lookup key: one name, or any of a list of names (the `goog.isArrayLike` branch). */
  datatype Selector = One(name: string) | AnyOf(names: seq<string>)

  /** `column.x === type`, or `goog.array.contains(type, column.x)` for a list. */
  predicate Selects(sel: Selector, s: string)
  {
    match sel
    case One(n) => s == n
    case AnyOf(ns) => s in ns
  }

  /** The observable fields of a column descriptor. */
  datatype ColumnState = ColumnState(id: string, colType: string, role: Option<string>,
                                     p: Option<map<string, string>>)

  /** A DataTable column descriptor; `applyRoles` updates its `role` and `p` in place. */
  class Column {
    var id: string
    var colType: string
    var role: Option<string>
    var p: Option<map<string, string>>

    constructor (id: string, colType: string, role: Option<string>, p: Option<map<string, string>>)
      ensures State() == ColumnState(id, colType, role, p)
    {
      this.id := id;
      this.colType := colType;
      this.role := role;
      this.p := p;
    }

    ghost function State(): ColumnState
      reads this
    {
      ColumnState(id, colType, role, p)
    }
  }

  // ---------------------------------------------------------------------------
  // Column lookups

  /** `getColumnIndexesOfType_`: the indices of the columns whose type is selected, in increasing order. */
  method GetColumnIndexesOfType(cols: seq<Column>, sel: Selector) returns (indexes: seq<nat>)
    ensures forall j :: 0 <= j < |indexes| ==> indexes[j] < |cols|
    ensures forall j, k :: 0 <= j < k < |indexes| ==> indexes[j] < indexes[k]
    ensures forall i :: 0 <= i < |cols| ==> (i in indexes <==> Selects(sel, cols[i].colType))
  {
    indexes := [];
    for index := 0 to |cols|
      invariant forall j :: 0 <= j < |indexes| ==> indexes[j] < index
      invariant forall j, k :: 0 <= j < k < |indexes| ==> indexes[j] < indexes[k]
      invariant forall i :: 0 <= i < index ==> (i in indexes <==> Selects(sel, cols[i].colType))
    {
      if Selects(sel, cols[index].colType) {
        indexes := indexes + [index];
      }
    }
  }

  /** `getColumnIndexesOfID_`: the indices of the columns whose id is selected, in increasing order. */
  method GetColumnIndexesOfId(cols: seq<Column>, sel: Selector) returns (indexes: seq<nat>)
    ensures forall j :: 0 <= j < |indexes| ==> indexes[j] < |cols|
    ensures forall j, k :: 0 <= j < k < |indexes| ==> indexes[j] < indexes[k]
    ensures forall i :: 0 <= i < |cols| ==> (i in indexes <==> Selects(sel, cols[i].id))
  {
    indexes := [];
    for index := 0 to |cols|
      invariant forall j :: 0 <= j < |indexes| ==> indexes[j] < index
      invariant forall j, k :: 0 <= j < k < |indexes| ==> indexes[j] < indexes[k]
      invariant forall i :: 0 <= i < index ==> (i in indexes <==> Selects(sel, cols[i].id))
    {
      if Selects(sel, cols[index].id) {
        indexes := indexes + [index];
      }
    }
  }

  // ---------------------------------------------------------------------------
  // Label keys

  /** The key of one `|name:value|` entry: the text before the first `:`, with every `|` removed. */
  function LabelKey(entry: string): (key: string)
    ensures '|' !in key && ':' !in key
  {
    RemoveChar(Split(entry, ':')[0], '|')
  }

  /** The keys of a sequence of entries. */
  function EntryKeys(entries: seq<string>): set<string>
  {
    if entries == [] then {}
    else EntryKeys(entries[..|entries| - 1]) + {LabelKey(entries[|entries| - 1])}
  }

  /** The keys of the labels cell (column `k`) of every row. */
  function LabelKeys(rows: seq<seq<string>>, k: nat): set<string>
    requires forall r :: r in rows ==> k < |r|
  {
    if rows == [] then {}
    else LabelKeys(rows[..|rows| - 1], k) + EntryKeys(Split(rows[|rows| - 1][k], ','))
  }

  lemma {:induction false} EntryKeysMembers(entries: seq<string>)
    ensures forall key :: key in EntryKeys(entries) <==> exists e :: e in entries && key == LabelKey(e)
  {
    if entries != [] {
      var init := entries[..|entries| - 1];
      EntryKeysMembers(init);
      assert entries == init + [entries[|entries| - 1]];
    }
  }

  /** Every comma-separated entry of every row contributes its key, and nothing else does. */
  lemma {:induction false} LabelKeysMembers(rows: seq<seq<string>>, k: nat)
    requires forall r :: r in rows ==> k < |r|
    ensures forall key :: key in LabelKeys(rows, k) <==>
              exists r, e :: r in rows && e in Split(r[k], ',') && key == LabelKey(e)
  {
    if rows != [] {
      var init := rows[..|rows| - 1];
      var last := rows[|rows| - 1];
      assert rows == init + [last];
      LabelKeysMembers(init, k);
      EntryKeysMembers(Split(last[k], ','));
      forall key | key in LabelKeys(rows, k)
        ensures exists r, e :: r in rows && e in Split(r[k], ',') && key == LabelKey(e)
      {
        if key !in LabelKeys(init, k) {
          var e :| e in Split(last[k], ',') && key == LabelKey(e);
          assert last in rows;
        }
      }
      forall key | exists r, e :: r in rows && e in Split(r[k], ',') && key == LabelKey(e)
        ensures key in LabelKeys(rows, k)
      {
        var r, e :| r in rows && e in Split(r[k], ',') && key == LabelKey(e);
        if r != last {
          assert r in init;
        }
      }
    }
  }

  /** The key of a `|name:value|` tag is its name: the names the compiler extracts are these keys. */
  lemma LabelKeyOfTag(name: string, value: string)
    requires ':' !in name && '|' !in name
    ensures LabelKey("|" + name + ":" + value + "|") == name
  {
    var head := "|" + name;
    assert "|" + name + ":" + value + "|" == head + [':'] + (value + "|");
    SplitFirstPiece(head, ':', value + "|");
    RemoveCharConcat("|", name, '|');
    RemoveCharAbsent(name, '|');
  }

  /** When there are rows, the labels column is unique, and every row has a cell for it. */
  predicate LabelsColumnUsable(cols: seq<Column>, rows: seq<seq<string>>)
    reads set c | c in cols
  {
    && (rows != [] ==>
          forall i, j :: 0 <= i < |cols| && 0 <= j < |cols| && cols[i].id == "labels" && cols[j].id == "labels"
                         ==> i == j)
    && (forall i, r :: 0 <= i < |cols| && cols[i].id == "labels" && r in rows ==> i < |r|)
  }

  /**
   * `extractLabels_`: a map from every label key found in the `labels` column
   * to itself; empty when there is no `labels` column.
   */
  method ExtractLabels(cols: seq<Column>, rows: seq<seq<string>>) returns (labelDict: map<string, string>)
    requires LabelsColumnUsable(cols, rows)
    ensures (forall i :: 0 <= i < |cols| ==> cols[i].id != "labels") ==> labelDict == map[]
    ensures rows == [] ==> labelDict == map[]
    ensures forall k :: 0 <= k < |cols| && cols[k].id == "labels" ==> labelDict.Keys == LabelKeys(rows, k)
    ensures forall key :: key in labelDict ==> labelDict[key] == key
  {
    var columnIndex := GetColumnIndexesOfId(cols, One("labels"));
    if |columnIndex| <= 0 {
      return map[];
    }
    // `row.c[columnIndex]` with a one-element index array reads that column
    var k := columnIndex[0];
    assert cols[k].id == "labels";
    labelDict := map[];
    for i := 0 to |rows|
      invariant labelDict.Keys == LabelKeys(rows[..i], k)
      invariant forall key :: key in labelDict ==> labelDict[key] == key
    {
      assert rows[..i + 1][..i] == rows[..i];
      var rowLabels := Split(rows[i][k], ',');
      ghost var before := labelDict.Keys;
      for j := 0 to |rowLabels|
        invariant labelDict.Keys == before + EntryKeys(rowLabels[..j])
        invariant forall key :: key in labelDict ==> labelDict[key] == key
      {
        assert rowLabels[..j + 1][..j] == rowLabels[..j];
        var rowLabel := LabelKey(rowLabels[j]);
        labelDict := labelDict[rowLabel := rowLabel];
      }
      assert rowLabels[..|rowLabels|] == rowLabels;
    }
    assert rows[..|rows|] == rows;
  }

  // ---------------------------------------------------------------------------
  // Tooltip role

  const TooltipRole: string := "tooltip"

  /** The role rule for one column: a `tooltip` column gets the tooltip role, and a `p` if it has none. */
  function WithRoles(c: ColumnState): (r: ColumnState)
    ensures r.id == c.id && r.colType == c.colType
    ensures c.id != TooltipRole ==> r == c
    ensures c.id == TooltipRole ==> r.role == Some(TooltipRole) && r.p.Some?
    ensures c.id == TooltipRole && c.p.Some? ==> r.p == c.p
    ensures c.id == TooltipRole && c.p.None? ==> r.p == Some(map["role" := TooltipRole])
  {
    if c.id == TooltipRole then
      c.(role := Some(TooltipRole), p := if c.p.None? then Some(map["role" := TooltipRole]) else c.p)
    else c
  }

  /** Applying the rule twice is applying it once. */
  lemma WithRolesIdempotent(c: ColumnState)
    ensures WithRoles(WithRoles(c)) == WithRoles(c)
  {
  }

  /**
   * `applyRoles`: every column ends in the state the role rule gives its
   * initial state, also when the same column object is listed twice.
   */
  method ApplyRoles(cols: seq<Column>)
    modifies set c | c in cols
    ensures forall c :: c in cols ==> c.State() == WithRoles(old(c.State()))
  {
    for i := 0 to |cols|
      invariant forall c :: c in cols ==>
                  c.State() == if c in cols[..i] then WithRoles(old(c.State())) else old(c.State())
    {
      var column := cols[i];
      if column.id == TooltipRole {
        column.role := Some(TooltipRole);
        var xprops := column.p;
        if xprops.None? {
          xprops := Some(map["role" := TooltipRole]);
          column.p := xprops;
        }
      }
      assert cols[..i + 1] == cols[..i] + [column];
    }
    assert cols[..|cols|] == cols;
  }

  // ---------------------------------------------------------------------------
  // Fetch error message

  const ErrUnexpected: string := "The HTTP response returned no details."
  const FetchErrorPrefix: string := "An error occurred when fetching data from "

  /**
   * The message `fetchResults` reports for a backend error: the data-source
   * type, then the error text, or a fixed "no details" text when it is blank.
   */
  function FetchErrorMessage(sourceType: string, error: string): (msg: string)
    ensures |msg| >= |FetchErrorPrefix| + |sourceType| + 2
    ensures msg[..|FetchErrorPrefix| + |sourceType| + 2] == FetchErrorPrefix + sourceType + ": "
    ensures !IsBlank(error) ==> msg[|FetchErrorPrefix| + |sourceType| + 2..] == error
    ensures IsBlank(error) ==> msg[|FetchErrorPrefix| + |sourceType| + 2..] == ErrUnexpected
    ensures !IsBlank(msg[|FetchErrorPrefix| + |sourceType| + 2..])
  {
    var detail := if IsBlank(error) then ErrUnexpected else error;
    assert !IsWhitespace(ErrUnexpected[0]);
    FetchErrorPrefix + sourceType + ": " + detail
  }
}
