/**
 * The back-end's small helpers: the multi-column search condition, the
 * sort-field whitelist lookup and the date rendering of rows.
 */
module Utils {
  import opened Wrappers
  import opened Sql

  /**
   * `build_search_condition`: `TRUE` without a query or without columns,
   * otherwise one `column ILIKE $i` per column, `i` counting from 1, OR-ed
   * inside parentheses, with the pattern `%query%` bound once per column.
   */
  method BuildSearchCondition(query: string, fields: seq<string>) returns (sql: Fragment, params: seq<string>)
    ensures query == "" || |fields| == 0 ==> sql == [Lit("TRUE")] && params == []
    ensures query != "" && |fields| > 0 ==> sql == Condition(AnyLike(fields, Pattern(query)), 1)
    ensures query != "" ==> |params| == |fields|
    ensures forall k :: 0 <= k < |params| ==> params[k] == Pattern(query)
    ensures Slots(sql) == Iota(1, |params|)
  {
    if query == "" || |fields| == 0 {
      sql, params := [Lit("TRUE")], [];
      assert Slots(sql) == [] + Slots([]);
      return;
    }
    var conditions: seq<Fragment> := [];
    params := [];
    var paramIndex: nat := 1;
    for k := 0 to |fields|
      invariant paramIndex == k + 1
      invariant conditions == LikeTerms(fields[..k], 1)
      invariant |params| == k && forall j :: 0 <= j < k ==> params[j] == Pattern(query)
    {
      conditions := conditions + [Ilike(fields[k], paramIndex)];
      params := params + [Pattern(query)];
      paramIndex := paramIndex + 1;
      assert fields[..k + 1][..k] == fields[..k];
    }
    assert fields[..|fields|] == fields;
    sql := [Lit("(")] + JoinSql(" OR ", conditions) + [Lit(")")];
    ConditionSlots(AnyLike(fields, Pattern(query)), 1);
  }

  const DefaultSortField: string := "id"

  /**
   * `validate_sort_field`: the column mapped to a whitelisted field, else the
   * column of the default field, else the default itself.
   */
  function ValidateSortField(field: string, allowed: map<string, string>, default: string): (column: string)
    ensures field in allowed ==> column == allowed[field]
    ensures field !in allowed && default in allowed ==> column == allowed[default]
    ensures field !in allowed && default !in allowed ==> column == default
  {
    if field in allowed then allowed[field] else if default in allowed then allowed[default] else default
  }

  /**
   * Whatever the request asks for, the column is a whitelisted one or the
   * caller's default: text from the request never reaches the ORDER BY clause
   * unless the whitelist maps to it.
   */
  lemma SortFieldWhitelisted(field: string, allowed: map<string, string>, default: string)
    ensures ValidateSortField(field, allowed, default) in allowed.Values ||
            ValidateSortField(field, allowed, default) == default
    ensures default in allowed ==> ValidateSortField(field, allowed, default) in allowed.Values
  {
  }

  /** What a row's timestamp column can hold. */
  datatype Stamp = NoStamp | DateTime(iso: string) | OtherValue(text: string)

  /** `format_datetime`: `None` for none, the ISO form of a date, `str` of anything else. */
  function FormatDatetime(dt: Stamp): (r: Option<string>)
    ensures r.None? <==> dt.NoStamp?
    ensures dt.DateTime? ==> r == Some(dt.iso)
    ensures dt.OtherValue? ==> r == Some(dt.text)
  {
    match dt
    case NoStamp => None
    case DateTime(iso) => Some(iso)
    case OtherValue(text) => Some(text)
  }
}
