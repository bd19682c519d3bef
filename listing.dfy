/**
 * What the four list endpoints share: the sort whitelist with its fallback
 * to `created_at`, the upper-cased order, and the two statements a filtered
 * clause is put into.
 */
module Listing {
  import opened Wrappers
  import opened Text
  import opened Sql
  import opened Pagination

  /**
   * `if sort.sort_by not in allowed: sort.sort_by = "created_at"`: an unknown
   * field is rewritten to the default before it is looked up, and the reply
   * echoes the rewritten field.
   */
  function RestrictSort(s: SortParams, allowed: map<string, string>): (r: SortParams)
    requires DefaultSortBy in allowed
    ensures r.sortBy in allowed && r.sortOrder == s.sortOrder
    ensures s.sortBy in allowed ==> r == s
    ensures s.sortBy !in allowed ==> r.sortBy == DefaultSortBy
  {
    if s.sortBy in allowed then s else s.(sortBy := DefaultSortBy)
  }

  /** `sort_order.upper()` of a validated order is one of the two SQL keywords. */
  lemma OrderKeyword(s: SortParams)
    requires s.sortOrder == "asc" || s.sortOrder == "desc"
    ensures ToUpper(s.sortOrder) == (if s.sortOrder == "asc" then "ASC" else "DESC")
  {
    var u := ToUpper(s.sortOrder);
    if s.sortOrder == "asc" {
      assert u[0] == 'A' && u[1] == 'S' && u[2] == 'C';
    } else {
      assert u[0] == 'D' && u[1] == 'E' && u[2] == 'S' && u[3] == 'C';
    }
  }

  /**
   * The statements of a list endpoint built from filters: the count and the
   * page query are both numbered `$1..$n+2` with LIMIT and OFFSET last.
   */
  lemma FilteredStatementsNumbered(from: string, select: string, fs: seq<Filter>, column: string, order: string,
                                   limit: int, offset: int)
    ensures Numbered(CountQuery(from, WhereClause(Conditions(fs, 1)), Params(fs)))
    ensures Numbered(DataQuery(select, WhereClause(Conditions(fs, 1)), column, order, Params(fs), limit, offset))
    ensures DataQuery(select, WhereClause(Conditions(fs, 1)), column, order, Params(fs), limit, offset).args ==
      Params(fs) + [PInt(limit), PInt(offset)]
  {
    WhereNumbered(fs);
    StatementsNumbered(from, select, WhereClause(Conditions(fs, 1)), column, order, Params(fs), limit, offset);
  }

  /** A builder's lists so far: the conditions and arguments of the filters added so far. */
  predicate Built(fs: seq<Filter>, conditions: seq<Fragment>, params: seq<SqlParam>)
  {
    conditions == Conditions(fs, 1) && params == Params(fs)
  }

  lemma BuiltEmpty()
    ensures Built([], [], [])
  {
  }

  /** One step of a builder: a filter appended after the others takes the next placeholders. */
  lemma Extend(fs: seq<Filter>, f: Filter, conditions: seq<Fragment>, params: seq<SqlParam>)
    requires Built(fs, conditions, params)
    ensures Built(fs + [f], conditions + [Condition(f, |params| + 1)], params + Values(f))
  {
    ConditionsSnoc(fs, f, 1);
  }

  /**
   * Appending one filter's condition and arguments, its placeholders starting
   * at `first`, which is one past the arguments bound so far.
   */
  method AddCondition(ghost fs: seq<Filter>, f: Filter, first: nat, conditions: seq<Fragment>, params: seq<SqlParam>)
    returns (conditions': seq<Fragment>, params': seq<SqlParam>)
    requires Built(fs, conditions, params) && first == |params| + 1
    ensures Built(fs + [f], conditions', params')
    ensures conditions' == conditions + [Condition(f, first)] && params' == params + Values(f)
  {
    Extend(fs, f, conditions, params);
    conditions' := conditions + [Condition(f, first)];
    params' := params + Values(f);
  }

  /** The clause of the finished lists: numbered, and `TRUE` exactly when no filter was added. */
  lemma Finish(fs: seq<Filter>, conditions: seq<Fragment>, params: seq<SqlParam>)
    requires Built(fs, conditions, params)
    ensures Numbered(Query(WhereClause(conditions), params))
    ensures WhereClause(conditions) == [Lit("TRUE")] <==> |fs| == 0
  {
    WhereNumbered(fs);
    WhereTrueIffNoFilter(fs);
  }

  /** The two search arguments a two-column search binds. */
  lemma TwoPatterns(columns: seq<string>, pattern: string)
    requires |columns| == 2
    ensures Values(AnyLike(columns, pattern)) == [PText(pattern), PText(pattern)]
  {
  }
}
