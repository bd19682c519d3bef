/**
 * The teams endpoints: the list with its name/description search, and the
 * existence checks of a team and of its lead before a write.
 */
module TeamRoutes {
  import opened Wrappers
  import opened Text
  import opened Sql
  import opened Pagination
  import opened Listing
  import opened Exceptions
  import opened Store
  import AuthRoutes

  const TeamSortColumns: map<string, string> := map["name" := "t.name", "created_at" := "t.created_at"]
  const TeamSearchColumns: seq<string> := ["t.name", "t.description"]
  const TeamTable: string := "teams t"
  const TeamSelect: string := "SELECT t.id, t.name, t.description, t.lead_id, t.created_at, t.updated_at FROM teams t"

  /** The only filter of a teams request: the search. */
  function TeamFilters(q: Option<string>): seq<Filter>
  {
    if NonEmpty(q) then [AnyLike(TeamSearchColumns, Pattern(q.value))] else []
  }

  /**
   * The WHERE clause of `list_teams`: `TRUE` without a search, otherwise the
   * name and description matched against `$1` and `$2`, both bound to `%q%`.
   */
  method TeamWhere(q: Option<string>) returns (clause: Fragment, params: seq<SqlParam>)
    ensures clause == WhereClause(Conditions(TeamFilters(q), 1))
    ensures params == Params(TeamFilters(q))
    ensures Numbered(Query(clause, params))
    ensures clause == [Lit("TRUE")] <==> !NonEmpty(q)
    ensures !NonEmpty(q) ==> params == []
    ensures NonEmpty(q) ==> params == [PText(Pattern(q.value)), PText(Pattern(q.value))]
    ensures NonEmpty(q) ==> clause == Condition(AnyLike(TeamSearchColumns, Pattern(q.value)), 1)
  {
    var conditions: seq<Fragment> := [];
    params := [];
    var paramCount: nat := 0;
    ghost var fs: seq<Filter> := [];
    BuiltEmpty();
    if NonEmpty(q) {
      var search := AnyLike(TeamSearchColumns, Pattern(q.value));
      Extend(fs, search, conditions, params);
      TwoPatterns(TeamSearchColumns, Pattern(q.value));
      paramCount := paramCount + 2;
      conditions := conditions + [Condition(search, paramCount - 1)];
      params := params + [PText(Pattern(q.value)), PText(Pattern(q.value))];
      fs := fs + [search];
    }
    clause := if |conditions| > 0 then JoinSql(" AND ", conditions) else [Lit("TRUE")];
    assert fs == TeamFilters(q);
    assert Built(fs, conditions, params);
    Finish(fs, conditions, params);
  }

  /** `list_teams`: both statements numbered, and the reply of the page's rows. */
  method ListTeams<Row>(p: PaginationParams, s: SortParams, q: Option<string>, countRow: Option<int>, rows: seq<Row>)
    returns (count: Query, data: Query, reply: PaginatedResponse<Row>)
    ensures Numbered(count) && Numbered(data)
    ensures count.args == Params(TeamFilters(q))
    ensures data.args == count.args + [PInt(p.pageSize), PInt(p.offset)]
    ensures reply.sortBy in TeamSortColumns && reply.sortOrder == s.sortOrder
    ensures s.sortBy in TeamSortColumns ==> reply.sortBy == s.sortBy
    ensures s.sortBy !in TeamSortColumns ==> reply.sortBy == DefaultSortBy
    ensures data == DataQuery(TeamSelect, WhereClause(Conditions(TeamFilters(q), 1)),
                              TeamSortColumns[reply.sortBy], ToUpper(s.sortOrder), count.args, p.pageSize, p.offset)
    ensures reply.items == rows && reply.total == CountOf(countRow) && reply.page == p.page
    ensures reply.pageSize == p.pageSize && reply.totalPages == TotalPages(CountOf(countRow), p.pageSize)
  {
    var sort := RestrictSort(s, TeamSortColumns);
    var column := TeamSortColumns[sort.sortBy];
    var clause, params := TeamWhere(q);
    count := CountQuery(TeamTable, clause, params);
    data := DataQuery(TeamSelect, clause, column, ToUpper(sort.sortOrder), params, p.pageSize, p.offset);
    FilteredStatementsNumbered(TeamTable, TeamSelect, TeamFilters(q), column, ToUpper(sort.sortOrder),
                               p.pageSize, p.offset);
    reply := Paginate(rows, CountOf(countRow), p, sort);
  }

  /** The message of a missing team; the projects endpoints use the same text. */
  function TeamMissing(id: int): string
  {
    IdMessage("Команда с id=", id, " не найдена")
  }

  /** `if team.lead_id:` a lead that is given (and not 0) must be an existing user. */
  function LeadCheck(db: Db, leadId: Option<int>): (d: Decision<()>)
    ensures d.Proceed? <==> !NonZero(leadId) || leadId.value in db.users
    ensures d.Raise? ==> d == NotFoundRaise(AuthRoutes.UserMissing(leadId.value))
  {
    if NonZero(leadId) && leadId.value !in db.users then NotFoundRaise(AuthRoutes.UserMissing(leadId.value))
    else Proceed(())
  }

  /** `create_team`: only the lead is checked. */
  function CreateTeam(db: Db, leadId: Option<int>): (d: Decision<()>)
    ensures d.Proceed? <==> !NonZero(leadId) || leadId.value in db.users
    ensures d.Raise? ==> StatusOf(d) == 404 && MessageOf(d) == Some(AuthRoutes.UserMissing(leadId.value))
  {
    LeadCheck(db, leadId)
  }

  /** `get_team` and `delete_team`: 404 naming the id for a missing team. */
  function FindTeam(db: Db, id: int): (d: Decision<()>)
    ensures d.Proceed? <==> id in db.teams
    ensures d.Raise? ==> d == NotFoundRaise(TeamMissing(id))
  {
    if id in db.teams then Proceed(()) else NotFoundRaise(TeamMissing(id))
  }

  /** `update_team`: the team first, and only then its new lead. */
  function UpdateTeam(db: Db, id: int, leadId: Option<int>): (d: Decision<()>)
    ensures d.Proceed? <==> id in db.teams && (!NonZero(leadId) || leadId.value in db.users)
    ensures id !in db.teams ==> d == NotFoundRaise(TeamMissing(id))
    ensures id in db.teams ==> d == LeadCheck(db, leadId)
  {
    if id !in db.teams then NotFoundRaise(TeamMissing(id)) else LeadCheck(db, leadId)
  }

  /**
   * A missing team is reported whatever the lead: the lead's lookup cannot
   * change the answer, and the two messages never coincide.
   */
  lemma UpdateTeamReportsTeamFirst(db: Db, id: int, lead1: Option<int>, lead2: Option<int>)
    requires id !in db.teams
    ensures UpdateTeam(db, id, lead1) == UpdateTeam(db, id, lead2)
    ensures NonZero(lead1) && lead1.value !in db.users ==>
      MessageOf(UpdateTeam(db, id, lead1)) != MessageOf(LeadCheck(db, lead1))
  {
    if NonZero(lead1) && lead1.value !in db.users {
      var t := TeamMissing(id);
      var u := AuthRoutes.UserMissing(lead1.value);
      assert t[0] != u[0] by {
        assert t[0] == 'К';
        assert u[0] == 'П';
      }
    }
  }
}
