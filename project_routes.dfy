/**
 * The projects endpoints: the list with its search, status and team filters,
 * and the fixed order of the existence and duplicate checks before a write.
 */
module ProjectRoutes {
  import opened Wrappers
  import opened Text
  import opened Sql
  import opened Pagination
  import opened Listing
  import opened Exceptions
  import opened Store
  import TeamRoutes
  import TechnologyRoutes

  // ---------------------------------------------------------------------------
  // The projects list

  const ProjectSortColumns: map<string, string> :=
    map["name" := "p.name", "status" := "p.status", "created_at" := "p.created_at", "team_id" := "p.team_id"]
  const ProjectSearchColumns: seq<string> := ["p.name", "p.description"]
  const ProjectTable: string := "projects p"
  const ProjectSelect: string :=
    "SELECT p.id, p.name, p.description, p.team_id, p.status, p.repository_url, p.start_date, " +
    "p.created_at, p.updated_at FROM projects p"

  /** The filters of a projects request, in order: search, status, team. */
  function ProjectFilters(q: Option<string>, status: Option<string>, teamId: Option<int>): seq<Filter>
  {
    (if NonEmpty(q) then [AnyLike(ProjectSearchColumns, Pattern(q.value))] else []) +
    (if NonEmpty(status) then [Equals("p.status", PText(status.value))] else []) +
    (if NonZero(teamId) then [Equals("p.team_id", PInt(teamId.value))] else [])
  }

  /** The filters of a projects request, one stage per filter the handler checks. */
  lemma ProjectFilterStages(q: Option<string>, status: Option<string>, teamId: Option<int>)
    ensures NonEmpty(q) ==> ProjectFilters(q, None, None) == [AnyLike(ProjectSearchColumns, Pattern(q.value))]
    ensures !NonEmpty(q) ==> ProjectFilters(q, None, None) == []
    ensures NonEmpty(status) ==>
      ProjectFilters(q, status, None) == ProjectFilters(q, None, None) + [Equals("p.status", PText(status.value))]
    ensures !NonEmpty(status) ==> ProjectFilters(q, status, None) == ProjectFilters(q, None, None)
    ensures NonZero(teamId) ==>
      ProjectFilters(q, status, teamId) == ProjectFilters(q, status, None) + [Equals("p.team_id", PInt(teamId.value))]
    ensures !NonZero(teamId) ==> ProjectFilters(q, status, teamId) == ProjectFilters(q, status, None)
  {
    var a := if NonEmpty(q) then [AnyLike(ProjectSearchColumns, Pattern(q.value))] else [];
    var b := if NonEmpty(status) then [Equals("p.status", PText(status.value))] else [];
    assert ProjectFilters(q, None, None) == a + [] + [] == a;
    assert ProjectFilters(q, status, None) == a + b + [] == a + b;
  }

  /**
   * The WHERE clause of `list_projects`, counting placeholders in
   * `param_count`: the search takes two, status and team one each, numbered
   * `$1..$n` in that order; `TRUE` when none applies (an empty search, an
   * empty status and a team of 0 add nothing).
   */
  method ProjectWhere(q: Option<string>, status: Option<string>, teamId: Option<int>)
    returns (clause: Fragment, params: seq<SqlParam>)
    ensures clause == WhereClause(Conditions(ProjectFilters(q, status, teamId), 1))
    ensures params == Params(ProjectFilters(q, status, teamId))
    ensures Numbered(Query(clause, params))
    ensures clause == [Lit("TRUE")] <==> !NonEmpty(q) && !NonEmpty(status) && !NonZero(teamId)
  {
    var conditions: seq<Fragment> := [];
    params := [];
    var paramCount: nat := 0;
    ghost var fs: seq<Filter> := [];
    BuiltEmpty();
    ProjectFilterStages(q, status, teamId);
    if NonEmpty(q) {
      var search := AnyLike(ProjectSearchColumns, Pattern(q.value));
      TwoPatterns(ProjectSearchColumns, Pattern(q.value));
      paramCount := paramCount + 2;
      conditions, params := AddCondition(fs, search, paramCount - 1, conditions, params);
      fs := fs + [search];
    }
    assert fs == ProjectFilters(q, None, None);
    if NonEmpty(status) {
      var byStatus := Equals("p.status", PText(status.value));
      paramCount := paramCount + 1;
      conditions, params := AddCondition(fs, byStatus, paramCount, conditions, params);
      fs := fs + [byStatus];
    }
    assert fs == ProjectFilters(q, status, None);
    if NonZero(teamId) {
      var byTeam := Equals("p.team_id", PInt(teamId.value));
      paramCount := paramCount + 1;
      conditions, params := AddCondition(fs, byTeam, paramCount, conditions, params);
      fs := fs + [byTeam];
    }
    assert fs == ProjectFilters(q, status, teamId);
    clause := if |conditions| > 0 then JoinSql(" AND ", conditions) else [Lit("TRUE")];
    Finish(fs, conditions, params);
  }

  /** `list_projects`: both statements numbered, and the reply of the page's rows. */
  method ListProjects<Row>(p: PaginationParams, s: SortParams, q: Option<string>, status: Option<string>,
                           teamId: Option<int>, countRow: Option<int>, rows: seq<Row>)
    returns (count: Query, data: Query, reply: PaginatedResponse<Row>)
    ensures Numbered(count) && Numbered(data)
    ensures count.args == Params(ProjectFilters(q, status, teamId))
    ensures data.args == count.args + [PInt(p.pageSize), PInt(p.offset)]
    ensures reply.sortBy in ProjectSortColumns && reply.sortOrder == s.sortOrder
    ensures s.sortBy in ProjectSortColumns ==> reply.sortBy == s.sortBy
    ensures s.sortBy !in ProjectSortColumns ==> reply.sortBy == DefaultSortBy
    ensures data == DataQuery(ProjectSelect, WhereClause(Conditions(ProjectFilters(q, status, teamId), 1)),
                              ProjectSortColumns[reply.sortBy], ToUpper(s.sortOrder), count.args,
                              p.pageSize, p.offset)
    ensures reply.items == rows && reply.total == CountOf(countRow) && reply.page == p.page
    ensures reply.pageSize == p.pageSize && reply.totalPages == TotalPages(CountOf(countRow), p.pageSize)
  {
    var sort := RestrictSort(s, ProjectSortColumns);
    var column := ProjectSortColumns[sort.sortBy];
    var clause, params := ProjectWhere(q, status, teamId);
    count := CountQuery(ProjectTable, clause, params);
    data := DataQuery(ProjectSelect, clause, column, ToUpper(sort.sortOrder), params, p.pageSize, p.offset);
    FilteredStatementsNumbered(ProjectTable, ProjectSelect, ProjectFilters(q, status, teamId),
                               column, ToUpper(sort.sortOrder), p.pageSize, p.offset);
    reply := Paginate(rows, CountOf(countRow), p, sort);
  }

  /**
   * With every filter given, the search takes `$1`/`$2`, the status `$3`,
   * the team `$4`, and LIMIT and OFFSET `$5` and `$6`.
   */
  lemma AllFiltersNumbering(q: string, status: string, teamId: int, p: PaginationParams, column: string, order: string)
    requires q != "" && status != "" && teamId != 0
    ensures var fs := ProjectFilters(Some(q), Some(status), Some(teamId));
      |Params(fs)| == 4 &&
      Params(fs) == [PText(Pattern(q)), PText(Pattern(q)), PText(status), PInt(teamId)] &&
      Slots(DataQuery(ProjectSelect, WhereClause(Conditions(fs, 1)), column, order, Params(fs),
                      p.pageSize, p.offset).sql) == [1, 2, 3, 4, 5, 6]
  {
    var search := AnyLike(ProjectSearchColumns, Pattern(q));
    var fs := ProjectFilters(Some(q), Some(status), Some(teamId));
    assert fs == [search, Equals("p.status", PText(status)), Equals("p.team_id", PInt(teamId))];
    TwoPatterns(ProjectSearchColumns, Pattern(q));
    assert fs[1..][1..][1..] == [];
    assert Params(fs) == Values(search) + Params(fs[1..]);
    assert Params(fs[1..]) == [PText(status)] + Params(fs[1..][1..]);
    assert Params(fs[1..][1..]) == [PInt(teamId)] + Params(fs[1..][1..][1..]);
    FilteredStatementsNumbered(ProjectTable, ProjectSelect, fs, column, order, p.pageSize, p.offset);
    var six := Iota(1, 6);
    assert six == [1, 2, 3, 4, 5, 6];
  }

  // ---------------------------------------------------------------------------
  // Projects and their technologies

  function ProjectMissing(id: int): string
  {
    IdMessage("Проект с id=", id, " не найден")
  }

  function VersionMissing(id: int): string
  {
    IdMessage("Версия с id=", id, " не найдена для этой технологии")
  }

  const DuplicateLink: string := "Эта технология уже добавлена в проект"
  const LinkMissing: string := "Связь между проектом и технологией не найдена"

  /** `if project.team_id:` a team that is given (and not 0) must exist. */
  function TeamCheck(db: Db, teamId: Option<int>): (d: Decision<()>)
    ensures d.Proceed? <==> !NonZero(teamId) || teamId.value in db.teams
    ensures d.Raise? ==> d == NotFoundRaise(TeamRoutes.TeamMissing(teamId.value))
  {
    if NonZero(teamId) && teamId.value !in db.teams then NotFoundRaise(TeamRoutes.TeamMissing(teamId.value))
    else Proceed(())
  }

  /** `create_project`: only the team is checked, before anything is inserted. */
  function CreateProject(db: Db, teamId: Option<int>): (d: Decision<()>)
    ensures d.Proceed? <==> !NonZero(teamId) || teamId.value in db.teams
    ensures d.Raise? ==> StatusOf(d) == 404 && MessageOf(d) == Some(TeamRoutes.TeamMissing(teamId.value))
  {
    TeamCheck(db, teamId)
  }

  /** `get_project`, `delete_project` and `get_project_technologies`: 404 naming the id. */
  function FindProject(db: Db, id: int): (d: Decision<()>)
    ensures d.Proceed? <==> id in db.projects
    ensures d.Raise? ==> d == NotFoundRaise(ProjectMissing(id))
  {
    if id in db.projects then Proceed(()) else NotFoundRaise(ProjectMissing(id))
  }

  /** `update_project`: the project first, then its new team. */
  function UpdateProject(db: Db, id: int, teamId: Option<int>): (d: Decision<()>)
    ensures d.Proceed? <==> id in db.projects && (!NonZero(teamId) || teamId.value in db.teams)
    ensures id !in db.projects ==> d == NotFoundRaise(ProjectMissing(id))
    ensures id in db.projects ==> d == TeamCheck(db, teamId)
  {
    if id !in db.projects then NotFoundRaise(ProjectMissing(id)) else TeamCheck(db, teamId)
  }

  /**
   * `add_technology_to_project`: the project, the technology, the version
   * (only when one is given, and it must be a version of that technology),
   * then the duplicate link, each failing check ending the request.
   */
  function AddTechnology(db: Db, projectId: int, technologyId: int, versionId: Option<int>): (d: Decision<()>)
    ensures d.Proceed? <==>
      projectId in db.projects && technologyId in db.technologies &&
      (!NonZero(versionId) || (versionId.value, technologyId) in db.versions) &&
      (projectId, technologyId) !in db.links
    ensures projectId !in db.projects ==> d == NotFoundRaise(ProjectMissing(projectId))
    ensures projectId in db.projects && technologyId !in db.technologies ==>
      d == NotFoundRaise(TechnologyRoutes.TechnologyMissing(technologyId))
    ensures (projectId in db.projects && technologyId in db.technologies &&
             NonZero(versionId) && (versionId.value, technologyId) !in db.versions) ==>
      d == NotFoundRaise(VersionMissing(versionId.value))
  {
    if projectId !in db.projects then NotFoundRaise(ProjectMissing(projectId))
    else if technologyId !in db.technologies then NotFoundRaise(TechnologyRoutes.TechnologyMissing(technologyId))
    else if NonZero(versionId) && (versionId.value, technologyId) !in db.versions then
      NotFoundRaise(VersionMissing(versionId.value))
    else if (projectId, technologyId) in db.links then ConflictRaise(DuplicateLink)
    else Proceed(())
  }

  /**
   * What adding a technology answers: 404 exactly when a lookup fails, 409
   * exactly when all succeed but the link is there already; a version of some
   * other technology counts as missing.
   */
  lemma AddTechnologyStatuses(db: Db, projectId: int, technologyId: int, versionId: Option<int>)
    ensures StatusOf(AddTechnology(db, projectId, technologyId, versionId)) == 404 <==>
      projectId !in db.projects || technologyId !in db.technologies ||
      (NonZero(versionId) && (versionId.value, technologyId) !in db.versions)
    ensures StatusOf(AddTechnology(db, projectId, technologyId, versionId)) == 409 <==>
      projectId in db.projects && technologyId in db.technologies &&
      (!NonZero(versionId) || (versionId.value, technologyId) in db.versions) &&
      (projectId, technologyId) in db.links
    ensures StatusOf(AddTechnology(db, projectId, technologyId, versionId)) == 409 ==>
      MessageOf(AddTechnology(db, projectId, technologyId, versionId)) == Some(DuplicateLink)
  {
  }

  /** `remove_technology_from_project`: only the link is checked. */
  function RemoveTechnology(db: Db, projectId: int, technologyId: int): (d: Decision<()>)
    ensures d.Proceed? <==> (projectId, technologyId) in db.links
    ensures d.Raise? ==> d == NotFoundRaise(LinkMissing)
  {
    if (projectId, technologyId) in db.links then Proceed(()) else NotFoundRaise(LinkMissing)
  }

  /** A missing project is reported whatever else the request names. */
  lemma MissingProjectReportedFirst(db: Db, id: int, teamId: Option<int>, technologyId: int, versionId: Option<int>)
    requires id !in db.projects
    ensures UpdateProject(db, id, teamId) == FindProject(db, id)
    ensures AddTechnology(db, id, technologyId, versionId) == FindProject(db, id)
  {
  }
}
