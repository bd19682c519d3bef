/**
 * The projects screen: its list query and request, the project form with its
 * schema and payload normalisation, the create/edit/delete handlers, the teams
 * and technologies it looks up, the filter bar and the table's display rules.
 * `api.updateProject` and a project's `technologies` are not defined by the
 * client, so the update call and the linked technology ids are parameters.
 */
module Projects {
  import opened Wrappers
  import opened Text
  import opened Query
  import opened Api
  import opened ListControl
  import opened Forms

  // ---------------------------------------------------------------------------
  // The list query

  datatype ProjectSort = ByName | ByStatus | ByCreatedAt | ByTeam

  function SortKey(s: ProjectSort): string
  {
    match s
    case ByName => "name"
    case ByStatus => "status"
    case ByCreatedAt => "created_at"
    case ByTeam => "team_id"
  }

  /** The search text, the status filter (`""` for all) and the team filter. */
  datatype ProjectFilters = ProjectFilters(q: string, status: string, team: Option<int>)

  const NoFilters: ProjectFilters := ProjectFilters("", "", None)

  /** The parameters `load` passes to `listProjects`. */
  function ListParamsOf(query: ListQuery<ProjectSort, ProjectFilters>): ProjectListParams
  {
    ProjectListParams(
      Num(query.page), Num(query.pageSize), Str(SortKey(query.sortBy)), Str(SortOrderName(query.sortOrder)),
      OrUndefined(query.filters.q), OrUndefined(query.filters.status), OptionalNum(query.filters.team))
  }

  /** The path `load` requests for a query. */
  function RequestOf(query: ListQuery<ProjectSort, ProjectFilters>): string
  {
    CallOf(ListProjects(ListParamsOf(query))).path
  }

  /** The filter entries a query sends: only the non-empty ones. */
  function FilterPairs(f: ProjectFilters): seq<(string, string)>
  {
    (if f.q != "" then [("q", f.q)] else []) +
    (if f.status != "" then [("status", f.status)] else []) +
    (if f.team.Some? then [("team_id", IntToString(f.team.value))] else [])
  }

  /** The query-string entries a query sends, in order. */
  function SentPairs(query: ListQuery<ProjectSort, ProjectFilters>): seq<(string, string)>
  {
    [("page", IntToString(query.page)), ("page_size", IntToString(query.pageSize)),
     ("sort_by", SortKey(query.sortBy)), ("sort_order", SortOrderName(query.sortOrder))] +
    FilterPairs(query.filters)
  }

  lemma FilterPairsSurvive(query: ListQuery<ProjectSort, ProjectFilters>)
    ensures Survivors(ProjectListEntries(ListParamsOf(query))[4..]) == FilterPairs(query.filters)
  {
    var e := ProjectListEntries(ListParamsOf(query));
    var f := query.filters;
    SurvivorsFrom(e, 6);
    assert e[7..] == [];
    SurvivorsFrom(e, 5);
    SurvivorsFrom(e, 4);
    AppendAssoc(if f.q != "" then [("q", f.q)] else [], if f.status != "" then [("status", f.status)] else [],
      if f.team.Some? then [("team_id", IntToString(f.team.value))] else []);
  }

  lemma SentPairsSurvive(query: ListQuery<ProjectSort, ProjectFilters>)
    ensures Survivors(ProjectListEntries(ListParamsOf(query))) == SentPairs(query)
  {
    var e := ProjectListEntries(ListParamsOf(query));
    FourKept(e[0], e[1], e[2], e[3], e[4..]);
    assert e == [e[0], e[1], e[2], e[3]] + e[4..];
    FilterPairsSurvive(query);
  }


  /** With `&`-free text filters nothing in the request needs encoding. */
  lemma EntriesSafe(query: ListQuery<ProjectSort, ProjectFilters>)
    requires Lacks(query.filters.q, '&') && Lacks(query.filters.status, '&')
    ensures SafeParams(ProjectListEntries(ListParamsOf(query)))
  {
    var e := ProjectListEntries(ListParamsOf(query));
    IntToStringChars(query.page);
    IntToStringChars(query.pageSize);
    forall i | 0 <= i < |e|
      ensures Lacks(e[i].0, '&') && Lacks(e[i].0, '=') && (e[i].1.Str? ==> Lacks(e[i].1.s, '&'))
    {
    }
  }

  /**
   * The list request always carries page, size and sort, carries the search
   * text and the status only when non-empty and the team whenever one is
   * chosen (0 included); read back, it yields exactly those entries.
   */
  lemma LoadRequest(query: ListQuery<ProjectSort, ProjectFilters>)
    ensures RequestOf(query) == "/projects" + QueryString(ProjectListEntries(ListParamsOf(query)))
    ensures Survivors(ProjectListEntries(ListParamsOf(query))) == SentPairs(query)
    ensures Lacks(query.filters.q, '&') && Lacks(query.filters.status, '&') ==>
      ParseQuery(QueryString(ProjectListEntries(ListParamsOf(query)))) == SentPairs(query)
  {
    var entries := ProjectListEntries(ListParamsOf(query));
    SentPairsSurvive(query);
    if Lacks(query.filters.q, '&') && Lacks(query.filters.status, '&') {
      EntriesSafe(query);
      QueryRoundTrip(entries);
    }
  }

  /** `useProjects()` on mount: newest first, no filters. */
  method NewController() returns (c: ListController<Project, ProjectSort, ProjectFilters>)
    ensures fresh(c) && c.Valid()
    ensures c.Query() == ListQuery(1, InitialPageSize, ByCreatedAt, Desc, NoFilters)
    ensures c.View() == ListView([], 0, 1) && !c.loading
    ensures c.DialogState() == Dialogs(false, false, None, None)
    ensures c.effectQuery == None && c.sent == []
    ensures c.requestOf == RequestOf && forall p: Project :: c.idOf(p) == p.id
  {
    c := new ListController(ByCreatedAt, NoFilters, RequestOf, (p: Project) => p.id);
  }

  // ---------------------------------------------------------------------------
  // Teams and technologies for the form and the filters

  class Lookups {
    var teams: seq<Team>
    var technologies: seq<Technology>

    constructor()
      ensures teams == [] && technologies == []
    {
      teams := [];
      technologies := [];
    }

    /**
     * The mount effect: all teams and up to 100 technologies are requested;
     * each reply's `items ?? []` is adopted, a rejection is ignored.
     */
    method Mount(teamReply: Outcome<PageReply<Team>>, technologyReply: Outcome<PageReply<Technology>>)
      returns (calls: seq<Call>)
      modifies this
      ensures calls == [CallOf(ListTeams(TeamListParams(Undefined, Undefined, Undefined, Undefined, Undefined))),
                        CallOf(ListTechnologies(TechnologyListParams(Undefined, Num(100), Undefined, Undefined, Undefined, Undefined, Undefined)))]
      ensures teams == if teamReply.Ok? then teamReply.value.items.GetOr([]) else old(teams)
      ensures technologies == if technologyReply.Ok? then technologyReply.value.items.GetOr([]) else old(technologies)
    {
      calls := [CallOf(ListTeams(TeamListParams(Undefined, Undefined, Undefined, Undefined, Undefined))),
                CallOf(ListTechnologies(TechnologyListParams(Undefined, Num(100), Undefined, Undefined, Undefined, Undefined, Undefined)))];
      if teamReply.Ok? {
        teams := teamReply.value.items.GetOr([]);
      }
      if technologyReply.Ok? {
        technologies := technologyReply.value.items.GetOr([]);
      }
    }
  }

  /** The mount requests are the bare team list and the technology list with `page_size=100` only. */
  lemma MountQueries()
    ensures QueryString(TeamListEntries(TeamListParams(Undefined, Undefined, Undefined, Undefined, Undefined))) == ""
    ensures QueryString(TechnologyListEntries(TechnologyListParams(Undefined, Num(100), Undefined, Undefined, Undefined, Undefined, Undefined))) ==
      "?page_size=100"
  {
    NoneKept(TeamListEntries(TeamListParams(Undefined, Undefined, Undefined, Undefined, Undefined)));
    OnlyOneKept(TechnologyListEntries(TechnologyListParams(Undefined, Num(100), Undefined, Undefined, Undefined, Undefined, Undefined)), 1);
    PageSizeHundred();
  }

  // ---------------------------------------------------------------------------
  // The project form

  /** The form's values; `None` stands for both `null` and `undefined`. */
  datatype ProjectValues = ProjectValues(
    name: string, description: Option<string>, teamId: Option<int>, status: string,
    repositoryUrl: Option<string>, startDate: Option<string>, technologyIds: seq<int>)

  const DefaultValues: ProjectValues := ProjectValues("", Some(""), None, "active", Some(""), None, [])

  /**
   * The schema's issues, in field order: a name and a status are required, and
   * a repository URL, when given and not empty, must be a URL.
   */
  function ProjectIssues(v: ProjectValues, isUrl: string -> bool): seq<Issue>
  {
    (if |v.name| < 1 then [Issue("name", "Название обязательно")] else []) +
    (if |v.status| < 1 then [Issue("status", "Статус обязателен")] else []) +
    (if v.repositoryUrl.Some? && v.repositoryUrl.value != "" && !isUrl(v.repositoryUrl.value)
     then [Issue("repository_url", "Некорректный URL")] else [])
  }

  predicate PassesSchema(v: ProjectValues, isUrl: string -> bool)
  {
    ProjectIssues(v, isUrl) == []
  }

  /** A value passes exactly when name and status are set and the repository URL is absent, empty or a URL. */
  lemma SchemaIff(v: ProjectValues, isUrl: string -> bool)
    ensures PassesSchema(v, isUrl) <==>
      v.name != "" && v.status != "" &&
      (v.repositoryUrl.None? || v.repositoryUrl.value == "" || isUrl(v.repositoryUrl.value))
    ensures PassesSchema(v.(repositoryUrl := Some("")), isUrl) <==> PassesSchema(v.(repositoryUrl := None), isUrl)
  {
  }

  /** The defaults fail only for the missing name. */
  lemma DefaultsNeedName(isUrl: string -> bool)
    ensures ProjectIssues(DefaultValues, isUrl) == [Issue("name", "Название обязательно")]
  {
  }

  /** The body sent for the form's values. */
  function PayloadOf(v: ProjectValues): (p: ProjectPayload)
    ensures p.name == v.name && p.status == v.status && p.teamId == v.teamId && p.technologyIds == v.technologyIds
    ensures p.description == v.description.GetOr("") && p.repositoryUrl == v.repositoryUrl.GetOr("")
    ensures p.startDate.Some? <==> v.startDate.Some? && v.startDate.value != ""
    ensures p.startDate.Some? ==> p.startDate == v.startDate
  {
    ProjectPayload(v.name, v.description.GetOr(""), v.teamId, v.status, v.repositoryUrl.GetOr(""),
                   if v.startDate.Some? && v.startDate.value != "" then v.startDate else None,
                   v.technologyIds)
  }

  /** An empty start date is sent as `null`, exactly as an absent one. */
  lemma EmptyDateIsNull(v: ProjectValues)
    ensures PayloadOf(v.(startDate := Some(""))) == PayloadOf(v.(startDate := None))
  {
  }

  /** The values `onOpenEdit` loads; `linked` is what `project.technologies` yields as ids. */
  function EditValues(p: Project, linked: Option<seq<int>>): ProjectValues
  {
    ProjectValues(p.name, Some(p.description), p.teamId, p.status, Some(p.repositoryUrl), p.startDate,
                  linked.GetOr([]))
  }

  /** Saving the edit form unchanged sends the project's own fields back, an empty date as `null`. */
  lemma UnchangedEditResends(p: Project, linked: Option<seq<int>>)
    ensures PayloadOf(EditValues(p, linked)) ==
      ProjectPayload(p.name, p.description, p.teamId, p.status, p.repositoryUrl,
                     if p.startDate == Some("") then None else p.startDate, linked.GetOr([]))
  {
  }

  /** The values `onOpenCreate` loads: the defaults, with the first team unless there is none or its id is 0. */
  function CreateValues(teams: seq<Team>): (v: ProjectValues)
    ensures v.(teamId := None) == DefaultValues
    ensures |teams| > 0 && teams[0].id != 0 ==> v.teamId == Some(teams[0].id)
    ensures !(|teams| > 0 && teams[0].id != 0) ==> v.teamId == None
  {
    DefaultValues.(teamId := if |teams| > 0 && teams[0].id != 0 then Some(teams[0].id) else None)
  }

  // ---------------------------------------------------------------------------
  // Handlers

  method OnOpenCreate(c: ListController<Project, ProjectSort, ProjectFilters>, form: FormState<ProjectValues>,
                      teams: seq<Team>)
    modifies c`createOpen, form
    ensures form.values == CreateValues(teams) && c.createOpen
  {
    form.Reset(CreateValues(teams));
    c.SetCreateOpen(true);
  }

  /** `onSubmitCreate`: the create call, then the dialog closes and the list reloads. */
  method OnSubmitCreate(c: ListController<Project, ProjectSort, ProjectFilters>, values: ProjectValues,
                        created: Outcome<Project>, reload: Outcome<PageReply<Project>>)
    returns (call: Call, result: Outcome<()>)
    modifies c`createOpen, c`items, c`total, c`totalPages, c`loading, c`sent
    ensures call == CallOf(CreateProject(PayloadOf(values)))
    ensures created.Fail? ==>
      result == Fail(created.error) && c.createOpen == old(c.createOpen) && c.View() == old(c.View()) &&
      c.loading == old(c.loading) && c.sent == old(c.sent)
    ensures created.Ok? ==>
      !c.createOpen && c.sent == old(c.sent) + [c.requestOf(c.Query())] &&
      c.View() == AfterLoad(old(c.View()), reload) && !c.loading &&
      result == (if reload.Ok? then Ok(()) else Fail(reload.error))
  {
    call := CallOf(CreateProject(PayloadOf(values)));
    result := c.AfterCreate(created, reload);
  }

  method OnOpenEdit(c: ListController<Project, ProjectSort, ProjectFilters>, form: FormState<ProjectValues>,
                    p: Project, linked: Option<seq<int>>)
    modifies c`editing, c`editOpen, form
    ensures form.values == EditValues(p, linked) && c.editing == Some(p) && c.editOpen
  {
    c.OpenEdit(p);
    form.Reset(EditValues(p, linked));
  }

  /**
   * `onSubmitEdit`: without an edited project nothing is sent; otherwise the
   * edited id and the payload go to the update call, whose outcome is `updated`.
   */
  method OnSubmitEdit(c: ListController<Project, ProjectSort, ProjectFilters>, values: ProjectValues,
                      updated: Outcome<Project>, reload: Outcome<PageReply<Project>>)
    returns (update: Option<(int, ProjectPayload)>, result: Outcome<()>)
    requires forall p: Project :: c.idOf(p) == p.id
    modifies c`editOpen, c`editing, c`items, c`total, c`totalPages, c`loading, c`sent
    ensures old(c.editing).None? ==>
      update == None && result == Ok(()) && c.editOpen == old(c.editOpen) && c.editing == None &&
      c.View() == old(c.View()) && c.loading == old(c.loading) && c.sent == old(c.sent)
    ensures old(c.editing).Some? ==> update == Some((old(c.editing).value.id, PayloadOf(values)))
    ensures old(c.editing).Some? && updated.Fail? ==>
      result == Fail(updated.error) && c.editOpen == old(c.editOpen) && c.editing == old(c.editing) &&
      c.View() == old(c.View()) && c.loading == old(c.loading) && c.sent == old(c.sent)
    ensures old(c.editing).Some? && updated.Ok? ==>
      !c.editOpen && c.editing == None && c.sent == old(c.sent) + [c.requestOf(c.Query())] &&
      c.View() == AfterLoad(old(c.View()), reload) && !c.loading &&
      result == (if reload.Ok? then Ok(()) else Fail(reload.error))
  {
    var target;
    target, result := c.SubmitEdit(updated, reload);
    update := if target.Some? then Some((target.value, PayloadOf(values))) else None;
  }

  /** What calling `api.updateProject`, which the client does not define, throws. */
  const UpdateProjectMissing: Thrown := Thrown(Some("api.updateProject is not a function"))

  /**
   * `onSubmitEdit` as the code stands. The `api` object has no `updateProject`,
   * so with an edited project the call throws a `TypeError` before any request
   * is made and the handler rejects: the dialog stays open, the project is kept
   * and nothing reloads. `OnSubmitEdit` is the handler with the update call the
   * code intends.
   */
  method OnSubmitEditAsWritten(c: ListController<Project, ProjectSort, ProjectFilters>, values: ProjectValues)
    returns (result: Outcome<()>)
    requires forall p: Project :: c.idOf(p) == p.id
    modifies c`editOpen, c`editing, c`items, c`total, c`totalPages, c`loading, c`sent
    ensures c.editOpen == old(c.editOpen) && c.View() == old(c.View()) && c.loading == old(c.loading)
    ensures c.sent == old(c.sent)
    ensures old(c.editing).None? ==> result == Ok(()) && c.editing == None
    ensures old(c.editing).Some? ==> result == Fail(UpdateProjectMissing) && c.editing == old(c.editing)
  {
    var update;
    update, result := OnSubmitEdit(c, values, Fail(UpdateProjectMissing), Fail(UpdateProjectMissing));
  }

  /** `onConfirmDelete`: a falsy `deleteId` sends nothing. */
  method OnConfirmDelete(c: ListController<Project, ProjectSort, ProjectFilters>, deleted: Outcome<()>,
                         reload: Outcome<PageReply<Project>>)
    returns (call: Option<Call>, result: Outcome<()>)
    modifies c`deleteId, c`items, c`total, c`totalPages, c`loading, c`sent
    ensures !(old(c.deleteId).Some? && old(c.deleteId).value != 0) ==>
      call == None && result == Ok(()) && c.deleteId == old(c.deleteId) && c.View() == old(c.View()) &&
      c.sent == old(c.sent)
    ensures old(c.deleteId).Some? && old(c.deleteId).value != 0 ==>
      call == Some(CallOf(DeleteProject(old(c.deleteId).value)))
    ensures old(c.deleteId).Some? && old(c.deleteId).value != 0 && deleted.Fail? ==>
      result == Fail(deleted.error) && c.deleteId == old(c.deleteId) && c.View() == old(c.View()) &&
      c.sent == old(c.sent)
    ensures old(c.deleteId).Some? && old(c.deleteId).value != 0 && deleted.Ok? ==>
      c.deleteId == None && c.sent == old(c.sent) + [c.requestOf(c.Query())] &&
      c.View() == AfterLoad(old(c.View()), reload) && !c.loading &&
      result == (if reload.Ok? then Ok(()) else Fail(reload.error))
  {
    var target;
    target, result := c.ConfirmDelete(deleted, reload);
    call := if target.Some? then Some(CallOf(DeleteProject(target.value))) else None;
  }

  // ---------------------------------------------------------------------------
  // The filter bar

  const StatusOptions: seq<string> := ["all", "active", "completed", "on_hold", "cancelled"]

  /**
   * The status select shows `statusFilter` itself, so after "all" (stored as
   * `""`) no option matches and the placeholder shows; any other option shows.
   */
  lemma StatusSelectShows(v: string)
    requires v in StatusOptions
    ensures TextFromOption(v) in StatusOptions <==> v != "all"
  {
  }

  function TeamId(t: Team): int
  {
    t.id
  }

  /** The team filter's options: "all", then `team.id.toString()` for each team. */
  function TeamOptions(teams: seq<Team>): seq<string>
  {
    IdOptions(Ids(teams, TeamId))
  }

  /** The team select's value: `teamFilter?.toString() || "all"`; a team 0 shows as "0". */
  function TeamSelectValue(team: Option<int>): string
  {
    if team.Some? then IntToString(team.value) else "all"
  }

  /** A team option sets the filter to that team's id (none for "all"), and the select then shows that option. */
  lemma TeamSelectRoundTrip(teams: seq<Team>, v: string)
    requires v in TeamOptions(teams)
    ensures v == "all" <==> IdFromOption(v) == None
    ensures v != "all" ==> exists k :: 0 <= k < |teams| && IdFromOption(v) == Some(teams[k].id)
    ensures TeamSelectValue(IdFromOption(v)) == v
  {
    IdOptionRoundTrip(Ids(teams, TeamId), v);
    if v != "all" {
      var k :| 0 <= k < |teams| && Ids(teams, TeamId)[k] == IdFromOption(v).value;
    }
  }

  method OnSearchChange(c: ListController<Project, ProjectSort, ProjectFilters>, v: string)
    requires c.Valid()
    modifies c`page, c`filters
    ensures c.Valid() && c.page == 1 && c.filters == old(c.filters).(q := v)
  {
    c.ChangeFilters(c.filters.(q := v));
  }

  method OnStatusChange(c: ListController<Project, ProjectSort, ProjectFilters>, v: string)
    requires c.Valid()
    modifies c`page, c`filters
    ensures c.Valid() && c.page == 1 && c.filters == old(c.filters).(status := TextFromOption(v))
  {
    c.ChangeFilters(c.filters.(status := if v == "all" then "" else v));
  }

  /** The team select; `v` is one of its rendered options. */
  method OnTeamChange(c: ListController<Project, ProjectSort, ProjectFilters>, teams: seq<Team>, v: string)
    requires c.Valid() && v in TeamOptions(teams)
    modifies c`page, c`filters
    ensures c.Valid() && c.page == 1 && c.filters == old(c.filters).(team := IdFromOption(v))
  {
    c.ChangeFilters(c.filters.(team := if v == "all" then None else JsNumber(v)));
  }

  /** The page-size select; `v` is one of its rendered options. */
  method OnPageSizeChange(c: ListController<Project, ProjectSort, ProjectFilters>, v: string)
    requires c.Valid() && v in PageSizeOptions()
    modifies c`page, c`pageSize
    ensures c.Valid() && c.page == 1 && IntToString(c.pageSize) == v && c.pageSize in PageSizes
  {
    c.ChoosePageSize(v);
  }

  // ---------------------------------------------------------------------------
  // The table

  /** `getStatusColor`, on the lower-cased status; unknown statuses are secondary. */
  function StatusBadge(status: string): Badge
  {
    var s := ToLower(status);
    if s == "active" then DefaultBadge
    else if s == "completed" then Secondary
    else if s == "on_hold" then Outline
    else if s == "cancelled" then Destructive
    else Secondary
  }

  /** The colour depends on the status only up to case, and every status not listed is secondary. */
  lemma StatusBadgeIgnoresCase(status: string)
    ensures StatusBadge(status) == StatusBadge(ToLower(status))
    ensures ToLower(status) !in {"active", "on_hold", "cancelled"} ==> StatusBadge(status) == Secondary
    ensures StatusBadge("Active") == DefaultBadge
  {
    ToLowerIdempotent(status);
    assert ToLower("Active") == "active";
  }

  /** The team cell: the first team with the project's team id, by name; "—" without one. */
  function TeamCell(teams: seq<Team>, teamId: Option<int>): string
    decreases |teams|
  {
    if |teams| == 0 || teamId.None? then "—"
    else if teams[0].id == teamId.value then teams[0].name
    else TeamCell(teams[1..], teamId)
  }

  /** A project without a team, or with one not loaded, shows "—". */
  lemma {:induction false} TeamCellMissing(teams: seq<Team>, teamId: Option<int>)
    ensures teamId.None? ==> TeamCell(teams, teamId) == "—"
    ensures teamId.Some? && (forall k :: 0 <= k < |teams| ==> teams[k].id != teamId.value) ==> TeamCell(teams, teamId) == "—"
    decreases |teams|
  {
    if |teams| > 0 && teamId.Some? && teams[0].id != teamId.value {
      TeamCellMissing(teams[1..], teamId);
      if forall k :: 0 <= k < |teams| ==> teams[k].id != teamId.value {
        forall k | 0 <= k < |teams[1..]| ensures teams[1..][k].id != teamId.value {
          assert teams[1..][k] == teams[k + 1];
        }
      }
    }
  }

  /** Otherwise the cell shows the name of the first team with the project's team id. */
  lemma {:induction false} TeamCellFinds(teams: seq<Team>, teamId: Option<int>)
    ensures forall k :: (0 <= k < |teams| && teamId == Some(teams[k].id) &&
      (forall j :: 0 <= j < k ==> teams[j].id != teams[k].id)) ==> TeamCell(teams, teamId) == teams[k].name
    decreases |teams|
  {
    if |teams| > 0 && teamId.Some? && teams[0].id != teamId.value {
      TeamCellFinds(teams[1..], teamId);
      forall k | 0 <= k < |teams| && teamId == Some(teams[k].id) && (forall j :: 0 <= j < k ==> teams[j].id != teams[k].id)
        ensures TeamCell(teams, teamId) == teams[k].name
      {
        assert k > 0;
        assert teams[1..][k - 1] == teams[k];
        forall j | 0 <= j < k - 1 ensures teams[1..][j].id != teams[1..][k - 1].id {
          assert teams[1..][j] == teams[j + 1];
        }
      }
    }
  }


  /** The line under the project's name: its description, only when non-empty. */
  function DescriptionLine(p: Project): (lines: seq<string>)
    ensures |lines| <= 1 && (lines == [] <==> p.description == "")
    ensures lines != [] ==> lines[0] == p.description
  {
    if p.description != "" then [p.description] else []
  }

  /** The repository cell: a link to a non-empty address, otherwise `—`. */
  function RepositoryCell(p: Project): (cell: LinkCell)
    ensures cell.ExternalLink? <==> p.repositoryUrl != ""
    ensures cell.ExternalLink? ==> cell.href == p.repositoryUrl
  {
    if p.repositoryUrl != "" then ExternalLink(p.repositoryUrl) else Dash
  }
}
