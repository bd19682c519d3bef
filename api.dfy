/**
 * The front-end's `api` object: the records it exchanges with the back-end,
 * the path, method and body each call hands to `request`, the per-entity
 * list parameters turned into query strings, and the token handling of
 * `login` and `logout`.
 */
module Api {
  import opened Wrappers
  import opened Text
  import opened Json
  import opened Query
  import opened Storage
  import opened Transport

  // ---------------------------------------------------------------------------
  // Records

  datatype User = User(
    id: int, email: string, fullName: string, isAdmin: bool, isActive: bool,
    createdAt: string, updatedAt: string)

  datatype TechnologyCategory = TechnologyCategory(id: int, name: string, description: string, icon: string, createdAt: string)

  datatype Technology = Technology(
    id: int, name: string, categoryId: int, description: string, officialWebsite: string,
    status: string, createdAt: string, updatedAt: string)

  datatype Project = Project(
    id: int, name: string, description: string, teamId: Option<int>, status: string,
    repositoryUrl: string, startDate: Option<string>, createdAt: string, updatedAt: string)

  datatype Team = Team(id: int, name: string, description: string, leadId: Option<int>, createdAt: string, updatedAt: string)

  /** A page of a list endpoint; `items` and `total_pages` may be missing or zero in a reply. */
  datatype PageReply<T> = PageReply(items: Option<seq<T>>, total: int, totalPages: int)

  datatype LoginRequest = LoginRequest(email: string, password: string)
  datatype LoginResponse = LoginResponse(token: string, user: User)

  datatype TechnologyPayload = TechnologyPayload(
    name: string, categoryId: int, description: string, officialWebsite: string, status: string)

  datatype ProjectPayload = ProjectPayload(
    name: string, description: string, teamId: Option<int>, status: string,
    repositoryUrl: string, startDate: Option<string>, technologyIds: seq<int>)

  datatype TeamPayload = TeamPayload(name: string, description: string, leadId: Option<int>)

  datatype CreateUserPayload = CreateUserPayload(email: string, password: string, fullName: string, isAdmin: bool, isActive: bool)
  datatype UpdateUserPayload = UpdateUserPayload(email: string, fullName: string, isAdmin: bool, isActive: bool)

  datatype CategoryPayload = CategoryPayload(name: string, description: Option<string>, icon: Option<string>)

  datatype AddTechnologyPayload = AddTechnologyPayload(technologyId: int, versionId: Option<int>, usageType: string, notes: string)

  // ---------------------------------------------------------------------------
  // List parameters (every field may be `undefined`)

  datatype UserListParams = UserListParams(page: Param, pageSize: Param, sortBy: Param, sortOrder: Param, q: Param, role: Param)
  datatype TechnologyListParams = TechnologyListParams(
    page: Param, pageSize: Param, sortBy: Param, sortOrder: Param, q: Param, status: Param, categoryId: Param)
  datatype ProjectListParams = ProjectListParams(
    page: Param, pageSize: Param, sortBy: Param, sortOrder: Param, q: Param, status: Param, teamId: Param)
  datatype TeamListParams = TeamListParams(page: Param, pageSize: Param, sortBy: Param, sortOrder: Param, q: Param)

  function UserListEntries(p: UserListParams): Params
  {
    [("page", p.page), ("page_size", p.pageSize), ("sort_by", p.sortBy), ("sort_order", p.sortOrder),
     ("q", p.q), ("role", p.role)]
  }

  function TechnologyListEntries(p: TechnologyListParams): Params
  {
    [("page", p.page), ("page_size", p.pageSize), ("sort_by", p.sortBy), ("sort_order", p.sortOrder),
     ("q", p.q), ("status", p.status), ("category_id", p.categoryId)]
  }

  function ProjectListEntries(p: ProjectListParams): Params
  {
    [("page", p.page), ("page_size", p.pageSize), ("sort_by", p.sortBy), ("sort_order", p.sortOrder),
     ("q", p.q), ("status", p.status), ("team_id", p.teamId)]
  }

  function TeamListEntries(p: TeamListParams): Params
  {
    [("page", p.page), ("page_size", p.pageSize), ("sort_by", p.sortBy), ("sort_order", p.sortOrder), ("q", p.q)]
  }

  /** The default `limit` of `getArchiveHistory`. */
  const DefaultHistoryLimit: int := 10

  // ---------------------------------------------------------------------------
  // Calls

  datatype Endpoint =
    | Login(credentials: LoginRequest)
    | ListUsers(userParams: UserListParams)
    | CreateUser(newUser: CreateUserPayload)
    | UpdateUser(userId: int, userChanges: UpdateUserPayload)
    | DeleteUser(userId: int)
    | GetDashboardStats
    | ListTechnologyCategories
    | CreateTechnologyCategory(category: CategoryPayload)
    | ListTechnologyStatuses
    | CreateTechnologyStatus(statusName: string)
    | ListTechnologies(technologyParams: TechnologyListParams)
    | CreateTechnology(technology: TechnologyPayload)
    | GetTechnology(technologyId: int)
    | UpdateTechnology(technologyId: int, technology: TechnologyPayload)
    | DeleteTechnology(technologyId: int)
    | GetTechnologyUsageStats
    | ListProjects(projectParams: ProjectListParams)
    | CreateProject(project: ProjectPayload)
    | GetProject(projectId: int)
    | DeleteProject(projectId: int)
    | GetProjectTechnologies(projectId: int)
    | AddTechnologyToProject(projectId: int, link: AddTechnologyPayload)
    | RemoveTechnologyFromProject(projectId: int, technologyId: int)
    | ListTeams(teamParams: TeamListParams)
    | CreateTeam(team: TeamPayload)
    | GetTeam(teamId: int)
    | UpdateTeam(teamId: int, team: TeamPayload)
    | DeleteTeam(teamId: int)
    | PreviewArchive(inactiveDays: int)
    | ExecuteArchive(inactiveDays: int)
    | GetArchiveHistory(limit: int)

  /** The arguments one `api` method hands to `request`. */
  datatype Call = Call(path: string, options: Option<RequestOptions>)

  function Send(verb: string, body: Json): Option<RequestOptions>
  {
    Some(RequestOptions(Some(verb), Some(body), None, None))
  }

  function Delete(): Option<RequestOptions>
  {
    Some(RequestOptions(Some("DELETE"), None, None, None))
  }

  function LoginJson(p: LoginRequest): Json
  {
    JObj(map["email" := JStr(p.email), "password" := JStr(p.password)])
  }

  function CreateUserJson(p: CreateUserPayload): Json
  {
    JObj(map["email" := JStr(p.email), "password" := JStr(p.password), "full_name" := JStr(p.fullName),
             "is_admin" := JBool(p.isAdmin), "is_active" := JBool(p.isActive)])
  }

  function UpdateUserJson(p: UpdateUserPayload): Json
  {
    JObj(map["email" := JStr(p.email), "full_name" := JStr(p.fullName),
             "is_admin" := JBool(p.isAdmin), "is_active" := JBool(p.isActive)])
  }

  function CategoryJson(p: CategoryPayload): Json
  {
    JObj(map["name" := JStr(p.name)]
         + (if p.description.Some? then map["description" := JStr(p.description.value)] else map[])
         + (if p.icon.Some? then map["icon" := JStr(p.icon.value)] else map[]))
  }

  function TechnologyJson(p: TechnologyPayload): Json
  {
    JObj(map["name" := JStr(p.name), "category_id" := JNum(p.categoryId), "description" := JStr(p.description),
             "official_website" := JStr(p.officialWebsite), "status" := JStr(p.status)])
  }

  function ProjectJson(p: ProjectPayload): Json
  {
    JObj(map["name" := JStr(p.name), "description" := JStr(p.description), "team_id" := NullableNum(p.teamId),
             "status" := JStr(p.status), "repository_url" := JStr(p.repositoryUrl),
             "start_date" := NullableStr(p.startDate),
             "technology_ids" := JArr(seq(|p.technologyIds|, k requires 0 <= k < |p.technologyIds| => JNum(p.technologyIds[k])))])
  }

  function TeamJson(p: TeamPayload): Json
  {
    JObj(map["name" := JStr(p.name), "description" := JStr(p.description), "lead_id" := NullableNum(p.leadId)])
  }

  function AddTechnologyJson(p: AddTechnologyPayload): Json
  {
    JObj(map["technology_id" := JNum(p.technologyId), "version_id" := NullableNum(p.versionId),
             "usage_type" := JStr(p.usageType), "notes" := JStr(p.notes)])
  }

  function Id(n: int): string
  {
    "/" + IntToString(n)
  }

  /** The path each `api` method requests, with its query string. */
  function PathOf(e: Endpoint): string
  {
    match e
    case Login(_) => "/login"
    case ListUsers(p) => "/users" + QueryString(UserListEntries(p))
    case CreateUser(_) => "/users"
    case UpdateUser(id, _) => "/users" + Id(id)
    case DeleteUser(id) => "/users" + Id(id)
    case GetDashboardStats => "/dashboard/stats"
    case ListTechnologyCategories => "/technologies/categories"
    case CreateTechnologyCategory(_) => "/technologies/categories"
    case ListTechnologyStatuses => "/technologies/statuses"
    case CreateTechnologyStatus(_) => "/technologies/statuses"
    case ListTechnologies(p) => "/technologies" + QueryString(TechnologyListEntries(p))
    case CreateTechnology(_) => "/technologies"
    case GetTechnology(id) => "/technologies" + Id(id)
    case UpdateTechnology(id, _) => "/technologies" + Id(id)
    case DeleteTechnology(id) => "/technologies" + Id(id)
    case GetTechnologyUsageStats => "/technologies/stats"
    case ListProjects(p) => "/projects" + QueryString(ProjectListEntries(p))
    case CreateProject(_) => "/projects"
    case GetProject(id) => "/projects" + Id(id)
    case DeleteProject(id) => "/projects" + Id(id)
    case GetProjectTechnologies(id) => "/projects" + Id(id) + "/technologies"
    case AddTechnologyToProject(id, _) => "/projects" + Id(id) + "/technologies"
    case RemoveTechnologyFromProject(id, t) => "/projects" + Id(id) + "/technologies" + Id(t)
    case ListTeams(p) => "/teams" + QueryString(TeamListEntries(p))
    case CreateTeam(_) => "/teams"
    case GetTeam(id) => "/teams" + Id(id)
    case UpdateTeam(id, _) => "/teams" + Id(id)
    case DeleteTeam(id) => "/teams" + Id(id)
    case PreviewArchive(days) => "/admin/archive/preview" + QueryString([("inactive_days", Num(days))])
    case ExecuteArchive(days) => "/admin/archive/execute" + QueryString([("inactive_days", Num(days))])
    case GetArchiveHistory(limit) => "/admin/archive/history" + QueryString([("limit", Num(limit))])
  }

  /** The options each `api` method passes to `request`. */
  function OptionsOf(e: Endpoint): Option<RequestOptions>
  {
    match e
    case Login(p) => Some(RequestOptions(Some("POST"), Some(LoginJson(p)), None, Some(false)))
    case ListUsers(_) => None
    case CreateUser(p) => Send("POST", CreateUserJson(p))
    case UpdateUser(_, p) => Send("PUT", UpdateUserJson(p))
    case DeleteUser(_) => Delete()
    case GetDashboardStats => None
    case ListTechnologyCategories => None
    case CreateTechnologyCategory(p) => Send("POST", CategoryJson(p))
    case ListTechnologyStatuses => None
    case CreateTechnologyStatus(name) => Send("POST", JObj(map["name" := JStr(name)]))
    case ListTechnologies(_) => None
    case CreateTechnology(p) => Send("POST", TechnologyJson(p))
    case GetTechnology(_) => None
    case UpdateTechnology(_, p) => Send("PUT", TechnologyJson(p))
    case DeleteTechnology(_) => Delete()
    case GetTechnologyUsageStats => None
    case ListProjects(_) => None
    case CreateProject(p) => Send("POST", ProjectJson(p))
    case GetProject(_) => None
    case DeleteProject(_) => Delete()
    case GetProjectTechnologies(_) => None
    case AddTechnologyToProject(_, p) => Send("POST", AddTechnologyJson(p))
    case RemoveTechnologyFromProject(_, _) => Delete()
    case ListTeams(_) => None
    case CreateTeam(p) => Send("POST", TeamJson(p))
    case GetTeam(_) => None
    case UpdateTeam(_, p) => Send("PUT", TeamJson(p))
    case DeleteTeam(_) => Delete()
    case PreviewArchive(_) => None
    case ExecuteArchive(_) => Some(RequestOptions(Some("POST"), None, None, None))
    case GetArchiveHistory(_) => None
  }

  /** The `request` call each `api` method makes. */
  function CallOf(e: Endpoint): Call
  {
    Call(PathOf(e), OptionsOf(e))
  }

  /** The method `request` ends up using for a call. */
  function VerbOf(e: Endpoint): string
  {
    var options := OptionsOf(e);
    if options.Some? && options.value.verb.Some? then options.value.verb.value else "GET"
  }

  predicate IsRead(e: Endpoint)
  {
    e.ListUsers? || e.GetDashboardStats? || e.ListTechnologyCategories? || e.ListTechnologyStatuses? ||
    e.ListTechnologies? || e.GetTechnology? || e.GetTechnologyUsageStats? || e.ListProjects? || e.GetProject? ||
    e.GetProjectTechnologies? || e.ListTeams? || e.GetTeam? || e.PreviewArchive? || e.GetArchiveHistory?
  }

  /** `login` is the one call sent without the bearer token. */
  lemma OnlyLoginSkipsAuth(e: Endpoint)
    ensures !ShouldAuth(CallOf(e).options) <==> e.Login?
  {
    assert CallOf(e).options == OptionsOf(e);
  }

  /** The verbs `request` is given differ from its default. */
  lemma VerbsDiffer()
    ensures "POST" != "GET" && "PUT" != "GET" && "DELETE" != "GET"
  {
    assert "POST"[0] != "GET"[0] && "PUT"[0] != "GET"[0] && "DELETE"[0] != "GET"[0];
  }

  /** Reads go out as GET, every other call with a body-carrying or deleting method. */
  lemma ReadsAreGets(e: Endpoint)
    ensures VerbOf(e) == "GET" <==> IsRead(e)
    ensures !IsRead(e) ==> VerbOf(e) in {"POST", "PUT", "DELETE"}
  {
    VerbsDiffer();
  }

  /** Preview and execute send the same `inactive_days` query; a threshold of 0 is still sent. */
  lemma ArchiveQueriesAgree(days: int)
    ensures QueryString([("inactive_days", Num(days))]) == "?inactive_days=" + IntToString(days)
  {
    OnlyOneKept([("inactive_days", Num(days))], 0);
  }

  /** The user list carries its role filter as `role`; no `is_admin` key is ever sent. */
  lemma {:induction false} UserListNeverSendsIsAdmin(p: UserListParams)
    ensures forall k :: 0 <= k < |Survivors(UserListEntries(p))| ==> Survivors(UserListEntries(p))[k].0 != "is_admin"
  {
    var entries := UserListEntries(p);
    forall pair | pair in Survivors(entries) ensures pair.0 != "is_admin" {
      SurvivorHasSource(entries, pair);
    }
  }

  // ---------------------------------------------------------------------------
  // Login and logout

  /**
   * `api.login`: sends the credentials without authentication; on success it
   * stores the token cookie and resolves to the user, and a rejection leaves
   * the cookies as they were.
   */
  method ApiLogin(browser: Browser, credentials: LoginRequest, settled: Outcome<LoginResponse>)
    returns (call: Call, result: Outcome<User>)
    modifies browser
    ensures call == CallOf(Login(credentials)) && !ShouldAuth(call.options)
    ensures settled.Ok? ==> result == Ok(settled.value.user) && browser.Token() == Some(settled.value.token)
    ensures settled.Ok? ==> browser.cookies == old(browser.cookies)[TokenCookieName :=
      Cookie(settled.value.token, TokenLifetimeDays, browser.protocol == "https:", "lax")]
    ensures settled.Fail? ==> result == Fail(settled.error) && browser.cookies == old(browser.cookies)
    ensures browser.localStorage == old(browser.localStorage) && browser.protocol == old(browser.protocol)
  {
    call := CallOf(Login(credentials));
    match settled
    case Fail(e) =>
      result := Fail(e);
    case Ok(data) =>
      browser.SetTokenCookie(data.token);
      result := Ok(data.user);
  }

  /** `api.logout`: forgets the token cookie and nothing else. */
  method ApiLogout(browser: Browser)
    modifies browser
    ensures browser.Token() == None
    ensures browser.cookies == old(browser.cookies) - {TokenCookieName}
    ensures browser.localStorage == old(browser.localStorage)
  {
    browser.ClearTokenCookie();
  }
}
