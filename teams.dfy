/**
 * The teams screen: its list query and request, the users lookup it loads on
 * mount, the team form's schema and payloads, the handlers, the filter bar
 * (search and page size only) and the table's lead and description cells.
 */
module Teams {
  import opened Wrappers
  import opened Text
  import opened Query
  import opened Api
  import opened ListControl
  import opened Forms

  // ---------------------------------------------------------------------------
  // The list query

  datatype TeamSort = ByName | ByCreatedAt

  function SortKey(s: TeamSort): string
  {
    match s
    case ByName => "name"
    case ByCreatedAt => "created_at"
  }

  /** The search text is the only filter of the teams screen. */
  datatype TeamFilters = TeamFilters(q: string)

  const NoFilters: TeamFilters := TeamFilters("")

  function ListParamsOf(query: ListQuery<TeamSort, TeamFilters>): TeamListParams
  {
    TeamListParams(
      Num(query.page), Num(query.pageSize), Str(SortKey(query.sortBy)), Str(SortOrderName(query.sortOrder)),
      OrUndefined(query.filters.q))
  }

  function RequestOf(query: ListQuery<TeamSort, TeamFilters>): string
  {
    CallOf(ListTeams(ListParamsOf(query))).path
  }

  function SentPairs(query: ListQuery<TeamSort, TeamFilters>): seq<(string, string)>
  {
    [("page", IntToString(query.page)), ("page_size", IntToString(query.pageSize)),
     ("sort_by", SortKey(query.sortBy)), ("sort_order", SortOrderName(query.sortOrder))] +
    (if query.filters.q != "" then [("q", query.filters.q)] else [])
  }

  lemma SentPairsSurvive(query: ListQuery<TeamSort, TeamFilters>)
    ensures Survivors(TeamListEntries(ListParamsOf(query))) == SentPairs(query)
  {
    var e := TeamListEntries(ListParamsOf(query));
    FourKept(e[0], e[1], e[2], e[3], e[4..]);
    assert e == [e[0], e[1], e[2], e[3]] + e[4..];
    SurvivorsFrom(e, 4);
    assert e[5..] == [];
    assert Survivors(e[4..]) == (if query.filters.q != "" then [("q", query.filters.q)] else []);
  }


  /**
   * The list request carries page, size and sort always and the search text
   * when it is non-empty; with a search text free of `&` the query string
   * parses back into exactly those pairs.
   */
  lemma LoadRequest(query: ListQuery<TeamSort, TeamFilters>)
    ensures RequestOf(query) == "/teams" + QueryString(TeamListEntries(ListParamsOf(query)))
    ensures Survivors(TeamListEntries(ListParamsOf(query))) == SentPairs(query)
    ensures Lacks(query.filters.q, '&') ==> ParseQuery(QueryString(TeamListEntries(ListParamsOf(query)))) == SentPairs(query)
  {
    SentPairsSurvive(query);
    if Lacks(query.filters.q, '&') {
      EntriesSafe(query);
      QueryRoundTrip(TeamListEntries(ListParamsOf(query)));
    }
  }

  lemma EntriesSafe(query: ListQuery<TeamSort, TeamFilters>)
    requires Lacks(query.filters.q, '&')
    ensures SafeParams(TeamListEntries(ListParamsOf(query)))
  {
    var e := TeamListEntries(ListParamsOf(query));
    IntToStringChars(query.page);
    IntToStringChars(query.pageSize);
    forall i | 0 <= i < |e|
      ensures Lacks(e[i].0, '&') && Lacks(e[i].0, '=') && (e[i].1.Str? ==> Lacks(e[i].1.s, '&'))
    {
    }
  }

  /** `useTeams()` on mount: newest first, no search. */
  method NewController() returns (c: ListController<Team, TeamSort, TeamFilters>)
    ensures fresh(c) && c.Valid()
    ensures c.Query() == ListQuery(1, InitialPageSize, ByCreatedAt, Desc, NoFilters)
    ensures c.View() == ListView([], 0, 1) && !c.loading
    ensures c.DialogState() == Dialogs(false, false, None, None)
    ensures c.effectQuery == None && c.sent == []
    ensures c.requestOf == RequestOf && forall t: Team :: c.idOf(t) == t.id
  {
    c := new ListController(ByCreatedAt, NoFilters, RequestOf, (t: Team) => t.id);
  }

  /** The users the lead column and the lead select draw on. */
  class Directory {
    var users: seq<User>

    constructor()
      ensures users == []
    {
      users := [];
    }

    /** The mount effect: up to 100 users are requested; a rejection is ignored. */
    method Mount(reply: Outcome<PageReply<User>>) returns (call: Call)
      modifies this
      ensures call == CallOf(ListUsers(UserListParams(Undefined, Num(100), Undefined, Undefined, Undefined, Undefined)))
      ensures users == if reply.Ok? then reply.value.items.GetOr([]) else old(users)
    {
      call := CallOf(ListUsers(UserListParams(Undefined, Num(100), Undefined, Undefined, Undefined, Undefined)));
      if reply.Ok? {
        users := reply.value.items.GetOr([]);
      }
    }
  }

  /** The mount request is the users list with `page_size=100` and nothing else. */
  lemma MountQuery()
    ensures QueryString(UserListEntries(UserListParams(Undefined, Num(100), Undefined, Undefined, Undefined, Undefined))) ==
      "?page_size=100"
  {
    var e := UserListEntries(UserListParams(Undefined, Num(100), Undefined, Undefined, Undefined, Undefined));
    OnlyOneKept(e, 1);
    PageSizeHundred();
  }

  // ---------------------------------------------------------------------------
  // The form

  /** The form's values; `None` stands for both `null` and `undefined`. */
  datatype TeamValues = TeamValues(name: string, description: Option<string>, leadId: Option<int>)

  const DefaultValues: TeamValues := TeamValues("", Some(""), None)

  /** The schema's issues: only the name is required. */
  function TeamIssues(v: TeamValues): seq<Issue>
  {
    if |v.name| < 1 then [Issue("name", "Название обязательно")] else []
  }

  /** The schema accepts exactly the forms with a name, whatever the description and the lead. */
  lemma SchemaIff(v: TeamValues, description: Option<string>, leadId: Option<int>)
    ensures TeamIssues(v) == [] <==> v.name != ""
    ensures TeamIssues(v.(description := description, leadId := leadId)) == TeamIssues(v)
    ensures TeamIssues(DefaultValues) == [Issue("name", "Название обязательно")]
  {
  }

  /** The create and update payload: a missing description is sent empty, a missing lead as `null`. */
  function PayloadOf(v: TeamValues): (p: TeamPayload)
    ensures p.name == v.name && p.leadId == v.leadId
    ensures p.description == (if v.description.Some? then v.description.value else "")
  {
    TeamPayload(v.name, v.description.GetOr(""), v.leadId)
  }

  /** The values `onOpenEdit` loads for a team. */
  function EditValuesOf(t: Team): TeamValues
  {
    TeamValues(t.name, Some(t.description), t.leadId)
  }

  /** Saving the edit form unchanged sends the team's own name, description and lead back. */
  lemma UnchangedEditResends(t: Team)
    ensures PayloadOf(EditValuesOf(t)) == TeamPayload(t.name, t.description, t.leadId)
  {
  }

  // ---------------------------------------------------------------------------
  // Handlers

  method OnOpenCreate(c: ListController<Team, TeamSort, TeamFilters>, form: FormState<TeamValues>)
    modifies c`createOpen, form
    ensures form.values == DefaultValues && c.createOpen
  {
    form.Reset(DefaultValues);
    c.SetCreateOpen(true);
  }

  method OnSubmitCreate(c: ListController<Team, TeamSort, TeamFilters>, values: TeamValues,
                        created: Outcome<Team>, reload: Outcome<PageReply<Team>>)
    returns (call: Call, result: Outcome<()>)
    modifies c`createOpen, c`items, c`total, c`totalPages, c`loading, c`sent
    ensures call == CallOf(CreateTeam(PayloadOf(values)))
    ensures created.Fail? ==>
      result == Fail(created.error) && c.createOpen == old(c.createOpen) && c.View() == old(c.View()) &&
      c.loading == old(c.loading) && c.sent == old(c.sent)
    ensures created.Ok? ==>
      !c.createOpen && c.sent == old(c.sent) + [c.requestOf(c.Query())] &&
      c.View() == AfterLoad(old(c.View()), reload) && !c.loading &&
      result == (if reload.Ok? then Ok(()) else Fail(reload.error))
  {
    call := CallOf(CreateTeam(PayloadOf(values)));
    result := c.AfterCreate(created, reload);
  }

  method OnOpenEdit(c: ListController<Team, TeamSort, TeamFilters>, form: FormState<TeamValues>, t: Team)
    modifies c`editing, c`editOpen, form
    ensures form.values == EditValuesOf(t) && c.editing == Some(t) && c.editOpen
  {
    c.OpenEdit(t);
    form.Reset(EditValuesOf(t));
  }

  method OnSubmitEdit(c: ListController<Team, TeamSort, TeamFilters>, values: TeamValues,
                      updated: Outcome<Team>, reload: Outcome<PageReply<Team>>)
    returns (call: Option<Call>, result: Outcome<()>)
    requires forall t: Team :: c.idOf(t) == t.id
    modifies c`editOpen, c`editing, c`items, c`total, c`totalPages, c`loading, c`sent
    ensures old(c.editing).None? ==>
      call == None && result == Ok(()) && c.editOpen == old(c.editOpen) && c.editing == None &&
      c.View() == old(c.View()) && c.sent == old(c.sent)
    ensures old(c.editing).Some? ==> call == Some(CallOf(UpdateTeam(old(c.editing).value.id, PayloadOf(values))))
    ensures old(c.editing).Some? && updated.Fail? ==>
      result == Fail(updated.error) && c.editOpen == old(c.editOpen) && c.editing == old(c.editing) &&
      c.View() == old(c.View()) && c.loading == old(c.loading) && c.sent == old(c.sent)
    ensures old(c.editing).Some? && updated.Ok? ==>
      !c.editOpen && c.editing == None && c.sent == old(c.sent) + [c.requestOf(c.Query())] &&
      c.View() == AfterLoad(old(c.View()), reload) && !c.loading &&
      result == (if reload.Ok? then Ok(()) else Fail(reload.error))
  {
    var target;
    target, result := c.SubmitEdit(updated, reload);
    call := if target.Some? then Some(CallOf(UpdateTeam(target.value, PayloadOf(values)))) else None;
  }

  method OnConfirmDelete(c: ListController<Team, TeamSort, TeamFilters>, deleted: Outcome<()>,
                         reload: Outcome<PageReply<Team>>)
    returns (call: Option<Call>, result: Outcome<()>)
    modifies c`deleteId, c`items, c`total, c`totalPages, c`loading, c`sent
    ensures !(old(c.deleteId).Some? && old(c.deleteId).value != 0) ==>
      call == None && result == Ok(()) && c.deleteId == old(c.deleteId) && c.View() == old(c.View()) &&
      c.sent == old(c.sent)
    ensures old(c.deleteId).Some? && old(c.deleteId).value != 0 ==>
      call == Some(CallOf(DeleteTeam(old(c.deleteId).value)))
    ensures old(c.deleteId).Some? && old(c.deleteId).value != 0 && deleted.Fail? ==>
      result == Fail(deleted.error) && c.deleteId == old(c.deleteId) && c.View() == old(c.View()) &&
      c.sent == old(c.sent)
    ensures old(c.deleteId).Some? && old(c.deleteId).value != 0 && deleted.Ok? ==>
      c.deleteId == None && c.sent == old(c.sent) + [c.requestOf(c.Query())] &&
      c.View() == AfterLoad(old(c.View()), reload) && !c.loading &&
      result == (if reload.Ok? then Ok(()) else Fail(reload.error))
  {
    var target;
    target, result := c.ConfirmDelete(deleted, reload);
    call := if target.Some? then Some(CallOf(DeleteTeam(target.value))) else None;
  }

  // ---------------------------------------------------------------------------
  // The filter bar

  /** The search box stores the text untrimmed; sort, order and page size stay. */
  method OnSearchChange(c: ListController<Team, TeamSort, TeamFilters>, v: string)
    requires c.Valid()
    modifies c`page, c`filters
    ensures c.Valid() && c.Query() == old(c.Query()).(page := 1, filters := TeamFilters(v))
  {
    c.ChangeFilters(TeamFilters(v));
  }

  /** The page-size select lists exactly the hook's page sizes, in order; choosing one goes back to page 1. */
  method OnPageSizeChange(c: ListController<Team, TeamSort, TeamFilters>, v: string)
    requires c.Valid() && v in PageSizeOptions()
    modifies c`page, c`pageSize
    ensures c.Valid() && c.page == 1 && IntToString(c.pageSize) == v && c.pageSize in PageSizes
    ensures c.filters == old(c.filters) && c.sortBy == old(c.sortBy) && c.sortOrder == old(c.sortOrder)
  {
    c.ChoosePageSize(v);
  }

  // ---------------------------------------------------------------------------
  // The table

  /** `users.find(u => u.id === id)`: the first user with that id, if any. */
  function FindUser(users: seq<User>, id: int): (found: Option<User>)
    ensures found.Some? ==>
      exists k :: 0 <= k < |users| && users[k] == found.value && users[k].id == id &&
          forall j :: 0 <= j < k ==> users[j].id != id
    ensures found.Some? ==> found.value in users && found.value.id == id
    ensures found.None? <==> forall u :: u in users ==> u.id != id
    decreases |users|
  {
    if |users| == 0 then None
    else if users[0].id == id then Some(users[0])
    else
      var found := FindUser(users[1..], id);
      assert found.Some? ==>
        exists k :: 0 <= k < |users| && users[k] == found.value && users[k].id == id &&
            forall j :: 0 <= j < k ==> users[j].id != id
      by {
        if found.Some? {
          var k :| 0 <= k < |users[1..]| && users[1..][k] == found.value && users[1..][k].id == id &&
            forall j :: 0 <= j < k ==> users[1..][j].id != id;
          assert users[k + 1] == users[1..][k];
          forall j | 0 <= j < k + 1 ensures users[j].id != id {
            if j > 0 {
              assert users[j] == users[1..][j - 1];
            }
          }
        }
      }
      assert users == [users[0]] + users[1..];
      found
  }

  /** `getUserName`: "—" without a lead (a missing or zero id), the lead's name when known, else "ID: <id>". */
  function LeadCell(users: seq<User>, leadId: Option<int>): (cell: string)
  {
    if leadId.None? || leadId.value == 0 then "—"
    else match FindUser(users, leadId.value)
      case Some(u) => u.fullName
      case None => "ID: " + IntToString(leadId.value)
  }

  /**
   * The lead cell names the first user with the lead's id; an unknown id is
   * shown as itself, so it can be read back from the cell.
   */
  lemma {:induction false} LeadCellCases(users: seq<User>, id: int)
    requires id != 0
    ensures (exists u :: u in users && u.id == id) ==>
      exists u :: u in users && u.id == id && LeadCell(users, Some(id)) == u.fullName
    ensures (forall u :: u in users ==> u.id != id) ==>
      LeadCell(users, Some(id)) == "ID: " + IntToString(id) &&
      ParseInt(LeadCell(users, Some(id))[4..]) == Some(id)
    ensures LeadCell(users, None) == "—" && LeadCell(users, Some(0)) == "—"
  {
    var cell := LeadCell(users, Some(id));
    if forall u :: u in users ==> u.id != id {
      assert cell[4..] == IntToString(id);
      ParseIntToString(id);
    }
  }

  /** The description cell: the description, or "—" when it is empty. */
  function DescriptionCell(t: Team): (cell: string)
    ensures cell != ""
    ensures t.description != "" ==> cell == t.description
  {
    if t.description != "" then t.description else "—"
  }
}
