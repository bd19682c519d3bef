/**
 * The users screen: its list query and request, the create and edit forms
 * with their schemas, the create/edit/delete handlers, the filter bar and the
 * table's display rules. The role filter is part of the screen's state, and
 * so re-runs the reload effect, but `load` never sends it.
 */
module Users {
  import opened Wrappers
  import opened Text
  import opened Query
  import opened Api
  import opened ListControl
  import opened Forms

  // ---------------------------------------------------------------------------
  // The list query

  datatype UserSort = ByEmail | ByFullName | ByCreatedAt

  function SortKey(s: UserSort): string
  {
    match s
    case ByEmail => "email"
    case ByFullName => "full_name"
    case ByCreatedAt => "created_at"
  }

  /** The search text and the role select's value (`"all"`, `"admin"` or `"user"`). */
  datatype UserFilters = UserFilters(q: string, role: string)

  const NoFilters: UserFilters := UserFilters("", "all")

  /** The parameters `load` passes to `listUsers`: no role among them. */
  function ListParamsOf(query: ListQuery<UserSort, UserFilters>): UserListParams
  {
    UserListParams(
      Num(query.page), Num(query.pageSize), Str(SortKey(query.sortBy)), Str(SortOrderName(query.sortOrder)),
      OrUndefined(query.filters.q), Undefined)
  }

  /** The path `load` requests for a query. */
  function RequestOf(query: ListQuery<UserSort, UserFilters>): string
  {
    CallOf(ListUsers(ListParamsOf(query))).path
  }

  /** The query-string entries a query sends, in order. */
  function SentPairs(query: ListQuery<UserSort, UserFilters>): seq<(string, string)>
  {
    [("page", IntToString(query.page)), ("page_size", IntToString(query.pageSize)),
     ("sort_by", SortKey(query.sortBy)), ("sort_order", SortOrderName(query.sortOrder))] +
    (if query.filters.q != "" then [("q", query.filters.q)] else [])
  }

  lemma SentPairsSurvive(query: ListQuery<UserSort, UserFilters>)
    ensures Survivors(UserListEntries(ListParamsOf(query))) == SentPairs(query)
  {
    var e := UserListEntries(ListParamsOf(query));
    FourKept(e[0], e[1], e[2], e[3], e[4..]);
    assert e == [e[0], e[1], e[2], e[3]] + e[4..];
    SurvivorsFrom(e, 5);
    assert e[6..] == [];
    SurvivorsFrom(e, 4);
    assert Survivors(e[4..]) == (if query.filters.q != "" then [("q", query.filters.q)] else []);
  }


  /**
   * The list request carries page, size and sort always and the search text
   * when non-empty; the role never reaches it, so two queries that differ only
   * in the role send the same request.
   */
  lemma LoadRequest(query: ListQuery<UserSort, UserFilters>, role: string)
    ensures RequestOf(query) == "/users" + QueryString(UserListEntries(ListParamsOf(query)))
    ensures Survivors(UserListEntries(ListParamsOf(query))) == SentPairs(query)
    ensures RequestOf(query.(filters := query.filters.(role := role))) == RequestOf(query)
  {
    SentPairsSurvive(query);
  }

  /** `useUsers()` on mount: newest first, no search, every role. */
  method NewController() returns (c: ListController<User, UserSort, UserFilters>)
    ensures fresh(c) && c.Valid()
    ensures c.Query() == ListQuery(1, InitialPageSize, ByCreatedAt, Desc, NoFilters)
    ensures c.View() == ListView([], 0, 1) && !c.loading
    ensures c.DialogState() == Dialogs(false, false, None, None)
    ensures c.effectQuery == None && c.sent == []
    ensures c.requestOf == RequestOf && forall u: User :: c.idOf(u) == u.id
  {
    c := new ListController(ByCreatedAt, NoFilters, RequestOf, (u: User) => u.id);
  }

  /**
   * Choosing another role on page 1 re-runs the reload effect, which sends the
   * very request it sent before: the role select changes nothing on the server side.
   */
  method ChooseRoleThenRender(c: ListController<User, UserSort, UserFilters>, v: string,
                              settled: Outcome<PageReply<User>>)
    returns (loaded: bool)
    requires c.Valid() && c.requestOf == RequestOf
    requires c.page == 1 && c.effectQuery == Some(c.Query()) && v != c.filters.role
    modifies c`page, c`filters, c`items, c`total, c`totalPages, c`loading, c`sent, c`effectQuery
    ensures loaded
    ensures |c.sent| == |old(c.sent)| + 1 && c.sent[|c.sent| - 1] == RequestOf(old(c.Query()))
    ensures c.filters == old(c.filters).(role := v)
  {
    OnRoleChange(c, v);
    LoadRequest(old(c.Query()), v);
    assert c.Query() == old(c.Query()).(filters := old(c.Query()).filters.(role := v));
    loaded := c.Render(settled);
  }

  // ---------------------------------------------------------------------------
  // The forms

  datatype CreateValues = CreateValues(email: string, password: string, fullName: string, isAdmin: bool, isActive: bool)
  datatype EditValues = EditValues(email: string, fullName: string, isAdmin: bool, isActive: bool)

  const CreateDefaults: CreateValues := CreateValues("", "", "", false, true)
  const EditDefaults: EditValues := EditValues("", "", false, true)

  /** The create schema's issues, in field order; `isEmail` is the email grammar. */
  function CreateIssues(v: CreateValues, isEmail: string -> bool): seq<Issue>
  {
    (if !isEmail(v.email) then [Issue("email", "Неверный формат email")] else []) +
    (if Utf16Length(v.password) < 6 then [Issue("password", "Минимум 6 символов")] else []) +
    (if |v.fullName| < 1 then [Issue("full_name", "Имя обязательно")] else [])
  }

  /** The edit schema's issues: the create schema's without the password. */
  function EditIssues(v: EditValues, isEmail: string -> bool): seq<Issue>
  {
    (if !isEmail(v.email) then [Issue("email", "Неверный формат email")] else []) +
    (if |v.fullName| < 1 then [Issue("full_name", "Имя обязательно")] else [])
  }

  /** The fields the edit form shares with the create form. */
  function Shared(v: CreateValues): EditValues
  {
    EditValues(v.email, v.fullName, v.isAdmin, v.isActive)
  }

  /**
   * Create passes exactly when the email is well formed, the password is at
   * least six UTF-16 code units long (zod's `min` reads `length`) and a name
   * is given; edit is the same check without
   * the password, so a valid create form is a valid edit form.
   */
  lemma SchemasAgree(v: CreateValues, isEmail: string -> bool)
    ensures CreateIssues(v, isEmail) == [] <==> isEmail(v.email) && Utf16Length(v.password) >= 6 && v.fullName != ""
    ensures EditIssues(Shared(v), isEmail) == [] <==> isEmail(v.email) && v.fullName != ""
    ensures CreateIssues(v, isEmail) == [] ==> EditIssues(Shared(v), isEmail) == []
    ensures (Issue("password", "Минимум 6 символов") in CreateIssues(v, isEmail)) <==> Utf16Length(v.password) < 6
  {
  }

  /**
   * An emoji counts twice towards the bound: `"😀abcd"` is five characters but
   * six code units, so the create schema accepts it as a password.
   */
  lemma EmojiPasswordLongEnough(email: string, fullName: string, isEmail: string -> bool)
    ensures Issue("password", "Минимум 6 символов") !in
      CreateIssues(CreateValues(email, "\U{1F600}abcd", fullName, false, true), isEmail)
  {
    Utf16LengthOfEmoji();
    SchemasAgree(CreateValues(email, "\U{1F600}abcd", fullName, false, true), isEmail);
  }

  function CreatePayloadOf(v: CreateValues): CreateUserPayload
  {
    CreateUserPayload(v.email, v.password, v.fullName, v.isAdmin, v.isActive)
  }

  function UpdatePayloadOf(v: EditValues): UpdateUserPayload
  {
    UpdateUserPayload(v.email, v.fullName, v.isAdmin, v.isActive)
  }

  /** The values `onOpenEdit` loads for a user. */
  function EditValuesOf(u: User): EditValues
  {
    EditValues(u.email, u.fullName, u.isAdmin, u.isActive)
  }

  /** Saving the edit form unchanged sends the user's own editable fields back. */
  lemma UnchangedEditResends(u: User)
    ensures UpdatePayloadOf(EditValuesOf(u)) == UpdateUserPayload(u.email, u.fullName, u.isAdmin, u.isActive)
  {
  }

  /** A new user is a non-admin, active user unless the form says otherwise. */
  lemma DefaultsAreActiveNonAdmin(isEmail: string -> bool)
    ensures !CreateDefaults.isAdmin && CreateDefaults.isActive && Shared(CreateDefaults) == EditDefaults
    ensures |CreateIssues(CreateDefaults, isEmail)| >= 2
  {
  }

  // ---------------------------------------------------------------------------
  // Handlers

  method OnOpenCreate(c: ListController<User, UserSort, UserFilters>, form: FormState<CreateValues>)
    modifies c`createOpen, form
    ensures form.values == CreateDefaults && c.createOpen
  {
    form.Reset(CreateDefaults);
    c.SetCreateOpen(true);
  }

  /** `onSubmitCreate`: the values go to `createUser` as they are. */
  method OnSubmitCreate(c: ListController<User, UserSort, UserFilters>, values: CreateValues,
                        created: Outcome<User>, reload: Outcome<PageReply<User>>)
    returns (call: Call, result: Outcome<()>)
    modifies c`createOpen, c`items, c`total, c`totalPages, c`loading, c`sent
    ensures call == CallOf(CreateUser(CreatePayloadOf(values)))
    ensures created.Fail? ==>
      result == Fail(created.error) && c.createOpen == old(c.createOpen) && c.View() == old(c.View()) &&
      c.loading == old(c.loading) && c.sent == old(c.sent)
    ensures created.Ok? ==>
      !c.createOpen && c.sent == old(c.sent) + [c.requestOf(c.Query())] &&
      c.View() == AfterLoad(old(c.View()), reload) && !c.loading &&
      result == (if reload.Ok? then Ok(()) else Fail(reload.error))
  {
    call := CallOf(CreateUser(CreatePayloadOf(values)));
    result := c.AfterCreate(created, reload);
  }

  method OnOpenEdit(c: ListController<User, UserSort, UserFilters>, form: FormState<EditValues>, u: User)
    modifies c`editing, c`editOpen, form
    ensures form.values == EditValuesOf(u) && c.editing == Some(u) && c.editOpen
  {
    c.OpenEdit(u);
    form.Reset(EditValuesOf(u));
  }

  /** `onSubmitEdit`: without an edited user nothing is sent. */
  method OnSubmitEdit(c: ListController<User, UserSort, UserFilters>, values: EditValues,
                      updated: Outcome<User>, reload: Outcome<PageReply<User>>)
    returns (call: Option<Call>, result: Outcome<()>)
    requires forall u: User :: c.idOf(u) == u.id
    modifies c`editOpen, c`editing, c`items, c`total, c`totalPages, c`loading, c`sent
    ensures old(c.editing).None? ==>
      call == None && result == Ok(()) && c.editOpen == old(c.editOpen) && c.editing == None &&
      c.View() == old(c.View()) && c.sent == old(c.sent)
    ensures old(c.editing).Some? ==> call == Some(CallOf(UpdateUser(old(c.editing).value.id, UpdatePayloadOf(values))))
    ensures old(c.editing).Some? && updated.Fail? ==>
      result == Fail(updated.error) && c.editOpen == old(c.editOpen) && c.editing == old(c.editing) &&
      c.View() == old(c.View()) && c.loading == old(c.loading) && c.sent == old(c.sent)
    ensures old(c.editing).Some? && updated.Ok? ==>
      !c.editOpen && c.editing == None && c.sent == old(c.sent) + [c.requestOf(c.Query())] &&
      c.View() == AfterLoad(old(c.View()), reload) && !c.loading &&
      result == (if reload.Ok? then Ok(()) else Fail(reload.error))
  {
    var target;
    target, result := c.SubmitEdit(updated, reload);
    call := if target.Some? then Some(CallOf(UpdateUser(target.value, UpdatePayloadOf(values)))) else None;
  }

  /** `onConfirmDelete`: a falsy `deleteId` sends nothing. */
  method OnConfirmDelete(c: ListController<User, UserSort, UserFilters>, deleted: Outcome<()>,
                         reload: Outcome<PageReply<User>>)
    returns (call: Option<Call>, result: Outcome<()>)
    modifies c`deleteId, c`items, c`total, c`totalPages, c`loading, c`sent
    ensures !(old(c.deleteId).Some? && old(c.deleteId).value != 0) ==>
      call == None && result == Ok(()) && c.deleteId == old(c.deleteId) && c.View() == old(c.View()) &&
      c.sent == old(c.sent)
    ensures old(c.deleteId).Some? && old(c.deleteId).value != 0 ==>
      call == Some(CallOf(DeleteUser(old(c.deleteId).value)))
    ensures old(c.deleteId).Some? && old(c.deleteId).value != 0 && deleted.Fail? ==>
      result == Fail(deleted.error) && c.deleteId == old(c.deleteId) && c.View() == old(c.View()) &&
      c.sent == old(c.sent)
    ensures old(c.deleteId).Some? && old(c.deleteId).value != 0 && deleted.Ok? ==>
      c.deleteId == None && c.sent == old(c.sent) + [c.requestOf(c.Query())] &&
      c.View() == AfterLoad(old(c.View()), reload) && !c.loading &&
      result == (if reload.Ok? then Ok(()) else Fail(reload.error))
  {
    var target;
    target, result := c.ConfirmDelete(deleted, reload);
    call := if target.Some? then Some(CallOf(DeleteUser(target.value))) else None;
  }

  // ---------------------------------------------------------------------------
  // The filter bar

  const RoleOptions: seq<string> := ["all", "admin", "user"]

  method OnSearchChange(c: ListController<User, UserSort, UserFilters>, v: string)
    requires c.Valid()
    modifies c`page, c`filters
    ensures c.Valid() && c.page == 1 && c.filters == old(c.filters).(q := v)
  {
    c.ChangeFilters(c.filters.(q := v));
  }

  /** The role select stores its option as is, `"all"` included. */
  method OnRoleChange(c: ListController<User, UserSort, UserFilters>, v: string)
    requires c.Valid()
    modifies c`page, c`filters
    ensures c.Valid() && c.page == 1 && c.filters == old(c.filters).(role := v)
  {
    c.ChangeFilters(c.filters.(role := v));
  }

  /** The page-size select; `v` is one of its rendered options. */
  method OnPageSizeChange(c: ListController<User, UserSort, UserFilters>, v: string)
    requires c.Valid() && v in PageSizeOptions()
    modifies c`page, c`pageSize
    ensures c.Valid() && c.page == 1 && IntToString(c.pageSize) == v && c.pageSize in PageSizes
  {
    c.ChoosePageSize(v);
  }

  // ---------------------------------------------------------------------------
  // The table

  /** The name cell: the full name, or "—" when it is empty. */
  function NameCell(u: User): (cell: string)
    ensures cell != ""
    ensures u.fullName != "" ==> cell == u.fullName
  {
    if u.fullName != "" then u.fullName else "—"
  }

  /** The role badge: "Админ" in the default colour for admins, "Пользователь" in secondary otherwise. */
  function RoleBadge(u: User): (Badge, string)
  {
    if u.isAdmin then (DefaultBadge, "Админ") else (Secondary, "Пользователь")
  }

  /** The status badge: "Активен" for active users, a destructive "Неактивен" otherwise. */
  function StatusBadge(u: User): (Badge, string)
  {
    if u.isActive then (DefaultBadge, "Активен") else (Destructive, "Неактивен")
  }

  /** Each badge tells its flag apart: the two values of a flag never share a badge. */
  lemma BadgesDistinguishFlags(u: User, w: User)
    ensures RoleBadge(u) == RoleBadge(w) <==> u.isAdmin == w.isAdmin
    ensures StatusBadge(u) == StatusBadge(w) <==> u.isActive == w.isActive
    ensures StatusBadge(u).0 == Destructive <==> !u.isActive
  {
  }
}
