/**
 * The login endpoint and the user administration endpoints: the credential
 * checks, the users list with its search and admin filter, and the checks
 * before a user is created, changed or deleted.
 */
module AuthRoutes {
  import opened Wrappers
  import opened Text
  import opened Sql
  import opened Pagination
  import opened Listing
  import opened Exceptions
  import opened Store

  // ---------------------------------------------------------------------------
  // Login

  const Unauthorized: int := 401
  const BadCredentials: string := "Неверные учетные данные"

  /** `UserResponse`: a user's row without its password hash. */
  datatype UserView = UserView(id: int, email: string, fullName: string, isAdmin: bool, isActive: bool)

  function Public(u: UserRow): (v: UserView)
    ensures v.id == u.id && v.email == u.email && v.fullName == u.fullName
    ensures v.isAdmin == u.isAdmin && v.isActive == u.isActive
  {
    UserView(u.id, u.email, u.fullName, u.isAdmin, u.isActive)
  }

  datatype LoginReply = LoginReply(token: string, user: UserView)

  /**
   * `login`: the active user with that email, whose hash the password matches,
   * gets a token for their id and email; an unknown email and a wrong password
   * both raise the same 401. Checking the hash and issuing the token are the
   * two parameters.
   */
  function Login(db: Db, email: string, password: string,
                 verify: (string, string) -> bool, issue: (int, string) -> string): (d: Decision<LoginReply>)
    ensures d.Proceed? <==> email in db.activeByEmail && verify(password, db.activeByEmail[email].passwordHash)
    ensures d.Raise? ==> d.raised == Http(HttpException(Unauthorized, BadCredentials))
    ensures d.Proceed? ==> var u := db.activeByEmail[email];
      d.value.token == issue(u.id, u.email) && d.value.user == Public(u)
  {
    if email !in db.activeByEmail then Raise(Http(HttpException(Unauthorized, BadCredentials)))
    else
      var u := db.activeByEmail[email];
      if !verify(password, u.passwordHash) then Raise(Http(HttpException(Unauthorized, BadCredentials)))
      else Proceed(LoginReply(issue(u.id, u.email), Public(u)))
  }

  /**
   * A failed login does not tell the caller why: any two failures, for any
   * emails and passwords, get the same response.
   */
  lemma LoginFailuresAlike(db: Db, e1: string, p1: string, e2: string, p2: string,
                           verify: (string, string) -> bool, issue: (int, string) -> string)
    requires Login(db, e1, p1, verify, issue).Raise? && Login(db, e2, p2, verify, issue).Raise?
    ensures Respond(Login(db, e1, p1, verify, issue).raised) == Respond(Login(db, e2, p2, verify, issue).raised)
    ensures StatusOf(Login(db, e1, p1, verify, issue)) == 401
  {
  }

  /** In a consistent database, whoever signs in is a stored, active user with the email typed. */
  lemma SignedInUserIsStored(db: Db, email: string, password: string,
                             verify: (string, string) -> bool, issue: (int, string) -> string)
    requires Store.Consistent(db)
    requires Login(db, email, password, verify, issue).Proceed?
    ensures var user := Login(db, email, password, verify, issue).value.user;
      user.id in db.users && user == Public(db.users[user.id]) && user.email == email && user.isActive
  {
    var u := db.activeByEmail[email];
    assert u.id in db.users && db.users[u.id] == u;
  }

  // ---------------------------------------------------------------------------
  // The users list

  const UserSortColumns: map<string, string> :=
    map["id" := "u.id", "email" := "u.email", "full_name" := "u.full_name", "created_at" := "u.created_at"]
  const UserSearchColumns: seq<string> := ["u.email", "u.full_name"]
  const UserTable: string := "users u"
  const UserSelect: string :=
    "SELECT u.id, u.email, u.full_name, u.is_admin, u.is_active, u.created_at, u.updated_at FROM users u"

  /** The filters of a users request, in the order they are added: the search, then `is_admin`. */
  function UserFilters(q: Option<string>, isAdmin: Option<bool>): seq<Filter>
  {
    (if NonEmpty(q) then [AnyLike(UserSearchColumns, Pattern(q.value))] else []) +
    (if isAdmin.Some? then [Equals("u.is_admin", PBool(isAdmin.value))] else [])
  }

  /** The filters of a users request, one stage per filter the handler checks. */
  lemma UserFilterStages(q: Option<string>, isAdmin: Option<bool>)
    ensures NonEmpty(q) ==> UserFilters(q, None) == [AnyLike(UserSearchColumns, Pattern(q.value))]
    ensures !NonEmpty(q) ==> UserFilters(q, None) == []
    ensures isAdmin.Some? ==> UserFilters(q, isAdmin) == UserFilters(q, None) + [Equals("u.is_admin", PBool(isAdmin.value))]
    ensures isAdmin.None? ==> UserFilters(q, isAdmin) == UserFilters(q, None)
  {
    var a := if NonEmpty(q) then [AnyLike(UserSearchColumns, Pattern(q.value))] else [];
    assert UserFilters(q, None) == a + [] == a;
  }

  /**
   * The WHERE clause of `list_users`, counting placeholders in `param_count`
   * as it goes: `$1..$n` for the `n` arguments, and `TRUE` exactly when there
   * is neither a search nor an `is_admin` filter; `is_admin=false` is a filter.
   */
  method UserWhere(q: Option<string>, isAdmin: Option<bool>) returns (clause: Fragment, params: seq<SqlParam>)
    ensures clause == WhereClause(Conditions(UserFilters(q, isAdmin), 1))
    ensures params == Params(UserFilters(q, isAdmin))
    ensures Numbered(Query(clause, params))
    ensures clause == [Lit("TRUE")] <==> !NonEmpty(q) && isAdmin.None?
    ensures isAdmin.Some? ==> |params| > 0 && params[|params| - 1] == PBool(isAdmin.value)
  {
    var conditions: seq<Fragment> := [];
    params := [];
    var paramCount: nat := 0;
    ghost var fs: seq<Filter> := [];
    BuiltEmpty();
    UserFilterStages(q, isAdmin);
    if NonEmpty(q) {
      var search := AnyLike(UserSearchColumns, Pattern(q.value));
      TwoPatterns(UserSearchColumns, Pattern(q.value));
      paramCount := paramCount + 2;
      conditions, params := AddCondition(fs, search, paramCount - 1, conditions, params);
      fs := fs + [search];
    }
    assert fs == UserFilters(q, None);
    if isAdmin.Some? {
      var admin := Equals("u.is_admin", PBool(isAdmin.value));
      paramCount := paramCount + 1;
      conditions, params := AddCondition(fs, admin, paramCount, conditions, params);
      fs := fs + [admin];
    }
    assert fs == UserFilters(q, isAdmin);
    clause := if |conditions| > 0 then JoinSql(" AND ", conditions) else [Lit("TRUE")];
    Finish(fs, conditions, params);
  }

  /**
   * `list_users`: the count and page statements, both numbered, the page size
   * and offset bound last, and the reply of the rows the page query returned.
   */
  method ListUsers<Row>(p: PaginationParams, s: SortParams, q: Option<string>, isAdmin: Option<bool>,
                        countRow: Option<int>, rows: seq<Row>)
    returns (count: Query, data: Query, reply: PaginatedResponse<Row>)
    ensures Numbered(count) && Numbered(data)
    ensures count.args == Params(UserFilters(q, isAdmin))
    ensures data.args == count.args + [PInt(p.pageSize), PInt(p.offset)]
    ensures reply.sortBy in UserSortColumns && reply.sortOrder == s.sortOrder
    ensures s.sortBy in UserSortColumns ==> reply.sortBy == s.sortBy
    ensures s.sortBy !in UserSortColumns ==> reply.sortBy == DefaultSortBy
    ensures data == DataQuery(UserSelect, WhereClause(Conditions(UserFilters(q, isAdmin), 1)),
                              UserSortColumns[reply.sortBy], ToUpper(s.sortOrder), count.args, p.pageSize, p.offset)
    ensures reply.items == rows && reply.total == CountOf(countRow) && reply.page == p.page
    ensures reply.pageSize == p.pageSize && reply.totalPages == TotalPages(CountOf(countRow), p.pageSize)
  {
    var sort := RestrictSort(s, UserSortColumns);
    var column := UserSortColumns[sort.sortBy];
    var clause, params := UserWhere(q, isAdmin);
    count := CountQuery(UserTable, clause, params);
    data := DataQuery(UserSelect, clause, column, ToUpper(sort.sortOrder), params, p.pageSize, p.offset);
    FilteredStatementsNumbered(UserTable, UserSelect, UserFilters(q, isAdmin), column, ToUpper(sort.sortOrder),
                               p.pageSize, p.offset);
    reply := Paginate(rows, CountOf(countRow), p, sort);
  }

  // ---------------------------------------------------------------------------
  // User administration

  function UserMissing(id: int): string
  {
    IdMessage("Пользователь с id=", id, " не найден")
  }

  const EmailTaken: string := "Пользователь с таким email уже существует"
  const EmailUsedByOther: string := "Email уже используется другим пользователем"
  const SelfDeletion: string := "Нельзя удалить свой собственный аккаунт"

  /** `get_user`: the user's public row, or 404 naming the id. */
  function GetUser(db: Db, id: int): (d: Decision<UserView>)
    ensures d.Proceed? <==> id in db.users
    ensures d.Proceed? ==> d.value == Public(db.users[id])
    ensures d.Raise? ==> d == NotFoundRaise(UserMissing(id))
  {
    if id in db.users then Proceed(Public(db.users[id])) else NotFoundRaise(UserMissing(id))
  }

  /** `create_user`: refused with a validation error when an active user already has the email. */
  function CreateUser(db: Db, email: string): (d: Decision<()>)
    ensures d.Proceed? <==> email !in db.activeByEmail
    ensures d.Raise? ==> d == ValidationRaise(EmailTaken)
  {
    if email in db.activeByEmail then ValidationRaise(EmailTaken) else Proceed(())
  }

  /**
   * `update_user`: the user must exist (404) before the email is looked at;
   * the email may stay the user's own but not be another active user's (400).
   */
  function UpdateUser(db: Db, userId: int, email: string): (d: Decision<()>)
    ensures d.Proceed? <==> userId in db.users && (email !in db.activeByEmail || db.activeByEmail[email].id == userId)
    ensures userId !in db.users ==> d == NotFoundRaise(UserMissing(userId))
    ensures userId in db.users && d.Raise? ==> d == ValidationRaise(EmailUsedByOther)
  {
    if userId !in db.users then NotFoundRaise(UserMissing(userId))
    else if email in db.activeByEmail && db.activeByEmail[email].id != userId then ValidationRaise(EmailUsedByOther)
    else Proceed(())
  }

  /** `delete_user`: deleting oneself is refused (400) before the user is even looked up. */
  function DeleteUser(db: Db, currentId: int, userId: int): (d: Decision<()>)
    ensures d.Proceed? <==> currentId != userId && userId in db.users
    ensures currentId == userId ==> d == ValidationRaise(SelfDeletion)
    ensures currentId != userId && d.Raise? ==> d == NotFoundRaise(UserMissing(userId))
  {
    if currentId == userId then ValidationRaise(SelfDeletion)
    else if userId !in db.users then NotFoundRaise(UserMissing(userId))
    else Proceed(())
  }

  /** The statuses the user checks answer with, and what each one means. */
  lemma UserCheckStatuses(db: Db, currentId: int, userId: int, email: string)
    ensures StatusOf(GetUser(db, userId)) == 404 <==> userId !in db.users
    ensures StatusOf(CreateUser(db, email)) == 400 <==> email in db.activeByEmail
    ensures StatusOf(UpdateUser(db, userId, email)) == 404 <==> userId !in db.users
    ensures StatusOf(UpdateUser(db, userId, email)) == 400 <==>
      userId in db.users && email in db.activeByEmail && db.activeByEmail[email].id != userId
    ensures StatusOf(DeleteUser(db, currentId, userId)) == 400 <==> currentId == userId
    ensures StatusOf(DeleteUser(db, currentId, userId)) == 404 <==> currentId != userId && userId !in db.users
  {
  }

  /** The not-found message names the missing user: two of them differ for two ids. */
  lemma UserMissingNamesId(a: int, b: int)
    requires UserMissing(a) == UserMissing(b)
    ensures a == b
  {
    IdMessageInjective("Пользователь с id=", a, b, " не найден");
  }
}
