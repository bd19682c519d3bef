/**
 * The technologies endpoints: categories and statuses with their uniqueness
 * checks, the technologies list with its three filters, the category and
 * status checks of a write, and the reshaping of the written row.
 */
module TechnologyRoutes {
  import opened Wrappers
  import opened Text
  import opened Json
  import opened Sql
  import opened Pagination
  import opened Listing
  import opened Exceptions
  import opened Store

  // ---------------------------------------------------------------------------
  // Categories and statuses

  function CategoryTaken(name: string): string
  {
    "Категория с именем \"" + name + "\" уже существует"
  }

  function StatusTaken(name: string): string
  {
    "Статус \"" + name + "\" уже существует"
  }

  const StatusCreated: string := "Статус создан"

  /** `create_technology_category`: 409 when a category of that name exists. */
  function CreateCategory(db: Db, name: string): (d: Decision<()>)
    ensures d.Proceed? <==> name !in db.categoryNames
    ensures d.Raise? ==> d == ConflictRaise(CategoryTaken(name))
  {
    if name in db.categoryNames then ConflictRaise(CategoryTaken(name)) else Proceed(())
  }

  /** `create_technology_status`: 409 when the status exists, else the fixed success message. */
  function CreateStatus(db: Db, name: string): (d: Decision<string>)
    ensures d.Proceed? <==> name !in db.statuses
    ensures d.Proceed? ==> d.value == StatusCreated
    ensures d.Raise? ==> d == ConflictRaise(StatusTaken(name))
  {
    if name in db.statuses then ConflictRaise(StatusTaken(name)) else Proceed(StatusCreated)
  }

  // ---------------------------------------------------------------------------
  // The technologies list

  const TechnologySortColumns: map<string, string> :=
    map["name" := "t.name", "status" := "ts.name", "created_at" := "t.created_at"]
  const TechnologySearchColumns: seq<string> := ["t.name", "t.description"]
  const TechnologyTables: string := "technologies t JOIN technology_statuses ts ON t.status_id = ts.id"
  const TechnologySelect: string :=
    "SELECT t.id, t.name, t.category_id, t.description, t.official_website, ts.name as status, " +
    "t.created_at, t.updated_at FROM technologies t JOIN technology_statuses ts ON t.status_id = ts.id"

  /** The filters of a technologies request, in order: search, status name, category. */
  function TechnologyFilters(q: Option<string>, status: Option<string>, categoryId: Option<int>): seq<Filter>
  {
    (if NonEmpty(q) then [AnyLike(TechnologySearchColumns, Pattern(q.value))] else []) +
    (if NonEmpty(status) then [Equals("ts.name", PText(status.value))] else []) +
    (if NonZero(categoryId) then [Equals("t.category_id", PInt(categoryId.value))] else [])
  }

  /** The filters of a technologies request, one stage per filter the handler checks. */
  lemma TechnologyFilterStages(q: Option<string>, status: Option<string>, categoryId: Option<int>)
    ensures NonEmpty(q) ==> TechnologyFilters(q, None, None) == [AnyLike(TechnologySearchColumns, Pattern(q.value))]
    ensures !NonEmpty(q) ==> TechnologyFilters(q, None, None) == []
    ensures NonEmpty(status) ==>
      TechnologyFilters(q, status, None) == TechnologyFilters(q, None, None) + [Equals("ts.name", PText(status.value))]
    ensures !NonEmpty(status) ==> TechnologyFilters(q, status, None) == TechnologyFilters(q, None, None)
    ensures NonZero(categoryId) ==>
      TechnologyFilters(q, status, categoryId) == TechnologyFilters(q, status, None) + [Equals("t.category_id", PInt(categoryId.value))]
    ensures !NonZero(categoryId) ==> TechnologyFilters(q, status, categoryId) == TechnologyFilters(q, status, None)
  {
    var a := if NonEmpty(q) then [AnyLike(TechnologySearchColumns, Pattern(q.value))] else [];
    var b := if NonEmpty(status) then [Equals("ts.name", PText(status.value))] else [];
    assert TechnologyFilters(q, None, None) == a + [] + [] == a;
    assert TechnologyFilters(q, status, None) == a + b + [] == a + b;
  }

  /**
   * The WHERE clause of `list_technologies`: an empty search, an empty status
   * and a category of 0 add nothing; the rest take `$1..$n` in order.
   */
  method TechnologyWhere(q: Option<string>, status: Option<string>, categoryId: Option<int>)
    returns (clause: Fragment, params: seq<SqlParam>)
    ensures clause == WhereClause(Conditions(TechnologyFilters(q, status, categoryId), 1))
    ensures params == Params(TechnologyFilters(q, status, categoryId))
    ensures Numbered(Query(clause, params))
    ensures clause == [Lit("TRUE")] <==> !NonEmpty(q) && !NonEmpty(status) && !NonZero(categoryId)
  {
    var conditions: seq<Fragment> := [];
    params := [];
    var paramCount: nat := 0;
    ghost var fs: seq<Filter> := [];
    BuiltEmpty();
    TechnologyFilterStages(q, status, categoryId);
    if NonEmpty(q) {
      var search := AnyLike(TechnologySearchColumns, Pattern(q.value));
      TwoPatterns(TechnologySearchColumns, Pattern(q.value));
      paramCount := paramCount + 2;
      conditions, params := AddCondition(fs, search, paramCount - 1, conditions, params);
      fs := fs + [search];
    }
    assert fs == TechnologyFilters(q, None, None);
    if NonEmpty(status) {
      var byStatus := Equals("ts.name", PText(status.value));
      paramCount := paramCount + 1;
      conditions, params := AddCondition(fs, byStatus, paramCount, conditions, params);
      fs := fs + [byStatus];
    }
    assert fs == TechnologyFilters(q, status, None);
    if NonZero(categoryId) {
      var byCategory := Equals("t.category_id", PInt(categoryId.value));
      paramCount := paramCount + 1;
      conditions, params := AddCondition(fs, byCategory, paramCount, conditions, params);
      fs := fs + [byCategory];
    }
    assert fs == TechnologyFilters(q, status, categoryId);
    clause := if |conditions| > 0 then JoinSql(" AND ", conditions) else [Lit("TRUE")];
    Finish(fs, conditions, params);
  }

  /** `list_technologies`: both statements numbered, and the reply of the page's rows. */
  method ListTechnologies<Row>(p: PaginationParams, s: SortParams, q: Option<string>, status: Option<string>,
                               categoryId: Option<int>, countRow: Option<int>, rows: seq<Row>)
    returns (count: Query, data: Query, reply: PaginatedResponse<Row>)
    ensures Numbered(count) && Numbered(data)
    ensures count.args == Params(TechnologyFilters(q, status, categoryId))
    ensures data.args == count.args + [PInt(p.pageSize), PInt(p.offset)]
    ensures reply.sortBy in TechnologySortColumns && reply.sortOrder == s.sortOrder
    ensures s.sortBy in TechnologySortColumns ==> reply.sortBy == s.sortBy
    ensures s.sortBy !in TechnologySortColumns ==> reply.sortBy == DefaultSortBy
    ensures data == DataQuery(TechnologySelect, WhereClause(Conditions(TechnologyFilters(q, status, categoryId), 1)),
                              TechnologySortColumns[reply.sortBy], ToUpper(s.sortOrder), count.args,
                              p.pageSize, p.offset)
    ensures reply.items == rows && reply.total == CountOf(countRow) && reply.page == p.page
    ensures reply.pageSize == p.pageSize && reply.totalPages == TotalPages(CountOf(countRow), p.pageSize)
  {
    var sort := RestrictSort(s, TechnologySortColumns);
    var column := TechnologySortColumns[sort.sortBy];
    var clause, params := TechnologyWhere(q, status, categoryId);
    count := CountQuery(TechnologyTables, clause, params);
    data := DataQuery(TechnologySelect, clause, column, ToUpper(sort.sortOrder), params, p.pageSize, p.offset);
    FilteredStatementsNumbered(TechnologyTables, TechnologySelect, TechnologyFilters(q, status, categoryId),
                               column, ToUpper(sort.sortOrder), p.pageSize, p.offset);
    reply := Paginate(rows, CountOf(countRow), p, sort);
  }

  // ---------------------------------------------------------------------------
  // Technologies

  function TechnologyMissing(id: int): string
  {
    IdMessage("Технология с id=", id, " не найдена")
  }

  function CategoryMissing(id: int): string
  {
    IdMessage("Категория с id=", id, " не найдена")
  }

  function StatusMissing(name: string): string
  {
    "Статус \"" + name + "\" не найден"
  }

  /** The two checks of a write: the category by id, then the status by name, whose id is kept. */
  function CategoryAndStatus(db: Db, categoryId: int, status: string): (d: Decision<int>)
    ensures d.Proceed? <==> categoryId in db.categories && status in db.statuses
    ensures d.Proceed? ==> d.value == db.statuses[status]
    ensures categoryId !in db.categories ==> d == NotFoundRaise(CategoryMissing(categoryId))
    ensures categoryId in db.categories && status !in db.statuses ==> d == NotFoundRaise(StatusMissing(status))
  {
    if categoryId !in db.categories then NotFoundRaise(CategoryMissing(categoryId))
    else if status !in db.statuses then NotFoundRaise(StatusMissing(status))
    else Proceed(db.statuses[status])
  }

  /** `create_technology`: the category and status checks, giving the status id to store. */
  function CreateTechnology(db: Db, categoryId: int, status: string): (d: Decision<int>)
    ensures d.Proceed? <==> categoryId in db.categories && status in db.statuses
    ensures d == CategoryAndStatus(db, categoryId, status)
  {
    CategoryAndStatus(db, categoryId, status)
  }

  /** `get_technology` and `delete_technology`: 404 naming the id for a missing technology. */
  function FindTechnology(db: Db, id: int): (d: Decision<()>)
    ensures d.Proceed? <==> id in db.technologies
    ensures d.Raise? ==> d == NotFoundRaise(TechnologyMissing(id))
  {
    if id in db.technologies then Proceed(()) else NotFoundRaise(TechnologyMissing(id))
  }

  /** `update_technology`: the technology first, then the category, then the status. */
  function UpdateTechnology(db: Db, id: int, categoryId: int, status: string): (d: Decision<int>)
    ensures d.Proceed? <==> id in db.technologies && categoryId in db.categories && status in db.statuses
    ensures id !in db.technologies ==> d == NotFoundRaise(TechnologyMissing(id))
    ensures id in db.technologies ==> d == CategoryAndStatus(db, categoryId, status)
  {
    if id !in db.technologies then NotFoundRaise(TechnologyMissing(id)) else CategoryAndStatus(db, categoryId, status)
  }

  /**
   * Each failed check of an update has its own message, so the reply names
   * the first one that failed: the technology, the category or the status.
   */
  lemma UpdateTechnologyNamesFirstFailure(db: Db, id: int, categoryId: int, status: string)
    ensures StatusOf(UpdateTechnology(db, id, categoryId, status)) == 404 <==>
      id !in db.technologies || categoryId !in db.categories || status !in db.statuses
    ensures id !in db.technologies ==>
      MessageOf(UpdateTechnology(db, id, categoryId, status)) == Some(TechnologyMissing(id))
    ensures id in db.technologies && categoryId !in db.categories ==>
      MessageOf(UpdateTechnology(db, id, categoryId, status)) == Some(CategoryMissing(categoryId))
    ensures id in db.technologies && categoryId in db.categories && status !in db.statuses ==>
      MessageOf(UpdateTechnology(db, id, categoryId, status)) == Some(StatusMissing(status))
    ensures TechnologyMissing(id) != CategoryMissing(categoryId)
    ensures TechnologyMissing(id) != StatusMissing(status) && CategoryMissing(categoryId) != StatusMissing(status)
  {
    var t := TechnologyMissing(id);
    var c := CategoryMissing(categoryId);
    var s := StatusMissing(status);
    assert t[0] == 'Т' && c[0] == 'К' && s[0] == 'С';
  }

  /**
   * `result["status"] = tech.status; result.pop("status_id")`: the written row
   * with the requested status name in place of its status id. A row without a
   * `status_id` makes `pop` raise, which is `None` here.
   */
  function ShapeResult(result: map<string, Json>, status: string): (r: Option<map<string, Json>>)
    ensures r.None? <==> "status_id" !in result
    ensures r.Some? ==> r.value.Keys == result.Keys - {"status_id"} + {"status"}
    ensures r.Some? ==> r.value["status"] == JStr(status)
    ensures r.Some? ==> forall k :: k in r.value && k != "status" ==> r.value[k] == result[k]
  {
    if "status_id" in result then Some(result["status" := JStr(status)] - {"status_id"}) else None
  }
}
