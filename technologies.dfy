/**
 * The technologies screen: its list query and the request it sends, the
 * technology form with its schema, the create/edit/delete handlers, the
 * catalog of categories and statuses with their quick-create dialogs, the
 * filter bar, and the rules of the technologies table.
 */
module Technologies {
  import opened Wrappers
  import opened Text
  import opened Query
  import opened Api
  import opened ListControl
  import opened Forms
  import opened Json

  // ---------------------------------------------------------------------------
  // The list query

  datatype TechSort = ByName | ByStatus | ByCreatedAt

  function SortKey(s: TechSort): string
  {
    match s
    case ByName => "name"
    case ByStatus => "status"
    case ByCreatedAt => "created_at"
  }

  /** The search text, the status filter (`""` for all) and the category filter. */
  datatype TechFilters = TechFilters(q: string, status: string, category: Option<int>)

  const NoFilters: TechFilters := TechFilters("", "", None)

  /** The parameters `load` passes to `listTechnologies`. */
  function ListParamsOf(query: ListQuery<TechSort, TechFilters>): TechnologyListParams
  {
    TechnologyListParams(
      Num(query.page), Num(query.pageSize), Str(SortKey(query.sortBy)), Str(SortOrderName(query.sortOrder)),
      OrUndefined(query.filters.q), OrUndefined(query.filters.status), OptionalNum(query.filters.category))
  }

  /** The path `load` requests for a query. */
  function RequestOf(query: ListQuery<TechSort, TechFilters>): string
  {
    CallOf(ListTechnologies(ListParamsOf(query))).path
  }

  /** The query-string entries a query sends, in order. */
  function SentPairs(query: ListQuery<TechSort, TechFilters>): seq<(string, string)>
  {
    [("page", IntToString(query.page)), ("page_size", IntToString(query.pageSize)),
     ("sort_by", SortKey(query.sortBy)), ("sort_order", SortOrderName(query.sortOrder))] +
    FilterPairs(query.filters)
  }

  /** The filter entries a query sends: only the non-empty ones. */
  function FilterPairs(f: TechFilters): seq<(string, string)>
  {
    (if f.q != "" then [("q", f.q)] else []) +
    (if f.status != "" then [("status", f.status)] else []) +
    (if f.category.Some? then [("category_id", IntToString(f.category.value))] else [])
  }

  lemma FilterPairsSurvive(query: ListQuery<TechSort, TechFilters>)
    ensures Survivors(TechnologyListEntries(ListParamsOf(query))[4..]) == FilterPairs(query.filters)
  {
    var e := TechnologyListEntries(ListParamsOf(query));
    var f := query.filters;
    SurvivorsFrom(e, 6);
    assert e[7..] == [];
    SurvivorsFrom(e, 5);
    SurvivorsFrom(e, 4);
    AppendAssoc(if f.q != "" then [("q", f.q)] else [], if f.status != "" then [("status", f.status)] else [],
      if f.category.Some? then [("category_id", IntToString(f.category.value))] else []);
  }

  lemma SentPairsSurvive(query: ListQuery<TechSort, TechFilters>)
    ensures Survivors(TechnologyListEntries(ListParamsOf(query))) == SentPairs(query)
  {
    var e := TechnologyListEntries(ListParamsOf(query));
    FourKept(e[0], e[1], e[2], e[3], e[4..]);
    assert e == [e[0], e[1], e[2], e[3]] + e[4..];
    FilterPairsSurvive(query);
  }


  /** With `&`-free text filters nothing in the request needs encoding. */
  lemma EntriesSafe(query: ListQuery<TechSort, TechFilters>)
    requires Lacks(query.filters.q, '&') && Lacks(query.filters.status, '&')
    ensures SafeParams(TechnologyListEntries(ListParamsOf(query)))
  {
    var e := TechnologyListEntries(ListParamsOf(query));
    IntToStringChars(query.page);
    IntToStringChars(query.pageSize);
    forall i | 0 <= i < |e|
      ensures Lacks(e[i].0, '&') && Lacks(e[i].0, '=') && (e[i].1.Str? ==> Lacks(e[i].1.s, '&'))
    {
    }
  }

  /**
   * The list request always carries page, size and sort, carries the search
   * text and the status only when non-empty and the category only when one
   * is chosen; read back, it yields exactly those entries.
   */
  lemma LoadRequest(query: ListQuery<TechSort, TechFilters>)
    ensures RequestOf(query) == "/technologies" + QueryString(TechnologyListEntries(ListParamsOf(query)))
    ensures Survivors(TechnologyListEntries(ListParamsOf(query))) == SentPairs(query)
    ensures Lacks(query.filters.q, '&') && Lacks(query.filters.status, '&') ==>
      ParseQuery(QueryString(TechnologyListEntries(ListParamsOf(query)))) == SentPairs(query)
  {
    var entries := TechnologyListEntries(ListParamsOf(query));
    SentPairsSurvive(query);
    if Lacks(query.filters.q, '&') && Lacks(query.filters.status, '&') {
      EntriesSafe(query);
      QueryRoundTrip(entries);
    }
  }

  /** `useTechnologies()` on mount: newest first, no filters. */
  method NewController() returns (c: ListController<Technology, TechSort, TechFilters>)
    ensures fresh(c) && c.Valid()
    ensures c.Query() == ListQuery(1, InitialPageSize, ByCreatedAt, Desc, NoFilters)
    ensures c.View() == ListView([], 0, 1) && !c.loading
    ensures c.DialogState() == Dialogs(false, false, None, None)
    ensures c.effectQuery == None && c.sent == []
    ensures c.requestOf == RequestOf && forall t: Technology :: c.idOf(t) == t.id
  {
    c := new ListController(ByCreatedAt, NoFilters, RequestOf, (t: Technology) => t.id);
  }

  // ---------------------------------------------------------------------------
  // The technology form

  /** The form's values; the two optional strings may be `undefined`. */
  datatype TechnologyValues = TechnologyValues(
    name: string, categoryId: int, description: Option<string>, officialWebsite: Option<string>, status: string)

  const DefaultValues: TechnologyValues := TechnologyValues("", 1, Some(""), Some(""), "stable")

  /** The schema's issues, in field order: a name, a positive category and a status are required. */
  function TechnologyIssues(v: TechnologyValues): seq<Issue>
  {
    (if |v.name| < 1 then [Issue("name", "Название обязательно")] else []) +
    (if v.categoryId <= 0 then [Issue("category_id", "Категория обязательна")] else []) +
    (if |v.status| < 1 then [Issue("status", "Статус обязателен")] else [])
  }

  predicate PassesSchema(v: TechnologyValues)
  {
    TechnologyIssues(v) == []
  }

  /** A value passes exactly when it has a name, a positive category and a status; each failure is reported once. */
  lemma SchemaIff(v: TechnologyValues)
    ensures PassesSchema(v) <==> v.name != "" && v.categoryId > 0 && v.status != ""
    ensures Issue("name", "Название обязательно") in TechnologyIssues(v) <==> v.name == ""
    ensures Issue("category_id", "Категория обязательна") in TechnologyIssues(v) <==> v.categoryId <= 0
    ensures Issue("status", "Статус обязателен") in TechnologyIssues(v) <==> v.status == ""
    ensures |TechnologyIssues(v)| <= 3
  {
  }

  /** The defaults fail only for the missing name. */
  lemma DefaultsNeedName()
    ensures TechnologyIssues(DefaultValues) == [Issue("name", "Название обязательно")]
  {
  }

  /** The body sent for the form's values: absent optional strings become `""`. */
  function PayloadOf(v: TechnologyValues): (p: TechnologyPayload)
    ensures p.name == v.name && p.categoryId == v.categoryId && p.status == v.status
    ensures p.description == v.description.GetOr("") && p.officialWebsite == v.officialWebsite.GetOr("")
  {
    TechnologyPayload(v.name, v.categoryId, v.description.GetOr(""), v.officialWebsite.GetOr(""), v.status)
  }

  /** The values `onOpenEdit` loads for a technology. */
  function EditValues(t: Technology): TechnologyValues
  {
    TechnologyValues(t.name, t.categoryId, Some(t.description), Some(t.officialWebsite), t.status)
  }

  /** Saving the edit form unchanged sends the technology's own editable fields back. */
  lemma UnchangedEditResends(t: Technology)
    ensures PayloadOf(EditValues(t)) ==
      TechnologyPayload(t.name, t.categoryId, t.description, t.officialWebsite, t.status)
  {
  }

  /** The values `onOpenCreate` loads: the defaults, with the first category's id unless it is missing or 0. */
  function CreateValues(categories: seq<TechnologyCategory>): (v: TechnologyValues)
    ensures v.name == "" && v.description == Some("") && v.officialWebsite == Some("") && v.status == "stable"
    ensures |categories| > 0 && categories[0].id != 0 ==> v.categoryId == categories[0].id
    ensures !(|categories| > 0 && categories[0].id != 0) ==> v.categoryId == 1
  {
    DefaultValues.(categoryId := if |categories| > 0 && categories[0].id != 0 then categories[0].id else 1)
  }

  /** With no categories loaded, the create form starts from the schema defaults. */
  lemma CreateWithoutCategories()
    ensures CreateValues([]) == DefaultValues
  {
  }

  // ---------------------------------------------------------------------------
  // Handlers

  method OnOpenCreate(c: ListController<Technology, TechSort, TechFilters>, form: FormState<TechnologyValues>,
                      categories: seq<TechnologyCategory>)
    modifies c`createOpen, form
    ensures form.values == CreateValues(categories) && c.createOpen
  {
    form.Reset(CreateValues(categories));
    c.SetCreateOpen(true);
  }

  /**
   * `onSubmitCreate`: the create call, then the dialog closes and the list
   * reloads; once the reload has resolved, the usage statistics are asked for
   * again, a rejection of that request being ignored.
   */
  method OnSubmitCreate(c: ListController<Technology, TechSort, TechFilters>, catalog: Catalog, values: TechnologyValues,
                        created: Outcome<Technology>, reload: Outcome<PageReply<Technology>>, usage: Outcome<Json>)
    returns (call: Call, result: Outcome<()>, refreshed: bool)
    modifies c`createOpen, c`items, c`total, c`totalPages, c`loading, c`sent, catalog`stats
    ensures call == CallOf(CreateTechnology(PayloadOf(values)))
    ensures refreshed <==> created.Ok? && reload.Ok?
    ensures catalog.stats == if refreshed && usage.Ok? then usage.value else old(catalog.stats)
    ensures created.Fail? ==>
      result == Fail(created.error) && c.createOpen == old(c.createOpen) && c.View() == old(c.View()) &&
      c.loading == old(c.loading) && c.sent == old(c.sent)
    ensures created.Ok? ==>
      !c.createOpen && c.sent == old(c.sent) + [c.requestOf(c.Query())] &&
      c.View() == AfterLoad(old(c.View()), reload) && !c.loading &&
      result == (if reload.Ok? then Ok(()) else Fail(reload.error))
  {
    call := CallOf(CreateTechnology(PayloadOf(values)));
    result := c.AfterCreate(created, reload);
    refreshed := created.Ok? && reload.Ok?;
    if refreshed {
      catalog.RefreshStats(usage);
    }
  }

  method OnOpenEdit(c: ListController<Technology, TechSort, TechFilters>, form: FormState<TechnologyValues>,
                    t: Technology)
    modifies c`editing, c`editOpen, form
    ensures form.values == EditValues(t) && c.editing == Some(t) && c.editOpen
  {
    c.OpenEdit(t);
    form.Reset(EditValues(t));
  }

  /** `onSubmitEdit`: without an edited technology nothing is sent. */
  method OnSubmitEdit(c: ListController<Technology, TechSort, TechFilters>, values: TechnologyValues,
                      updated: Outcome<Technology>, reload: Outcome<PageReply<Technology>>)
    returns (call: Option<Call>, result: Outcome<()>)
    requires forall t: Technology :: c.idOf(t) == t.id
    modifies c`editOpen, c`editing, c`items, c`total, c`totalPages, c`loading, c`sent
    ensures old(c.editing).None? ==>
      call == None && result == Ok(()) && c.editOpen == old(c.editOpen) && c.editing == None &&
      c.View() == old(c.View()) && c.sent == old(c.sent)
    ensures old(c.editing).Some? ==> call == Some(CallOf(UpdateTechnology(old(c.editing).value.id, PayloadOf(values))))
    ensures old(c.editing).Some? && updated.Fail? ==>
      result == Fail(updated.error) && c.editOpen == old(c.editOpen) && c.editing == old(c.editing) &&
      c.View() == old(c.View()) && c.loading == old(c.loading) && c.sent == old(c.sent)
    ensures old(c.editing).Some? && updated.Ok? ==>
      !c.editOpen && c.editing == None && c.sent == old(c.sent) + [c.requestOf(c.Query())] &&
      c.View() == AfterLoad(old(c.View()), reload) && !c.loading &&
      result == (if reload.Ok? then Ok(()) else Fail(reload.error))
  {
    var target;
    target, result := c.SubmitEdit(updated, reload);
    call := if target.Some? then Some(CallOf(UpdateTechnology(target.value, PayloadOf(values)))) else None;
  }

  /**
   * `onConfirmDelete`: a falsy `deleteId` sends nothing. After a delete and a
   * resolved reload the usage statistics are asked for again, as after a create.
   */
  method OnConfirmDelete(c: ListController<Technology, TechSort, TechFilters>, catalog: Catalog, deleted: Outcome<()>,
                         reload: Outcome<PageReply<Technology>>, usage: Outcome<Json>)
    returns (call: Option<Call>, result: Outcome<()>, refreshed: bool)
    modifies c`deleteId, c`items, c`total, c`totalPages, c`loading, c`sent, catalog`stats
    ensures refreshed <==> old(c.deleteId).Some? && old(c.deleteId).value != 0 && deleted.Ok? && reload.Ok?
    ensures catalog.stats == if refreshed && usage.Ok? then usage.value else old(catalog.stats)
    ensures !(old(c.deleteId).Some? && old(c.deleteId).value != 0) ==>
      call == None && result == Ok(()) && c.deleteId == old(c.deleteId) && c.View() == old(c.View()) &&
      c.sent == old(c.sent)
    ensures old(c.deleteId).Some? && old(c.deleteId).value != 0 ==>
      call == Some(CallOf(DeleteTechnology(old(c.deleteId).value)))
    ensures old(c.deleteId).Some? && old(c.deleteId).value != 0 && deleted.Fail? ==>
      result == Fail(deleted.error) && c.deleteId == old(c.deleteId) && c.View() == old(c.View()) &&
      c.sent == old(c.sent)
    ensures old(c.deleteId).Some? && old(c.deleteId).value != 0 && deleted.Ok? ==>
      c.deleteId == None && c.sent == old(c.sent) + [c.requestOf(c.Query())] &&
      c.View() == AfterLoad(old(c.View()), reload) && !c.loading &&
      result == (if reload.Ok? then Ok(()) else Fail(reload.error))
  {
    var target;
    target, result := c.ConfirmDelete(deleted, reload);
    call := if target.Some? then Some(CallOf(DeleteTechnology(target.value))) else None;
    refreshed := target.Some? && deleted.Ok? && reload.Ok?;
    if refreshed {
      catalog.RefreshStats(usage);
    }
  }

  // ---------------------------------------------------------------------------
  // Categories and statuses

  /** The quick-create category dialog's fields. */
  datatype NewCategory = NewCategory(name: string, description: string, icon: string)

  class Catalog {
    var categories: seq<TechnologyCategory>
    var statuses: seq<string>
    var newCatOpen: bool
    var newStatusOpen: bool
    var newCat: NewCategory
    var newStatus: string
    /** The usage statistics last received, `null` before any. */
    var stats: Json

    constructor()
      ensures categories == [] && statuses == [] && !newCatOpen && !newStatusOpen
      ensures newCat == NewCategory("", "", "") && newStatus == "" && stats == JNull
    {
      stats := JNull;
      categories := [];
      statuses := [];
      newCatOpen := false;
      newStatusOpen := false;
      newCat := NewCategory("", "", "");
      newStatus := "";
    }

    /**
     * The mount effect: each list that resolves is adopted (`?? []`), the usage
     * statistics as they arrive; a rejection is ignored.
     */
    method Mount(cats: Outcome<Option<seq<TechnologyCategory>>>, sts: Outcome<Option<seq<string>>>, usage: Outcome<Json>)
      returns (calls: seq<Call>)
      modifies this`categories, this`statuses, this`stats
      ensures calls == [CallOf(ListTechnologyCategories), CallOf(ListTechnologyStatuses), CallOf(GetTechnologyUsageStats)]
      ensures categories == if cats.Ok? then cats.value.GetOr([]) else old(categories)
      ensures statuses == if sts.Ok? then sts.value.GetOr([]) else old(statuses)
      ensures stats == if usage.Ok? then usage.value else old(stats)
    {
      calls := [CallOf(ListTechnologyCategories), CallOf(ListTechnologyStatuses), CallOf(GetTechnologyUsageStats)];
      RefreshStats(usage);
      if cats.Ok? {
        categories := cats.value.GetOr([]);
      }
      if sts.Ok? {
        statuses := sts.value.GetOr([]);
      }
    }

    /** `api.getTechnologyUsageStats().then(setStats).catch(() => {})`. */
    method RefreshStats(usage: Outcome<Json>)
      modifies this`stats
      ensures stats == if usage.Ok? then usage.value else old(stats)
    {
      if usage.Ok? {
        stats := usage.value;
      }
    }

    /**
     * `onCreateCategory`: a blank name (after trimming) sends nothing. Otherwise
     * the trimmed name is created, the categories are listed again, and the form
     * selects the new category as the dialog closes; a failure stops the chain.
     */
    method OnCreateCategory(form: FormState<TechnologyValues>, created: Outcome<TechnologyCategory>,
                            relisted: Outcome<Option<seq<TechnologyCategory>>>)
      returns (calls: seq<Call>, result: Outcome<()>)
      modifies this`categories, this`newCatOpen, form
      ensures Trim(old(newCat.name)) == "" ==>
        calls == [] && result == Ok(()) && categories == old(categories) && newCatOpen == old(newCatOpen) &&
        form.values == old(form.values)
      ensures Trim(old(newCat.name)) != "" ==>
        |calls| >= 1 &&
        calls[0] == CallOf(CreateTechnologyCategory(CategoryPayload(Trim(newCat.name), Some(newCat.description), Some(newCat.icon))))
      ensures Trim(old(newCat.name)) != "" && created.Fail? ==>
        |calls| == 1 && result == Fail(created.error)
      ensures Trim(old(newCat.name)) != "" && created.Ok? ==> calls[1..] == [CallOf(ListTechnologyCategories)]
      ensures (Trim(old(newCat.name)) != "" && created.Fail?) || (created.Ok? && relisted.Fail?) ==>
        categories == old(categories) && newCatOpen == old(newCatOpen) && form.values == old(form.values)
      ensures Trim(old(newCat.name)) != "" && created.Ok? && relisted.Fail? ==> result == Fail(relisted.error)
      ensures Trim(old(newCat.name)) != "" && created.Ok? && relisted.Ok? ==>
        result == Ok(()) && categories == relisted.value.GetOr([]) && !newCatOpen &&
        form.values == old(form.values).(categoryId := created.value.id)
      ensures newCat == old(newCat)
    {
      if Trim(newCat.name) == "" {
        return [], Ok(());
      }
      calls := [CallOf(CreateTechnologyCategory(CategoryPayload(Trim(newCat.name), Some(newCat.description), Some(newCat.icon))))];
      if created.Fail? {
        return calls, Fail(created.error);
      }
      calls := calls + [CallOf(ListTechnologyCategories)];
      if relisted.Fail? {
        return calls, Fail(relisted.error);
      }
      categories := relisted.value.GetOr([]);
      form.Reset(form.values.(categoryId := created.value.id));
      newCatOpen := false;
      result := Ok(());
    }

    /**
     * `onCreateStatus`: the trimmed name, when not blank, is created, the
     * statuses are listed again, and the form selects the new status as the
     * dialog closes; a failure stops the chain.
     */
    method OnCreateStatus(form: FormState<TechnologyValues>, created: Outcome<()>,
                          relisted: Outcome<Option<seq<string>>>)
      returns (calls: seq<Call>, result: Outcome<()>)
      modifies this`statuses, this`newStatusOpen, form
      ensures Trim(old(newStatus)) == "" ==>
        calls == [] && result == Ok(()) && statuses == old(statuses) && newStatusOpen == old(newStatusOpen) &&
        form.values == old(form.values)
      ensures Trim(old(newStatus)) != "" ==>
        |calls| >= 1 && calls[0] == CallOf(CreateTechnologyStatus(Trim(newStatus)))
      ensures Trim(old(newStatus)) != "" && created.Fail? ==> |calls| == 1 && result == Fail(created.error)
      ensures Trim(old(newStatus)) != "" && created.Ok? ==> calls[1..] == [CallOf(ListTechnologyStatuses)]
      ensures (Trim(old(newStatus)) != "" && created.Fail?) || (created.Ok? && relisted.Fail?) ==>
        statuses == old(statuses) && newStatusOpen == old(newStatusOpen) && form.values == old(form.values)
      ensures Trim(old(newStatus)) != "" && created.Ok? && relisted.Fail? ==> result == Fail(relisted.error)
      ensures Trim(old(newStatus)) != "" && created.Ok? && relisted.Ok? ==>
        result == Ok(()) && statuses == relisted.value.GetOr([]) && !newStatusOpen &&
        form.values == old(form.values).(status := Trim(newStatus))
      ensures newStatus == old(newStatus)
    {
      var name := Trim(newStatus);
      if name == "" {
        return [], Ok(());
      }
      calls := [CallOf(CreateTechnologyStatus(name))];
      if created.Fail? {
        return calls, Fail(created.error);
      }
      calls := calls + [CallOf(ListTechnologyStatuses)];
      if relisted.Fail? {
        return calls, Fail(relisted.error);
      }
      statuses := relisted.value.GetOr([]);
      form.Reset(form.values.(status := name));
      newStatusOpen := false;
      result := Ok(());
    }
  }

  /** A status created from the dialog passes the schema's status check, whatever the padding typed. */
  lemma CreatedStatusIsValid(v: TechnologyValues, typed: string)
    requires Trim(typed) != ""
    ensures Issue("status", "Статус обязателен") !in TechnologyIssues(v.(status := Trim(typed)))
  {
  }

  // ---------------------------------------------------------------------------
  // The filter bar

  /** The status select's value: `statusFilter || "all"`. */
  function StatusSelectValue(status: string): string
  {
    if status == "" then "all" else status
  }

  /** The status options: "all", then each known status. */
  function StatusOptions(statuses: seq<string>): seq<string>
  {
    ["all"] + statuses
  }

  /** Choosing a non-empty option makes the status select show that option again. */
  lemma StatusSelectRoundTrip(v: string)
    requires v != ""
    ensures StatusSelectValue(TextFromOption(v)) == v
  {
  }

  function CategoryId(c: TechnologyCategory): int
  {
    c.id
  }

  /** The category options: "all", then `String(id)` of each category. */
  function CategoryOptions(categories: seq<TechnologyCategory>): seq<string>
  {
    IdOptions(Ids(categories, CategoryId))
  }

  /** The category select's value: `categoryFilter ? String(categoryFilter) : "all"`. */
  function CategorySelectValue(category: Option<int>): string
  {
    if category.Some? && category.value != 0 then IntToString(category.value) else "all"
  }

  /**
   * A category option sets the filter to that category's id (none for "all"),
   * and the select then shows the chosen option, unless the id is 0.
   */
  lemma CategorySelectRoundTrip(categories: seq<TechnologyCategory>, v: string)
    requires v in CategoryOptions(categories)
    ensures v == "all" ==> IdFromOption(v) == None
    ensures v != "all" ==> exists k :: 0 <= k < |categories| && IdFromOption(v) == Some(categories[k].id)
    ensures v != "0" ==> CategorySelectValue(IdFromOption(v)) == v
  {
    IdOptionRoundTrip(Ids(categories, CategoryId), v);
    if v != "all" {
      var k :| 0 <= k < |categories| && Ids(categories, CategoryId)[k] == IdFromOption(v).value;
      if v != "0" {
        assert IdFromOption(v).value != 0;
      }
    }
  }

  method OnSearchChange(c: ListController<Technology, TechSort, TechFilters>, v: string)
    requires c.Valid()
    modifies c`page, c`filters
    ensures c.Valid() && c.page == 1 && c.filters == old(c.filters).(q := v)
  {
    c.ChangeFilters(c.filters.(q := v));
  }

  method OnStatusChange(c: ListController<Technology, TechSort, TechFilters>, v: string)
    requires c.Valid()
    modifies c`page, c`filters
    ensures c.Valid() && c.page == 1 && c.filters == old(c.filters).(status := TextFromOption(v))
  {
    c.ChangeFilters(c.filters.(status := if v == "all" then "" else v));
  }

  /** The category select; `v` is one of its rendered options. */
  method OnCategoryChange(c: ListController<Technology, TechSort, TechFilters>, categories: seq<TechnologyCategory>,
                          v: string)
    requires c.Valid() && v in CategoryOptions(categories)
    modifies c`page, c`filters
    ensures c.Valid() && c.page == 1 && c.filters == old(c.filters).(category := IdFromOption(v))
  {
    c.ChangeFilters(c.filters.(category := if v == "all" then None else JsNumber(v)));
  }

  /** The page-size select; `v` is one of its rendered options. */
  method OnPageSizeChange(c: ListController<Technology, TechSort, TechFilters>, v: string)
    requires c.Valid() && v in PageSizeOptions()
    modifies c`page, c`pageSize
    ensures c.Valid() && c.page == 1 && IntToString(c.pageSize) == v && c.pageSize in PageSizes
  {
    c.ChoosePageSize(v);
  }

  // ---------------------------------------------------------------------------
  // The table

  /** `getStatusColor`, on the lower-cased status; unknown statuses are secondary. */
  function StatusBadge(status: string): Badge
  {
    var s := ToLower(status);
    if s == "stable" then DefaultBadge
    else if s == "deprecated" then Destructive
    else if s == "experimental" then Secondary
    else if s == "legacy" then Outline
    else Secondary
  }

  /** The colour depends on the status only up to case, and every status not listed is secondary. */
  lemma StatusBadgeIgnoresCase(status: string)
    ensures StatusBadge(status) == StatusBadge(ToLower(status))
    ensures ToLower(status) !in {"stable", "deprecated", "legacy"} ==> StatusBadge(status) == Secondary
    ensures StatusBadge("Deprecated") == Destructive
  {
    ToLowerIdempotent(status);
    assert ToLower("Deprecated") == "deprecated";
  }

  /** The category cell: the first matching category's name, else the raw id. */
  datatype CategoryCell = CategoryName(name: string) | RawId(id: int)

  function CategoryCellOf(categories: seq<TechnologyCategory>, categoryId: int): CategoryCell
    decreases |categories|
  {
    if |categories| == 0 then RawId(categoryId)
    else if categories[0].id == categoryId then CategoryName(categories[0].name)
    else CategoryCellOf(categories[1..], categoryId)
  }

  /** The cell names a category exactly when one has that id, and then the first such. */
  lemma {:induction false} CategoryCellFinds(categories: seq<TechnologyCategory>, categoryId: int)
    ensures CategoryCellOf(categories, categoryId).RawId? <==> forall k :: 0 <= k < |categories| ==> categories[k].id != categoryId
    ensures CategoryCellOf(categories, categoryId).RawId? ==> CategoryCellOf(categories, categoryId).id == categoryId
    ensures CategoryCellOf(categories, categoryId).CategoryName? ==>
      exists k :: 0 <= k < |categories| && categories[k].id == categoryId &&
        CategoryCellOf(categories, categoryId).name == categories[k].name &&
        forall j :: 0 <= j < k ==> categories[j].id != categoryId
    decreases |categories|
  {
    if |categories| > 0 && categories[0].id != categoryId {
      CategoryCellFinds(categories[1..], categoryId);
      if CategoryCellOf(categories, categoryId).CategoryName? {
        var k :| 0 <= k < |categories[1..]| && categories[1..][k].id == categoryId &&
          CategoryCellOf(categories[1..], categoryId).name == categories[1..][k].name &&
          forall j :: 0 <= j < k ==> categories[1..][j].id != categoryId;
        assert categories[k + 1] == categories[1..][k];
        forall j | 0 <= j < k + 1 ensures categories[j].id != categoryId {
          if j > 0 {
            assert categories[j] == categories[1..][j - 1];
          }
        }
      } else {
        forall k | 0 <= k < |categories| ensures categories[k].id != categoryId {
          if k > 0 {
            assert categories[k] == categories[1..][k - 1];
          }
        }
      }
    }
  }

  /** The line under the technology's name: its description, only when non-empty. */
  function DescriptionLine(t: Technology): (lines: seq<string>)
    ensures |lines| <= 1 && (lines == [] <==> t.description == "")
    ensures lines != [] ==> lines[0] == t.description
  {
    if t.description != "" then [t.description] else []
  }

  /** The website cell: a link to a non-empty address, otherwise `—`. */
  function WebsiteCell(t: Technology): (cell: LinkCell)
    ensures cell.ExternalLink? <==> t.officialWebsite != ""
    ensures cell.ExternalLink? ==> cell.href == t.officialWebsite
  {
    if t.officialWebsite != "" then ExternalLink(t.officialWebsite) else Dash
  }
}
