/**
 * The list-page state machine shared by the technologies, projects, users and
 * teams screens: a query (page, page size, sort column and order, filters),
 * the page last adopted from the server, the loading flag, the create/edit/
 * delete dialog state, and the table's pagination controls. Each screen's hook
 * is one instance of `ListController`, given the request its `load` sends.
 */
module ListControl {
  import opened Wrappers
  import opened Text
  import opened Api

  datatype SortOrder = Asc | Desc

  function SortOrderName(o: SortOrder): string
  {
    if o == Asc then "asc" else "desc"
  }

  /** The page sizes every list screen offers. */
  const PageSizes: seq<int> := [10, 20, 50]
  const InitialPageSize: int := 10

  /** The page-size select's option values, `String(size)` for each size. */
  function PageSizeOptions(): (options: seq<string>)
    ensures |options| == |PageSizes|
    ensures forall k :: 0 <= k < |PageSizes| ==> options[k] == IntToString(PageSizes[k])
  {
    seq(|PageSizes|, k requires 0 <= k < |PageSizes| => IntToString(PageSizes[k]))
  }

  /** `Number(v)` of a page-size option is a page size whose option is `v` again. */
  lemma PageSizeOptionRoundTrip(v: string)
    requires v in PageSizeOptions()
    ensures JsNumber(v).Some? && JsNumber(v).value in PageSizes && IntToString(JsNumber(v).value) == v
  {
    var k :| 0 <= k < |PageSizes| && PageSizeOptions()[k] == v;
    ParseIntToString(PageSizes[k]);
  }

  /** The text filter an option of a filter select sets: `"all"` clears it. */
  function TextFromOption(v: string): string
  {
    if v == "all" then "" else v
  }

  /** The id filter an option of a filter select sets: `"all"` clears it, any other is `Number(v)`. */
  function IdFromOption(v: string): Option<int>
  {
    if v == "all" then None else JsNumber(v)
  }

  /** The ids of the loaded records a filter select offers, in their order. */
  function Ids<Record>(records: seq<Record>, idOf: Record -> int): (ids: seq<int>)
    ensures |ids| == |records| && forall k :: 0 <= k < |records| ==> ids[k] == idOf(records[k])
  {
    seq(|records|, k requires 0 <= k < |records| => idOf(records[k]))
  }

  /** The options of an id filter select: "all", then `String(id)` for each id. */
  function IdOptions(ids: seq<int>): (options: seq<string>)
    ensures |options| == |ids| + 1 && options[0] == "all"
    ensures forall k :: 0 <= k < |ids| ==> options[k + 1] == IntToString(ids[k])
  {
    ["all"] + seq(|ids|, k requires 0 <= k < |ids| => IntToString(ids[k]))
  }

  /** An id option sets the filter to one of the listed ids, whose rendering is the option itself; "all" sets none. */
  lemma IdOptionRoundTrip(ids: seq<int>, v: string)
    requires v in IdOptions(ids)
    ensures v == "all" <==> IdFromOption(v) == None
    ensures v != "all" ==> IdFromOption(v).Some? && IdFromOption(v).value in ids && IntToString(IdFromOption(v).value) == v
  {
    if v != "all" {
      var j :| 0 <= j < |IdOptions(ids)| && IdOptions(ids)[j] == v;
      ParseIntToString(ids[j - 1]);
    } else {
      assert IdFromOption(v) == None;
    }
  }

  /** A text option other than "all" is stored as is. */
  lemma TextOptionRoundTrip(v: string)
    ensures TextFromOption(v) == "" <==> v == "all" || v == ""
    ensures v != "all" ==> TextFromOption(v) == v
  {
  }

  datatype ListQuery<S, F> = ListQuery(page: int, pageSize: int, sortBy: S, sortOrder: SortOrder, filters: F)

  /** The page adopted from the server. */
  datatype ListView<Item> = ListView(items: seq<Item>, total: int, totalPages: int)

  datatype Dialogs<Item> = Dialogs(createOpen: bool, editOpen: bool, editing: Option<Item>, deleteId: Option<int>)

  // ---------------------------------------------------------------------------
  // Sorting

  /** `onSort(field)`: the active column flips its order, another column starts ascending. */
  function Toggle<S(==)>(sortBy: S, order: SortOrder, field: S): (r: (S, SortOrder))
    ensures r.0 == field
    ensures field == sortBy ==> r.1 != order
    ensures field != sortBy ==> r.1 == Asc
  {
    if sortBy == field then (field, if order == Asc then Desc else Asc) else (field, Asc)
  }

  /** Sorting twice by the same column restores the original order when it was already active. */
  lemma ToggleTwice<S>(sortBy: S, order: SortOrder, field: S)
    ensures var (s1, o1) := Toggle(sortBy, order, field);
            var (s2, o2) := Toggle(s1, o1, field);
            s2 == field && (field == sortBy ==> o2 == order) && (field != sortBy ==> o2 == Desc)
  {
  }

  // ---------------------------------------------------------------------------
  // Adopting a server page

  /**
   * What `load` leaves behind: a reply's `items ?? []`, `total` and
   * `total_pages || 1`; after a rejection, the previous page.
   */
  function AfterLoad<Item>(previous: ListView<Item>, settled: Outcome<PageReply<Item>>): (v: ListView<Item>)
    ensures settled.Fail? ==> v == previous
    ensures settled.Ok? ==> v.total == settled.value.total
    ensures settled.Ok? && settled.value.items.Some? ==> v.items == settled.value.items.value
    ensures settled.Ok? && settled.value.items.None? ==> v.items == []
    ensures settled.Ok? && settled.value.totalPages >= 0 ==> v.totalPages >= 1
    ensures settled.Ok? && settled.value.totalPages != 0 ==> v.totalPages == settled.value.totalPages
  {
    match settled
    case Fail(_) => previous
    case Ok(reply) =>
      ListView(if reply.items.Some? then reply.items.value else [], reply.total,
               if reply.totalPages != 0 then reply.totalPages else 1)
  }

  /** A server that reports zero pages still leaves one page to show. */
  lemma ZeroPagesBecomeOne<Item>(previous: ListView<Item>, items: Option<seq<Item>>, total: int)
    ensures AfterLoad(previous, Ok(PageReply(items, total, 0))).totalPages == 1
  {
  }

  // ---------------------------------------------------------------------------
  // Pagination controls of the tables

  /** The "previous" button's handler. */
  function PreviousPage(page: int): int
  {
    if page - 1 > 1 then page - 1 else 1
  }

  /** The "next" button's handler. */
  function NextPage(page: int, totalPages: int): int
  {
    if page + 1 < totalPages then page + 1 else totalPages
  }

  predicate PreviousDisabled(page: int)
  {
    page <= 1
  }

  predicate NextDisabled(page: int, totalPages: int)
  {
    page >= totalPages
  }

  /** Page links: `1..min(totalPages, 5)`, each with whether it is the current page. */
  function PageLinks(totalPages: int, page: int): (links: seq<(int, bool)>)
    ensures |links| == if totalPages <= 0 then 0 else if totalPages < 5 then totalPages else 5
    ensures forall k :: 0 <= k < |links| ==> links[k].0 == k + 1 && (links[k].1 <==> k + 1 == page)
  {
    var count := if totalPages <= 0 then 0 else if totalPages < 5 then totalPages else 5;
    seq(count, k requires 0 <= k < count => (k + 1, k + 1 == page))
  }

  /** Whether `n` is one of the page links on show. */
  predicate IsPageLink(totalPages: int, n: int)
  {
    1 <= n && n <= totalPages && n <= 5
  }

  /** An enabled button moves exactly one page, and the page stays within `1..totalPages`. */
  lemma PagerSteps(page: int, totalPages: int)
    ensures !PreviousDisabled(page) ==> PreviousPage(page) == page - 1
    ensures !NextDisabled(page, totalPages) ==> NextPage(page, totalPages) == page + 1
    ensures 1 <= page <= totalPages ==> 1 <= PreviousPage(page) <= totalPages
    ensures 1 <= page <= totalPages ==> 1 <= NextPage(page, totalPages) <= totalPages
    ensures PreviousPage(page) >= 1
  {
  }

  /** Exactly one link is active when the current page is among them, none otherwise. */
  lemma {:induction false} OneActiveLink(totalPages: int, page: int)
    ensures forall k :: 0 <= k < |PageLinks(totalPages, page)| && PageLinks(totalPages, page)[k].1 ==> k == page - 1
    ensures IsPageLink(totalPages, page) ==> page - 1 < |PageLinks(totalPages, page)| && PageLinks(totalPages, page)[page - 1].1
    ensures (forall k :: 0 <= k < |PageLinks(totalPages, page)| ==> !PageLinks(totalPages, page)[k].1) <==> !IsPageLink(totalPages, page)
  {
    var links := PageLinks(totalPages, page);
    if IsPageLink(totalPages, page) {
      assert links[page - 1].1;
    }
  }

  // ---------------------------------------------------------------------------
  // Table body and sort icons

  datatype TableBody<Item> = LoadingRow | EmptyRow | Rows(rows: seq<Item>)

  /** The table shows a loading row, else an empty-message row, else one row per item in order. */
  function BodyOf<Item>(loading: bool, items: seq<Item>): (b: TableBody<Item>)
    ensures b.LoadingRow? <==> loading
    ensures b.EmptyRow? <==> !loading && |items| == 0
    ensures b.Rows? ==> b.rows == items
  {
    if loading then LoadingRow else if |items| == 0 then EmptyRow else Rows(items)
  }

  /** The badge variants the tables colour statuses with. */
  datatype Badge = DefaultBadge | Destructive | Secondary | Outline

  datatype SortIcon = Neutral | Up | Down

  /** A link cell of a table: `Перейти` linking to the address, or `—` without one. */
  datatype LinkCell = ExternalLink(href: string) | Dash

  /** `SortIcon`: neutral unless the column is the active sort; then up for ascending, down for descending. */
  function IconFor<S(==)>(sortBy: S, order: SortOrder, field: S): (icon: SortIcon)
    ensures icon.Neutral? <==> field != sortBy
    ensures icon.Up? <==> field == sortBy && order.Asc?
    ensures icon.Down? <==> field == sortBy && order.Desc?
  {
    if sortBy != field then Neutral else if order.Asc? then Up else Down
  }

  // ---------------------------------------------------------------------------
  // The hook

  class ListController<Item, S(==), F(==)> {
    var page: int
    var pageSize: int
    var sortBy: S
    var sortOrder: SortOrder
    var filters: F
    var items: seq<Item>
    var total: int
    var totalPages: int
    var loading: bool
    var createOpen: bool
    var editOpen: bool
    var editing: Option<Item>
    var deleteId: Option<int>
    /** The query the reload effect last ran for; `None` before the first render. */
    var effectQuery: Option<ListQuery<S, F>>
    /** Every list request issued so far, oldest first. */
    ghost var sent: seq<string>
    /** The request `load` sends for a query. */
    const requestOf: ListQuery<S, F> -> string
    /** The id of an item, used by the edit dialog. */
    const idOf: Item -> int

    ghost predicate Valid()
      reads this
    {
      page >= 1 && pageSize in PageSizes
    }

    function Query(): ListQuery<S, F>
      reads this
    {
      ListQuery(page, pageSize, sortBy, sortOrder, filters)
    }

    function View(): ListView<Item>
      reads this
    {
      ListView(items, total, totalPages)
    }

    function DialogState(): Dialogs<Item>
      reads this
    {
      Dialogs(createOpen, editOpen, editing, deleteId)
    }

    /** The initial state of every list hook: first page of ten, nothing loaded, no dialog. */
    constructor(initialSort: S, initialFilters: F, requestOf: ListQuery<S, F> -> string, idOf: Item -> int)
      ensures Valid()
      ensures Query() == ListQuery(1, InitialPageSize, initialSort, Desc, initialFilters)
      ensures View() == ListView([], 0, 1) && !loading
      ensures DialogState() == Dialogs(false, false, None, None)
      ensures effectQuery == None && sent == []
      ensures this.requestOf == requestOf && this.idOf == idOf
    {
      page := 1;
      pageSize := InitialPageSize;
      sortBy := initialSort;
      sortOrder := Desc;
      filters := initialFilters;
      items := [];
      total := 0;
      totalPages := 1;
      loading := false;
      createOpen := false;
      editOpen := false;
      editing := None;
      deleteId := None;
      effectQuery := None;
      sent := [];
      this.requestOf := requestOf;
      this.idOf := idOf;
    }

    // --- setters used by the filter bars --------------------------------

    method SetPage(n: int)
      requires Valid() && n >= 1
      modifies this`page
      ensures Valid() && page == n
    {
      page := n;
    }

    method SetPageSize(n: int)
      requires Valid() && n in PageSizes
      modifies this`pageSize
      ensures Valid() && pageSize == n
    {
      pageSize := n;
    }

    method SetFilters(f: F)
      modifies this`filters
      ensures filters == f
    {
      filters := f;
    }

    /** A filter-bar change: the filters take the new value and the list goes back to page 1. */
    method ChangeFilters(f: F)
      requires Valid()
      modifies this`page, this`filters
      ensures Valid() && page == 1 && filters == f
    {
      SetPage(1);
      SetFilters(f);
    }

    /** The page-size select: `Number(v)` of the chosen option, back to page 1; the select then shows `v`. */
    method ChoosePageSize(v: string)
      requires Valid() && v in PageSizeOptions()
      modifies this`page, this`pageSize
      ensures Valid() && page == 1 && IntToString(pageSize) == v
    {
      PageSizeOptionRoundTrip(v);
      SetPage(1);
      SetPageSize(JsNumber(v).value);
    }

    /** `onSort(field)`; the page is left as it is. */
    method OnSort(field: S)
      modifies this`sortBy, this`sortOrder
      ensures (sortBy, sortOrder) == Toggle(old(sortBy), old(sortOrder), field)
    {
      if sortBy == field {
        sortOrder := if sortOrder == Asc then Desc else Asc;
      } else {
        sortBy := field;
        sortOrder := Asc;
      }
    }

    // --- loading ----------------------------------------------------------

    /** The first half of `load`: raise the flag and send the current query. */
    method StartLoad() returns (request: string)
      modifies this`loading, this`sent
      ensures loading
      ensures request == requestOf(Query())
      ensures sent == old(sent) + [request]
    {
      loading := true;
      request := requestOf(Query());
      sent := sent + [request];
    }

    /** The second half of `load`, once the request has settled; the flag drops either way. */
    method FinishLoad(settled: Outcome<PageReply<Item>>) returns (result: Outcome<()>)
      modifies this`items, this`total, this`totalPages, this`loading
      ensures View() == AfterLoad(old(View()), settled)
      ensures !loading
      ensures result == if settled.Ok? then Ok(()) else Fail(settled.error)
    {
      match settled {
        case Ok(reply) =>
          items := if reply.items.Some? then reply.items.value else [];
          total := reply.total;
          totalPages := if reply.totalPages != 0 then reply.totalPages else 1;
          result := Ok(());
        case Fail(e) =>
          result := Fail(e);
      }
      loading := false;
    }

    /** `load()`: send the current query and adopt the reply. */
    method Load(settled: Outcome<PageReply<Item>>) returns (result: Outcome<()>)
      modifies this`items, this`total, this`totalPages, this`loading, this`sent
      ensures sent == old(sent) + [requestOf(Query())]
      ensures View() == AfterLoad(old(View()), settled)
      ensures !loading
      ensures result == if settled.Ok? then Ok(()) else Fail(settled.error)
    {
      var _ := StartLoad();
      result := FinishLoad(settled);
    }

    /**
     * The reload effect after a render: it runs `load` when the query differs
     * from the one it last ran for (always on the first render).
     */
    method Render(settled: Outcome<PageReply<Item>>) returns (loaded: bool)
      modifies this`items, this`total, this`totalPages, this`loading, this`sent, this`effectQuery
      ensures loaded <==> old(effectQuery) != Some(Query())
      ensures effectQuery == Some(Query())
      ensures loaded ==> sent == old(sent) + [requestOf(Query())] && View() == AfterLoad(old(View()), settled) && !loading
      ensures !loaded ==> sent == old(sent) && View() == old(View()) && loading == old(loading)
    {
      loaded := effectQuery != Some(Query());
      if loaded {
        effectQuery := Some(Query());
        var _ := Load(settled);
      }
    }

    // --- pagination buttons -----------------------------------------------

    /** The "previous" button: disabled on the first page. */
    method ClickPrevious()
      requires Valid()
      modifies this`page
      ensures Valid()
      ensures page == if PreviousDisabled(old(page)) then old(page) else PreviousPage(old(page))
    {
      if !(page <= 1) {
        page := if page - 1 > 1 then page - 1 else 1;
      }
    }

    /** The "next" button: disabled on the last page. */
    method ClickNext()
      requires Valid()
      modifies this`page
      ensures Valid()
      ensures page == if NextDisabled(old(page), totalPages) then old(page) else NextPage(old(page), totalPages)
    {
      if !(page >= totalPages) {
        page := if page + 1 < totalPages then page + 1 else totalPages;
      }
    }

    /** A page link. */
    method ClickPageLink(n: int)
      requires Valid() && IsPageLink(totalPages, n)
      modifies this`page
      ensures Valid() && page == n
    {
      page := n;
    }

    // --- dialogs ------------------------------------------------------------

    method SetCreateOpen(open: bool)
      modifies this`createOpen
      ensures createOpen == open
    {
      createOpen := open;
    }

    method OpenEdit(item: Item)
      modifies this`editing, this`editOpen
      ensures editing == Some(item) && editOpen
    {
      editing := Some(item);
      editOpen := true;
    }

    method SetEditOpen(open: bool)
      modifies this`editOpen
      ensures editOpen == open
    {
      editOpen := open;
    }

    method SetDeleteId(id: Option<int>)
      modifies this`deleteId
      ensures deleteId == id
    {
      deleteId := id;
    }

    /**
     * The common tail of `onSubmitCreate`. A rejected create changes nothing;
     * otherwise the dialog closes and the current query is reloaded.
     */
    method AfterCreate<R>(created: Outcome<R>, reload: Outcome<PageReply<Item>>) returns (result: Outcome<()>)
      modifies this`createOpen, this`items, this`total, this`totalPages, this`loading, this`sent
      ensures created.Fail? ==>
        result == Fail(created.error) && createOpen == old(createOpen) && View() == old(View()) &&
        loading == old(loading) && sent == old(sent)
      ensures created.Ok? ==>
        !createOpen && sent == old(sent) + [requestOf(Query())] && View() == AfterLoad(old(View()), reload) &&
        !loading && result == (if reload.Ok? then Ok(()) else Fail(reload.error))
    {
      if created.Fail? {
        return Fail(created.error);
      }
      createOpen := false;
      result := Load(reload);
    }

    /**
     * `onSubmitEdit`: a no-op without `editing`; otherwise the update goes to
     * the edited item's id, and on success the dialog closes, `editing` is
     * cleared and the current query is reloaded.
     */
    method SubmitEdit<R>(updated: Outcome<R>, reload: Outcome<PageReply<Item>>)
      returns (target: Option<int>, result: Outcome<()>)
      modifies this`editOpen, this`editing, this`items, this`total, this`totalPages, this`loading, this`sent
      ensures target == if old(editing).Some? then Some(idOf(old(editing).value)) else None
      ensures (old(editing).None? || updated.Fail?) ==>
        editOpen == old(editOpen) && editing == old(editing) && View() == old(View()) &&
        loading == old(loading) && sent == old(sent)
      ensures old(editing).None? ==> result == Ok(())
      ensures old(editing).Some? && updated.Fail? ==> result == Fail(updated.error)
      ensures old(editing).Some? && updated.Ok? ==>
        !editOpen && editing == None && sent == old(sent) + [requestOf(Query())] &&
        View() == AfterLoad(old(View()), reload) && !loading &&
        result == (if reload.Ok? then Ok(()) else Fail(reload.error))
    {
      if editing.None? {
        return None, Ok(());
      }
      target := Some(idOf(editing.value));
      if updated.Fail? {
        return target, Fail(updated.error);
      }
      editOpen := false;
      editing := None;
      result := Load(reload);
    }

    /**
     * `onConfirmDelete`: a no-op when `deleteId` is falsy (absent or 0);
     * otherwise that id is deleted, `deleteId` is cleared and the same query
     * is reloaded.
     */
    method ConfirmDelete(deleted: Outcome<()>, reload: Outcome<PageReply<Item>>)
      returns (target: Option<int>, result: Outcome<()>)
      modifies this`deleteId, this`items, this`total, this`totalPages, this`loading, this`sent
      ensures target == if old(deleteId).Some? && old(deleteId).value != 0 then old(deleteId) else None
      ensures (target.None? || deleted.Fail?) ==>
        deleteId == old(deleteId) && View() == old(View()) && loading == old(loading) && sent == old(sent)
      ensures target.None? ==> result == Ok(())
      ensures target.Some? && deleted.Fail? ==> result == Fail(deleted.error)
      ensures target.Some? && deleted.Ok? ==>
        deleteId == None && sent == old(sent) + [requestOf(Query())] &&
        View() == AfterLoad(old(View()), reload) && !loading &&
        result == (if reload.Ok? then Ok(()) else Fail(reload.error))
    {
      if deleteId.None? || deleteId.value == 0 {
        return None, Ok(());
      }
      target := deleteId;
      if deleted.Fail? {
        return target, Fail(deleted.error);
      }
      deleteId := None;
      result := Load(reload);
    }
  }
}
