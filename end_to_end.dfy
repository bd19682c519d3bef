/**
 * The two halves together: what an error response of the back-end becomes
 * in the front-end's `request`, how the page count of a reply is shown, and
 * that the page sizes, sort keys and sort orders the screens send are ones
 * the back-end accepts.
 */
module EndToEnd {
  import opened Wrappers
  import opened Text
  import opened Json
  import Exceptions
  import Transport
  import Pagination
  import ListControl
  import Technologies
  import Projects
  import Users
  import Teams
  import TechnologyRoutes
  import ProjectRoutes
  import AuthRoutes
  import TeamRoutes
  import AdminRoutes
  import Archive
  import Api
  import Store

  /** The body of a JSON reply, as the front-end parses it. */
  function Delivered(r: Exceptions.JsonResponse): Transport.Fetched
  {
    Transport.Responded(Transport.Response(r.status, Transport.JsonBody(JObj(r.content))))
  }

  /**
   * An application error reaches the screen as its own message: the reply
   * carries it as `message`, and `request` throws exactly that text.
   */
  lemma ApiErrorKeepsMessage(e: Exceptions.ApiException)
    requires !Transport.IsOk(e.statusCode) && e.statusCode != 401
    ensures Transport.Settle(Delivered(Exceptions.HandleApiException(e))) == Reject(e.message)
  {
    var r := Exceptions.HandleApiException(e);
    assert StringField(JObj(r.content), "message") == Some(e.message);
  }

  /** So does every not-found, validation and conflict error an endpoint raises. */
  lemma RaisedErrorsKeepMessage<T>(d: Exceptions.Decision<T>)
    requires d.Raise? && d.raised.Api? && Exceptions.Constructed(d.raised.exc) && d.raised.exc.kind != Exceptions.Plain
    ensures Transport.Settle(Delivered(Exceptions.Respond(d.raised))) == Reject(d.raised.exc.message)
  {
    ApiErrorKeepsMessage(d.raised.exc);
  }

  /** A missing project's 404 is shown as the server's sentence naming its id. */
  lemma MissingProjectShown(db: Store.Db, id: int)
    requires id !in db.projects
    ensures Transport.Settle(Delivered(Exceptions.Respond(ProjectRoutes.FindProject(db, id).raised))) ==
      Reject(ProjectRoutes.ProjectMissing(id))
  {
    RaisedErrorsKeepMessage(ProjectRoutes.FindProject(db, id));
  }

  lemma Status403()
    ensures IntToString(403) == "403"
  {
    assert NatToString(4) == "4" && NatToString(40) == "40";
  }

  /**
   * FastAPI's own `HTTPException` answers with `detail`, which `request` does
   * not read: a non-admin's refusal reaches the screen as `HTTP 403`.
   */
  lemma AdminRefusalShownAsStatus(user: map<string, Json>)
    requires !AdminRoutes.RequireAdmin(user).Proceed?
    ensures Transport.Settle(Delivered(Exceptions.Respond(AdminRoutes.RequireAdmin(user).raised))) == Reject("HTTP 403")
  {
    var r := Exceptions.Respond(AdminRoutes.RequireAdmin(user).raised);
    assert r.content.Keys == {"detail"};
    assert "message" !in r.content;
    assert StringField(JObj(r.content), "message").None?;
    Status403();
    assert "HTTP " + IntToString(403) == "HTTP 403";
  }

  /** A refused login reaches the screen as `Unauthorized`, not as the server's sentence. */
  lemma LoginRefusalShownAsUnauthorized(db: Store.Db, email: string, password: string,
                                        verify: (string, string) -> bool, issue: (int, string) -> string)
    requires AuthRoutes.Login(db, email, password, verify, issue).Raise?
    ensures Transport.Settle(Delivered(Exceptions.Respond(AuthRoutes.Login(db, email, password, verify, issue).raised))) ==
      Reject("Unauthorized")
  {
  }

  /** Any other failure reaches the screen as the catch-all's prefixed text. */
  lemma CrashShownWithPrefix(text: string)
    ensures Transport.Settle(Delivered(Exceptions.HandleGeneral(text))) == Reject(Exceptions.InternalPrefix + text)
  {
    var r := Exceptions.HandleGeneral(text);
    assert StringField(JObj(r.content), "message") == Some(Exceptions.InternalPrefix + text);
  }

  /**
   * The page count shown: the server's count of pages, except that an empty
   * result, for which the server counts 0 pages, still shows one page.
   */
  lemma ShownPages<Item>(previous: ListControl.ListView<Item>, items: seq<Item>, total: nat, pageSize: int)
    requires 1 <= pageSize
    ensures var shown := ListControl.AfterLoad(previous,
        Ok(Api.PageReply(Some(items), total, Pagination.TotalPages(total, pageSize)))).totalPages;
      shown == (if total == 0 then 1 else Pagination.TotalPages(total, pageSize)) && shown >= 1
  {
    var n := Pagination.TotalPages(total, pageSize);
    if total == 0 {
      assert n == 0;
    } else {
      assert n >= 1;
    }
  }

  /** Every page size a screen offers is within the server's limit, on every page. */
  lemma OfferedPageSizesAccepted(page: int, k: nat)
    requires page >= 1 && k < |ListControl.PageSizes|
    ensures Pagination.MakePagination(Some(page), Some(ListControl.PageSizes[k])).Some?
  {
  }

  /** The sort orders a screen sends are the two the server accepts, and reach SQL as `ASC` or `DESC`. */
  lemma SentSortOrdersAccepted(sortBy: string, o: ListControl.SortOrder)
    ensures Pagination.MakeSort(Some(sortBy), Some(ListControl.SortOrderName(o))).Some?
    ensures var s := Pagination.MakeSort(Some(sortBy), Some(ListControl.SortOrderName(o))).value;
      ToUpper(s.sortOrder) == (if o == ListControl.Asc then "ASC" else "DESC")
  {
    var s := Pagination.MakeSort(Some(sortBy), Some(ListControl.SortOrderName(o))).value;
    var u := ToUpper(s.sortOrder);
    if o == ListControl.Asc {
      assert s.sortOrder == "asc" by { assert ToLower("asc")[0] == 'a' && ToLower("asc")[1] == 's' && ToLower("asc")[2] == 'c'; }
      assert u[0] == 'A' && u[1] == 'S' && u[2] == 'C';
    } else {
      assert s.sortOrder == "desc" by {
        var l := ToLower("desc");
        assert l[0] == 'd' && l[1] == 'e' && l[2] == 's' && l[3] == 'c';
      }
      assert u[0] == 'D' && u[1] == 'E' && u[2] == 'S' && u[3] == 'C';
    }
  }

  /** Every column a screen can sort by is one the server sorts by, so none falls back to `created_at`. */
  lemma SortKeysWhitelisted(t: Technologies.TechSort, p: Projects.ProjectSort, u: Users.UserSort, m: Teams.TeamSort)
    ensures Technologies.SortKey(t) in TechnologyRoutes.TechnologySortColumns
    ensures Projects.SortKey(p) in ProjectRoutes.ProjectSortColumns
    ensures Users.SortKey(u) in AuthRoutes.UserSortColumns
    ensures Teams.SortKey(m) in TeamRoutes.TeamSortColumns
  {
  }

  /** The archive screen and the server agree on the default threshold and on the history length. */
  lemma ArchiveDefaultsAgree()
    ensures Archive.DefaultInactiveDays == 180
    ensures Api.DefaultHistoryLimit == AdminRoutes.HistoryLimit
  {
  }
}
