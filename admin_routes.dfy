/**
 * The admin endpoints: the admin check every one of them depends on, and the
 * replies of the archive preview, execution and history.
 */
module AdminRoutes {
  import opened Wrappers
  import opened Json
  import opened Exceptions
  import opened Archive

  const AdminRequired: string := "Admin access required"
  const HistoryLimit: int := 10

  /** `require_admin`: 403 unless `current_user.get("is_admin")` is truthy; the user is passed on unchanged. */
  function RequireAdmin(user: map<string, Json>): (d: Decision<map<string, Json>>)
    ensures d.Proceed? <==> "is_admin" in user && PyTruthy(user["is_admin"])
    ensures d.Proceed? ==> d.value == user
    ensures d.Raise? ==> d.raised == Http(HttpException(Forbidden, AdminRequired))
  {
    if "is_admin" in user && PyTruthy(user["is_admin"]) then Proceed(user)
    else Raise(Http(HttpException(Forbidden, AdminRequired)))
  }

  /** Only a user whose `is_admin` is the boolean `true` reaches an archive endpoint when rows hold booleans. */
  lemma AdminFlagDecides(user: map<string, Json>, flag: bool)
    requires "is_admin" in user && user["is_admin"] == JBool(flag)
    ensures RequireAdmin(user).Proceed? <==> flag
    ensures !flag ==> StatusOf(RequireAdmin(user)) == 403
  {
  }

  /**
   * `preview_archive`: the candidates found for the threshold (180 days by
   * default), their count, and the threshold echoed.
   */
  function PreviewArchive(user: map<string, Json>, inactiveDays: Option<int>,
                          candidates: int -> seq<PreviewProject>): (d: Decision<PreviewReply>)
    ensures d.Proceed? <==> RequireAdmin(user).Proceed?
    ensures d.Raise? ==> d.raised == RequireAdmin(user).raised
    ensures d.Proceed? ==> var days := inactiveDays.GetOr(DefaultInactiveDays);
      d.value.count == |candidates(days)| && d.value.inactiveDays == days && d.value.projects == candidates(days)
  {
    match RequireAdmin(user)
    case Raise(r) => Raise(r)
    case Proceed(_) =>
      var days := inactiveDays.GetOr(DefaultInactiveDays);
      var found := candidates(days);
      Proceed(PreviewReply(|found|, days, found))
  }

  /**
   * `execute_archive`: archives for the threshold on behalf of the admin's id
   * and reports success with the number archived. A user row without an `id`
   * makes the lookup raise, which the catch-all handler answers.
   */
  function ExecuteArchive(user: map<string, Json>, inactiveDays: Option<int>,
                          archive: (int, Json) -> seq<PreviewProject>): (d: Decision<ExecuteReply>)
    ensures d.Proceed? <==> RequireAdmin(user).Proceed? && "id" in user
    ensures !RequireAdmin(user).Proceed? ==> d.raised == RequireAdmin(user).raised
    ensures RequireAdmin(user).Proceed? && "id" !in user ==> d.raised == Crash("'id'")
    ensures d.Proceed? ==> var archived := archive(inactiveDays.GetOr(DefaultInactiveDays), user["id"]);
      d.value.success && d.value.count == |archived| && d.value.archivedProjects == archived
  {
    match RequireAdmin(user)
    case Raise(r) => Raise(r)
    case Proceed(_) =>
      if "id" !in user then Raise(Crash("'id'"))
      else
        var archived := archive(inactiveDays.GetOr(DefaultInactiveDays), user["id"]);
        Proceed(ExecuteReply(true, |archived|, archived))
  }

  /** `archive_history`: the last operations, 10 unless a limit is given. */
  function ArchiveHistory(user: map<string, Json>, limit: Option<int>,
                          history: int -> seq<HistoryEntry>): (d: Decision<HistoryReply>)
    ensures d.Proceed? <==> RequireAdmin(user).Proceed?
    ensures d.Raise? ==> d.raised == RequireAdmin(user).raised
    ensures d.Proceed? ==> d.value.history == history(limit.GetOr(HistoryLimit))
  {
    match RequireAdmin(user)
    case Raise(r) => Raise(r)
    case Proceed(_) => Proceed(HistoryReply(history(limit.GetOr(HistoryLimit))))
  }
}
