/** The dashboard hook: one statistics request with a loading flag and an error banner. */
module Dashboard {
  import opened Wrappers
  import opened Api

  const LoadFailedMessage: string := "Failed to load dashboard"

  /** `err?.message || "Failed to load dashboard"`: an empty message falls back too. */
  function ErrorOf(e: Thrown): (shown: string)
    ensures shown != ""
    ensures e.message.Some? && e.message.value != "" ==> shown == e.message.value
    ensures !(e.message.Some? && e.message.value != "") ==> shown == LoadFailedMessage
  {
    if e.message.Some? && e.message.value != "" then e.message.value else LoadFailedMessage
  }

  /** `useDashboard`; `Stats` is the statistics record, passed through untouched. */
  class DashboardHook<Stats> {
    var data: Option<Stats>
    var loading: bool
    var error: Option<string>

    /** Before the mount effect has run the screen already shows its spinner. */
    constructor()
      ensures data == None && loading && error == None
    {
      data := None;
      loading := true;
      error := None;
    }

    /**
     * `load` (also the mount effect and `reload`): success stores the stats
     * and clears the error; failure shows the error and keeps the old stats.
     */
    method Load(settled: Outcome<Stats>) returns (call: Call)
      modifies this
      ensures call == CallOf(GetDashboardStats) && !loading
      ensures settled.Ok? ==> data == Some(settled.value) && error == None
      ensures settled.Fail? ==> data == old(data) && error == Some(ErrorOf(settled.error))
      ensures error.None? <==> settled.Ok?
    {
      loading := true;
      error := None;
      call := CallOf(GetDashboardStats);
      if settled.Ok? {
        data := Some(settled.value);
      } else {
        error := Some(ErrorOf(settled.error));
      }
      loading := false;
    }
  }
}
