/**
 * The archive screen of the admin page: the three hooks over the archive
 * endpoints (preview, execute, history) and the component that chains them
 * into preview, then a gated confirmation, then execution.
 */
module Archive {
  import opened Wrappers
  import opened Text
  import opened Api

  // ---------------------------------------------------------------------------
  // Replies of the archive endpoints

  datatype PreviewProject = PreviewProject(
    projectId: int, projectName: string, lastUpdated: string, daysInactive: int, actionTaken: string)

  datatype HistoryEntry = HistoryEntry(
    id: int, archivedAt: string, archivedByName: string, projectsCount: int, inactiveThreshold: int, notes: string)

  datatype PreviewReply = PreviewReply(count: int, inactiveDays: int, projects: seq<PreviewProject>)
  datatype ExecuteReply = ExecuteReply(success: bool, count: int, archivedProjects: seq<PreviewProject>)
  datatype HistoryReply = HistoryReply(history: seq<HistoryEntry>)

  // ---------------------------------------------------------------------------
  // The hooks

  /** `useArchivePreview`: the candidates and their count from the last preview that resolved. */
  class PreviewHook {
    var data: seq<PreviewProject>
    var loading: bool
    var count: int

    constructor()
      ensures data == [] && !loading && count == 0
    {
      data := [];
      loading := false;
      count := 0;
    }

    /** `preview(days)`: a resolved reply replaces both the list and the count; a rejection keeps both. */
    method Preview(days: int, settled: Outcome<PreviewReply>) returns (call: Call, result: Outcome<()>)
      modifies this
      ensures call == CallOf(PreviewArchive(days))
      ensures !loading
      ensures settled.Ok? ==> data == settled.value.projects && count == settled.value.count && result == Ok(())
      ensures settled.Fail? ==> data == old(data) && count == old(count) && result == Fail(settled.error)
    {
      loading := true;
      call := CallOf(PreviewArchive(days));
      if settled.Ok? {
        data := settled.value.projects;
        count := settled.value.count;
        result := Ok(());
      } else {
        result := Fail(settled.error);
      }
      loading := false;
    }
  }

  /** `useArchiveExecute`: only a loading flag. */
  class ExecuteHook {
    var loading: bool

    constructor()
      ensures !loading
    {
      loading := false;
    }

    /** `execute(days)` settles as the request settles, the server's reply passed on unchanged. */
    method Execute(days: int, settled: Outcome<ExecuteReply>) returns (call: Call, result: Outcome<ExecuteReply>)
      modifies this
      ensures call == CallOf(ExecuteArchive(days)) && result == settled && !loading
    {
      loading := true;
      call := CallOf(ExecuteArchive(days));
      result := settled;
      loading := false;
    }
  }

  /** `useArchiveHistory`: the last history that loaded. */
  class HistoryHook {
    var data: seq<HistoryEntry>
    var loading: bool

    constructor()
      ensures data == [] && !loading
    {
      data := [];
      loading := false;
    }

    /** `load(limit)`: a resolved reply replaces the entries; a rejection keeps them. */
    method Load(limit: int, settled: Outcome<HistoryReply>) returns (call: Call, result: Outcome<()>)
      modifies this
      ensures call == CallOf(GetArchiveHistory(limit)) && !loading
      ensures settled.Ok? ==> data == settled.value.history && result == Ok(())
      ensures settled.Fail? ==> data == old(data) && result == Fail(settled.error)
    {
      loading := true;
      call := CallOf(GetArchiveHistory(limit));
      if settled.Ok? {
        data := settled.value.history;
        result := Ok(());
      } else {
        result := Fail(settled.error);
      }
      loading := false;
    }

    /** The mount effect and `reload()`: `load` with its default limit of ten. */
    method Reload(settled: Outcome<HistoryReply>) returns (call: Call, result: Outcome<()>)
      modifies this
      ensures call == CallOf(GetArchiveHistory(DefaultHistoryLimit)) && !loading
      ensures settled.Ok? ==> data == settled.value.history && result == Ok(())
      ensures settled.Fail? ==> data == old(data) && result == Fail(settled.error)
    {
      call, result := Load(DefaultHistoryLimit, settled);
    }
  }

  // ---------------------------------------------------------------------------
  // The component

  const DefaultInactiveDays: int := 180
  const ExecuteFailedMessage: string := "Ошибка при архивации проектов"

  /** The banner after a successful execution. */
  function SuccessMessage(count: int): (m: string)
    ensures m != ExecuteFailedMessage && m != ""
  {
    var m := "Успешно заархивировано: " + IntToString(count) + " проект(ов)";
    assert m[0] == 'У' && ExecuteFailedMessage[0] == 'О';
    m
  }

  /** The banner names the archived count, and different counts give different banners. */
  lemma SuccessMessageNamesCount(a: int, b: int)
    ensures SuccessMessage(a) == SuccessMessage(b) <==> a == b
  {
    if SuccessMessage(a) == SuccessMessage(b) {
      var prefix := "Успешно заархивировано: ";
      var suffix := " проект(ов)";
      var ma := prefix + IntToString(a) + suffix;
      var mb := prefix + IntToString(b) + suffix;
      assert ma[|prefix|..|ma| - |suffix|] == IntToString(a);
      assert mb[|prefix|..|mb| - |suffix|] == IntToString(b);
      IntToStringInjective(a, b);
    }
  }

  class ArchiveManager {
    var inactiveDays: int
    var showPreview: bool
    var showConfirmDialog: bool
    var message: string
    const preview: PreviewHook
    const executor: ExecuteHook
    const history: HistoryHook

    /** The confirmation dialog is never open without a preview on screen. */
    ghost predicate Valid()
      reads this
    {
      showConfirmDialog ==> showPreview
    }

    /** The destructive button is enabled exactly after a preview that found something. */
    predicate ExecuteEnabled()
      reads this, preview
    {
      showPreview && preview.count != 0
    }

    constructor()
      ensures Valid() && fresh(preview) && fresh(executor) && fresh(history)
      ensures inactiveDays == DefaultInactiveDays && !showPreview && !showConfirmDialog && message == ""
      ensures preview.data == [] && preview.count == 0 && history.data == [] && !ExecuteEnabled()
    {
      inactiveDays := DefaultInactiveDays;
      showPreview := false;
      showConfirmDialog := false;
      message := "";
      preview := new PreviewHook();
      executor := new ExecuteHook();
      history := new HistoryHook();
    }

    /** The threshold input; the preview on screen stays, so execution uses the new threshold. */
    method SetInactiveDays(days: int)
      requires Valid()
      modifies this`inactiveDays
      ensures Valid() && inactiveDays == days
    {
      inactiveDays := days;
    }

    /** `handlePreview`: the preview shows once the request resolves; on a rejection nothing else changes. */
    method HandlePreview(settled: Outcome<PreviewReply>) returns (call: Call, result: Outcome<()>)
      requires Valid()
      modifies this`showPreview, preview
      ensures Valid()
      ensures call == CallOf(PreviewArchive(inactiveDays)) && !preview.loading
      ensures settled.Ok? ==>
        showPreview && preview.count == settled.value.count && preview.data == settled.value.projects &&
        result == Ok(()) && (ExecuteEnabled() <==> settled.value.count != 0)
      ensures settled.Fail? ==>
        showPreview == old(showPreview) && preview.count == old(preview.count) &&
        preview.data == old(preview.data) && result == Fail(settled.error)
    {
      call, result := preview.Preview(inactiveDays, settled);
      if result.Ok? {
        showPreview := true;
      }
    }

    /** The execute button: a click opens the confirmation only when the button is enabled. */
    method ClickExecute()
      requires Valid()
      modifies this`showConfirmDialog
      ensures Valid()
      ensures showConfirmDialog == (old(showConfirmDialog) || ExecuteEnabled())
      ensures !old(showConfirmDialog) && showConfirmDialog ==> showPreview && preview.count != 0
    {
      if ExecuteEnabled() {
        showConfirmDialog := true;
      }
    }

    /** The dialog's cancel button and its close gesture. */
    method CancelConfirm()
      requires Valid()
      modifies this`showConfirmDialog
      ensures Valid() && !showConfirmDialog
    {
      showConfirmDialog := false;
    }

    /**
     * `handleExecute`: archive with the current threshold. On success the
     * banner reports the count, dialog and preview close and the history
     * reloads; a failed reload lands in the same `catch` and replaces the
     * banner with the failure text. A failed execution changes only the banner.
     */
    method HandleExecute(executed: Outcome<ExecuteReply>, reloaded: Outcome<HistoryReply>)
      returns (calls: seq<Call>)
      requires Valid()
      modifies this`message, this`showConfirmDialog, this`showPreview, executor, history
      ensures Valid()
      ensures executed.Fail? ==>
        calls == [CallOf(ExecuteArchive(inactiveDays))] && message == ExecuteFailedMessage &&
        showConfirmDialog == old(showConfirmDialog) && showPreview == old(showPreview) &&
        history.data == old(history.data)
      ensures executed.Ok? ==>
        calls == [CallOf(ExecuteArchive(inactiveDays)), CallOf(GetArchiveHistory(DefaultHistoryLimit))] &&
        !showConfirmDialog && !showPreview
      ensures executed.Ok? && reloaded.Ok? ==>
        message == SuccessMessage(executed.value.count) && history.data == reloaded.value.history
      ensures executed.Ok? && reloaded.Fail? ==>
        message == ExecuteFailedMessage && history.data == old(history.data)
      ensures !executor.loading
      ensures executed.Ok? ==> !history.loading
      ensures executed.Fail? ==> history.loading == old(history.loading)
    {
      var call, result := executor.Execute(inactiveDays, executed);
      calls := [call];
      if result.Fail? {
        message := ExecuteFailedMessage;
        return;
      }
      message := SuccessMessage(result.value.count);
      showConfirmDialog := false;
      showPreview := false;
      var reloadCall, reloadResult := history.Reload(reloaded);
      calls := calls + [reloadCall];
      if reloadResult.Fail? {
        message := ExecuteFailedMessage;
      }
    }
  }

  /**
   * From a fresh screen, a preview that finds candidates enables execution,
   * and a confirmed execution that succeeds disables it again until the next
   * preview.
   */
  method PreviewThenExecute(m: ArchiveManager, found: PreviewReply, archived: ExecuteReply,
                            reloaded: Outcome<HistoryReply>)
    requires m.Valid() && found.count != 0
    modifies m, m.preview, m.executor, m.history
    ensures m.Valid() && !m.ExecuteEnabled() && !m.showConfirmDialog
    ensures m.message == (if reloaded.Ok? then SuccessMessage(archived.count) else ExecuteFailedMessage)
  {
    var _, _ := m.HandlePreview(Ok(found));
    assert m.ExecuteEnabled();
    m.ClickExecute();
    assert m.showConfirmDialog;
    var _ := m.HandleExecute(Ok(archived), reloaded);
  }
}
