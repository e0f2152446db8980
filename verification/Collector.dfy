/**
  The event-log collector (`commands/live_response_collect_cmd.py`). Every effect that
  another party can see, or that survives a crash, is an event of `trace`: a manifest
  save, a submission, a published download, a stop and a close request. A crash between
  any two steps leaves what a prefix of the trace shows.
*/
module Collector {
  import opened Common
  import opened EventLogs

  // ------------------------------------------------------------ errors and answers

  datatype Kind = ArtifactKind | SystemicKind | SizeLimitKind | OrdinaryKind

  datatype XdrError = XdrError(code: string, kind: Kind)

  /** What a step can raise: an `XDRError`, another `Exception`, or an interruption. */
  datatype Failure = Xdr(error: XdrError) | Unexpected | Interrupted

  const ARTIFACT_ERROR := XdrError("ARTIFACT_WRITE_FAILED", ArtifactKind)
  const CONFLICT_ERROR := XdrError("STATE_CONFLICT", OrdinaryKind)
  const INTERNAL_ERROR := XdrError("COLLECTION_INTERNAL_FAILURE", OrdinaryKind)
  const CLOSE_ERROR := XdrError("LIVE_RESPONSE_SESSION_CLOSE_UNCONFIRMED", OrdinaryKind)
  const BUDGET := "total-budget-exhausted"
  const UNWRITABLE := "manifest-unwritable"

  /** Failures that say nothing about one log stop the run. */
  predicate Systemic(e: XdrError) {
    e.kind.ArtifactKind? || e.kind.SystemicKind?
  }

  /** A save either replaces the manifest, fails before that, or fails after it
      (`atomic_write_secret` still changes the mode of the replaced file). */
  datatype SaveAnswer = SaveOk | SaveRaises(replaced: bool)

  datatype SubmitAnswer = SubmitAccepted(commandId: string) | SubmitRaises(failure: Failure)

  datatype PollAnswer = Polled(terminal: Option<bool>, succeeded: bool, completed: bool) | PollRaises(failure: Failure)

  /** The remote file has `size` bytes, or the transfer fails for another reason;
      `TransferOSError` is an `OSError` of the local file system. */
  datatype TransferAnswer = RemoteFile(size: nat) | TransferRaises(failure: Failure) | TransferOSError

  /** Everything that can happen to one row, whatever the service does. */
  datatype Job = Job(
    build: Option<Failure>,
    audit: Option<Failure>,
    submit: SubmitAnswer,
    poll: PollAnswer,
    transfer: TransferAnswer)

  datatype Plan = Plan(logs: seq<string>, includeAll: bool, minBytes: int, maxBytes: int, maxTotal: int)

  predicate ValidPlan(p: Plan) {
    p.minBytes >= 0 && p.maxBytes >= 1 && p.maxTotal >= 1
  }

  // ------------------------------------------------------------------- the trace

  datatype Event =
    | Saved(rows: seq<LogRow>)
    | SaveFailed
    | Submitted(path: Remote)
    | Downloaded(path: Remote, bytes: nat)
    | Stopped(reason: string)
    | CloseRequested

  /** The rows of the manifest a crash would leave on disk. */
  function OnDisk(trace: seq<Event>): Option<seq<LogRow>> {
    if trace == [] then None
    else if trace[|trace| - 1].Saved? then Some(trace[|trace| - 1].rows)
    else OnDisk(trace[..|trace| - 1])
  }

  function Submissions(trace: seq<Event>): seq<Remote> {
    if trace == [] then []
    else Submissions(trace[..|trace| - 1]) +
         if trace[|trace| - 1].Submitted? then [trace[|trace| - 1].path] else []
  }

  function DownloadedBytes(trace: seq<Event>): nat {
    if trace == [] then 0
    else DownloadedBytes(trace[..|trace| - 1]) +
         if trace[|trace| - 1].Downloaded? then trace[|trace| - 1].bytes else 0
  }

  function CloseRequests(trace: seq<Event>): nat {
    if trace == [] then 0
    else CloseRequests(trace[..|trace| - 1]) + if trace[|trace| - 1].CloseRequested? then 1 else 0
  }

  /** A row a crash would leave planned has never been submitted. */
  predicate CrashSafe(trace: seq<Event>) {
    var disk := OnDisk(trace);
    disk.Some? ==>
      forall i :: 0 <= i < |disk.value| && disk.value[i].status.Planned? && disk.value[i].remotePath.Some? ==>
        disk.value[i].remotePath.value !in Submissions(trace)
  }

  predicate CrashSafeThroughout(trace: seq<Event>) {
    trace == [] || (CrashSafeThroughout(trace[..|trace| - 1]) && CrashSafe(trace))
  }

  /** Remote files are distinct ignoring case, so this is at most one submission each. */
  predicate SubmittedOnce(trace: seq<Event>) {
    forall i, j :: 0 <= i < j < |Submissions(trace)| ==>
      Lower(Submissions(trace)[i].basename) != Lower(Submissions(trace)[j].basename)
  }

  predicate HasStopped(trace: seq<Event>) {
    exists i :: 0 <= i < |trace| && trace[i].Stopped?
  }

  predicate NothingAfterStop(trace: seq<Event>) {
    forall i, j :: 0 <= i < j < |trace| && trace[i].Stopped? ==> !trace[j].Submitted?
  }

  // -------------------------------------------------------------------- the rows

  function CompletedBytes(rows: seq<LogRow>): int {
    if rows == [] then 0
    else CompletedBytes(rows[..|rows| - 1]) +
         if rows[|rows| - 1].status.Completed? && rows[|rows| - 1].bytes.Some? then rows[|rows| - 1].bytes.value else 0
  }

  /** What every row says at every point: an accepted job keeps its command ID and the
      commands that follow it until its file is saved. */
  predicate RowOk(row: LogRow, maxBytes: int) {
    match row.status
    case Planned => row.remotePath.Some? && row.commandId.None? && row.bytes.None?
    case OutcomeUnknown => row.remotePath.Some? && row.commandId.None? && row.bytes.None?
    case Accepted =>
      && row.remotePath.Some? && row.commandId.Some? && row.bytes.None?
      && row.recovery.Some? && row.recovery.value.commandId == row.commandId.value
      && 1 <= row.recovery.value.cap <= maxBytes
    case Completed => row.commandId.Some? && row.bytes.Some? && 0 <= row.bytes.value <= maxBytes
    case Failed =>
      && row.bytes.None?
      && (row.commandId.Some? ==> row.recovery.Some? && row.recovery.value.commandId == row.commandId.value)
    case _ => row.commandId.None? && row.bytes.None?
  }

  predicate SameFiles(rows: seq<LogRow>, others: seq<LogRow>) {
    |rows| == |others| &&
    forall i :: 0 <= i < |rows| ==> rows[i].remotePath == others[i].remotePath
                                    && rows[i].listedBytes == others[i].listedBytes
  }

  /** Every submitted file belongs to a row that is no longer planned. */
  predicate SubmissionsMarked(rows: seq<LogRow>, trace: seq<Event>) {
    forall i :: 0 <= i < |rows| && rows[i].status.Planned? && rows[i].remotePath.Some? ==>
      forall k :: 0 <= k < |Submissions(trace)| ==>
        Lower(Submissions(trace)[k].basename) != Lower(rows[i].remotePath.value.basename)
  }

  /** The properties every collection keeps. */
  predicate Kept(rows: seq<LogRow>, trace: seq<Event>, remaining: int, stopped: bool, plan: Plan) {
    && remaining >= 0
    && remaining + CompletedBytes(rows) == plan.maxTotal
    && CompletedBytes(rows) == DownloadedBytes(trace)
    && (forall i :: 0 <= i < |rows| ==> RowOk(rows[i], plan.maxBytes))
    && DistinctPaths(rows)
    && SubmissionsMarked(rows, trace)
    && CrashSafeThroughout(trace)
    && SubmittedOnce(trace)
    && NothingAfterStop(trace)
    && (HasStopped(trace) ==> stopped)
  }

  // -------------------------------------------------- what one event does to the trace

  lemma Extended(trace: seq<Event>, e: Event)
    ensures OnDisk(trace + [e]) == if e.Saved? then Some(e.rows) else OnDisk(trace)
    ensures Submissions(trace + [e]) == Submissions(trace) + if e.Submitted? then [e.path] else []
    ensures DownloadedBytes(trace + [e]) == DownloadedBytes(trace) + if e.Downloaded? then e.bytes else 0
    ensures CloseRequests(trace + [e]) == CloseRequests(trace) + if e.CloseRequested? then 1 else 0
    ensures CrashSafeThroughout(trace + [e]) <==> CrashSafeThroughout(trace) && CrashSafe(trace + [e])
    ensures HasStopped(trace + [e]) <==> HasStopped(trace) || e.Stopped?
  {
    var t := trace + [e];
    assert t[..|t| - 1] == trace && t[|t| - 1] == e;
    if HasStopped(trace) {
      var i :| 0 <= i < |trace| && trace[i].Stopped?;
      assert t[i].Stopped?;
    }
  }

  lemma {:induction false} SafeNow(trace: seq<Event>)
    requires CrashSafeThroughout(trace)
    ensures CrashSafe(trace)
  {
  }

  lemma KeptBySave(rows: seq<LogRow>, trace: seq<Event>, remaining: int, stopped: bool, plan: Plan)
    requires Kept(rows, trace, remaining, stopped, plan)
    ensures Kept(rows, trace + [Saved(rows)], remaining, stopped, plan)
  {
    var t := trace + [Saved(rows)];
    Extended(trace, Saved(rows));
    forall i | 0 <= i < |rows| && rows[i].status.Planned? && rows[i].remotePath.Some?
      ensures rows[i].remotePath.value !in Submissions(t)
    {
    }
    assert NothingAfterStop(t);
  }

  /** A failed save, a stop or a close request shows nothing new on disk. */
  lemma KeptByQuietEvent(rows: seq<LogRow>, trace: seq<Event>, remaining: int, stopped: bool, plan: Plan, e: Event)
    requires Kept(rows, trace, remaining, stopped, plan)
    requires e.SaveFailed? || e.Stopped? || e.CloseRequested?
    ensures Kept(rows, trace + [e], remaining, stopped || e.Stopped?, plan)
  {
    Extended(trace, e);
    SafeNow(trace);
    assert NothingAfterStop(trace + [e]);
  }

  /** Sending is safe once the row on disk is marked and nothing has stopped. */
  lemma KeptBySubmission(rows: seq<LogRow>, trace: seq<Event>, remaining: int, plan: Plan, i: nat)
    requires Kept(rows, trace, remaining, false, plan)
    requires i < |rows| && rows[i].status.OutcomeUnknown? && OnDisk(trace) == Some(rows)
    requires Unsubmitted(rows, trace, i)
    ensures Kept(rows, trace + [Submitted(rows[i].remotePath.value)], remaining, false, plan)
  {
    var e := Submitted(rows[i].remotePath.value);
    var t := trace + [e];
    Extended(trace, e);
    SafeNow(trace);
    MarkedStays(rows, trace, i);
    forall k | 0 <= k < |rows| && rows[k].status.Planned? && rows[k].remotePath.Some?
      ensures rows[k].remotePath.value !in Submissions(t)
    {
      assert k != i;
    }
    assert NothingAfterStop(t);
    assert SubmittedOnce(t);
  }

  predicate Unsubmitted(rows: seq<LogRow>, trace: seq<Event>, i: nat)
    requires i < |rows| && rows[i].remotePath.Some?
  {
    forall k :: 0 <= k < |Submissions(trace)| ==>
      Lower(Submissions(trace)[k].basename) != Lower(rows[i].remotePath.value.basename)
  }

  lemma MarkedStays(rows: seq<LogRow>, trace: seq<Event>, i: nat)
    requires DistinctPaths(rows) && SubmissionsMarked(rows, trace)
    requires i < |rows| && !rows[i].status.Planned? && rows[i].remotePath.Some?
    ensures SubmissionsMarked(rows, trace + [Submitted(rows[i].remotePath.value)])
  {
    var e := Submitted(rows[i].remotePath.value);
    Extended(trace, e);
    forall j | 0 <= j < |rows| && rows[j].status.Planned? && rows[j].remotePath.Some?
      ensures Unsubmitted(rows, trace + [e], j)
    {
      assert Lower(rows[i].remotePath.value.basename) != Lower(rows[j].remotePath.value.basename) by {
        if i < j { } else { assert j < i; }
      }
    }
  }

  lemma {:induction false} CompletedBytesUpdate(rows: seq<LogRow>, i: nat, row: LogRow)
    requires i < |rows|
    ensures CompletedBytes(rows[i := row]) == CompletedBytes(rows) - CompletedBytes([rows[i]]) + CompletedBytes([row])
  {
    var n := |rows| - 1;
    if i == n {
      assert rows[i := row][..n] == rows[..n];
      assert [row][..0] == [] && [rows[i]][..0] == [];
    } else {
      assert rows[i := row][..n] == rows[..n][i := row];
      CompletedBytesUpdate(rows[..n], i, row);
    }
  }

  /** A row may change as long as it keeps its file, stays well formed, is not planned
      again, and does not (un)complete. */
  lemma KeptByRow(rows: seq<LogRow>, trace: seq<Event>, remaining: int, stopped: bool, plan: Plan, i: nat, row: LogRow)
    requires Kept(rows, trace, remaining, stopped, plan)
    requires i < |rows| && RowOk(row, plan.maxBytes) && row.remotePath == rows[i].remotePath
    requires row.status.Planned? ==> rows[i].status.Planned?
    requires CompletedBytes([row]) == CompletedBytes([rows[i]])
    ensures Kept(rows[i := row], trace, remaining, stopped, plan)
  {
    CompletedBytesUpdate(rows, i, row);
  }

  /** Saving a download moves its bytes from the budget to the row. */
  lemma KeptByDownload(rows: seq<LogRow>, trace: seq<Event>, remaining: int, stopped: bool, plan: Plan,
                       i: nat, row: LogRow, bytes: nat)
    requires Kept(rows, trace, remaining, stopped, plan)
    requires i < |rows| && rows[i].status.Accepted? && bytes <= remaining && bytes <= plan.maxBytes
    requires row.status.Completed? && row.bytes == Some(bytes) && RowOk(row, plan.maxBytes)
    requires row.remotePath == rows[i].remotePath && row.remotePath.Some?
    ensures Kept(rows[i := row], trace + [Downloaded(row.remotePath.value, bytes)], remaining - bytes, stopped, plan)
  {
    var e := Downloaded(row.remotePath.value, bytes);
    Extended(trace, e);
    SafeNow(trace);
    CompletedBytesUpdate(rows, i, row);
    assert [row][..0] == [] && [rows[i]][..0] == [];
    assert NothingAfterStop(trace + [e]);
  }

  // -------------------------------------------------------------------- the results

  /** What holds of the effects of a collection, wherever it is stopped: a row the manifest
      on disk shows as planned has never been submitted, no file has been submitted twice,
      nothing after a stop, and no more bytes than the total have been saved. */
  predicate Sound(trace: seq<Event>, plan: Plan) {
    CrashSafe(trace) && SubmittedOnce(trace) && NothingAfterStop(trace) && DownloadedBytes(trace) <= plan.maxTotal
  }

  predicate AlwaysSound(trace: seq<Event>, plan: Plan) {
    forall k :: 0 <= k <= |trace| ==> Sound(trace[..k], plan)
  }

  lemma {:induction false} PrefixIsSound(trace: seq<Event>, plan: Plan, k: nat)
    requires CrashSafeThroughout(trace) && Sound(trace, plan) && k <= |trace|
    ensures Sound(trace[..k], plan)
  {
    if k < |trace| {
      var t := trace[..|trace| - 1];
      assert t[..k] == trace[..k] && t + [trace[|trace| - 1]] == trace;
      Extended(t, trace[|trace| - 1]);
      SafeNow(t);
      assert SubmittedOnce(t) by {
        var all, some := Submissions(trace), Submissions(t);
        assert |some| <= |all| && forall i :: 0 <= i < |some| ==> some[i] == all[i];
      }
      PrefixIsSound(t, plan, k);
    } else {
      assert trace[..k] == trace;
    }
  }

  /** Every prefix of the effects of a collection is sound, and the budget is conserved. */
  lemma EveryPrefixIsSound(rows: seq<LogRow>, trace: seq<Event>, remaining: int, stopped: bool, plan: Plan)
    requires Kept(rows, trace, remaining, stopped, plan)
    ensures AlwaysSound(trace, plan)
    ensures 0 <= remaining == plan.maxTotal - CompletedBytes(rows) == plan.maxTotal - DownloadedBytes(trace)
  {
    SafeNow(trace);
    forall k | 0 <= k <= |trace| ensures Sound(trace[..k], plan) {
      PrefixIsSound(trace, plan, k);
    }
  }
}
