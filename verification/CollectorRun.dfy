/**
  `_Collector` itself: the object whose methods update the rows, the remaining budget,
  the failures and the stop reason step by step, against any service and any disk.
*/
module CollectorRun {
  import opened Common
  import opened EventLogs
  import opened Collector

  // ----------------------------------------------- reference: where a row must end up

  /** The row status after an accepted submission, by what the service then answered;
      `recorded` is whether the acceptance could be saved (otherwise nothing follows). */
  function Settled(job: Job, cap: int, recorded: bool): Status {
    if !recorded || job.poll.PollRaises? || job.poll.terminal != Some(true) then Accepted
    else if !job.poll.succeeded then Failed
    else if job.transfer.RemoteFile? && job.transfer.size <= cap then Completed
    else Accepted
  }

  function StatusAfter(job: Job, cap: int, recorded: bool): Status {
    match job.submit
    case SubmitAccepted(_) => Settled(job, cap, recorded)
    case SubmitRaises(Xdr(e)) => if e.code == "OUTCOME_UNKNOWN" then OutcomeUnknown else Failed
    case SubmitRaises(_) => OutcomeUnknown
  }

  /** Whether a fetch that returns normally after sending leaves the collection stopped;
      `last` is whether the save that ends it succeeds. */
  predicate StopsAfter(job: Job, cap: int, maxBytes: int, recorded: bool, last: bool) {
    match job.submit
    case SubmitRaises(f) => f.Xdr? && Systemic(f.error)
    case SubmitAccepted(_) => Interrupts(job, cap, maxBytes, recorded, last)
  }

  /** After an acceptance: an unsaved manifest, a systemic poll error, or any failed
      transfer, since that leaves an unknown part of the budget spent. */
  predicate Interrupts(job: Job, cap: int, maxBytes: int, recorded: bool, last: bool) {
    || !recorded
    || !last
    || (job.poll.PollRaises? && job.poll.failure.Xdr? &&
        (Systemic(job.poll.failure.error) || (job.poll.failure.error.kind.SizeLimitKind? && cap < maxBytes)))
    || (Transferring(job) && Settled(job, cap, true) != Completed)
  }

  /** Whether the three saves around a submission work: the mark before it, the record of
      the answer, and the one that ends the fetch. */
  datatype Written = Written(marked: bool, recorded: bool, last: bool)

  function WrittenFrom(disk: nat -> SaveAnswer, s: nat): Written {
    Written(disk(s).SaveOk?, disk(s + 1).SaveOk?, disk(s + 2).SaveOk?)
  }

  function SaveEvents(answer: SaveAnswer, rows: seq<LogRow>): seq<Event> {
    match answer
    case SaveOk => [Saved(rows)]
    case SaveRaises(replaced) => (if replaced then [Saved(rows)] else []) + [SaveFailed]
  }

  /** What escapes the fetch of one row. */
  function Escapes(row: LogRow, remaining: int, job: Job, w: Written): Option<Failure> {
    if !Affordable(row, remaining) then if w.marked then None else Some(Xdr(ARTIFACT_ERROR))
    else if job.build.Some? then job.build
    else if !w.marked then Some(Xdr(ARTIFACT_ERROR))
    else if job.audit.Some? then job.audit
    else
      match job.submit
      case SubmitRaises(failure) =>
        if !failure.Xdr? then Some(failure) else if w.recorded then None else Some(Xdr(ARTIFACT_ERROR))
      case SubmitAccepted(_) =>
        if w.recorded then EscapesAfter(job) else None
  }

  /** After an acceptance every `XDRError` is handled; anything else escapes. */
  function EscapesAfter(job: Job): Option<Failure> {
    if job.poll.PollRaises? then if job.poll.failure.Xdr? then None else Some(job.poll.failure)
    else if Transferring(job) && job.transfer.TransferRaises? && !job.transfer.failure.Xdr? then Some(job.transfer.failure)
    else None
  }

  /** The next row follows, the run stops, or an interruption breaks it off. */
  datatype Signal = Goes | Halts | Breaks

  function EndOf(raised: Option<Failure>, stopped: Option<string>): Signal {
    if raised.Some? then Breaks else if stopped.Some? then Halts else Goes
  }

  function SignalOf(row: LogRow, remaining: int, job: Job, maxBytes: int, w: Written): Signal {
    var escapes := Escapes(row, remaining, job, w);
    if escapes == Some(Interrupted) then Breaks
    else if escapes.Some? || !Affordable(row, remaining) then Halts
    else if StopsAfter(job, Min(maxBytes, remaining), maxBytes, w.recorded, w.last) then Halts
    else Goes
  }

  /** What a row must be after its fetch: untouched but for its error if it was never marked,
      unknown if it was marked and not sent, and otherwise as the service answered. */
  predicate Tried(before: LogRow, after: LogRow, remaining: int, job: Job, maxBytes: int, w: Written) {
    && after.remotePath == before.remotePath && after.listedBytes == before.listedBytes
    && if !Affordable(before, remaining) || job.build.Some? then after.(error := None) == before.(error := None)
       else if !w.marked || job.audit.Some? then after.status.OutcomeUnknown? && after.commandId.None? && after.bytes.None?
       else
         && after.status == StatusAfter(job, Min(maxBytes, remaining), w.recorded)
         && after.commandId == (if job.submit.SubmitAccepted? then Some(job.submit.commandId) else None)
         && after.bytes == (if after.status.Completed? then Some(job.transfer.size) else None)
  }

  /** Every row planned before was completed. */
  predicate CompletedUpTo(before: seq<LogRow>, after: seq<LogRow>, n: nat)
    requires n <= |before| == |after|
  {
    forall j :: 0 <= j < n && before[j].status.Planned? ==> after[j].status.Completed?
  }

  predicate AllCompleted(before: seq<LogRow>, after: seq<LogRow>) {
    |before| == |after| && CompletedUpTo(before, after, |before|)
  }

  ghost predicate Selected(listed: seq<Listed>, plan: Plan, rows: seq<LogRow>) {
    exists absent, wanted ::
      Selection(listed, plan.logs, plan.includeAll, plan.minBytes, plan.maxBytes, absent, wanted, rows)
  }

  /** The rows are those of a selection of this listing whose planned sizes fit the total. */
  ghost predicate FromListing(listing: seq<RawRow>, plan: Plan, rows: seq<LogRow>) {
    exists planned ::
      && Parsed(listing).Ok? && Selected(Parsed(listing).value, plan, planned)
      && PlannedTotal(planned) <= plan.maxTotal && SameFiles(rows, planned)
  }

  /** The planned sizes of the selection exceed the total. */
  ghost predicate Oversized(listing: seq<RawRow>, plan: Plan) {
    && Parsed(listing).Ok?
    && exists planned :: Selected(Parsed(listing).value, plan, planned) && PlannedTotal(planned) > plan.maxTotal
  }

  /** Nothing is fetched: the session, the listing, the sizes or the first save are in the way. */
  ghost predicate Unprepared(setup: Setup, plan: Plan, saved: bool) {
    setup.session.Some? || Parsed(setup.listing).Err? || Oversized(setup.listing, plan) || !saved
  }

  predicate Affordable(row: LogRow, remaining: int) {
    remaining > 0 && (row.listedBytes.Some? ==> row.listedBytes.value <= remaining)
  }

  function PlannedTotal(rows: seq<LogRow>): int {
    if rows == [] then 0
    else PlannedTotal(rows[..|rows| - 1]) +
         if rows[|rows| - 1].status.Planned? then rows[|rows| - 1].listedBytes.GetOr(0) else 0
  }

  /** A stopped collection can always be told from a clean one. */
  predicate Accountable(rows: seq<LogRow>, failures: seq<XdrError>, stopped: Option<string>) {
    stopped.Some? ==> failures != [] || exists i :: 0 <= i < |rows| && rows[i].status.Planned?
  }

  datatype OpenAnswer = Opened | OpenRaises(failure: Failure) | OpenedThenRaises(failure: Failure)

  datatype CloseAnswer = CloseInactive | CloseUnconfirmed | CloseRaises(failure: Failure)

  /** Everything around the rows: `session` covers a session that is not running, is not
      Windows, or whose definitions or listing cannot be read. */
  datatype Setup = Setup(
    device: bool,
    open: OpenAnswer,
    session: Option<Failure>,
    listing: seq<RawRow>,
    close: CloseAnswer,
    report: Option<Failure>)

  /** What is raised before there is a session to collect from. */
  function Opening(setup: Setup): Option<Failure> {
    if setup.open.OpenRaises? || (setup.device && setup.open.OpenedThenRaises?) then Some(setup.open.failure) else None
  }

  function Closing(answer: CloseAnswer): Option<Failure> {
    if answer.CloseRaises? && !answer.failure.Xdr? then Some(answer.failure) else None
  }

  /** Everything around the rows goes well. */
  predicate Smooth(setup: Setup) {
    && Opening(setup).None?
    && setup.session.None? && Parsed(setup.listing).Ok? && setup.close.CloseInactive? && setup.report.None?
  }

  /** The job is built, audited, accepted, succeeds, and its file has this size. */
  predicate Serves(job: Job, size: int) {
    && job.build.None? && job.audit.None? && job.submit.SubmitAccepted?
    && job.poll.Polled? && job.poll.terminal == Some(true) && job.poll.succeeded
    && job.transfer.RemoteFile? && job.transfer.size == size
  }

  /** The row of a listed file whose size is within the bounds. */
  predicate Wanted(row: LogRow, plan: Plan) {
    row.remotePath.Some? && row.listedBytes.Some? && plan.minBytes <= row.listedBytes.value <= plan.maxBytes
  }

  function WantedTotal(rows: seq<LogRow>, plan: Plan): int {
    if rows == [] then 0
    else WantedTotal(rows[..|rows| - 1], plan) +
         if Wanted(rows[|rows| - 1], plan) then rows[|rows| - 1].listedBytes.value else 0
  }

  /** When the row is reached the wanted rows before it have not used up the total. */
  predicate Reached(rows: seq<LogRow>, plan: Plan, i: nat)
    requires i < |rows|
  {
    Wanted(rows[i], plan) && WantedTotal(rows[..i], plan) < plan.maxTotal
  }

  datatype Outcome = Success | PartialSuccess | Raised(failure: Failure)

  class Collection {
    const plan: Plan
    const disk: nat -> SaveAnswer
    const jobs: nat -> Job
    var rows: seq<LogRow>
    var remaining: int
    var stopped: Option<string>
    var failures: seq<XdrError>
    var owned: bool
    var trace: seq<Event>
    var saves: nat

    ghost predicate Valid()
      reads this
    {
      ValidPlan(plan) && Kept(rows, trace, remaining, stopped.Some?, plan)
    }

    constructor (plan: Plan, disk: nat -> SaveAnswer, jobs: nat -> Job)
      requires ValidPlan(plan)
      ensures Valid() && this.plan == plan && this.disk == disk && this.jobs == jobs
      ensures rows == [] && trace == [] && failures == [] && stopped.None? && !owned && saves == 0
      ensures remaining == plan.maxTotal
    {
      this.plan, this.disk, this.jobs := plan, disk, jobs;
      rows, trace, failures, stopped, owned, saves := [], [], [], None, false, 0;
      remaining := plan.maxTotal;
    }

    // ------------------------------------------------------------------ small steps

    /** `_save`: replace the manifest by the current rows. */
    method Save() returns (ok: bool)
      requires Valid()
      modifies `trace, `saves
      ensures Valid()
      ensures old(trace) <= trace
      ensures saves == old(saves) + 1 && ok == disk(old(saves)).SaveOk?
      ensures ok ==> OnDisk(trace) == Some(rows)
      // the manifest is replaced, or not, and a failure is noted
      ensures trace == old(trace) + SaveEvents(disk(old(saves)), rows)
      ensures Submissions(trace) == Submissions(old(trace)) && CloseRequests(trace) == CloseRequests(old(trace))
      ensures HasStopped(trace) == HasStopped(old(trace))
    {
      hide Kept, OnDisk, Submissions, CloseRequests, DownloadedBytes, CompletedBytes, HasStopped;
      var answer := disk(saves);
      saves := saves + 1;
      ok := answer.SaveOk?;
      if ok || answer.replaced {
        KeptBySave(rows, trace, remaining, stopped.Some?, plan);
        Extended(trace, Saved(rows));
        trace := trace + [Saved(rows)];
      }
      if !ok {
        KeptByQuietEvent(rows, trace, remaining, stopped.Some?, plan, SaveFailed);
        Extended(trace, SaveFailed);
        trace := trace + [SaveFailed];
      }
    }

    method Stop(reason: string)
      requires Valid()
      modifies `trace, `stopped
      ensures Valid() && stopped == Some(reason)
      ensures old(trace) <= trace
      ensures Submissions(trace) == Submissions(old(trace)) && CloseRequests(trace) == CloseRequests(old(trace))
    {
      hide Kept, OnDisk, Submissions, CloseRequests, DownloadedBytes, CompletedBytes, HasStopped;
      KeptByQuietEvent(rows, trace, remaining, stopped.Some?, plan, Stopped(reason));
      Extended(trace, Stopped(reason));
      trace, stopped := trace + [Stopped(reason)], Some(reason);
    }

    /** Change one row without touching its file, its bytes or its claim to be planned. */
    method SetRow(i: nat, row: LogRow)
      requires Valid() && i < |rows|
      requires RowOk(row, plan.maxBytes) && row.remotePath == rows[i].remotePath
      requires row.status.Planned? ==> rows[i].status.Planned?
      requires CompletedBytes([row]) == CompletedBytes([rows[i]])
      modifies `rows
      ensures Valid() && rows == old(rows)[i := row]
    {
      KeptByRow(rows, trace, remaining, stopped.Some?, plan, i, row);
      rows := rows[i := row];
    }

    /** `_fail`: note the error on the row, keep it, and stop the run if it is systemic. */
    method Fail(i: nat, error: XdrError, stop: bool)
      requires Valid() && i < |rows|
      modifies `rows, `failures, `trace, `stopped
      ensures Valid()
      ensures old(trace) <= trace
      ensures rows == old(rows)[i := old(rows)[i].(error := Some(error.code))]
      ensures failures == old(failures) + [error]
      ensures stopped == if stop || Systemic(error) then Some(error.code) else old(stopped)
      ensures Submissions(trace) == Submissions(old(trace)) && CloseRequests(trace) == CloseRequests(old(trace))
    {
      hide Kept, OnDisk, Submissions, CloseRequests, DownloadedBytes, CompletedBytes, HasStopped;
      KeptRow(rows, trace, remaining, stopped.Some?, plan, i);
      SameBytes(rows[i], rows[i].(error := Some(error.code)));
      SetRow(i, rows[i].(error := Some(error.code)));
      failures := failures + [error];
      if stop || Systemic(error) {
        Stop(error.code);
      }
    }

    // ------------------------------------------------------------------------ _fetch

    /** `_fetch`: mark the row, save, send once, follow. `raised` is what escapes it. */
    method Fetch(i: nat) returns (raised: Option<Failure>)
      requires Valid() && i < |rows| && rows[i].status.Planned? && stopped.None?
      modifies `rows, `remaining, `stopped, `failures, `trace, `saves
      ensures Valid()
      ensures old(trace) <= trace
      ensures |rows| == |old(rows)| && forall j :: 0 <= j < |rows| && j != i ==> rows[j] == old(rows)[j]
      ensures rows[i].remotePath == old(rows)[i].remotePath && rows[i].listedBytes == old(rows)[i].listedBytes
      ensures CloseRequests(trace) == CloseRequests(old(trace))
      ensures rows[i].status.Completed? && raised.None? && stopped.None? ==> failures == old(failures)
      // sent exactly when affordable, buildable, recorded before sending, and audited
      ensures Submissions(trace) == Submissions(old(trace)) +
        if Sent(old(rows)[i], old(remaining), jobs(i), disk(old(saves)).SaveOk?) then [rows[i].remotePath.value] else []
      ensures !Affordable(old(rows)[i], old(remaining)) ==>
        rows[i] == old(rows)[i].(error := Some("total-budget-exhausted")) && stopped == Some("total-budget-exhausted")
      // once sent, the row says what the service answered
      ensures Sent(old(rows)[i], old(remaining), jobs(i), disk(old(saves)).SaveOk?) ==>
        var cap := Min(plan.maxBytes, old(remaining));
        var recorded := disk(old(saves) + 1).SaveOk?;
        && rows[i].status == StatusAfter(jobs(i), cap, recorded)
        && (jobs(i).submit.SubmitAccepted? ==> rows[i].commandId == Some(jobs(i).submit.commandId))
        && (rows[i].status.Completed? ==> rows[i].bytes == Some(jobs(i).transfer.size))
        && (raised.None? ==> (stopped.Some? <==> StopsAfter(jobs(i), cap, plan.maxBytes, recorded, disk(old(saves) + 2).SaveOk?)))
      ensures remaining == old(remaining) - if rows[i].status.Completed? then rows[i].bytes.value else 0
      ensures raised.None? ==> Accountable(rows, failures, stopped)
      ensures raised.None? && rows[i].status.Planned? ==> stopped.Some?
      // the row, what escapes and whether the run goes on, by the answers alone
      ensures Tried(old(rows)[i], rows[i], old(remaining), jobs(i), plan.maxBytes, WrittenFrom(disk, old(saves)))
      ensures raised == Escapes(old(rows)[i], old(remaining), jobs(i), WrittenFrom(disk, old(saves)))
      ensures raised.None? ==>
        (stopped.Some? <==> SignalOf(old(rows)[i], old(remaining), jobs(i), plan.maxBytes, WrittenFrom(disk, old(saves))).Halts?)
    {
      var job := jobs(i);
      if !Affordable(rows[i], remaining) {
        raised := Exhausted(i);
        return;
      }
      var sent;
      raised, sent := Send(i);
      KeptRow(rows, trace, remaining, stopped.Some?, plan, i);
      if !sent {
        return;
      }
      match job.submit
      case SubmitRaises(failure) =>
        if !failure.Xdr? {
          return Some(failure);
        }
        raised := Rejected(i, failure.error);
      case SubmitAccepted(commandId) =>
        raised := Accept(i, commandId);
        KeptRow(rows, trace, remaining, stopped.Some?, plan, i);
    }

    /** The row does not fit the remaining budget: stop before sending anything. */
    method Exhausted(i: nat) returns (raised: Option<Failure>)
      requires Valid() && i < |rows| && rows[i].status.Planned?
      modifies `rows, `stopped, `trace, `saves
      ensures Valid() && |rows| == |old(rows)|
      ensures old(trace) <= trace
      ensures rows == old(rows)[i := old(rows)[i].(error := Some(BUDGET))] && stopped == Some(BUDGET)
      ensures raised == if disk(old(saves)).SaveOk? then None else Some(Xdr(ARTIFACT_ERROR))
      ensures Submissions(trace) == Submissions(old(trace)) && CloseRequests(trace) == CloseRequests(old(trace))
    {
      hide Kept, OnDisk, Submissions, CloseRequests, DownloadedBytes, CompletedBytes, HasStopped;
      KeptRow(rows, trace, remaining, stopped.Some?, plan, i);
      SameBytes(rows[i], rows[i].(error := Some(BUDGET)));
      SetRow(i, rows[i].(error := Some(BUDGET)));
      Stop(BUDGET);
      var saved := Save();
      return if saved then None else Some(Xdr(ARTIFACT_ERROR));
    }

    /** Up to the submission: the row is recorded as unknown before anything is sent. */
    method Send(i: nat) returns (raised: Option<Failure>, sent: bool)
      requires Valid() && i < |rows| && rows[i].status.Planned? && stopped.None?
      modifies `rows, `trace, `saves
      ensures Valid() && |rows| == |old(rows)|
      ensures old(trace) <= trace
      ensures rows == old(rows)[i := old(rows)[i].(status := rows[i].status)]
      ensures rows[i].status.Planned? || rows[i].status.OutcomeUnknown?
      ensures sent <==> jobs(i).build.None? && disk(old(saves)).SaveOk? && jobs(i).audit.None?
      ensures sent <==> raised.None?
      ensures raised == if jobs(i).build.Some? then jobs(i).build
                        else if !disk(old(saves)).SaveOk? then Some(Xdr(ARTIFACT_ERROR)) else jobs(i).audit
      ensures rows[i].status.Planned? <==> jobs(i).build.Some?
      ensures sent ==> rows[i].status.OutcomeUnknown? && saves == old(saves) + 1
      ensures Submissions(trace) == Submissions(old(trace)) + if sent then [old(rows)[i].remotePath.value] else []
      ensures CloseRequests(trace) == CloseRequests(old(trace))
    {
      hide SaveEvents;
      var job := jobs(i);
      sent := false;
      if job.build.Some? {
        raised := job.build;
        return;
      }
      SameBytes(rows[i], rows[i].(status := OutcomeUnknown));
      SetRow(i, rows[i].(status := OutcomeUnknown));
      var saved := Save();
      if !saved {
        raised := Some(Xdr(ARTIFACT_ERROR));
        return;
      }
      if job.audit.Some? {
        raised := job.audit;
        return;
      }
      KeptBySubmission(rows, trace, remaining, plan, i);
      Extended(trace, Submitted(rows[i].remotePath.value));
      trace := trace + [Submitted(rows[i].remotePath.value)];
      return None, true;
    }

    /** The service refused the submission, or its fate is unknown. */
    method Rejected(i: nat, error: XdrError) returns (raised: Option<Failure>)
      requires Valid() && i < |rows| && rows[i].status.OutcomeUnknown? && stopped.None?
      modifies `rows, `stopped, `failures, `trace, `saves
      ensures Valid() && |rows| == |old(rows)|
      ensures old(trace) <= trace
      ensures rows == old(rows)[i := old(rows)[i].(
        status := if error.code == "OUTCOME_UNKNOWN" then OutcomeUnknown else Failed, error := Some(error.code))]
      ensures failures != [] && (stopped.Some? <==> Systemic(error))
      ensures raised == if disk(old(saves)).SaveOk? then None else Some(Xdr(ARTIFACT_ERROR))
      ensures Submissions(trace) == Submissions(old(trace)) && CloseRequests(trace) == CloseRequests(old(trace))
    {
      hide Kept, OnDisk, Submissions, CloseRequests, DownloadedBytes, CompletedBytes, HasStopped;
      KeptRow(rows, trace, remaining, stopped.Some?, plan, i);
      if error.code != "OUTCOME_UNKNOWN" {
        SameBytes(rows[i], rows[i].(status := Failed));
        SetRow(i, rows[i].(status := Failed));
      }
      Fail(i, error, false);
      var saved := Save();
      return if saved then None else Some(Xdr(ARTIFACT_ERROR));
    }

    /** The job exists: keep its ID and recovery commands, then follow it. */
    method Accept(i: nat, commandId: string) returns (raised: Option<Failure>)
      requires Valid() && i < |rows| && rows[i].status.OutcomeUnknown? && stopped.None? && remaining > 0
      modifies `rows, `remaining, `stopped, `failures, `trace, `saves
      ensures Valid() && |rows| == |old(rows)|
      ensures old(trace) <= trace
      ensures rows == old(rows)[i := rows[i]]
      ensures rows[i].remotePath == old(rows)[i].remotePath && rows[i].listedBytes == old(rows)[i].listedBytes
      ensures rows[i].commandId == Some(commandId)
      ensures rows[i].status.Completed? && raised.None? && stopped.None? ==> failures == old(failures)
      ensures rows[i].status == Settled(jobs(i), Min(plan.maxBytes, old(remaining)), disk(old(saves)).SaveOk?)
      ensures rows[i].status.Completed? ==> rows[i].bytes == Some(jobs(i).transfer.size)
      ensures remaining == old(remaining) - if rows[i].status.Completed? then rows[i].bytes.value else 0
      ensures Submissions(trace) == Submissions(old(trace)) && CloseRequests(trace) == CloseRequests(old(trace))
      ensures raised.Some? ==> !raised.value.Xdr?
      ensures raised == if disk(old(saves)).SaveOk? then EscapesAfter(jobs(i)) else None
      ensures raised.None? ==>
        (stopped.Some? <==> Interrupts(jobs(i), Min(plan.maxBytes, old(remaining)), plan.maxBytes,
                                       disk(old(saves)).SaveOk?, disk(old(saves) + 1).SaveOk?))
      ensures raised.None? && stopped.Some? ==> failures != []
    {
      hide Kept, OnDisk, Submissions, CloseRequests, DownloadedBytes, CompletedBytes, HasStopped;
      KeptRow(rows, trace, remaining, stopped.Some?, plan, i);
      var cap := Min(plan.maxBytes, remaining);
      var accepted := rows[i].(status := Accepted, commandId := Some(commandId),
                               recovery := Some(Recovery(commandId, cap)));
      SameBytes(rows[i], accepted);
      SetRow(i, accepted);
      var failure: Option<Failure> := Some(Xdr(ARTIFACT_ERROR));
      var saved := Save();
      if saved {
        failure := Follow(i, cap);
      }
      if failure.None? || !failure.value.Xdr? {
        return failure;
      }
      FollowFailed(i, failure.value.error, cap);
      return None;
    }

    /** The handler of `_fetch` for an error after acceptance. */
    method FollowFailed(i: nat, error: XdrError, cap: int)
      requires Valid() && i < |rows|
      modifies `rows, `stopped, `failures, `trace, `saves
      ensures Valid() && |rows| == |old(rows)|
      ensures old(trace) <= trace
      ensures rows == old(rows)[i := old(rows)[i].(error := rows[i].error)]
      ensures failures != []
      // what is reported: the budget if it is what limited the download, the error otherwise
      ensures failures == old(failures) + [error]
      ensures rows[i].error ==
        Some(if error.kind.SizeLimitKind? && cap < plan.maxBytes then "total-budget-exhausted" else error.code)
      ensures stopped == if !disk(old(saves)).SaveOk? then Some("manifest-unwritable")
                         else if error.kind.SizeLimitKind? && cap < plan.maxBytes then Some("total-budget-exhausted")
                         else if Systemic(error) then Some(error.code) else old(stopped)
      ensures stopped.Some? <==>
        old(stopped).Some? || Systemic(error) || (error.kind.SizeLimitKind? && cap < plan.maxBytes) ||
        !disk(old(saves)).SaveOk?
      ensures Submissions(trace) == Submissions(old(trace)) && CloseRequests(trace) == CloseRequests(old(trace))
    {
      hide Kept, OnDisk, Submissions, CloseRequests, DownloadedBytes, CompletedBytes, HasStopped;
      var budgetBound := error.kind.SizeLimitKind? && cap < plan.maxBytes;
      Fail(i, error, budgetBound);
      if budgetBound {
        KeptRow(rows, trace, remaining, stopped.Some?, plan, i);
        SameBytes(rows[i], rows[i].(error := Some(BUDGET)));
        SetRow(i, rows[i].(error := Some(BUDGET)));
        Stop(BUDGET);
      }
      var saved := Save();
      if !saved {
        Stop(UNWRITABLE);
      }
    }

    /** `_follow`: poll, then download within the cap. */
    method Follow(i: nat, cap: int) returns (raised: Option<Failure>)
      requires Valid() && i < |rows| && rows[i].status.Accepted? && stopped.None?
      requires cap == Min(plan.maxBytes, remaining)
      modifies `rows, `remaining, `stopped, `failures, `trace, `saves
      ensures Valid() && |rows| == |old(rows)|
      ensures old(trace) <= trace
      ensures rows == old(rows)[i := rows[i]]
      ensures rows[i].remotePath == old(rows)[i].remotePath && rows[i].listedBytes == old(rows)[i].listedBytes
      ensures rows[i].commandId == old(rows)[i].commandId
      ensures rows[i].status.Completed? && raised.None? && stopped.None? ==> failures == old(failures)
      ensures rows[i].status == Settled(jobs(i), cap, true)
      ensures rows[i].status.Completed? ==> rows[i].bytes == Some(jobs(i).transfer.size)
      ensures remaining == old(remaining) - if rows[i].status.Completed? then rows[i].bytes.value else 0
      ensures Submissions(trace) == Submissions(old(trace)) && CloseRequests(trace) == CloseRequests(old(trace))
      ensures raised.Some? && !raised.value.Xdr? ==> raised == EscapesAfter(jobs(i))
      ensures raised.None? || raised.value.Xdr? ==> EscapesAfter(jobs(i)).None?
      // a file over the cap fails as such
      ensures Transferring(jobs(i)) && jobs(i).transfer.RemoteFile? && jobs(i).transfer.size > cap ==>
        raised == Some(Xdr(XdrError("LIVE_RESPONSE_DOWNLOAD_SIZE_LIMIT", SizeLimitKind)))
        && stopped == Some("LIVE_RESPONSE_DOWNLOAD_SIZE_LIMIT")
      ensures raised.None? ==> stopped.None? && disk(old(saves)).SaveOk? && jobs(i).poll.Polled?
      ensures raised.None? ==> Settled(jobs(i), cap, true).Completed? || !Transferring(jobs(i))
      ensures raised.Some? && raised.value.Xdr? && !Systemic(raised.value.error) ==>
        (stopped.Some? <==> Transferring(jobs(i))) && saves == old(saves)
      ensures raised.Some? && raised.value.Xdr? && saves == old(saves) ==>
        (Transferring(jobs(i)) || jobs(i).poll == PollRaises(raised.value))
      ensures raised.Some? && raised.value.Xdr? && saves != old(saves) ==>
        raised.value.error == ARTIFACT_ERROR && !disk(old(saves)).SaveOk?
      ensures raised.Some? && raised.value.Xdr? && Settled(jobs(i), cap, true) == Completed ==> saves != old(saves)
    {
      hide Kept, OnDisk, Submissions, CloseRequests, DownloadedBytes, CompletedBytes, HasStopped;
      KeptRow(rows, trace, remaining, stopped.Some?, plan, i);
      var job := jobs(i);
      if job.poll.PollRaises? {
        return Some(job.poll.failure);
      }
      if job.poll.terminal != Some(true) {
        var reason := if job.poll.terminal == Some(false) then "not_terminal" else "state_unknown";
        SameBytes(rows[i], rows[i].(error := Some(reason)));
        SetRow(i, rows[i].(error := Some(reason)));
        failures := failures + [CONFLICT_ERROR];
        var saved := Save();
        return if saved then None else Some(Xdr(ARTIFACT_ERROR));
      }
      if !job.poll.succeeded {
        var failed := rows[i].(status := Failed, error := Some(if job.poll.completed then "completed_with_errors" else "failed"));
        SameBytes(rows[i], failed);
        SetRow(i, failed);
        failures := failures + [CONFLICT_ERROR];
        var saved := Save();
        return if saved then None else Some(Xdr(ARTIFACT_ERROR));
      }
      if job.transfer.TransferOSError? {
        return Some(Xdr(ARTIFACT_ERROR));
      }
      var failure := if job.transfer.TransferRaises? then job.transfer.failure
                     else Xdr(XdrError("LIVE_RESPONSE_DOWNLOAD_SIZE_LIMIT", SizeLimitKind));
      if job.transfer.TransferRaises? || job.transfer.size > cap {
        if failure.Xdr? {
          Stop(failure.error.code);
        }
        return Some(failure);
      }
      var bytes := job.transfer.size;
      var done := rows[i].(status := Completed, bytes := Some(bytes), error := None, recovery := None);
      KeptByDownload(rows, trace, remaining, false, plan, i, done, bytes);
      Extended(trace, Downloaded(rows[i].remotePath.value, bytes));
      trace := trace + [Downloaded(rows[i].remotePath.value, bytes)];
      remaining := remaining - bytes;
      rows := rows[i := done];
      var saved := Save();
      return if saved then None else Some(Xdr(ARTIFACT_ERROR));
    }

    // -------------------------------------------------------------- _collect and run

    /** The budget that is left when row `j` is reached. */
    function Left(rows: seq<LogRow>, j: nat): int
      requires j <= |rows|
    {
      plan.maxTotal - CompletedBytes(rows[..j])
    }

    /** Row `j` was left alone because it was not planned, or tried with this end. */
    ghost predicate FetchedAs(before: seq<LogRow>, after: seq<LogRow>, j: nat, signal: Signal)
      requires j < |before| == |after|
    {
      if before[j].status.Planned? then
        exists s :: FetchedFrom(before[j], after[j], Left(after, j), j, s, signal)
      else after[j] == before[j] && signal.Goes?
    }

    ghost predicate FetchedFrom(before: LogRow, after: LogRow, left: int, j: nat, s: nat, signal: Signal) {
      && Tried(before, after, left, jobs(j), plan.maxBytes, WrittenFrom(disk, s))
      && SignalOf(before, left, jobs(j), plan.maxBytes, WrittenFrom(disk, s)) == signal
    }

    /** The first `n` rows were dealt with, all but the last with the run going on; the rest
        is untouched. */
    ghost predicate Progress(before: seq<LogRow>, after: seq<LogRow>, n: nat, last: Signal) {
      && n <= |before| == |after| && (n == 0 ==> last.Goes?)
      && (forall j :: n <= j < |before| ==> after[j] == before[j])
      && (forall j :: 0 <= j < n - 1 ==> FetchedAs(before, after, j, Goes))
      && (n > 0 ==> FetchedAs(before, after, n - 1, last))
    }

    /** A selection of the listing that fits the total, and what the loop made of it. */
    ghost predicate FetchedListing(listing: seq<RawRow>, rows: seq<LogRow>, failures: seq<XdrError>,
                                   raised: Option<Failure>, stopped: Option<string>)
    {
      && Parsed(listing).Ok?
      && exists start, n ::
        && Selected(Parsed(listing).value, plan, start) && Planning(start) && PlannedTotal(start) <= plan.maxTotal
        && Progress(start, rows, n, EndOf(raised, stopped))
        && (raised.None? && stopped.None? ==> n == |rows| && (AllCompleted(start, rows) ==> failures == []))
    }

    /** One turn of the loop of `_collect`: an error that escapes `Fetch` is turned into a
        stop, an interruption is not. */
    method FetchRow(i: nat) returns (raised: Option<Failure>)
      requires Valid() && i < |rows| && rows[i].status.Planned? && stopped.None?
      modifies `rows, `remaining, `stopped, `failures, `trace, `saves
      ensures Valid() && old(trace) <= trace && CloseRequests(trace) == CloseRequests(old(trace))
      ensures |rows| == |old(rows)| && forall j :: 0 <= j < |rows| && j != i ==> rows[j] == old(rows)[j]
      ensures raised.Some? ==> raised == Some(Interrupted)
      ensures raised.None? ==> Accountable(rows, failures, stopped)
      ensures rows[i].status.Completed? && raised.None? && stopped.None? ==> failures == old(failures)
      ensures Tried(old(rows)[i], rows[i], old(remaining), jobs(i), plan.maxBytes, WrittenFrom(disk, old(saves)))
      ensures SignalOf(old(rows)[i], old(remaining), jobs(i), plan.maxBytes, WrittenFrom(disk, old(saves))) ==
        EndOf(raised, stopped)
      // why the run stopped: the manifest, anything unexpected, or what `Fetch` says
      ensures var escapes := Escapes(old(rows)[i], old(remaining), jobs(i), WrittenFrom(disk, old(saves)));
              escapes.Some? && escapes.value != Interrupted ==>
                if escapes.value.Xdr? && escapes.value.error.kind.ArtifactKind?
                then stopped == Some("manifest-unwritable") && rows[i].error == Some(escapes.value.error.code)
                else stopped == Some("COLLECTION_INTERNAL_FAILURE") && rows[i].error == Some("COLLECTION_INTERNAL_FAILURE")
    {
      hide Kept, OnDisk, Submissions, CloseRequests, DownloadedBytes, CompletedBytes, HasStopped, Tried, Escapes, StopsAfter;
      var failure := Fetch(i);
      if failure.None? {
        return None;
      }
      ghost var fetched := rows[i];
      match failure.value {
        case Interrupted => return failure;
        case Xdr(error) =>
          if error.kind.ArtifactKind? {
            Fail(i, error, true);
            Stop(UNWRITABLE);
          } else {
            Fail(i, INTERNAL_ERROR, true);
          }
        case Unexpected => Fail(i, INTERNAL_ERROR, true);
      }
      ErrorsAside(old(rows)[i], fetched, old(remaining), jobs(i), plan.maxBytes, WrittenFrom(disk, old(saves)), rows[i].error);
      return None;
    }

    /** The loop of `_collect`: each planned row in turn until something stops the run. */
    method FetchAll() returns (raised: Option<Failure>)
      requires Valid() && stopped.None? && failures == []
      requires forall j :: 0 <= j < |rows| ==> !rows[j].status.Completed?
      modifies `rows, `remaining, `stopped, `failures, `trace, `saves
      ensures Valid() && SameFiles(rows, old(rows))
      ensures old(trace) <= trace
      ensures CloseRequests(trace) == CloseRequests(old(trace))
      ensures raised.Some? ==> raised == Some(Interrupted)
      ensures raised.None? ==> Accountable(rows, failures, stopped)
      // row after row is tried until one stops the run or breaks it off
      ensures exists n :: Progress(old(rows), rows, n, EndOf(raised, stopped)) && (raised.None? && stopped.None? ==> n == |rows|)
      // and a run that was neither leaves none that has not been sent
      ensures raised.None? && stopped.None? ==> forall j :: 0 <= j < |rows| ==> !rows[j].status.Planned?
      ensures raised.None? && stopped.None? && AllCompleted(old(rows), rows) ==> failures == []
    {
      hide Kept, OnDisk, Submissions, CloseRequests, DownloadedBytes, CompletedBytes, HasStopped, Progress, Tried, SignalOf;
      raised := None;
      var i := 0;
      NothingYet(rows);
      while i < |rows| && stopped.None?
        invariant Valid() && i <= |rows| == |old(rows)| && raised.None?
        invariant old(trace) <= trace && CloseRequests(trace) == CloseRequests(old(trace))
        invariant Accountable(rows, failures, stopped)
        invariant Progress(old(rows), rows, i, EndOf(None, stopped))
        invariant stopped.None? && CompletedUpTo(old(rows), rows, i) ==> failures == []
        decreases |rows| - i
      {
        ghost var before, left, s := rows, remaining, saves;
        BudgetHere(old(rows), i);
        if rows[i].status.Planned? {
          raised := FetchRow(i);
          Advances(old(rows), before, rows, i, left, s,
                   EndOf(raised, stopped));
          if raised.Some? {
            ProgressKeepsFiles(old(rows), rows, i + 1, Breaks);
            return raised;
          }
        } else {
          Skips(old(rows), rows, i);
        }
        i := i + 1;
      }
      ProgressKeepsFiles(old(rows), rows, i, EndOf(None, stopped));
      if stopped.None? {
        AllDealtWith(old(rows), rows);
      }
    }

    /** A run that neither raises nor stops leaves no row planned. */
    lemma AllDealtWith(start: seq<LogRow>, rows: seq<LogRow>)
      requires Progress(start, rows, |rows|, Goes)
      ensures forall j :: 0 <= j < |rows| ==> !rows[j].status.Planned?
    {
      forall j | 0 <= j < |rows| ensures !rows[j].status.Planned? {
        assert FetchedAs(start, rows, j, Goes) by {
          assert j < |rows| - 1 || j == |rows| - 1;
        }
        if start[j].status.Planned? {
          var s :| FetchedFrom(start[j], rows[j], Left(rows, j), j, s, Goes);
        }
      }
    }

    lemma NothingYet(rows: seq<LogRow>)
      ensures Progress(rows, rows, 0, Goes)
    {
    }

    lemma BudgetHere(before: seq<LogRow>, i: nat)
      requires Valid() && Progress(before, rows, i, Goes) && i < |rows|
      requires forall j :: 0 <= j < |before| ==> !before[j].status.Completed?
      ensures rows[i] == before[i] && remaining == Left(rows, i)
    {
      hide Kept, Tried, SignalOf, FetchedAs;
      KeptBudget(rows, trace, remaining, stopped.Some?, plan);
      RestIsFree(rows, i);
    }

    lemma Advances(start: seq<LogRow>, before: seq<LogRow>, after: seq<LogRow>, i: nat, left: int, s: nat, signal: Signal)
      requires Progress(start, before, i, Goes) && i < |before| == |after| && before[i] == start[i]
      requires forall j :: 0 <= j < |after| && j != i ==> after[j] == before[j]
      requires start[i].status.Planned? && left == Left(before, i) && FetchedFrom(start[i], after[i], left, i, s, signal)
      ensures Progress(start, after, i + 1, signal)
    {
      SameLeft(before, after, i);
      assert FetchedFrom(start[i], after[i], Left(after, i), i, s, signal);
      forall j | 0 <= j < i ensures FetchedAs(start, after, j, Goes) {
        StaysFetched(start, before, after, j);
      }
    }

    lemma SameLeft(before: seq<LogRow>, after: seq<LogRow>, j: nat)
      requires j <= |before| == |after| && forall k :: 0 <= k < j ==> after[k] == before[k]
      ensures Left(after, j) == Left(before, j)
    {
      assert after[..j] == before[..j];
    }

    lemma StaysFetched(start: seq<LogRow>, before: seq<LogRow>, after: seq<LogRow>, j: nat)
      requires j < |start| == |before| == |after| && FetchedAs(start, before, j, Goes)
      requires forall k :: 0 <= k <= j ==> after[k] == before[k]
      ensures FetchedAs(start, after, j, Goes)
    {
      SameLeft(before, after, j);
      if start[j].status.Planned? {
        var s :| FetchedFrom(start[j], before[j], Left(before, j), j, s, Goes);
        assert FetchedFrom(start[j], after[j], Left(after, j), j, s, Goes);
      }
    }

    lemma Skips(start: seq<LogRow>, rows: seq<LogRow>, i: nat)
      requires Progress(start, rows, i, Goes) && i < |rows| && !start[i].status.Planned?
      ensures Progress(start, rows, i + 1, Goes)
    {
      forall j | 0 <= j < i ensures FetchedAs(start, rows, j, Goes) {
      }
    }

    lemma ProgressKeepsFiles(start: seq<LogRow>, rows: seq<LogRow>, n: nat, last: Signal)
      requires Progress(start, rows, n, last)
      ensures SameFiles(rows, start)
    {
      hide SignalOf, Left, StatusAfter;
      forall j | 0 <= j < |rows|
        ensures rows[j].remotePath == start[j].remotePath && rows[j].listedBytes == start[j].listedBytes
      {
        if j < n {
          assert FetchedAs(start, rows, j, if j < n - 1 then Goes else last) by {
            assert j < n - 1 || j == n - 1;
          }
        }
      }
    }

    /** The first half of `_collect`: list, select, bound the total, save the plan. */
    method Prepare(setup: Setup) returns (raised: Option<Failure>)
      requires Valid() && rows == [] && trace == [] && stopped.None?
      modifies `rows, `trace, `saves
      ensures Valid()
      ensures old(trace) <= trace
      ensures Submissions(trace) == [] && CloseRequests(trace) == 0
      ensures raised.None? ==>
        && setup.session.None? && Parsed(setup.listing).Ok?
        && Selected(Parsed(setup.listing).value, plan, rows)
        && PlannedTotal(rows) <= plan.maxTotal
        && OnDisk(trace) == Some(rows)
        && Planning(rows)
      ensures raised.Some? ==> Unprepared(setup, plan, disk(old(saves)).SaveOk?)
      ensures raised.None? ==> saves == old(saves) + 1
      // and why: the session, the listing, the sizes or the manifest, in this order
      ensures setup.session.Some? ==> raised == setup.session && rows == []
      ensures setup.session.None? && Parsed(setup.listing).Err? ==>
        raised == Some(Xdr(XdrError("API_ERROR", OrdinaryKind))) && rows == []
      ensures setup.session.None? && Parsed(setup.listing).Ok? && rows == [] && saves == old(saves) ==>
        raised == Some(Xdr(XdrError("CLI_USAGE_ERROR", OrdinaryKind))) && Oversized(setup.listing, plan)
      ensures saves != old(saves) ==>
        && saves == old(saves) + 1
        && raised == (if disk(old(saves)).SaveOk? then None else Some(Xdr(XdrError("ARTIFACT_WRITE_FAILED", ArtifactKind))))
    {
      if setup.session.Some? {
        return setup.session;
      }
      var listing := ParseListing(setup.listing);
      if listing.Err? {
        return Some(Xdr(XdrError("API_ERROR", OrdinaryKind)));
      }
      var selected, absent, wanted := Select(listing.value, plan.logs, plan.includeAll, plan.minBytes, plan.maxBytes);
      SelectedRowsStart(listing.value, selected, absent, wanted, plan);
      assert Selected(listing.value, plan, selected);
      SelectionIsPlanning(listing.value, selected);
      var total := ListedTotal(selected);
      if total > plan.maxTotal {
        return Some(Xdr(XdrError("CLI_USAGE_ERROR", OrdinaryKind)));
      }
      rows := selected;
      var saved := Save();
      return if saved then None else Some(Xdr(ARTIFACT_ERROR));
    }

    /** `_collect`: whatever is sent belongs to a selection of the listing whose planned
        sizes fit the total and which was saved first. */
    method Collect(setup: Setup) returns (raised: Option<Failure>)
      requires Valid() && rows == [] && trace == [] && failures == [] && stopped.None?
      modifies `rows, `remaining, `stopped, `failures, `trace, `saves
      ensures Valid() && CloseRequests(trace) == 0
      ensures old(trace) <= trace
      ensures raised.None? ==> Accountable(rows, failures, stopped)
      ensures || FetchedListing(setup.listing, rows, failures, raised, stopped)
              || (raised.Some? && Unprepared(setup, plan, disk(old(saves)).SaveOk?))
      ensures raised.None? || Submissions(trace) != [] ==> FromListing(setup.listing, plan, rows)
    {
      hide Kept, Progress, AllCompleted, Unprepared;
      raised := Prepare(setup);
      if raised.None? {
        raised := FetchAll();
      }
    }

    /** Every wanted row is served with a file of its listed size. */
    ghost predicate Served(rows: seq<LogRow>) {
      forall i :: 0 <= i < |rows| && Wanted(rows[i], plan) ==> Serves(jobs(i), rows[i].listedBytes.value)
    }

    /** A row that is reached is fetched, one that is not stops the run. */
    lemma OneRow(before: LogRow, after: LogRow, left: int, i: nat, s: nat, signal: Signal)
      requires ValidPlan(plan) && before.status.Planned? && before.commandId.None? && Wanted(before, plan)
      requires FetchedFrom(before, after, left, i, s, signal) && (forall k :: disk(k).SaveOk?)
      requires Serves(jobs(i), before.listedBytes.value) && (left > 0 ==> before.listedBytes.value <= left)
      ensures left > 0 ==> signal.Goes? && after.status.Completed? && after.bytes == before.listedBytes
      ensures left <= 0 ==> signal.Halts? && after.status.Planned?
    {
    }

    /** As long as the rows are reached, the bytes fetched are the bytes wanted. */
    lemma {:induction false} FetchedSoFar(start: seq<LogRow>, rows: seq<LogRow>, n: nat, last: Signal, i: nat)
      requires ValidPlan(plan) && Progress(start, rows, n, last) && i <= n && Served(rows) && (forall k :: disk(k).SaveOk?)
      requires Planning(start) && PlannedTotal(start) <= plan.maxTotal
      requires forall k :: 0 <= k < i && Wanted(rows[k], plan) ==> Reached(rows, plan, k)
      ensures CompletedBytes(rows[..i]) == WantedTotal(rows[..i], plan)
      ensures forall k :: 0 <= k < i && Wanted(rows[k], plan) ==>
        rows[k].status.Completed? && rows[k].bytes == rows[k].listedBytes
      ensures forall k :: 0 <= k < i && !Wanted(rows[k], plan) ==> rows[k] == start[k] && !start[k].status.Planned?
    {
      hide Tried, SignalOf, FetchedFrom;
      if i > 0 {
        FetchedSoFar(start, rows, n, last, i - 1);
        assert rows[..i][..i - 1] == rows[..i - 1];
        RowNow(start, rows, n, last, i - 1);
      }
    }

    /** The rows of a selection: planned exactly if wanted, and nothing fetched. */
    predicate Planning(start: seq<LogRow>) {
      forall k :: 0 <= k < |start| ==>
        && (start[k].status.Planned? <==> Wanted(start[k], plan)) && start[k].commandId.None?
        && !start[k].status.Completed? && (start[k].status.Planned? || Deliberate(start[k].status))
    }

    /** What one row of a smooth run comes to. */
    lemma RowNow(start: seq<LogRow>, rows: seq<LogRow>, n: nat, last: Signal, k: nat)
      requires ValidPlan(plan) && Progress(start, rows, n, last) && k < n && Served(rows) && (forall s :: disk(s).SaveOk?)
      requires Planning(start) && PlannedTotal(start) <= plan.maxTotal
      requires CompletedBytes(rows[..k]) == WantedTotal(rows[..k], plan)
      ensures !Wanted(rows[k], plan) ==>
        rows[k] == start[k] && !start[k].status.Planned? && Deliberate(rows[k].status) && (k == n - 1 ==> last.Goes?)
      ensures Reached(rows, plan, k) ==>
        rows[k].status.Completed? && rows[k].bytes == rows[k].listedBytes && (k == n - 1 ==> last.Goes?)
      ensures Wanted(rows[k], plan) && !Reached(rows, plan, k) ==> rows[k].status.Planned? && k == n - 1 && last.Halts?
    {
      hide Tried, SignalOf, FetchedFrom;
      ProgressKeepsFiles(start, rows, n, last);
      var signal := if k < n - 1 then Goes else last;
      assert FetchedAs(start, rows, k, signal) by {
        assert k < n - 1 || k == n - 1;
      }
      if start[k].status.Planned? {
        var s :| FetchedFrom(start[k], rows[k], Left(rows, k), k, s, signal);
        WantedFits(start, rows, k);
        OneRow(start[k], rows[k], Left(rows, k), k, s, signal);
      }
    }

    /** The wanted files of the whole selection fit the total. */
    lemma WantedFits(start: seq<LogRow>, rows: seq<LogRow>, k: nat)
      requires ValidPlan(plan) && SameFiles(rows, start) && k < |rows| && Wanted(rows[k], plan)
      requires Planning(start) && PlannedTotal(start) <= plan.maxTotal
      ensures WantedTotal(rows[..k], plan) + rows[k].listedBytes.value <= plan.maxTotal
    {
      WantedIsPlanned(start, rows, |rows|);
      assert rows[..|rows|] == rows && start[..|start|] == start;
      WantedGrows(rows, plan, k + 1, |rows|);
      assert rows[..k + 1][..k] == rows[..k];
    }

    lemma {:induction false} WantedIsPlanned(start: seq<LogRow>, rows: seq<LogRow>, k: nat)
      requires SameFiles(rows, start) && Planning(start) && k <= |rows|
      ensures WantedTotal(rows[..k], plan) == PlannedTotal(start[..k])
    {
      if k > 0 {
        assert rows[..k][..k - 1] == rows[..k - 1] && start[..k][..k - 1] == start[..k - 1];
        WantedIsPlanned(start, rows, k - 1);
      }
    }

    lemma ProgressBounds(start: seq<LogRow>, rows: seq<LogRow>, n: nat, last: Signal)
      requires Progress(start, rows, n, last)
      ensures n <= |start| == |rows| && (n == 0 ==> last.Goes?)
    {
    }

    /** A whole smooth run. */
    lemma SmoothRows(start: seq<LogRow>, rows: seq<LogRow>, n: nat, last: Signal)
      requires ValidPlan(plan) && Progress(start, rows, n, last) && Served(rows) && (forall k :: disk(k).SaveOk?)
      requires Planning(start) && PlannedTotal(start) <= plan.maxTotal && (last.Goes? ==> n == |rows|)
      ensures !last.Breaks?
      ensures last.Goes? <==> forall i :: 0 <= i < |rows| && Wanted(rows[i], plan) ==> Reached(rows, plan, i)
      ensures forall i :: 0 <= i < |rows| && Reached(rows, plan, i) ==>
        rows[i].status.Completed? && rows[i].bytes == rows[i].listedBytes
      ensures last.Goes? ==> AllCompleted(start, rows) && forall i :: 0 <= i < |rows| ==> Deliberate(rows[i].status)
      ensures !last.Goes? ==> exists i :: 0 <= i < |rows| && rows[i].status.Planned?
    {
      hide Tried, SignalOf, FetchedFrom, Progress;
      var i := SmoothUpTo(start, rows, n, last);
      ProgressBounds(start, rows, n, last);
      ProgressKeepsFiles(start, rows, n, last);
      if i < n {
        NoneReachedAfter(rows, i);
      }
    }

    /** The first wanted row that is not reached, or the end. */
    lemma SmoothUpTo(start: seq<LogRow>, rows: seq<LogRow>, n: nat, last: Signal) returns (i: nat)
      requires ValidPlan(plan) && Progress(start, rows, n, last) && Served(rows) && (forall k :: disk(k).SaveOk?)
      requires Planning(start) && PlannedTotal(start) <= plan.maxTotal && (last.Goes? ==> n == |rows|)
      ensures i <= n
      ensures forall k :: 0 <= k < i && Wanted(rows[k], plan) ==>
        Reached(rows, plan, k) && rows[k].status.Completed? && rows[k].bytes == rows[k].listedBytes
      ensures forall k :: 0 <= k < i && !Wanted(rows[k], plan) ==> rows[k] == start[k] && !start[k].status.Planned?
      ensures i == n ==> last.Goes?
      ensures i < n ==> Wanted(rows[i], plan) && !Reached(rows, plan, i) && rows[i].status.Planned? && last.Halts? && i == n - 1
    {
      hide Tried, SignalOf, FetchedFrom, Progress;
      i := 0;
      ProgressBounds(start, rows, n, last);
      while i < n && (Wanted(rows[i], plan) ==> Reached(rows, plan, i))
        invariant i <= n <= |rows| == |start|
        invariant forall k :: 0 <= k < i && Wanted(rows[k], plan) ==> Reached(rows, plan, k)
        invariant n == 0 ==> last.Goes?
        invariant i == n && n > 0 ==> last.Goes?
      {
        FetchedSoFar(start, rows, n, last, i);
        RowNow(start, rows, n, last, i);
        i := i + 1;
      }
      FetchedSoFar(start, rows, n, last, i);
      if i < n {
        RowNow(start, rows, n, last, i);
      }
    }

    /** Once a row is not reached, no later one is. */
    lemma NoneReachedAfter(rows: seq<LogRow>, i: nat)
      requires ValidPlan(plan) && i < |rows| && Wanted(rows[i], plan) && !Reached(rows, plan, i)
      ensures forall k :: i <= k < |rows| ==> !Reached(rows, plan, k)
    {
      forall k | i <= k < |rows| ensures !Reached(rows, plan, k) {
        WantedGrows(rows, plan, i, k);
      }
    }

    lemma SmoothRun(setup: Setup, failure: Option<Failure>)
      requires ValidPlan(plan)
      requires Smooth(setup) ==>
        || FetchedListing(setup.listing, rows, failures, failure, stopped)
        || (failure.Some? && Unprepared(setup, plan, disk(0).SaveOk?))
      ensures Smooth(setup) && (forall k :: disk(k).SaveOk?) && Served(rows) ==>
        if failure.Some? then Oversized(setup.listing, plan)
        else
          && ((forall i :: 0 <= i < |rows| ==> Deliberate(rows[i].status)) && failures == [] <==>
               forall i :: 0 <= i < |rows| && Wanted(rows[i], plan) ==> Reached(rows, plan, i))
          && (forall i :: 0 <= i < |rows| && Reached(rows, plan, i) ==>
                rows[i].status.Completed? && rows[i].bytes == rows[i].listedBytes)
    {
      hide Progress, Tried, SignalOf, Served, Selected;
      if Smooth(setup) && (forall k :: disk(k).SaveOk?) && Served(rows)
         && FetchedListing(setup.listing, rows, failures, failure, stopped) {
        var start, n :| && Selected(Parsed(setup.listing).value, plan, start) && Planning(start)
                        && PlannedTotal(start) <= plan.maxTotal
                        && Progress(start, rows, n, EndOf(failure, stopped))
                        && (failure.None? && stopped.None? ==> n == |rows| && (AllCompleted(start, rows) ==> failures == []));
        SmoothRows(start, rows, n, EndOf(failure, stopped));
      }
    }

    lemma SelectionIsPlanning(listed: seq<Listed>, start: seq<LogRow>)
      requires Fetchable(listed) && Selected(listed, plan, start)
      ensures Planning(start)
    {
      hide RowOk, Stem, Lower, IsListed, RemotePath;
      var absent, wanted :|
        Selection(listed, plan.logs, plan.includeAll, plan.minBytes, plan.maxBytes, absent, wanted, start);
      forall k | 0 <= k < |start|
        ensures (start[k].status.Planned? <==> Wanted(start[k], plan)) && start[k].commandId.None?
        ensures !start[k].status.Completed? && (start[k].status.Planned? || Deliberate(start[k].status))
      {
        if k < |absent| {
          assert start[k] == AbsentRow(absent[k]);
        } else {
          var file := wanted[k - |absent|];
          assert start[k] == RowFor(file, plan.minBytes, plan.maxBytes);
          assert file in listed;
        }
      }
    }

    /** The `try` of `run`, with the `finally` that closes the session this command opened. */
    method Attempt(setup: Setup) returns (failure: Option<Failure>, ghost primary: Option<Failure>)
      requires Valid() && rows == [] && trace == [] && failures == [] && stopped.None? && !owned
      requires Submissions([]) == [] && CloseRequests([]) == 0
      modifies this
      ensures Valid()
      ensures old(trace) <= trace
      ensures owned <==> setup.device && !setup.open.OpenRaises?
      ensures CloseRequests(trace) == if owned then 1 else 0
      ensures failure.None? || Submissions(trace) != [] ==> FromListing(setup.listing, plan, rows)
      ensures failure.None? ==> Accountable(rows, failures, stopped)
      ensures failure.None? && owned && failures == [] ==> setup.close.CloseInactive?
      // the first failure is the one that is raised; closing hides none, and only an
      // interruption or an unexpected error in it is raised at all
      ensures Opening(setup).Some? ==> primary == Opening(setup) && rows == [] && Submissions(trace) == []
      ensures failure == if primary.Some? then primary else if owned then Closing(setup.close) else None
      ensures Opening(setup).None? && setup.close.CloseInactive? ==>
        || FetchedListing(setup.listing, rows, failures, primary, stopped)
        || (primary.Some? && Unprepared(setup, plan, disk(old(saves)).SaveOk?))
    {
      hide Kept, OnDisk, Submissions, CloseRequests, DownloadedBytes, CompletedBytes, HasStopped;
      hide FromListing, FetchedListing, Unprepared;
      failure := None;
      if setup.open.OpenRaises? {
        failure := Some(setup.open.failure);
      } else {
        owned := setup.device;
        if setup.device && setup.open.OpenedThenRaises? {
          failure := Some(setup.open.failure);
        }
      }
      if failure.None? {
        failure := Collect(setup);
      }
      primary := failure;
      if owned {
        var raised := Close(setup.close);
        if raised.Some? && failure.None? {
          failure := raised;
        }
      }
    }

    /** `run` with `_report`. */
    method Run(setup: Setup) returns (outcome: Outcome)
      requires Valid() && rows == [] && trace == [] && failures == [] && stopped.None? && !owned && saves == 0
      modifies this
      ensures Valid()
      // a session that cannot be had, and a report that cannot be written, are raised
      ensures Opening(setup).Some? ==> outcome == Raised(Opening(setup).value)
      ensures !outcome.Raised? ==> setup.report.None? && (owned ==> Closing(setup.close).None?)
      // stop after any number of effects: nothing that may still be sent was sent before,
      // no more than the total was saved, nothing was sent twice or after a stop
      ensures AlwaysSound(trace, plan)
      // what is left of the budget is the total without the rows that were completed
      ensures 0 <= remaining == plan.maxTotal - CompletedBytes(rows) == plan.maxTotal - DownloadedBytes(trace)
      // an owned session is asked to close exactly once, whatever happened
      ensures owned <==> setup.device && !setup.open.OpenRaises?
      ensures CloseRequests(trace) == if owned then 1 else 0
      // every file sent for was listed, selected and budgeted
      ensures outcome.Success? || Submissions(trace) != [] ==> FromListing(setup.listing, plan, rows)
      // success means complete: every row dealt with, never stopped, closure confirmed
      ensures outcome.Success? ==>
        && (forall i :: 0 <= i < |rows| ==> Deliberate(rows[i].status))
        && stopped.None? && failures == []
        && (owned ==> setup.close.CloseInactive?)
      ensures outcome.PartialSuccess? ==>
        failures != [] || exists i :: 0 <= i < |rows| && !Deliberate(rows[i].status)
      // where everything goes well, every wanted file is fetched unless the ones before it
      // have used up the whole total, and the run succeeds exactly if none is left
      ensures Smooth(setup) && (forall k :: disk(k).SaveOk?) && Served(rows) ==>
        if outcome.Raised? then Oversized(setup.listing, plan)
        else
          && FromListing(setup.listing, plan, rows)
          && (outcome.Success? <==> forall i :: 0 <= i < |rows| && Wanted(rows[i], plan) ==> Reached(rows, plan, i))
          && (forall i :: 0 <= i < |rows| && Reached(rows, plan, i) ==>
                rows[i].status.Completed? && rows[i].bytes == rows[i].listedBytes)
    {
      assert Submissions([]) == [] && CloseRequests([]) == 0;
      hide Kept, OnDisk, Submissions, CloseRequests, DownloadedBytes, CompletedBytes, HasStopped;
      hide FromListing, AlwaysSound, FetchedListing, Unprepared, Oversized, Smooth, Served;
      var failure, primary := Attempt(setup);
      EveryPrefixIsSound(rows, trace, remaining, stopped.Some?, plan);
      SmoothRun(setup, failure);
      if failure.Some? {
        return Raised(failure.value);
      }
      if setup.report.Some? {
        return Raised(setup.report.value);
      }
      var incomplete := Incomplete();
      return if incomplete || failures != [] then PartialSuccess else Success;
    }

    /** The exit status of `_report`: some row was not completed, absent or skipped. */
    method Incomplete() returns (incomplete: bool)
      ensures incomplete <==> exists j :: 0 <= j < |rows| && !Deliberate(rows[j].status)
    {
      incomplete := false;
      for i := 0 to |rows|
        invariant incomplete <==> exists j :: 0 <= j < i && !Deliberate(rows[j].status)
      {
        if !Deliberate(rows[i].status) {
          incomplete := true;
        }
      }
    }

    /** `_close`: one close request; anything but a confirmed inactive session is a failure. */
    method Close(answer: CloseAnswer) returns (raised: Option<Failure>)
      requires Valid()
      modifies `failures, `trace
      ensures Valid() && CloseRequests(trace) == CloseRequests(old(trace)) + 1
      ensures old(trace) <= trace
      ensures Submissions(trace) == Submissions(old(trace))
      ensures answer.CloseInactive? ==> raised.None? && failures == old(failures)
      ensures answer.CloseUnconfirmed? ==>
        failures == old(failures) + [XdrError("LIVE_RESPONSE_SESSION_CLOSE_UNCONFIRMED", OrdinaryKind)]
      ensures answer.CloseRaises? ==>
        if answer.failure.Xdr? then raised.None? && failures == old(failures) + [answer.failure.error]
        else raised == Some(answer.failure) && failures == old(failures)
      ensures !answer.CloseInactive? && raised.None? ==> |failures| == |old(failures)| + 1
      ensures |old(failures)| <= |failures|
      ensures raised == Closing(answer)
    {
      hide Kept, OnDisk, Submissions, CloseRequests, DownloadedBytes, CompletedBytes, HasStopped;
      KeptByQuietEvent(rows, trace, remaining, stopped.Some?, plan, CloseRequested);
      Extended(trace, CloseRequested);
      trace := trace + [CloseRequested];
      match answer
      case CloseInactive => return None;
      case CloseUnconfirmed =>
        failures := failures + [CLOSE_ERROR];
        return None;
      case CloseRaises(failure) =>
        if failure.Xdr? {
          failures := failures + [failure.error];
          return None;
        }
        return Some(failure);
    }
  }

  /** The planned sizes, summed before the first save. */
  method ListedTotal(rows: seq<LogRow>) returns (total: int)
    ensures total == PlannedTotal(rows)
  {
    total := 0;
    for i := 0 to |rows|
      invariant total == PlannedTotal(rows[..i])
    {
      assert rows[..i + 1][..i] == rows[..i];
      if rows[i].status.Planned? {
        total := total + rows[i].listedBytes.GetOr(0);
      }
    }
    assert rows[..|rows|] == rows;
  }

  lemma {:induction false} NothingCompleted(rows: seq<LogRow>)
    requires forall i :: 0 <= i < |rows| ==> !rows[i].status.Completed?
    ensures CompletedBytes(rows) == 0
  {
    if rows != [] {
      NothingCompleted(rows[..|rows| - 1]);
    }
  }

  lemma FreshRowOk(file: Listed, plan: Plan)
    requires RemotePath(file.name).Some?
    ensures RowOk(RowFor(file, plan.minBytes, plan.maxBytes), plan.maxBytes)
    ensures !RowFor(file, plan.minBytes, plan.maxBytes).status.Completed?
  {
  }

  lemma AbsentRowOk(stem: string, maxBytes: int)
    ensures RowOk(AbsentRow(stem), maxBytes) && !AbsentRow(stem).status.Completed?
  {
  }

  lemma SelectedRowOk(listed: seq<Listed>, rows: seq<LogRow>, absent: seq<string>, wanted: seq<Listed>, plan: Plan, i: nat)
    requires Fetchable(listed) && i < |rows|
    requires Selection(listed, plan.logs, plan.includeAll, plan.minBytes, plan.maxBytes, absent, wanted, rows)
    ensures RowOk(rows[i], plan.maxBytes) && !rows[i].status.Completed?
  {
    hide RowOk, Stem, Lower, IsListed, RemotePath;
    if i < |absent| {
      assert rows[i] == AbsentRow(absent[i]);
      AbsentRowOk(absent[i], plan.maxBytes);
    } else {
      var file := wanted[i - |absent|];
      assert rows[i] == RowFor(file, plan.minBytes, plan.maxBytes);
      assert file in listed;
      FreshRowOk(file, plan);
    }
  }

  /** A selection satisfies everything the collection has to keep. */
  lemma SelectedRowsStart(listed: seq<Listed>, rows: seq<LogRow>, absent: seq<string>, wanted: seq<Listed>, plan: Plan)
    requires ValidPlan(plan) && DistinctPaths(rows) && Fetchable(listed)
    requires Selection(listed, plan.logs, plan.includeAll, plan.minBytes, plan.maxBytes, absent, wanted, rows)
    ensures Kept(rows, [], plan.maxTotal, false, plan)
    ensures forall i :: 0 <= i < |rows| ==> !rows[i].status.Completed?
  {
    forall i | 0 <= i < |rows| ensures RowOk(rows[i], plan.maxBytes) && !rows[i].status.Completed? {
      SelectedRowOk(listed, rows, absent, wanted, plan, i);
    }
    NothingCompleted(rows);
  }

  predicate Sent(row: LogRow, remaining: int, job: Job, recorded: bool) {
    Affordable(row, remaining) && job.build.None? && recorded && job.audit.None?
  }

  /** The job completed cleanly, so its file is being downloaded. */
  predicate Transferring(job: Job) {
    job.poll.Polled? && job.poll.terminal == Some(true) && job.poll.succeeded
  }

  lemma {:induction false} WantedGrows(rows: seq<LogRow>, plan: Plan, i: nat, k: nat)
    requires plan.minBytes >= 0 && i <= k <= |rows|
    ensures WantedTotal(rows[..i], plan) <= WantedTotal(rows[..k], plan)
  {
    if i < k {
      assert rows[..k][..k - 1] == rows[..k - 1];
      WantedGrows(rows, plan, i, k - 1);
    }
  }

  lemma KeptBudget(rows: seq<LogRow>, trace: seq<Event>, remaining: int, stopped: bool, plan: Plan)
    requires Kept(rows, trace, remaining, stopped, plan)
    ensures remaining + CompletedBytes(rows) == plan.maxTotal
  {
  }

  lemma {:induction false} RestIsFree(rows: seq<LogRow>, i: nat)
    requires i <= |rows| && forall j :: i <= j < |rows| ==> !rows[j].status.Completed?
    ensures CompletedBytes(rows) == CompletedBytes(rows[..i])
  {
    if i < |rows| {
      assert rows[..|rows| - 1][..i] == rows[..i];
      RestIsFree(rows[..|rows| - 1], i);
    } else {
      assert rows[..i] == rows;
    }
  }

  /** The error of a row is no part of what it must be after its fetch. */
  lemma ErrorsAside(before: LogRow, after: LogRow, remaining: int, job: Job, maxBytes: int, w: Written, error: Option<string>)
    requires Tried(before, after, remaining, job, maxBytes, w)
    ensures Tried(before, after.(error := error), remaining, job, maxBytes, w)
  {
  }

  lemma KeptRow(rows: seq<LogRow>, trace: seq<Event>, remaining: int, stopped: bool, plan: Plan, i: nat)
    requires Kept(rows, trace, remaining, stopped, plan) && i < |rows|
    ensures RowOk(rows[i], plan.maxBytes) && remaining >= 0
  {
  }

  lemma SameBytes(row: LogRow, other: LogRow)
    requires (!row.status.Completed? && !other.status.Completed?) || (row.status == other.status && row.bytes == other.bytes)
    ensures CompletedBytes([row]) == CompletedBytes([other])
  {
    assert [row][..0] == [] && [other][..0] == [];
  }

  // ------------------------------------------------------ a row's end, case by case

  /** What the status of a row that was sent for means. */
  lemma StatusIs(job: Job, cap: int, recorded: bool)
    ensures var status := StatusAfter(job, cap, recorded);
            && (status.Completed? <==>
                  && job.submit.SubmitAccepted? && recorded
                  && job.poll.Polled? && job.poll.terminal == Some(true) && job.poll.succeeded
                  && job.transfer.RemoteFile? && job.transfer.size <= cap)
            && (status.Failed? <==>
                  || (job.submit.SubmitRaises? && job.submit.failure.Xdr? && job.submit.failure.error.code != "OUTCOME_UNKNOWN")
                  || (job.submit.SubmitAccepted? && recorded
                      && job.poll.Polled? && job.poll.terminal == Some(true) && !job.poll.succeeded))
            && (status.OutcomeUnknown? <==>
                  job.submit.SubmitRaises? && (!job.submit.failure.Xdr? || job.submit.failure.error.code == "OUTCOME_UNKNOWN"))
            && (status.Accepted? <==> job.submit.SubmitAccepted? && !status.Completed? && !status.Failed?)
  {
  }

  /** An interruption breaks the run off exactly where it can strike. */
  lemma BreaksIs(row: LogRow, remaining: int, job: Job, maxBytes: int, w: Written)
    ensures SignalOf(row, remaining, job, maxBytes, w).Breaks? <==>
      && remaining > 0 && (row.listedBytes.Some? ==> row.listedBytes.value <= remaining)
      && (|| job.build == Some(Interrupted)
          || (job.build.None? && w.marked && job.audit == Some(Interrupted))
          || (job.build.None? && w.marked && job.audit.None? && job.submit == SubmitRaises(Interrupted))
          || (job.build.None? && w.marked && job.audit.None? && job.submit.SubmitAccepted? && w.recorded
              && (|| job.poll == PollRaises(Interrupted)
                  || (job.poll.Polled? && job.poll.terminal == Some(true) && job.poll.succeeded
                      && job.transfer == TransferRaises(Interrupted)))))
  {
  }

  /** The run goes on exactly after a fetch that was sent, whose saves worked, and whose
      failure, if any, was about this one log. */
  lemma GoesIs(row: LogRow, remaining: int, job: Job, maxBytes: int, w: Written)
    requires maxBytes >= 1
    ensures SignalOf(row, remaining, job, maxBytes, w).Goes? <==>
      && remaining > 0 && (row.listedBytes.Some? ==> row.listedBytes.value <= remaining)
      && job.build.None? && w.marked && job.audit.None? && w.recorded
      && match job.submit
         case SubmitRaises(failure) => failure.Xdr? && failure.error.kind in {OrdinaryKind, SizeLimitKind}
         case SubmitAccepted(_) =>
           && w.last
           && match job.poll
              case PollRaises(failure) =>
                && failure.Xdr?
                && (failure.error.kind.OrdinaryKind? || (failure.error.kind.SizeLimitKind? && maxBytes <= remaining))
              case Polled(terminal, succeeded, _) =>
                terminal == Some(true) && succeeded ==>
                  job.transfer.RemoteFile? && job.transfer.size <= maxBytes && job.transfer.size <= remaining
  {
  }
}
