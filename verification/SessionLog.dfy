/**
  The session log of `sessions.py`: one append-only JSONL file, the invocation
  counter `.seq-<id>` beside it and the feedback counter, shared by any number of
  processes. Every lock acquisition, counter read, counter truncation, counter
  write and line append is one step, so a process can stop between any two; inside
  an append it can leave part of a line, or a whole line without its newline, to
  which the next append is glued. A read that fails is swallowed: the process goes
  on as if it had found nothing.

  `History` and `GateHistory` hold history variables: they record what failures did
  and nothing in the machine reads them.
*/
module SessionLog {
  import opened Common

  type Pid = nat

  /** One parsed JSONL line; `Garbled` is a line that is not JSON, which every scan
      skips. A command is represented by its first word, `group`. */
  datatype Entry =
    | Started
    | Invocation(number: int, actor: string, group: string, failed: bool, refused: bool)
    | Annotation(refersTo: int)
    | Summary(invocations: nat, failures: nat, finalSeq: int)
    | Ended(finalSeq: int)
    | Feedback(feedbackSeq: int)
    | Garbled

  // ---------------------------------------------------------------- log queries

  predicate HasEnded(log: seq<Entry>) {
    exists i :: 0 <= i < |log| && log[i].Ended?
  }

  predicate HasInvocation(log: seq<Entry>) {
    exists i :: 0 <= i < |log| && log[i].Invocation?
  }

  function Invocations(log: seq<Entry>): nat {
    if log == [] then 0
    else Invocations(log[..|log| - 1]) + if log[|log| - 1].Invocation? then 1 else 0
  }

  function Failures(log: seq<Entry>): nat {
    if log == [] then 0
    else Failures(log[..|log| - 1]) +
         if log[|log| - 1].Invocation? && log[|log| - 1].failed then 1 else 0
  }

  /** The invocation numbers in file order. */
  function Numbers(log: seq<Entry>): seq<int> {
    if log == [] then []
    else Numbers(log[..|log| - 1]) +
         if log[|log| - 1].Invocation? then [log[|log| - 1].number] else []
  }

  predicate InvocationExists(log: seq<Entry>, number: int) {
    exists i :: 0 <= i < |log| && log[i].Invocation? && log[i].number == number
  }

  // ------------------------------------------------------- the annotation queries

  const BYPASS: set<string> := {"annotate", "session", "history"}

  predicate Annotated(log: seq<Entry>, number: int) {
    Annotation(number) in log
  }

  /** An invocation of `actor` that the learning gate would wait on. */
  predicate Gated(e: Entry, actor: string) {
    e.Invocation? && e.actor == actor && e.group !in BYPASS && !e.refused
  }

  predicate PendingAt(log: seq<Entry>, actor: string, i: int) {
    0 <= i < |log| && Gated(log[i], actor) && !Annotated(log, log[i].number)
  }

  function LastPendingBefore(log: seq<Entry>, actor: string, k: nat): (r: Option<int>)
    requires k <= |log|
    ensures r.None? <==> forall i :: 0 <= i < k ==> !PendingAt(log, actor, i)
    ensures r.Some? ==> exists i :: 0 <= i < k && PendingAt(log, actor, i) && log[i].number == r.value
                                    && forall j :: i < j < k ==> !PendingAt(log, actor, j)
  {
    if k == 0 then None
    else if PendingAt(log, actor, k - 1) then Some(log[k - 1].number)
    else LastPendingBefore(log, actor, k - 1)
  }

  /** What `actor_needs_annotation` returns. */
  function LastPending(log: seq<Entry>, actor: string): (r: Option<int>)
    ensures r.None? <==> forall i :: !PendingAt(log, actor, i)
  {
    LastPendingBefore(log, actor, |log|)
  }

  // ------------------------------------------------------------------ processes

  /** The session the gate finds by itself: the one the invocation is recorded in, none,
      or another one, which may refuse the command. */
  datatype View = Here | Nowhere | Elsewhere(refuses: bool)

  /** One CLI invocation recorded in this session: `help` is whether argv holds a `--help`
      or `-h` token. */
  datatype Call = Call(actor: string, group: string, help: bool, view: View, failed: bool)

  /** What a process does next. */
  datatype PC =
    // main.py gate, then the command, then Recorder._do_flush
    | Gate(call: Call)
    | Work(call: Call, refused: bool)
    | CheckEnded(call: Call, refused: bool)
    | SeqWait(call: Call, refused: bool)
    | SeqRead(call: Call, refused: bool)
    | SeqTruncate(call: Call, refused: bool, value: int)
    | SeqWrite(call: Call, refused: bool, value: int)
    | SeqUnlock(call: Call, refused: bool, value: int)
    | Header(call: Call, refused: bool, value: int)
    | Record(call: Call, refused: bool, value: int)
    | FlushUnlock(call: Call)
    // write_session_end_record
    | EndWait
    | EndCheck
    | EndNumber
    | EndCount(final: int)
    | EndSummary(final: int, invocations: nat, failures: nat)
    // `kept` is whether the summary has become a line of its own
    | EndRecord(final: int, kept: bool)
    // write_annotation
    | AnnotateResolve(actor: string, target: Option<int>)
    | AnnotateWait(refersTo: int)
    | AnnotateAppend(refersTo: int)
    // append_session_feedback
    | FeedbackHydrate
    | FeedbackWait
    | FeedbackSeqWait
    | FeedbackRead
    | FeedbackTruncate(value: int)
    | FeedbackWrite(value: int)
    | FeedbackSeqUnlock(value: int)
    | FeedbackAppend(value: int)
    // write_session_start_record
    | StartWait
    | StartAppend
    | Unlock

  /** A process may start as a dispatched command, as one that failed before its
      leaf callback (it reaches the flush without the gate), or as a session command. */
  predicate Initial(pc: PC) {
    pc.Gate? || (pc.Work? && !pc.refused) || pc.EndWait? || pc.AnnotateResolve? ||
    pc.FeedbackHydrate? || pc.StartWait?
  }

  predicate WaitsForLog(pc: PC) {
    pc.Work? || pc.EndWait? || pc.AnnotateWait? || pc.FeedbackWait? || pc.StartWait?
  }

  predicate HoldsLog(pc: PC) {
    !(pc.Gate? || pc.AnnotateResolve? || pc.FeedbackHydrate? || WaitsForLog(pc))
  }

  predicate HoldsSeq(pc: PC) {
    pc.SeqRead? || pc.SeqTruncate? || pc.SeqWrite? || pc.SeqUnlock?
  }

  predicate HoldsFeedback(pc: PC) {
    pc.FeedbackRead? || pc.FeedbackTruncate? || pc.FeedbackWrite? || pc.FeedbackSeqUnlock?
  }

  /** The flush has passed its ended check and not yet appended its record. */
  predicate Flushing(pc: PC) {
    pc.SeqWait? || pc.SeqRead? || pc.SeqTruncate? || pc.SeqWrite? || pc.SeqUnlock? ||
    pc.Header? || pc.Record?
  }

  /** The number is in the counter file and its record is not yet in the log. */
  predicate Allocated(pc: PC) {
    pc.SeqUnlock? || pc.Header? || pc.Record?
  }

  predicate Ending(pc: PC) {
    pc.EndNumber? || pc.EndCount? || pc.EndSummary? || pc.EndRecord?
  }

  predicate IsCommand(pc: PC) {
    pc.Gate? || pc.Work? || pc.CheckEnded? || pc.FlushUnlock? || Flushing(pc)
  }

  // --------------------------------------------------------------- the machine

  /** What is on disk, and the session's learning mode. `open` is whether the last line
      lacks its newline. */
  datatype Files = Files(log: seq<Entry>, open: bool, counter: int, feedback: int, learning: bool)

  datatype History = History(
    // allocated numbers that no line of the log carries
    lost: nat,
    // a counter in use was truncated and not rewritten
    torn: bool,
    // a counter in use was rewritten after a read of it had failed
    restarted: bool,
    // an end record was written after a summary that had been glued to an open line
    headless: bool,
    // a line was glued to the only end record
    reopened: bool,
    // the last check for an end record could not read a log that had one
    overlooked: bool,
    // after such a check an invocation or end record was written behind the end record
    overrun: bool,
    // after such a check the counter was rewritten, or an end record was written with a
    // final number that could not be read
    outdated: bool)

  datatype GateHistory = GateHistory(
    // the commands whose gate could not read the log, or let them through on an annotation
    // or an end record to which a line has been glued since
    misled: set<Pid>,
    // an actor that owed an annotation got a second debt
    slipped: bool)

  datatype State = State(
    files: Files,
    logLock: Option<Pid>,
    seqLock: Option<Pid>,
    feedbackLock: Option<Pid>,
    procs: map<Pid, PC>,
    past: History,
    gates: GateHistory)

  /** What a process that is stopped inside an append leaves of its line. */
  datatype Left = Nothing | Fragment | Unended

  /** How a step reads: the file, or nothing because the read failed; a gate can also fail
      to read only that the session has ended. */
  datatype Reading = Whole | Failed | EndUnseen

  predicate Reads(pc: PC) {
    pc.Gate? || pc.CheckEnded? || pc.SeqRead? || pc.EndCheck? || pc.EndNumber? || pc.AnnotateResolve? ||
    pc.FeedbackHydrate? || pc.FeedbackRead?
  }

  predicate CanRead(pc: PC, r: Reading) {
    (!r.Whole? ==> Reads(pc)) && (r.EndUnseen? ==> pc.Gate?)
  }

  datatype Action =
    | Spawn(pid: Pid, pc: PC)
    | Advance(pid: Pid, reading: Reading)
    // another I/O error, a lock timeout or a kill: the process ends and its locks are released
    | Abort(pid: Pid, left: Left)

  function Start(learning: bool): State {
    State(Files([], false, 0, 0, learning), None, None, None, map[],
          History(0, false, false, false, false, false, false, false), GateHistory({}, false))
  }

  predicate Enabled(s: State, a: Action) {
    match a
    case Spawn(p, pc) => p !in s.procs && Initial(pc)
    case Advance(p, r) =>
      && p in s.procs && CanRead(s.procs[p], r)
      && (WaitsForLog(s.procs[p]) ==> s.logLock.None?)
      && (s.procs[p].SeqWait? ==> s.seqLock.None?)
      && (s.procs[p].FeedbackSeqWait? ==> s.feedbackLock.None?)
    case Abort(p, left) => p in s.procs && (!left.Nothing? ==> Appended(s.files, s.procs[p]) != [])
  }

  /** The gate cannot see what the actor owes in the session that is recorded. */
  predicate Blind(call: Call) {
    call.help || !call.view.Here?
  }

  /** Whether the learning gate refuses this call; an ended session gates nothing. */
  predicate Refuses(f: Files, call: Call, r: Reading) {
    && !call.help && call.group !in BYPASS
    && match call.view
       case Here =>
         f.learning && (r.EndUnseen? || !HasEnded(f.log)) && !r.Failed? && LastPending(f.log, call.actor).Some?
       case Nowhere => false
       case Elsewhere(refuses) => refuses
  }

  /** What a counter is read as. */
  function Number(counter: int, r: Reading): int {
    if r.Whole? then counter else 0
  }

  /** Control flow: where the process goes from `pc`, or `None` when it is finished. */
  function NextPC(f: Files, pc: PC, r: Reading): Option<PC> {
    match pc
    case Gate(c) => Some(Work(c, Refuses(f, c, r)))
    case Work(c, x) => Some(CheckEnded(c, x))
    case CheckEnded(c, x) => Some(if r.Whole? && HasEnded(f.log) then FlushUnlock(c) else SeqWait(c, x))
    case SeqWait(c, x) => Some(SeqRead(c, x))
    case SeqRead(c, x) => Some(SeqTruncate(c, x, Number(f.counter, r) + 1))
    case SeqTruncate(c, x, v) => Some(SeqWrite(c, x, v))
    case SeqWrite(c, x, v) => Some(SeqUnlock(c, x, v))
    case SeqUnlock(c, x, v) => Some(Header(c, x, v))
    case Header(c, x, v) => Some(Record(c, x, v))
    case Record(c, _, _) => Some(FlushUnlock(c))
    case FlushUnlock(_) => None

    case EndWait => Some(EndCheck)
    case EndCheck => Some(if r.Whole? && HasEnded(f.log) then Unlock else EndNumber)
    case EndNumber => Some(EndCount(Number(f.counter, r)))
    case EndCount(n) => Some(EndSummary(n, Invocations(f.log), Failures(f.log)))
    case EndSummary(n, _, _) => Some(EndRecord(n, !f.open))
    case EndRecord(_, _) => Some(Unlock)

    case AnnotateResolve(actor, target) =>
      var n := if target.None? then LastPending(f.log, actor) else target;
      if r.Whole? && n.Some? && (target.Some? ==> InvocationExists(f.log, n.value)) then Some(AnnotateWait(n.value)) else None
    case AnnotateWait(n) => Some(AnnotateAppend(n))
    case AnnotateAppend(_) => Some(Unlock)

    case FeedbackHydrate => if r.Whole? && f.log != [] && f.log[0].Started? then Some(FeedbackWait) else None
    case FeedbackWait => Some(FeedbackSeqWait)
    case FeedbackSeqWait => Some(FeedbackRead)
    case FeedbackRead => Some(FeedbackTruncate(Number(f.feedback, r) + 1))
    case FeedbackTruncate(v) => Some(FeedbackWrite(v))
    case FeedbackWrite(v) => Some(FeedbackSeqUnlock(v))
    case FeedbackSeqUnlock(v) => Some(FeedbackAppend(v))
    case FeedbackAppend(_) => Some(Unlock)

    case StartWait => Some(StartAppend)
    case StartAppend => Some(Unlock)
    case Unlock => None
  }

  /** The lines a step appends. */
  function Appended(f: Files, pc: PC): seq<Entry> {
    match pc
    case Header(_, _, _) => if f.log == [] then [Started] else []
    case Record(c, r, v) => [Invocation(v, c.actor, c.group, c.failed, r)]
    case EndSummary(final, n, k) => [Summary(n, k, final)]
    case EndRecord(final, _) => [Ended(final)]
    case AnnotateAppend(n) => [Annotation(n)]
    case FeedbackAppend(v) => [Feedback(v)]
    case StartAppend => [Started]
    case _ => []
  }

  /** What the counter file reads as after a step: rewriting truncates it first. */
  function CounterAfter(f: Files, pc: PC): int {
    match pc
    case SeqTruncate(_, _, _) => 0
    case SeqWrite(_, _, v) => v
    case _ => f.counter
  }

  function FeedbackAfter(f: Files, pc: PC): int {
    match pc
    case FeedbackTruncate(_) => 0
    case FeedbackWrite(v) => v
    case _ => f.feedback
  }

  /** The lines that a write leaves alone: all but an open one. */
  function Closed(f: Files): seq<Entry> {
    if f.open && f.log != [] then f.log[..|f.log| - 1] else f.log
  }

  /** A line becomes one of its own unless it is glued to an open one. */
  function Line(f: Files, e: Entry): Entry {
    if f.open && f.log != [] then Garbled else e
  }

  function Written(f: Files, lines: seq<Entry>): seq<Entry> {
    if lines == [] then f.log else Closed(f) + [Line(f, lines[0])]
  }

  /** The files after the step at `pc`. */
  function Effect(f: Files, pc: PC): Files {
    Files(Written(f, Appended(f, pc)), f.open && Appended(f, pc) == [], CounterAfter(f, pc), FeedbackAfter(f, pc),
          f.learning)
  }

  /** The files after a process has been stopped inside its append. */
  function Broken(f: Files, pc: PC, left: Left): Files {
    match left
    case Nothing => f
    case Fragment => f.(log := Written(f, [Garbled]), open := true)
    case Unended => f.(log := Written(f, Appended(f, pc)), open := true)
  }

  /** The line that the next write is glued to. */
  function Tail(f: Files): Option<Entry> {
    if f.open && f.log != [] then Some(f.log[|f.log| - 1]) else None
  }

  /** Gluing a line to this tail ends the end of the session. */
  predicate Reopens(f: Files) {
    Tail(f).Some? && Tail(f).value.Ended? && !HasEnded(Closed(f))
  }

  /** What writing a line does to the history besides appending it. */
  function Glued(f: Files, past: History): History {
    past.(lost := past.lost + if Tail(f).Some? && Tail(f).value.Invocation? then 1 else 0,
          reopened := past.reopened || Reopens(f))
  }

  /** Its own line goes behind an end record that the last check could not read. */
  predicate Overruns(f: Files, pc: PC, past: History) {
    past.overlooked && HasEnded(f.log) && Tail(f).None? && (pc.Record? || pc.EndRecord?)
  }

  /** The counter is rewritten behind such an end record. */
  predicate Outdates(f: Files, pc: PC, past: History) {
    past.overlooked && HasEnded(f.log) && ((pc.SeqTruncate? && f.counter != 0) || pc.SeqWrite?)
  }

  /** The counter is rewritten with a number that is not the next one: a read of it failed. */
  predicate Restarts(f: Files, pc: PC) {
    pc.SeqTruncate? && pc.value != f.counter + 1
  }

  function Recorded(f: Files, pc: PC, past: History): History {
    if Appended(f, pc) == [] then
      past.(lost := if Restarts(f, pc) then 0 else past.lost,
            restarted := past.restarted || (Restarts(f, pc) && HasInvocation(f.log)),
            outdated := past.outdated || Outdates(f, pc, past))
    else
      Glued(f, past).(
        lost := Glued(f, past).lost + if pc.Record? && Tail(f).Some? then 1 else 0,
        headless := past.headless || (pc.EndRecord? && !pc.kept),
        overrun := past.overrun || Overruns(f, pc, past),
        outdated := past.outdated || (pc.EndRecord? && pc.final != f.counter))
  }

  /** What a step does to the history. */
  function Remembered(f: Files, pc: PC, r: Reading, past: History): History {
    if pc.CheckEnded? || pc.EndCheck? then past.(overlooked := !r.Whole? && HasEnded(f.log)) else Recorded(f, pc, past)
  }

  // ------------------------------------------------------------ what the gates miss

  /** The commands that are past their gate. */
  function Passed(procs: map<Pid, PC>): set<Pid> {
    set p | p in procs && IsCommand(procs[p]) && !procs[p].Gate?
  }

  /** Gluing a line to this tail destroys what a gate may have relied on. */
  predicate Undoes(f: Files) {
    Reopens(f) || (Tail(f).Some? && Tail(f).value.Annotation?)
  }

  /** Its own line is a debt of an actor that owes one already: its gate was blind or
      misled, or its flush did not see that the session had ended. */
  predicate Slips(f: Files, pc: PC, misled: bool) {
    && pc.Record? && Tail(f).None?
    && Gated(Appended(f, pc)[0], pc.call.actor) && !Annotated(f.log, pc.value)
    && LastPending(f.log, pc.call.actor).Some?
    && (Blind(pc.call) || misled)
  }

  /** Process `p` writes a line, whole or in part. */
  function Slipped(s: State, p: Pid, whole: bool): GateHistory
    requires p in s.procs
  {
    GateHistory(
      s.gates.misled + (if Undoes(s.files) then Passed(s.procs) else {}),
      s.gates.slipped || (whole && Slips(s.files, s.procs[p], p in s.gates.misled || s.past.overlooked)))
  }

  function Gates(s: State, p: Pid, r: Reading): GateHistory
    requires p in s.procs
  {
    if s.procs[p].Gate? && r.Failed? then s.gates.(misled := s.gates.misled + {p})
    else if Appended(s.files, s.procs[p]) == [] then s.gates
    else Slipped(s, p, true)
  }

  // -------------------------------------------------------------------------- steps

  /** A lock is taken on entering the section that holds it and released on leaving. */
  function Move(lock: Option<Pid>, p: Pid, before: bool, after: bool): Option<Pid> {
    if before == after then lock else if after then Some(p) else None
  }

  function Put(procs: map<Pid, PC>, p: Pid, pc: Option<PC>): map<Pid, PC> {
    if pc.Some? then procs[p := pc.value] else procs - {p}
  }

  /** Process `p` goes from `pc` to `to`, taking and releasing locks on the way. */
  function Goto(s: State, p: Pid, pc: PC, to: Option<PC>): State {
    s.(procs := Put(s.procs, p, to),
       logLock := Move(s.logLock, p, HoldsLog(pc), to.Some? && HoldsLog(to.value)),
       seqLock := Move(s.seqLock, p, HoldsSeq(pc), to.Some? && HoldsSeq(to.value)),
       feedbackLock := Move(s.feedbackLock, p, HoldsFeedback(pc), to.Some? && HoldsFeedback(to.value)))
  }

  function Next(s: State, p: Pid, r: Reading): State
    requires p in s.procs
  {
    var pc := s.procs[p];
    Goto(s, p, pc, NextPC(s.files, pc, r)).(
      files := Effect(s.files, pc), past := Remembered(s.files, pc, r, s.past), gates := Gates(s, p, r))
  }

  /** What a stop at `pc` does to the history. A counter file that was truncated stays
      empty and reads as 0; that is harmful (`torn`) exactly when the log already holds a
      number. A whole line counts as written, a part of one does not. */
  function Stopped(f: Files, pc: PC, left: Left, past: History): History {
    if left.Unended? then
      var after := Recorded(f, pc, past);
      after.(lost := after.lost + if pc.Header? then 1 else 0)
    else
      var after := if left.Fragment? then Glued(f, past) else past;
      after.(
        torn := past.torn || (pc.SeqWrite? && HasInvocation(f.log)),
        lost := if pc.SeqWrite? then 0 else after.lost + if Allocated(pc) then 1 else 0)
  }

  /** The process stops where it is and the system releases its locks. */
  function Stop(s: State, p: Pid, left: Left): State
    requires p in s.procs
  {
    var pc := s.procs[p];
    Goto(s, p, pc, None).(
      files := Broken(s.files, pc, left), past := Stopped(s.files, pc, left, s.past),
      gates := if left.Nothing? then s.gates else Slipped(s, p, left.Unended?))
  }

  function Step(s: State, a: Action): State
    requires Enabled(s, a)
  {
    match a
    case Spawn(p, pc) => s.(procs := s.procs[p := pc], gates := s.gates.(misled := s.gates.misled - {p}))
    case Advance(p, r) => Next(s, p, r)
    case Abort(p, left) => Stop(s, p, left)
  }

  /** The state after the actions, or `None` if one of them was not enabled. */
  function Run(s: State, actions: seq<Action>): Option<State> {
    if actions == [] then Some(s)
    else
      match Run(s, actions[..|actions| - 1])
      case None => None
      case Some(t) =>
        if Enabled(t, actions[|actions| - 1]) then Some(Step(t, actions[|actions| - 1])) else None
  }
}
