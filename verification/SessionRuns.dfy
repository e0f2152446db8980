/**
  Concrete runs of the session machine in which a promise fails. Dispatched commands only;
  all but one run have one process at a time.
*/
module SessionRuns {
  import opened Common
  import opened SessionLog
  import opened SessionSafety
  import opened SessionFiles
  import opened LearningGate

  // --------------------------------------------------- one process beside parked ones

  /** Processes that hold no lock and take no step. */
  type Parked = map<Pid, PC>

  predicate HoldsNothing(pc: PC) {
    !HoldsLog(pc) && !HoldsSeq(pc) && !HoldsFeedback(pc)
  }

  predicate Idle(s: State, parked: Parked) {
    && s.procs == parked && (forall q :: q in parked ==> HoldsNothing(parked[q]))
    && s.logLock.None? && s.seqLock.None? && s.feedbackLock.None?
  }

  /** Process `p` is at `pc`; it holds the log lock exactly when its point says so. */
  predicate Sole(s: State, p: Pid, pc: PC, parked: Parked) {
    && p !in parked && s.procs == parked[p := pc] && (forall q :: q in parked ==> HoldsNothing(parked[q]))
    && s.logLock == (if HoldsLog(pc) then Some(p) else None)
    && s.seqLock == (if HoldsSeq(pc) then Some(p) else None)
    && s.feedbackLock == (if HoldsFeedback(pc) then Some(p) else None)
  }

  /** No read fails. */
  predicate AllRead(actions: seq<Action>) {
    forall i :: 0 <= i < |actions| && actions[i].Advance? ==> actions[i].reading.Whole?
  }

  /** No process is stopped. */
  predicate NoneStopped(actions: seq<Action>) {
    forall i :: 0 <= i < |actions| ==> !actions[i].Abort?
  }

  /** The run goes on, without a failing read or a stop unless these say so. */
  predicate GoesOn(actions: seq<Action>, longer: seq<Action>, s: State, fails: bool, stops: bool) {
    && DisciplinedRun(longer, s) && actions <= longer
    && (AllRead(actions) && !fails ==> AllRead(longer))
    && (NoneStopped(actions) && !stops ==> NoneStopped(longer))
  }

  lemma Grow(actions: seq<Action>, s: State, a: Action)
    requires DisciplinedRun(actions, s) && Enabled(s, a) && Disciplined(s, a)
    ensures GoesOn(actions, actions + [a], Step(s, a), a.Advance? && !a.reading.Whole?, a.Abort?)
  {
    hide Enabled, Disciplined;
    assert (actions + [a])[..|actions + [a]| - 1] == actions;
    GateRun(actions, s);
  }

  lemma {:induction false} GrowDrive(actions: seq<Action>, s: State, p: Pid, n: nat, fails: Fails, t: State)
    returns (longer: seq<Action>)
    requires DisciplinedRun(actions, s) && Drive(s, p, n, fails) == Some(t)
    ensures GoesOn(actions, longer, t, fails != NONE, false)
    decreases n
  {
    hide DisciplinedRun, Next;
    if n == 0 {
      longer := actions;
    } else {
      var a := Forth(s, p, fails);
      Grow(actions, s, a);
      longer := GrowDrive(actions + [a], Step(s, a), p, n - 1, fails, t);
    }
  }

  lemma Begin(actions: seq<Action>, s: State, p: Pid, pc: PC, parked: Parked) returns (longer: seq<Action>, t: State)
    requires DisciplinedRun(actions, s) && Idle(s, parked) && p !in parked && Initial(pc) && !pc.Work?
    requires pc.Gate? ==> forall q :: q in parked && IsCommand(parked[q]) ==> parked[q].call.actor != pc.call.actor
    ensures GoesOn(actions, longer, t, false, false) && Sole(t, p, pc, parked) && t.files == s.files
  {
    Grow(actions, s, Spawn(p, pc));
    longer, t := actions + [Spawn(p, pc)], Step(s, Spawn(p, pc));
  }

  /** One step of the process. */
  lemma Forward(actions: seq<Action>, s: State, p: Pid, pc: PC, r: Reading, to: PC, f: Files, parked: Parked)
    returns (longer: seq<Action>, t: State)
    requires DisciplinedRun(actions, s) && Sole(s, p, pc, parked) && CanRead(pc, r)
    requires NextPC(s.files, pc, r) == Some(to) && Effect(s.files, pc) == f
    ensures GoesOn(actions, longer, t, !r.Whole?, false) && Sole(t, p, to, parked) && t.files == f
  {
    hide Refuses, LastPending, HasEnded, Written, Remembered, Gates, Effect, NextPC, DisciplinedRun, AllRead, NoneStopped;
    var a := Advance(p, r);
    Grow(actions, s, a);
    longer, t := actions + [a], Next(s, p, r);
    assert t.procs == parked[p := to];
  }

  /** The process is stopped where it is. */
  lemma Halt(actions: seq<Action>, s: State, p: Pid, pc: PC, left: Left, parked: Parked) returns (longer: seq<Action>, t: State)
    requires DisciplinedRun(actions, s) && Sole(s, p, pc, parked)
    requires !left.Nothing? ==> Appended(s.files, pc) != []
    ensures GoesOn(actions, longer, t, false, true) && Idle(t, parked)
    ensures t.files == Broken(s.files, pc, left)
  {
    hide Refuses, LastPending, HasEnded, Written, Stopped, Slipped, Broken, Appended;
    Grow(actions, s, Abort(p, left));
    longer, t := actions + [Abort(p, left)], Stop(s, p, left);
    assert t.procs == parked;
  }

  /** The process runs its locked section to the end; some of its reads may fail. */
  lemma Finish(actions: seq<Action>, s: State, p: Pid, pc: PC, fails: Fails, parked: Parked)
    returns (longer: seq<Action>, t: State)
    requires DisciplinedRun(actions, s) && Sole(s, p, pc, parked) && HoldsLog(pc)
    ensures GoesOn(actions, longer, t, fails != NONE, false) && Idle(t, parked)
    ensures t.files == Section(s.files, pc, fails)
  {
    hide Section, DisciplinedRun, Drive;
    GateRun(actions, s);
    InvGivesStructure(true, actions, s);
    LocksAreHeld(s);
    var n;
    n, t := SectionCanFinish(s, p, fails);
    longer := GrowDrive(actions, s, p, n, fails, t);
    GateRun(longer, t);
    InvGivesStructure(true, longer, t);
    assert t.procs == parked;
    LocksAreHeld(t);
    NobodyHolds(t, parked);
  }

  lemma NobodyHolds(s: State, parked: Parked)
    requires LocksHeld(s) && s.procs == parked && forall q :: q in parked ==> HoldsNothing(parked[q])
    ensures Idle(s, parked)
  {
  }

  // -------------------------------------------------------------- whole operations

  /** A command, its gate reading as `r` says, takes the log lock. */
  lemma Dispatch(actions: seq<Action>, s: State, c: Call, r: Reading) returns (longer: seq<Action>, t: State)
    requires DisciplinedRun(actions, s) && Idle(s, map[])
    ensures GoesOn(actions, longer, t, !r.Whole?, false)
    ensures Sole(t, 0, CheckEnded(c, Refuses(s.files, c, r)), map[]) && t.files == s.files
  {
    hide Refuses, LastPending, HasEnded, Written, Idle, Sole, DisciplinedRun, AllRead, NoneStopped;
    var x := Refuses(s.files, c, r);
    longer, t := Begin(actions, s, 0, Gate(c), map[]);
    GateSteps(s.files, c, x);
    longer, t := Forward(longer, t, 0, Gate(c), r, Work(c, x), s.files, map[]);
    longer, t := Forward(longer, t, 0, Work(c, x), Whole, CheckEnded(c, x), s.files, map[]);
  }

  lemma GateSteps(f: Files, c: Call, x: bool)
    ensures Effect(f, Gate(c)) == f && Effect(f, Work(c, x)) == f
    ensures NextPC(f, Work(c, x), Whole) == Some(CheckEnded(c, x))
  {
    Quiet(f, Gate(c));
    Quiet(f, Work(c, x));
  }

  lemma WholeCommand(actions: seq<Action>, s: State, c: Call, r: Reading, fails: Fails) returns (longer: seq<Action>, t: State)
    requires DisciplinedRun(actions, s) && Idle(s, map[])
    ensures GoesOn(actions, longer, t, !r.Whole? || fails != NONE, false) && Idle(t, map[])
    ensures t.files == Flushed(s.files, c, Refuses(s.files, c, r), fails)
  {
    hide Refuses, HasEnded, Section, Flushed, Sole, Idle, DisciplinedRun, AllRead, NoneStopped;
    longer, t := Dispatch(actions, s, c, r);
    FlushSection(s.files, c, Refuses(s.files, c, r), fails);
    longer, t := Finish(longer, t, 0, CheckEnded(c, Refuses(s.files, c, r)), fails, map[]);
  }

  lemma WholeStart(actions: seq<Action>, s: State) returns (longer: seq<Action>, t: State)
    requires DisciplinedRun(actions, s) && Idle(s, map[])
    ensures GoesOn(actions, longer, t, false, false) && Idle(t, map[])
    ensures t.files == WithLine(s.files, Started)
  {
    hide Refuses, HasEnded, LastPending, Section, Sole, Idle, DisciplinedRun, Effect, NextPC, WithLine;
    StartSteps(s.files);
    longer, t := Begin(actions, s, 0, StartWait, map[]);
    longer, t := Forward(longer, t, 0, StartWait, Whole, StartAppend, s.files, map[]);
    longer, t := Finish(longer, t, 0, StartAppend, NONE, map[]);
  }

  lemma StartSteps(f: Files)
    ensures NextPC(f, StartWait, Whole) == Some(StartAppend) && Effect(f, StartWait) == f
    ensures Section(f, StartAppend, NONE) == WithLine(f, Started)
  {
    hide Section, Refuses, HasEnded, LastPending;
    Quiet(f, StartWait);
    Writes(f, StartAppend, Started);
    Unfold(f, StartAppend, WithLine(f, Started), Unlock, NONE);
    Final(WithLine(f, Started), Unlock, NONE);
  }

  lemma WholeEnd(actions: seq<Action>, s: State, fails: Fails) returns (longer: seq<Action>, t: State)
    requires DisciplinedRun(actions, s) && Idle(s, map[])
    ensures GoesOn(actions, longer, t, fails != NONE, false) && Idle(t, map[])
    ensures t.files == EndedFiles(s.files, fails)
  {
    hide Refuses, HasEnded, LastPending, Section, Sole, Idle, EndedFiles, DisciplinedRun, Effect, NextPC;
    longer, t := Begin(actions, s, 0, EndWait, map[]);
    EndWaits(s.files);
    longer, t := Forward(longer, t, 0, EndWait, Whole, EndCheck, s.files, map[]);
    EndSection(s.files, fails);
    longer, t := Finish(longer, t, 0, EndCheck, fails, map[]);
  }

  lemma EndWaits(f: Files)
    ensures NextPC(f, EndWait, Whole) == Some(EndCheck) && Effect(f, EndWait) == f
  {
    Quiet(f, EndWait);
  }

  lemma WholeFeedback(actions: seq<Action>, s: State, parked: Parked) returns (longer: seq<Action>, t: State)
    requires DisciplinedRun(actions, s) && Idle(s, parked) && 0 !in parked
    requires s.files.log != [] && s.files.log[0].Started?
    ensures GoesOn(actions, longer, t, false, false) && Idle(t, parked)
    ensures t.files == FeedbackFiles(s.files, NONE)
  {
    hide Refuses, HasEnded, LastPending, Section, Sole, Idle, FeedbackFiles, Effect, NextPC, DisciplinedRun, AllRead, NoneStopped;
    FeedbackSteps(s.files);
    longer, t := Begin(actions, s, 0, FeedbackHydrate, parked);
    longer, t := Forward(longer, t, 0, FeedbackHydrate, Whole, FeedbackWait, s.files, parked);
    longer, t := Forward(longer, t, 0, FeedbackWait, Whole, FeedbackSeqWait, s.files, parked);
    FeedbackSection(s.files, NONE);
    longer, t := Finish(longer, t, 0, FeedbackSeqWait, NONE, parked);
  }

  lemma FeedbackSteps(f: Files)
    requires f.log != [] && f.log[0].Started?
    ensures NextPC(f, FeedbackHydrate, Whole) == Some(FeedbackWait) && Effect(f, FeedbackHydrate) == f
    ensures NextPC(f, FeedbackWait, Whole) == Some(FeedbackSeqWait) && Effect(f, FeedbackWait) == f
  {
    Quiet(f, FeedbackHydrate);
    Quiet(f, FeedbackWait);
  }

  lemma Nobody() returns (actions: seq<Action>, s: State)
    ensures DisciplinedRun(actions, s) && Idle(s, map[]) && s == Start(true)
    ensures AllRead(actions) && NoneStopped(actions)
  {
    actions, s := [], Start(true);
  }

  // ------------------------------------------------------------- repeated numbers

  function One(c: Call, n: int, refused: bool): Entry {
    Invocation(n, c.actor, c.group, c.failed, refused)
  }

  /** A session after its first command. */
  function AfterOne(c: Call, x: bool): Files {
    Files([Started, One(c, 1, x)], false, 1, 0, true)
  }

  lemma FirstCommand(c: Call, x: bool)
    ensures Flushed(Start(true).files, c, x, NONE) == AfterOne(c, x) && !HasEnded(AfterOne(c, x).log)
  {
    assert [Started] + [One(c, 1, x)] == [Started, One(c, 1, x)];
  }

  /** The second command counts from nothing. */
  lemma SecondCommand(f: Files, c: Call, x: bool, y: bool, fails: Fails)
    requires f == AfterOne(c, x) || f == AfterOne(c, x).(counter := 0)
    requires f.counter == 0 || fails.number
    ensures Numbers(Flushed(f, c, y, fails).log) == [1, 1]
  {
    FirstCommand(c, x);
    AppendCounts([], Started);
    AppendCounts([Started], One(c, 1, x));
    assert [Started] + [One(c, 1, x)] == [Started, One(c, 1, x)];
    AppendCounts([Started, One(c, 1, x)], One(c, 1, y));
    assert [] + [Started] == [Started];
  }

  /** Two equal numbers show a renumbering. */
  lemma TwiceIsRenumbered(actions: seq<Action>, s: State)
    requires Reached(true, actions, s) && Numbers(s.files.log) == [1, 1]
    ensures Renumbered(s.past)
  {
    InvRun(true, actions, s);
    assert !Increasing([1, 1]) by {
      assert [1, 1][0] == [1, 1][1];
    }
  }

  /** A flush that is stopped between truncating the counter file and rewriting it. */
  lemma TornFlush(actions: seq<Action>, s: State, c: Call) returns (longer: seq<Action>, t: State)
    requires DisciplinedRun(actions, s) && Idle(s, map[]) && !HasEnded(s.files.log)
    ensures GoesOn(actions, longer, t, false, true) && Idle(t, map[])
    ensures t.files == s.files.(counter := 0)
  {
    hide HasEnded, LastPending, Sole, Idle, Effect, NextPC, DisciplinedRun, Refuses;
    var f, v, x := s.files, s.files.counter + 1, Refuses(s.files, c, Whole);
    CounterSteps(f, c, x);
    longer, t := Dispatch(actions, s, c, Whole);
    longer, t := Forward(longer, t, 0, CheckEnded(c, x), Whole, SeqWait(c, x), f, map[]);
    longer, t := Forward(longer, t, 0, SeqWait(c, x), Whole, SeqRead(c, x), f, map[]);
    longer, t := Forward(longer, t, 0, SeqRead(c, x), Whole, SeqTruncate(c, x, v), f, map[]);
    longer, t := Forward(longer, t, 0, SeqTruncate(c, x, v), Whole, SeqWrite(c, x, v), f.(counter := 0), map[]);
    longer, t := Halt(longer, t, 0, SeqWrite(c, x, v), Nothing, map[]);
  }

  lemma CounterSteps(f: Files, c: Call, x: bool)
    requires !HasEnded(f.log)
    ensures var v := f.counter + 1;
            && NextPC(f, CheckEnded(c, x), Whole) == Some(SeqWait(c, x)) && Effect(f, CheckEnded(c, x)) == f
            && NextPC(f, SeqWait(c, x), Whole) == Some(SeqRead(c, x)) && Effect(f, SeqWait(c, x)) == f
            && NextPC(f, SeqRead(c, x), Whole) == Some(SeqTruncate(c, x, v)) && Effect(f, SeqRead(c, x)) == f
            && NextPC(f, SeqTruncate(c, x, v), Whole) == Some(SeqWrite(c, x, v))
            && Effect(f, SeqTruncate(c, x, v)) == f.(counter := 0)
  {
    hide Refuses, HasEnded, LastPending;
    Quiet(f, CheckEnded(c, x));
    Quiet(f, SeqWait(c, x));
    Quiet(f, SeqRead(c, x));
    Quiet(f, SeqTruncate(c, x, f.counter + 1));
  }

  /** The holder is about to write the next number. */
  predicate CountsOn(s: State) {
    Holder(s).Some? && Holder(s).value.SeqTruncate? ==> Holder(s).value.value == s.files.counter + 1
  }

  /** Without a failing read the counter never starts again by itself. */
  lemma {:induction false} ReadIsNotRestarted(actions: seq<Action>, s: State)
    requires Reached(true, actions, s) && AllRead(actions)
    ensures !s.past.restarted && CountsOn(s)
  {
    hide Inv, Structure, CountsOn;
    if actions == [] {
      NothingHeld();
    } else {
      var rest, a := actions[..|actions| - 1], actions[|actions| - 1];
      var t := Run(Start(true), rest).value;
      assert forall i :: 0 <= i < |rest| ==> rest[i] == actions[i];
      ReadIsNotRestarted(rest, t);
      InvGivesStructure(true, rest, t);
      StepReads(t, a);
    }
  }

  lemma NothingHeld()
    ensures CountsOn(Start(true)) && !Start(true).past.restarted
  {
  }

  lemma StepReads(s: State, a: Action)
    requires Enabled(s, a) && Structure(s) && !s.past.restarted && (a.Advance? ==> a.reading.Whole?) && CountsOn(s)
    ensures !Step(s, a).past.restarted && CountsOn(Step(s, a))
  {
    hide FilesOk, HolderFacts, Next, Stop;
    if !a.Spawn? {
      if HoldsLog(s.procs[a.pid]) {
        TheHolder(s, a.pid);
        HolderReads(s, a);
      } else if a.Advance? {
        OutsiderStep(s, a.pid, Whole);
      } else {
        OutsiderStops(s, a.pid);
      }
    }
  }

  lemma HolderReads(s: State, a: Action)
    requires Enabled(s, a) && Structure(s) && !s.past.restarted && (a.Advance? ==> a.reading.Whole?) && CountsOn(s)
    requires !a.Spawn? && HoldsLog(s.procs[a.pid]) && Holder(s) == Some(s.procs[a.pid])
    ensures !Step(s, a).past.restarted && CountsOn(Step(s, a))
  {
    hide FilesOk, HolderFacts, Gates, Slipped, Remembered, Stopped, Refuses, LastPending, HasEnded, InvocationExists, LocksHeld;
    var pc := s.procs[a.pid];
    if a.Advance? {
      Leaves(s.files, pc, Whole);
      HolderAfter(s, a.pid, Whole);
      NextNumber(s.files, pc);
      Renumbers(s.files, pc, Whole, s.past);
      hide NextPC, Effect, Goto;
    } else {
      StopsKeepCounting(s.files, pc, a.left, s.past);
      NobodyAfter(s, a.pid, a.left);
    }
  }

  lemma NobodyAfter(s: State, p: Pid, left: Left)
    requires LocksHeld(s) && p in s.procs && HoldsLog(s.procs[p])
    ensures Holder(Stop(s, p, left)).None?
  {
    TheHolder(s, p);
    hide Stopped, Slipped, Broken;
  }

  lemma NextNumber(f: Files, pc: PC)
    ensures var to := NextPC(f, pc, Whole);
            to.Some? && to.value.SeqTruncate? ==> to.value.value == f.counter + 1 && CounterAfter(f, pc) == f.counter
  {
    hide HasEnded, Refuses, LastPending, InvocationExists;
  }

  lemma {:induction false} UnstoppedIsNotTorn(actions: seq<Action>, s: State)
    requires Reached(true, actions, s) && NoneStopped(actions)
    ensures !s.past.torn
  {
    if actions != [] {
      var rest, a := actions[..|actions| - 1], actions[|actions| - 1];
      assert forall i :: 0 <= i < |rest| ==> rest[i] == actions[i];
      var t := Run(Start(true), rest).value;
      UnstoppedIsNotTorn(rest, t);
      hide Remembered, Gates, Effect, NextPC, Goto;
      if a.Advance? {
        Renumbers(t.files, t.procs[a.pid], a.reading, t.past);
      }
    }
  }

  /** What a step does to the numbering. */
  lemma Renumbers(f: Files, pc: PC, r: Reading, past: History)
    ensures Remembered(f, pc, r, past).torn == past.torn
    ensures Remembered(f, pc, r, past).restarted ==> past.restarted || Restarts(f, pc)
  {
    hide Recorded, Restarts, HasEnded;
    RecordingRenumbers(f, pc, past);
  }

  lemma StopsKeepCounting(f: Files, pc: PC, left: Left, past: History)
    requires !past.restarted && !Restarts(f, pc)
    ensures !Stopped(f, pc, left, past).restarted
  {
    hide Recorded, Glued, Restarts, HasInvocation;
    RecordingRenumbers(f, pc, past);
    GluingKeepsNumbers(f, past);
  }

  lemma RecordingRenumbers(f: Files, pc: PC, past: History)
    ensures Recorded(f, pc, past).torn == past.torn
    ensures Recorded(f, pc, past).restarted ==> past.restarted || Restarts(f, pc)
  {
    hide HasInvocation, Glued, Overruns, Outdates, Restarts, Tail, Appended;
    GluingKeepsNumbers(f, past);
  }

  lemma GluingKeepsNumbers(f: Files, past: History)
    ensures Glued(f, past).torn == past.torn && Glued(f, past).restarted == past.restarted
  {
    hide Reopens, Tail;
  }

  /** One process stopped while it rewrites the counter file is enough for two
      invocations of a session to carry the same number. */
  lemma TornCounterRepeatsANumber(c: Call) returns (actions: seq<Action>, s: State)
    ensures Reached(true, actions, s) && AllRead(actions)
    ensures Numbers(s.files.log) == [1, 1] && s.past.torn
  {
    hide Idle, DisciplinedRun, AllRead, NoneStopped, Refuses, Flushed;
    actions, s := Nobody();
    var x := Refuses(s.files, c, Whole);
    FirstCommand(c, x);
    actions, s := WholeCommand(actions, s, c, Whole, NONE);
    actions, s := TornFlush(actions, s, c);
    SecondCommand(s.files, c, x, Refuses(s.files, c, Whole), NONE);
    actions, s := WholeCommand(actions, s, c, Whole, NONE);
    GateRun(actions, s);
    TwiceIsRenumbered(actions, s);
    ReadIsNotRestarted(actions, s);
  }

  /** So is one flush that cannot read the counter, with nobody stopped. */
  lemma UnreadCounterRepeatsANumber(c: Call) returns (actions: seq<Action>, s: State)
    ensures Reached(true, actions, s) && NoneStopped(actions)
    ensures Numbers(s.files.log) == [1, 1] && s.past.restarted && !s.past.torn
  {
    hide Idle, DisciplinedRun, AllRead, NoneStopped, Refuses, Flushed;
    actions, s := Nobody();
    var x := Refuses(s.files, c, Whole);
    FirstCommand(c, x);
    actions, s := WholeCommand(actions, s, c, Whole, NONE);
    SecondCommand(s.files, c, x, Refuses(s.files, c, Whole), Fails(false, true));
    actions, s := WholeCommand(actions, s, c, Whole, Fails(false, true));
    GateRun(actions, s);
    TwiceIsRenumbered(actions, s);
    UnstoppedIsNotTorn(actions, s);
  }

  // ------------------------------------------------------------- an unread end record

  const BARE := Files([Started], false, 0, 0, true)

  /** A started session that has been ended at once. */
  const CLOSED := Files([Started, Summary(0, 0, 0), Ended(0)], false, 0, 0, true)

  lemma BareSession()
    ensures WithLine(Start(true).files, Started) == BARE && !HasEnded(BARE.log) && HasEnded(CLOSED.log)
    ensures Invocations(BARE.log) == 0 && Failures(BARE.log) == 0
    ensures EndedFiles(BARE, NONE) == CLOSED
  {
    AppendCounts([], Started);
    assert [] + [Started] == [Started];
    assert CLOSED.log[2].Ended?;
    assert [Started] + [Summary(0, 0, 0)] + [Ended(0)] == CLOSED.log;
  }

  lemma StartAndEnd() returns (actions: seq<Action>, s: State)
    ensures DisciplinedRun(actions, s) && Idle(s, map[]) && s.files == CLOSED && NoneStopped(actions)
  {
    hide Idle, DisciplinedRun, AllRead, NoneStopped, EndedFiles, WithLine;
    BareSession();
    actions, s := Nobody();
    actions, s := WholeStart(actions, s);
    actions, s := WholeEnd(actions, s, NONE);
  }

  /** The end of the run is not final, so it overran the end record. */
  lemma NotFinalIsOverrun(actions: seq<Action>, s: State)
    requires Reached(true, actions, s) && !EndIsFinal(s)
    ensures s.past.overrun
  {
    hide EndIsFinal;
    EndIsFinalIff(true, actions, s);
    if Throughout(true, actions, EndIsFinal) {
      ThroughoutNow(true, actions, s, EndIsFinal);
    }
  }

  /** A flush that cannot read the log records an invocation behind the end record. */
  lemma UnreadEndIsOverrun(c: Call) returns (actions: seq<Action>, s: State)
    ensures Reached(true, actions, s) && NoneStopped(actions) && s.past.overrun
    ensures exists x :: s.files.log == CLOSED.log + [One(c, 1, x)]
  {
    hide Idle, DisciplinedRun, AllRead, NoneStopped, Refuses;
    actions, s := StartAndEnd();
    var x := Refuses(s.files, c, Whole);
    actions, s := WholeCommand(actions, s, c, Whole, Fails(true, false));
    assert s.files.log == CLOSED.log + [One(c, 1, x)];
    assert s.files.log[2].Ended? && s.files.log[3].Invocation?;
    GateRun(actions, s);
    NotFinalIsOverrun(actions, s);
  }

  /** An end section that cannot read it writes a second end record. */
  lemma UnreadEndIsWrittenTwice() returns (actions: seq<Action>, s: State)
    ensures Reached(true, actions, s) && NoneStopped(actions) && s.past.overrun
    ensures s.files.log == CLOSED.log + [Summary(0, 0, 0), Ended(0)]
  {
    hide Idle, DisciplinedRun, AllRead, NoneStopped, Invocations, Failures;
    actions, s := StartAndEnd();
    ClosedCounted();
    actions, s := WholeEnd(actions, s, Fails(true, false));
    assert s.files.log == CLOSED.log + [Summary(0, 0, 0), Ended(0)];
    assert s.files.log[2].Ended? && s.files.log[4].Ended?;
    GateRun(actions, s);
    NotFinalIsOverrun(actions, s);
  }

  lemma ClosedCounted()
    ensures Invocations(CLOSED.log) == 0 && Failures(CLOSED.log) == 0
  {
    AppendCounts([Started], Summary(0, 0, 0));
    AppendCounts([Started] + [Summary(0, 0, 0)], Ended(0));
    AppendCounts([], Started);
    assert [] + [Started] == [Started];
    assert [Started] + [Summary(0, 0, 0)] + [Ended(0)] == CLOSED.log;
  }

  // ------------------------------------------------------------------ a second debt

  /** Two debts at the end show a slip. */
  lemma TwoDebtsAreASlip(actions: seq<Action>, s: State, actor: string, i: nat, j: nat)
    requires DisciplinedRun(actions, s) && i < j && PendingAt(s.files.log, actor, i) && PendingAt(s.files.log, actor, j)
    ensures s.gates.slipped
  {
    hide DisciplinedRun, Throughout;
    assert !OwesAtMostOne(s) by {
      assert !AtMostOnePending(s.files.log, actor);
    }
    OwesAtMostOneIff(actions, s);
    if Throughout(true, actions, OwesAtMostOne) {
      GateRun(actions, s);
      ThroughoutNow(true, actions, s, OwesAtMostOne);
    }
  }

  lemma TwoDebts(first: Call, c: Call)
    requires first.actor == c.actor && first.group !in BYPASS && c.group !in BYPASS
    ensures var f := Flushed(AfterOne(first, false), c, false, NONE);
            PendingAt(f.log, c.actor, 1) && PendingAt(f.log, c.actor, 2)
  {
    FirstCommand(first, false);
    var log := Flushed(AfterOne(first, false), c, false, NONE).log;
    assert log == [Started, One(first, 1, false), One(c, 2, false)];
    assert forall n :: !Annotated(log, n);
  }

  /** The record of a second command, of the same actor, that its gate does not refuse: with
      a help token among its arguments, run while the gate finds no session or an open other
      one, or while it cannot read the log. */
  lemma SecondDebt(c: Call, r: Reading) returns (actions: seq<Action>, s: State)
    requires c.group !in BYPASS && !r.EndUnseen? && (c.help || c.view != Elsewhere(true))
    requires Blind(c) || r.Failed?
    ensures DisciplinedRun(actions, s) && s.gates.slipped && NoneStopped(actions)
    ensures PendingAt(s.files.log, c.actor, 1) && PendingAt(s.files.log, c.actor, 2)
  {
    hide Idle, DisciplinedRun, AllRead, NoneStopped, Flushed;
    var first := Call(c.actor, c.group, false, Here, false);
    actions, s := Nobody();
    assert !Refuses(s.files, first, Whole);
    FirstCommand(first, false);
    actions, s := WholeCommand(actions, s, first, Whole, NONE);
    assert !Refuses(s.files, c, r);
    actions, s := WholeCommand(actions, s, c, r, NONE);
    TwoDebts(first, c);
    TwoDebtsAreASlip(actions, s, c.actor, 1, 2);
  }

  /** A help token, no session, or an open other one. */
  lemma BlindGateIsASecondDebt(c: Call) returns (actions: seq<Action>, s: State)
    requires c.group !in BYPASS && Blind(c) && (c.help || c.view != Elsewhere(true))
    ensures DisciplinedRun(actions, s) && s.gates.slipped && NoneStopped(actions)
    ensures PendingAt(s.files.log, c.actor, 1) && PendingAt(s.files.log, c.actor, 2)
  {
    actions, s := SecondDebt(c, Whole);
  }

  /** A gate that finds this session but cannot read its log. */
  lemma UnreadGateIsASecondDebt(c: Call) returns (actions: seq<Action>, s: State)
    requires c.group !in BYPASS && !Blind(c)
    ensures DisciplinedRun(actions, s) && s.gates.slipped && NoneStopped(actions)
    ensures PendingAt(s.files.log, c.actor, 1) && PendingAt(s.files.log, c.actor, 2)
  {
    actions, s := SecondDebt(c, Failed);
  }

  /** The session after its first command and an annotation that lacks only its newline. */
  function Annotating(c: Call): Files {
    Files([Started, One(c, 1, false), Annotation(1)], true, 1, 0, true)
  }

  /** The same after feedback has been glued to the annotation. */
  function Unannotated(c: Call): Files {
    Files([Started, One(c, 1, false), Garbled], false, 1, 1, true)
  }

  lemma CutAnnotation(actions: seq<Action>, s: State, c: Call) returns (longer: seq<Action>, t: State)
    requires DisciplinedRun(actions, s) && Idle(s, map[]) && s.files == AfterOne(c, false) && c.group !in BYPASS
    ensures GoesOn(actions, longer, t, false, true) && Idle(t, map[]) && t.files == Annotating(c)
  {
    hide Idle, Sole, DisciplinedRun, AllRead, NoneStopped, Effect, NextPC, Broken;
    var f, a := s.files, AnnotateResolve(c.actor, Some(1));
    AnnotationSteps(c);
    longer, t := Begin(actions, s, 0, a, map[]);
    longer, t := Forward(longer, t, 0, a, Whole, AnnotateWait(1), f, map[]);
    longer, t := Forward(longer, t, 0, AnnotateWait(1), Whole, AnnotateAppend(1), f, map[]);
    longer, t := Halt(longer, t, 0, AnnotateAppend(1), Unended, map[]);
  }

  lemma AnnotationSteps(c: Call)
    ensures var f, a := AfterOne(c, false), AnnotateResolve(c.actor, Some(1));
            && NextPC(f, a, Whole) == Some(AnnotateWait(1)) && Effect(f, a) == f
            && NextPC(f, AnnotateWait(1), Whole) == Some(AnnotateAppend(1)) && Effect(f, AnnotateWait(1)) == f
            && Appended(f, AnnotateAppend(1)) != [] && Broken(f, AnnotateAppend(1), Unended) == Annotating(c)
  {
    var f := AfterOne(c, false);
    assert f.log[1].Invocation? && f.log[1].number == 1;
    assert f.log + [Annotation(1)] == Annotating(c).log;
    Quiet(f, AnnotateResolve(c.actor, Some(1)));
    Quiet(f, AnnotateWait(1));
  }

  lemma NothingOwed(c: Call)
    requires !Blind(c) && c.group !in BYPASS
    ensures !Refuses(Annotating(c), c, Whole) && FeedbackFiles(Annotating(c), NONE) == Unannotated(c)
    ensures !HasEnded(Unannotated(c).log)
    ensures var log := Flushed(Unannotated(c), c, false, NONE).log; PendingAt(log, c.actor, 1) && PendingAt(log, c.actor, 3)
  {
    var log := Annotating(c).log;
    assert log[2] == Annotation(1);
    assert forall i :: !PendingAt(log, c.actor, i);
    var after := Flushed(Unannotated(c), c, false, NONE).log;
    assert after == [Started, One(c, 1, false), Garbled, One(c, 2, false)];
    assert forall n :: !Annotated(after, n);
  }

  /** Every gate sees and reads everything. But a command that passes on an annotation whose
      newline is missing, to which feedback is glued before its record, is a second debt. */
  lemma GluedAnnotationIsASecondDebt(c: Call) returns (actions: seq<Action>, s: State)
    requires c.group !in BYPASS && !Blind(c)
    ensures DisciplinedRun(actions, s) && AllRead(actions) && s.gates.slipped
    ensures PendingAt(s.files.log, c.actor, 1) && PendingAt(s.files.log, c.actor, 3)
  {
    hide Idle, Sole, DisciplinedRun, AllRead, NoneStopped, Flushed, Effect, NextPC, FeedbackFiles, HasEnded;
    actions, s := Nobody();
    assert Refuses(s.files, c, Whole) == false;
    FirstCommand(c, false);
    actions, s := WholeCommand(actions, s, c, Whole, NONE);
    actions, s := CutAnnotation(actions, s, c);
    NothingOwed(c);
    // the command passes its gate and waits for the lock
    var x := Refuses(s.files, c, Whole);
    GateSteps(s.files, c, x);
    PassesTo(s.files, c);
    actions, s := Begin(actions, s, 1, Gate(c), map[]);
    actions, s := Forward(actions, s, 1, Gate(c), Whole, Work(c, x), s.files, map[]);
    Park(s, 1, Work(c, x));
    actions, s := WholeFeedback(actions, s, map[1 := Work(c, x)]);
    Park(s, 1, Work(c, x));
    // and goes on
    GateSteps(s.files, c, x);
    actions, s := Forward(actions, s, 1, Work(c, x), Whole, CheckEnded(c, x), s.files, map[]);
    FlushSection(s.files, c, x, NONE);
    actions, s := Finish(actions, s, 1, CheckEnded(c, x), NONE, map[]);
    TwoDebtsAreASlip(actions, s, c.actor, 1, 3);
  }

  lemma PassesTo(f: Files, c: Call)
    ensures NextPC(f, Gate(c), Whole) == Some(Work(c, Refuses(f, c, Whole)))
  {
  }

  lemma Park(s: State, p: Pid, pc: PC)
    requires HoldsNothing(pc)
    ensures Sole(s, p, pc, map[]) <==> Idle(s, map[p := pc])
  {
  }

  // ------------------------------------------------------------------- open lines

  lemma CutFiles()
    ensures var f := Start(true).files;
            var cut := Files([Garbled], true, 0, 0, true);
            Appended(f, StartAppend) != [] && Broken(f, StartAppend, Fragment) == cut
            && EndedFiles(cut, NONE).log == [Garbled, Ended(0)]
  {
  }

  lemma HeadlessEnd(actions: seq<Action>, s: State)
    requires Reached(true, actions, s) && s.files.log == [Garbled, Ended(0)]
    ensures s.past.headless
  {
    hide Throughout;
    assert !EndsFollowSummaries(s) by {
      assert s.files.log[1].Ended? && s.files.log[1 - 1].Garbled?;
    }
    EndFollowsSummaryIff(true, actions, s);
    if Throughout(true, actions, EndsFollowSummaries) {
      ThroughoutNow(true, actions, s, EndsFollowSummaries);
    }
  }

  /** A start record that is cut off, then `session end`: the end record follows no summary. */
  lemma CutLineSwallowsTheSummary() returns (actions: seq<Action>, s: State)
    ensures Reached(true, actions, s) && AllRead(actions) && s.past.headless
    ensures s.files.log == [Garbled, Ended(0)]
  {
    hide Idle, DisciplinedRun, Sole, Effect, NextPC, Broken, Appended, AllRead, NoneStopped, EndedFiles;
    CutFiles();
    actions, s := Nobody();
    var f := s.files;
    StartSteps(f);
    actions, s := Begin(actions, s, 0, StartWait, map[]);
    actions, s := Forward(actions, s, 0, StartWait, Whole, StartAppend, f, map[]);
    actions, s := Halt(actions, s, 0, StartAppend, Fragment, map[]);
    actions, s := WholeEnd(actions, s, NONE);
    GateRun(actions, s);
    HeadlessEnd(actions, s);
  }

  /** An end section stopped when its end record lacks only the newline. */
  lemma CutEnd(actions: seq<Action>, s: State) returns (longer: seq<Action>, t: State)
    requires DisciplinedRun(actions, s) && Idle(s, map[]) && s.files == BARE
    ensures GoesOn(actions, longer, t, false, true) && Idle(t, map[])
    ensures t.files == CLOSED.(open := true)
  {
    hide Refuses, HasEnded, LastPending, Sole, Idle, Effect, NextPC, WithLine, Broken, DisciplinedRun, AllRead, NoneStopped;
    EndSteps();
    var u := WithLine(BARE, Summary(0, 0, 0));
    longer, t := Begin(actions, s, 0, EndWait, map[]);
    longer, t := Forward(longer, t, 0, EndWait, Whole, EndCheck, BARE, map[]);
    longer, t := Forward(longer, t, 0, EndCheck, Whole, EndNumber, BARE, map[]);
    longer, t := Forward(longer, t, 0, EndNumber, Whole, EndCount(0), BARE, map[]);
    longer, t := Forward(longer, t, 0, EndCount(0), Whole, EndSummary(0, 0, 0), BARE, map[]);
    longer, t := Forward(longer, t, 0, EndSummary(0, 0, 0), Whole, EndRecord(0, true), u, map[]);
    longer, t := Halt(longer, t, 0, EndRecord(0, true), Unended, map[]);
  }

  lemma EndSteps()
    ensures var u := WithLine(BARE, Summary(0, 0, 0));
            && NextPC(BARE, EndWait, Whole) == Some(EndCheck) && Effect(BARE, EndWait) == BARE
            && NextPC(BARE, EndCheck, Whole) == Some(EndNumber) && Effect(BARE, EndCheck) == BARE
            && NextPC(BARE, EndNumber, Whole) == Some(EndCount(0)) && Effect(BARE, EndNumber) == BARE
            && NextPC(BARE, EndCount(0), Whole) == Some(EndSummary(0, 0, 0)) && Effect(BARE, EndCount(0)) == BARE
            && NextPC(BARE, EndSummary(0, 0, 0), Whole) == Some(EndRecord(0, true))
            && Effect(BARE, EndSummary(0, 0, 0)) == u
            && Appended(u, EndRecord(0, true)) != [] && Broken(u, EndRecord(0, true), Unended) == CLOSED.(open := true)
  {
    EndReads();
    LastEndStep();
    hide Refuses, HasEnded, LastPending, InvocationExists, Invocations, Failures, Broken, WithLine, Effect, NextPC;
    Quiet(BARE, EndWait);
    Quiet(BARE, EndCheck);
    Quiet(BARE, EndNumber);
    Quiet(BARE, EndCount(0));
    Writes(BARE, EndSummary(0, 0, 0), Summary(0, 0, 0));
  }

  lemma EndReads()
    ensures NextPC(BARE, EndWait, Whole) == Some(EndCheck) && NextPC(BARE, EndCheck, Whole) == Some(EndNumber)
    ensures NextPC(BARE, EndNumber, Whole) == Some(EndCount(0))
    ensures NextPC(BARE, EndCount(0), Whole) == Some(EndSummary(0, 0, 0))
    ensures NextPC(BARE, EndSummary(0, 0, 0), Whole) == Some(EndRecord(0, true))
  {
    BareSession();
    hide Refuses, HasEnded, LastPending, InvocationExists, Invocations, Failures;
  }

  lemma LastEndStep()
    ensures var u := WithLine(BARE, Summary(0, 0, 0));
            Appended(u, EndRecord(0, true)) != [] && Broken(u, EndRecord(0, true), Unended) == CLOSED.(open := true)
  {
    assert [Started] + [Summary(0, 0, 0)] + [Ended(0)] == CLOSED.log;
  }

  lemma NotForGood(ended: seq<Action>, e: State, actions: seq<Action>, s: State)
    requires Reached(true, ended, e) && HasEnded(e.files.log)
    requires ended <= actions && Reached(true, actions, s) && !HasEnded(s.files.log)
    ensures !EndedForGood(true, actions)
  {
    hide HasEnded;
    assert actions[..|ended|] == ended && actions[..|actions|] == actions;
    assert EndedAfter(true, actions[..|ended|]) && !EndedAfter(true, actions[..|actions|]);
  }

  /** An end record that lacks only its newline, then feedback: the session is open again,
      and the next command is recorded. */
  lemma FeedbackReopensTheSession(c: Call) returns (actions: seq<Action>, s: State)
    ensures Reached(true, actions, s) && AllRead(actions) && s.past.reopened && !EndedForGood(true, actions)
    ensures exists x :: s.files.log == [Started, Summary(0, 0, 0), Garbled, One(c, 1, x)]
  {
    hide Idle, DisciplinedRun, EndedForGood, Sole, Refuses, LastPending, Section, AllRead, NoneStopped;
    BareSession();
    actions, s := Nobody();
    actions, s := WholeStart(actions, s);
    actions, s := CutEnd(actions, s);
    var ended, e := actions, s;
    assert e.files.log[2].Ended?;
    actions, s := WholeFeedback(actions, s, map[]);
    assert s.files == Files([Started, Summary(0, 0, 0), Garbled], false, 0, 1, true);
    var x := Refuses(s.files, c, Whole);
    actions, s := WholeCommand(actions, s, c, Whole, NONE);
    assert s.files.log == [Started, Summary(0, 0, 0), Garbled, One(c, 1, x)];
    GateRun(ended, e);
    GateRun(actions, s);
    NotForGood(ended, e, actions, s);
    EndedForGoodIff(true, actions, s);
  }

  // ------------------------------------------------------ the way out of the gate

  lemma FreshPid(procs: map<Pid, PC>, more: Pid) returns (p: Pid)
    ensures p !in procs && p != more
  {
    var pids := procs.Keys + {more};
    p := Beyond(pids);
  }

  lemma {:induction false} Beyond(pids: set<Pid>) returns (p: Pid)
    ensures forall q :: q in pids ==> q < p
    decreases |pids|
  {
    if pids == {} {
      p := 0;
    } else {
      var q :| q in pids;
      var r := Beyond(pids - {q});
      p := if q < r then r else q + 1;
      assert forall x :: x in pids ==> x == q || x in pids - {q};
    }
  }

  /** The log after `xdr annotate` has run: the annotation and the command's own record. */
  function AfterAnnotate(f: Files, c: Call, n: int): Files {
    Flushed(WithLine(f, Annotation(n)), c, false, NONE)
  }

  lemma AnnotatePasses(f: Files, c: Call)
    requires c.group == "annotate"
    ensures !Refuses(f, c, Whole)
  {
  }

  lemma AnnotateSteps(f: Files, actor: string, n: int)
    requires LastPending(f.log, actor) == Some(n)
    ensures NextPC(f, AnnotateResolve(actor, None), Whole) == Some(AnnotateWait(n))
    ensures Effect(f, AnnotateResolve(actor, None)) == f
    ensures NextPC(f, AnnotateWait(n), Whole) == Some(AnnotateAppend(n)) && Effect(f, AnnotateWait(n)) == f
  {
    Quiet(f, AnnotateResolve(actor, None));
    Quiet(f, AnnotateWait(n));
  }

  /** The debt is cleared and the annotating command's record is none. */
  lemma NothingLeft(actions: seq<Action>, s: State, c: Call, n: int)
    requires DisciplinedRun(actions, s) && !s.gates.slipped && LastPending(s.files.log, c.actor) == Some(n)
    requires c.group == "annotate" && !s.files.open && !HasEnded(s.files.log)
    ensures NonePending(AfterAnnotate(s.files, c, n).log, c.actor)
  {
    hide DisciplinedRun;
    AnnotationClearsIff(actions, s, c.actor, n);
    var f := WithLine(s.files, Annotation(n));
    assert f.log == s.files.log + [Annotation(n)] && f.log != [];
    AppendHasEnded(s.files.log, Annotation(n));
    var e := Invocation(f.counter + 1, c.actor, c.group, c.failed, false);
    AppendKeepsNone(f.log, e, c.actor);
  }

  /** From every state of a disciplined run in which nobody holds a lock, the log is whole
      and open, and an actor owes its one annotation: its `annotate` passes the gate, clears
      the debt and leaves none, whatever others are waiting. */
  lemma AnnotateIsTheWayOut(actions: seq<Action>, s: State, actor: string, n: int, failed: bool)
    returns (longer: seq<Action>, t: State)
    requires DisciplinedRun(actions, s) && Idle(s, s.procs) && !s.gates.slipped
    requires forall q :: q in s.procs && IsCommand(s.procs[q]) ==> s.procs[q].call.actor != actor
    requires LastPending(s.files.log, actor) == Some(n) && !s.files.open && !HasEnded(s.files.log)
    ensures DisciplinedRun(longer, t) && actions <= longer && t.procs == s.procs
    ensures t.files == AfterAnnotate(s.files, Call(actor, "annotate", false, Here, failed), n)
    ensures NonePending(t.files.log, actor)
  {
    hide Idle, Sole, DisciplinedRun, AllRead, NoneStopped, Flushed, Effect, NextPC, HasEnded, LastPending, NonePending;
    hide Refuses, Section;
    var c := Call(actor, "annotate", false, Here, failed);
    NothingLeft(actions, s, c, n);
    var parked := s.procs;
    var p := FreshPid(parked, 0);
    var q := FreshPid(parked, p);
    // the command passes its gate
    longer, t := PassGate(actions, s, p, c, parked);
    var waiting := parked[p := Work(c, false)];
    // writes its annotation
    var f := s.files;
    var a := AnnotateResolve(actor, None);
    AnnotateSteps(f, actor, n);
    longer, t := Begin(longer, t, q, a, waiting);
    longer, t := Forward(longer, t, q, a, Whole, AnnotateWait(n), f, waiting);
    longer, t := Forward(longer, t, q, AnnotateWait(n), Whole, AnnotateAppend(n), f, waiting);
    AnnotationSection(f, n, NONE);
    longer, t := Finish(longer, t, q, AnnotateAppend(n), NONE, waiting);
    // and is recorded
    ParkedAt(t, p, Work(c, false), parked);
    GateSteps(t.files, c, false);
    FlushSection(t.files, c, false, NONE);
    longer, t := Forward(longer, t, p, Work(c, false), Whole, CheckEnded(c, false), t.files, parked);
    longer, t := Finish(longer, t, p, CheckEnded(c, false), NONE, parked);
    IdleProcs(t, parked);
  }

  lemma PassGate(actions: seq<Action>, s: State, p: Pid, c: Call, parked: Parked) returns (longer: seq<Action>, t: State)
    requires DisciplinedRun(actions, s) && Idle(s, parked) && p !in parked && c.group == "annotate"
    requires forall q :: q in parked && IsCommand(parked[q]) ==> parked[q].call.actor != c.actor
    ensures GoesOn(actions, longer, t, false, false) && Idle(t, parked[p := Work(c, false)]) && t.files == s.files
  {
    hide Idle, Sole, DisciplinedRun, AllRead, NoneStopped, Effect, NextPC, Refuses;
    AnnotatePasses(s.files, c);
    GateSteps(s.files, c, false);
    PassesTo(s.files, c);
    longer, t := Begin(actions, s, p, Gate(c), parked);
    longer, t := Forward(longer, t, p, Gate(c), Whole, Work(c, false), s.files, parked);
    ParkedAt(t, p, Work(c, false), parked);
  }

  lemma ParkedAt(s: State, p: Pid, pc: PC, parked: Parked)
    requires HoldsNothing(pc) && p !in parked
    ensures Sole(s, p, pc, parked) <==> Idle(s, parked[p := pc])
  {
    var more := parked[p := pc];
    assert forall q :: q in parked ==> more[q] == parked[q];
  }

  lemma IdleProcs(s: State, parked: Parked)
    requires Idle(s, parked)
    ensures s.procs == parked
  {
  }
}
