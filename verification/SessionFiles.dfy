/**
  The session-log operations of `sessions.py` as one process runs them, on the files
  it changes in place, and the proof that each locked section of the interleaving
  machine has exactly the operation's effect when its holder is not stopped.
*/
module SessionFiles {
  import opened Common
  import opened SessionLog
  import opened SessionSafety

  /** The files after one line has been appended; it is glued to an open one. */
  function WithLine(f: Files, e: Entry): Files {
    f.(log := Written(f, [e]), open := false)
  }

  /** The reads of one section that fail: the check for an end record, and that of the
      counter. A failed read is swallowed and answers as if there were nothing. */
  datatype Fails = Fails(end: bool, number: bool)

  const NONE := Fails(false, false)

  /** The section finds the session ended and writes nothing. */
  predicate FindsEnd(f: Files, fails: Fails) {
    HasEnded(f.log) && !fails.end
  }

  function CounterRead(counter: int, fails: Fails): int {
    if fails.number then 0 else counter
  }

  /** The files after a flush of `call`. */
  function Flushed(f: Files, call: Call, refused: bool, fails: Fails): Files {
    if FindsEnd(f, fails) then f
    else
      var counted := f.(counter := CounterRead(f.counter, fails) + 1);
      var headed := if f.log == [] then WithLine(counted, Started) else counted;
      WithLine(headed, Invocation(counted.counter, call.actor, call.group, call.failed, refused))
  }

  function EndedFiles(f: Files, fails: Fails): Files {
    if FindsEnd(f, fails) then f
    else
      var final := CounterRead(f.counter, fails);
      WithLine(WithLine(f, Summary(Invocations(f.log), Failures(f.log), final)), Ended(final))
  }

  function FeedbackFiles(f: Files, fails: Fails): Files {
    var number := CounterRead(f.feedback, fails) + 1;
    WithLine(f.(feedback := number), Feedback(number))
  }

  class Store {
    var log: seq<Entry>
    var open: bool
    var counter: int
    var feedback: int
    const learning: bool

    constructor (learning: bool)
      ensures Disk() == Files([], false, 0, 0, learning)
    {
      log, open, counter, feedback := [], false, 0, 0;
      this.learning := learning;
    }

    /** Everything on disk. */
    function Disk(): Files
      reads this
    {
      Files(log, open, counter, feedback, learning)
    }

    /** One `write` of a line, which is glued to what an earlier one left unfinished. */
    method Append(e: Entry)
      modifies `log, `open
      ensures Disk() == WithLine(old(Disk()), e)
    {
      if open && log != [] {
        log := log[..|log| - 1] + [Garbled];
      } else {
        log := log + [e];
      }
      open := false;
    }

    /** `_already_ended_unlocked`: scan the lines for an end record; `False` if that fails. */
    method AlreadyEnded(fails: bool) returns (ended: bool)
      ensures ended <==> HasEnded(log) && !fails
    {
      if fails {
        return false;
      }
      for i := 0 to |log|
        invariant forall j :: 0 <= j < i ==> !log[j].Ended?
      {
        if log[i].Ended? {
          return true;
        }
      }
      return false;
    }

    /** The counting loop of `write_session_end_record`. */
    method CountInvocations() returns (invocations: nat, failures: nat)
      ensures invocations == Invocations(log) && failures == Failures(log)
    {
      invocations, failures := 0, 0;
      for i := 0 to |log|
        invariant invocations == Invocations(log[..i]) && failures == Failures(log[..i])
      {
        assert log[..i + 1][..i] == log[..i];
        if log[i].Invocation? {
          invocations := invocations + 1;
          if log[i].failed {
            failures := failures + 1;
          }
        }
      }
      assert log[..|log|] == log;
    }

    /** `actor_needs_annotation`: one pass collects the actor's gated numbers in order and
        the set of annotated numbers; the last number outside the set is the answer, and
        `None` if the log cannot be read. */
    method ActorNeedsAnnotation(actor: string, fails: bool) returns (pending: Option<int>)
      ensures pending == if fails then None else LastPending(log, actor)
    {
      if fails {
        return None;
      }
      var numbers: seq<int>, annotated: set<int> := [], {};
      ghost var at: seq<nat> := [];
      for i := 0 to |log|
        invariant |at| == |numbers|
        invariant forall k :: 0 <= k < |at| ==> at[k] < i && Gated(log[at[k]], actor) && log[at[k]].number == numbers[k]
        invariant forall k, m :: 0 <= k < m < |at| ==> at[k] < at[m]
        invariant forall j :: 0 <= j < i && Gated(log[j], actor) ==> j in at
        invariant forall n :: n in annotated <==> Annotation(n) in log[..i]
      {
        assert log[..i + 1] == log[..i] + [log[i]];
        if log[i].Invocation? {
          if log[i].actor == actor && log[i].group !in BYPASS && !log[i].refused {
            numbers := numbers + [log[i].number];
            at := at + [i];
          }
        } else if log[i].Annotation? {
          annotated := annotated + {log[i].refersTo};
        }
      }
      assert log[..|log|] == log;
      var k := |numbers|;
      while k > 0
        invariant 0 <= k <= |numbers|
        invariant forall m :: k <= m < |at| ==> numbers[m] in annotated
      {
        k := k - 1;
        if numbers[k] !in annotated {
          forall j | at[k] < j < |log| ensures !PendingAt(log, actor, j) {
            if Gated(log[j], actor) {
              assert j in at;
            }
          }
          PendingIsLast(log, actor, at[k], |log|);
          return Some(numbers[k]);
        }
      }
      forall j | 0 <= j < |log| ensures !PendingAt(log, actor, j) {
        if Gated(log[j], actor) {
          assert j in at;
        }
      }
      return None;
    }

    /** `_next_seq`: a counter that cannot be read counts as 0. */
    method BumpCounter(fails: Fails) returns (value: int)
      modifies `counter
      ensures value == counter == CounterRead(old(counter), fails) + 1
    {
      value := (if fails.number then 0 else counter) + 1;
      counter := value;
    }

    /** `Recorder._do_flush`: refuse an ended session, allocate a number, repair a missing
        header, append the record. */
    method DoFlush(call: Call, refused: bool, fails: Fails) returns (written: bool)
      modifies `log, `open, `counter
      ensures written <==> !FindsEnd(old(Disk()), fails)
      ensures Disk() == Flushed(old(Disk()), call, refused, fails)
    {
      var ended := AlreadyEnded(fails.end);
      if ended {
        return false;
      }
      var value := BumpCounter(fails);
      if log == [] {
        Append(Started);
      }
      Append(Invocation(value, call.actor, call.group, call.failed, refused));
      return true;
    }

    /** `write_session_end_record`: `None` when the session had already ended. */
    method WriteSessionEnd(fails: Fails) returns (final: Option<int>)
      modifies `log, `open
      ensures final == if FindsEnd(old(Disk()), fails) then None else Some(CounterRead(counter, fails))
      ensures Disk() == EndedFiles(old(Disk()), fails)
    {
      var ended := AlreadyEnded(fails.end);
      if ended {
        return None;
      }
      var number := if fails.number then 0 else counter;
      var invocations, failures := CountInvocations();
      Append(Summary(invocations, failures, number));
      Append(Ended(number));
      return Some(number);
    }

    /** `write_annotation`: `None` stands for the query error that writes nothing. */
    method WriteAnnotation(actor: string, target: Option<int>, fails: bool) returns (refersTo: Option<int>)
      modifies `log, `open
      ensures fails ==> refersTo.None?
      ensures !fails && target.None? ==> refersTo == LastPending(old(log), actor)
      ensures !fails && target.Some? ==> refersTo == if InvocationExists(old(log), target.value) then target else None
      ensures Disk() == if refersTo.None? then old(Disk()) else WithLine(old(Disk()), Annotation(refersTo.value))
    {
      refersTo := target;
      if target.None? {
        refersTo := ActorNeedsAnnotation(actor, fails);
      } else {
        if fails {
          return None;
        }
        var found := false;
        for i := 0 to |log|
          invariant found <==> exists j :: 0 <= j < i && log[j].Invocation? && log[j].number == target.value
        {
          if log[i].Invocation? && log[i].number == target.value {
            found := true;
          }
        }
        if !found {
          return None;
        }
      }
      if refersTo.Some? {
        Append(Annotation(refersTo.value));
      }
    }

    /** `append_session_feedback`, allowed after the end too; `None` without a header, or if
        that cannot be read. */
    method AppendFeedback(hydrates: bool, fails: Fails) returns (number: Option<int>)
      modifies `log, `open, `feedback
      ensures number.Some? <==> hydrates && old(log) != [] && old(log)[0].Started?
      ensures number.Some? ==> number.value == CounterRead(old(feedback), fails) + 1
      ensures Disk() == if number.Some? then FeedbackFiles(old(Disk()), fails) else old(Disk())
    {
      if !hydrates || log == [] || !log[0].Started? {
        return None;
      }
      feedback := (if fails.number then 0 else feedback) + 1;
      Append(Feedback(feedback));
      return Some(feedback);
    }
  }

  /** One invocation's `Recorder`: the session it records in, its call, whether the gate
      marked it refused, and whether it was told not to record. */
  class Recorder {
    const session: Option<Store>
    const call: Call
    var refused: bool
    var skip: bool

    constructor (session: Option<Store>, call: Call)
      ensures this.session == session && this.call == call && !refused && !skip
    {
      this.session, this.call := session, call;
      refused, skip := false, false;
    }

    /** `_check_learning_mode_gate`: `seen` is the session the gate finds by itself, which
        need not be the one that is recorded; `blocked` is the conflict error. Reading logs
        only, it marks this recorder exactly when it blocks. A log that cannot be read has
        no end (`endFails`), or no debt (`debtFails`). */
    method CheckLearningGate(seen: Option<Store>, endFails: bool, debtFails: bool) returns (blocked: bool)
      modifies `refused
      ensures blocked <==>
        && !call.help && call.group != "annotate" && call.group != "session" && call.group != "history"
        && seen.Some? && seen.value.learning && (endFails || !HasEnded(seen.value.log))
        && !debtFails && exists i :: PendingAt(seen.value.log, call.actor, i)
      ensures refused == (old(refused) || blocked)
    {
      if call.help || seen.None? {
        return false;
      }
      var ended := seen.value.AlreadyEnded(endFails);
      if ended || !seen.value.learning {
        return false;
      }
      if call.group in BYPASS {
        return false;
      }
      var pending := seen.value.ActorNeedsAnnotation(call.actor, debtFails);
      if pending.None? {
        return false;
      }
      refused := true;
      return true;
    }

    /** `xdr annotate`: writes the annotation, or nothing and then also no record of the
        attempt. */
    method Annotate(seen: Store, target: Option<int>, fails: bool) returns (refersTo: Option<int>)
      modifies seen, `skip
      ensures refersTo == if fails then None
                          else if target.None? then LastPending(old(seen.log), call.actor)
                          else if InvocationExists(old(seen.log), target.value) then target else None
      ensures seen.Disk() ==
        if refersTo.None? then old(seen.Disk()) else WithLine(old(seen.Disk()), Annotation(refersTo.value))
      ensures skip == (old(skip) || refersTo.None?)
    {
      refersTo := seen.WriteAnnotation(call.actor, target, fails);
      if refersTo.None? {
        skip := true;
      }
    }

    /** `flush` writes nothing without a session or after `skip_record`. */
    method Flush(fails: Fails)
      modifies if session.Some? then {session.value} else {}
      ensures session.Some? ==>
        session.value.Disk() ==
          if skip then old(session.value.Disk()) else Flushed(old(session.value.Disk()), call, refused, fails)
    {
      if session.None? || skip {
        return;
      }
      var _ := session.value.DoFlush(call, refused, fails);
    }
  }

  lemma {:induction false} PendingIsLast(log: seq<Entry>, actor: string, i: nat, k: nat)
    requires i < k <= |log| && PendingAt(log, actor, i)
    requires forall j :: i < j < k ==> !PendingAt(log, actor, j)
    ensures LastPendingBefore(log, actor, k) == Some(log[i].number)
  {
    if k - 1 > i {
      PendingIsLast(log, actor, i, k - 1);
    }
  }

  // ------------------------------------------- a section run without interruption

  /** How the step at `pc` reads when these reads fail. */
  function ReadingAt(pc: PC, fails: Fails): Reading {
    if (pc.CheckEnded? || pc.EndCheck?) && fails.end then Failed
    else if (pc.SeqRead? || pc.EndNumber? || pc.FeedbackRead?) && fails.number then Failed
    else Whole
  }

  function After(f: Files, pc: PC, fails: Fails): Option<PC> {
    NextPC(f, pc, ReadingAt(pc, fails))
  }

  /** The files once the section from `pc` to its unlock has run with nobody in between. */
  function Section(f: Files, pc: PC, fails: Fails): Files
    requires HoldsLog(pc)
    decreases StepsLeft(pc)
  {
    HolderAdvances(f, pc, ReadingAt(pc, fails));
    if After(f, pc, fails).None? then Effect(f, pc) else Section(Effect(f, pc), After(f, pc, fails).value, fails)
  }

  /** `n` consecutive steps of process `p`. */
  function Drive(s: State, p: Pid, n: nat, fails: Fails): Option<State>
    decreases n
  {
    if n == 0 then Some(s)
    else if p in s.procs && Enabled(s, Forth(s, p, fails)) then Drive(Step(s, Forth(s, p, fails)), p, n - 1, fails)
    else None
  }

  function Forth(s: State, p: Pid, fails: Fails): Action
    requires p in s.procs
  {
    Advance(p, ReadingAt(s.procs[p], fails))
  }

  lemma DriveFrom(s: State, p: Pid, n: nat, fails: Fails)
    requires p in s.procs && Enabled(s, Forth(s, p, fails))
    ensures Drive(s, p, n + 1, fails) == Drive(Step(s, Forth(s, p, fails)), p, n, fails)
  {
  }

  lemma HolderSteps(s: State, p: Pid, r: Reading)
    requires LocksHeld(s) && s.logLock == Some(p) && p in s.procs && CanRead(s.procs[p], r)
    ensures Enabled(s, Advance(p, r)) && LocksHeld(Next(s, p, r)) && HoldsLog(s.procs[p])
    ensures Next(s, p, r).procs - {p} == s.procs - {p}
    ensures NextPC(s.files, s.procs[p], r).None? ==>
      StepsLeft(s.procs[p]) == 1 && Next(s, p, r).procs == s.procs - {p} && Next(s, p, r).logLock.None?
    ensures NextPC(s.files, s.procs[p], r).Some? ==>
      Next(s, p, r).logLock == Some(p) && Next(s, p, r).procs[p] == NextPC(s.files, s.procs[p], r).value &&
      StepsLeft(Next(s, p, r).procs[p]) < StepsLeft(s.procs[p])
  {
    hide Gates, Remembered;
    HolderAdvances(s.files, s.procs[p], r);
    LocksStep(s, Advance(p, r));
  }

  /** A holder can always run its section to the end, whatever state the others are in and
      whichever reads fail. */
  lemma {:induction false} SectionCanFinish(s: State, p: Pid, fails: Fails) returns (n: nat, t: State)
    requires LocksHeld(s) && s.logLock == Some(p) && p in s.procs && HoldsLog(s.procs[p])
    ensures Drive(s, p, n, fails) == Some(t)
    ensures t.files == Section(s.files, s.procs[p], fails)
    ensures t.procs == s.procs - {p} && t.logLock.None?
    decreases StepsLeft(s.procs[p])
  {
    hide NextPC, Gates, Remembered, Effect;
    var r := ReadingAt(s.procs[p], fails);
    HolderSteps(s, p, r);
    var u := Next(s, p, r);
    if NextPC(s.files, s.procs[p], r).None? {
      n, t := 0, u;
    } else {
      AtTheLock(u, p);
      n, t := SectionCanFinish(u, p, fails);
    }
    DriveFrom(s, p, n, fails);
    n := n + 1;
  }

  /** Whatever anybody else does, the holder of the log lock finds the files, its lock and
      its own point as it left them. */
  lemma OthersLeaveTheHolderAlone(s: State, p: Pid, a: Action)
    requires LocksHeld(s) && s.logLock == Some(p) && Enabled(s, a) && a.pid != p
    ensures Step(s, a).files == s.files && Step(s, a).logLock == Some(p)
    ensures p in Step(s, a).procs && Step(s, a).procs[p] == s.procs[p]
  {
    hide HasEnded, LastPending, Refuses, InvocationExists, Invocations, Failures, Gates, Slipped, Remembered, Stopped, Written;
    if !a.Spawn? {
      assert !HoldsLog(s.procs[a.pid]);
      OutsidersChangeNothing(s.files, s.procs[a.pid]);
    }
  }

  /** Process `p` is never stopped. */
  predicate NotStopped(actions: seq<Action>, p: Pid) {
    forall i :: 0 <= i < |actions| && actions[i].Abort? ==> actions[i].pid != p
  }

  /** The section from `pc` on can have this effect: if some of its reads fail, or none. */
  ghost predicate CanYield(f: Files, pc: PC, g: Files)
    requires HoldsLog(pc)
  {
    exists fails :: Section(f, pc, fails) == g
  }

  /** The check for an end record is still to be made, or the counter is still to be read. */
  predicate Ahead(pc: PC, number: bool) {
    || pc.CheckEnded? || pc.EndCheck?
    || (number && (pc.SeqWait? || pc.SeqRead? || pc.EndNumber? || pc.FeedbackSeqWait? || pc.FeedbackRead?))
  }

  lemma {:induction false} OnlyReadsAhead(f: Files, pc: PC, fails: Fails, other: Fails)
    requires HoldsLog(pc)
    requires Ahead(pc, true) ==> fails.number == other.number
    requires Ahead(pc, false) ==> fails.end == other.end
    ensures Section(f, pc, fails) == Section(f, pc, other)
    decreases StepsLeft(pc)
  {
    hide Effect, Refuses, HasEnded, LastPending, InvocationExists, Invocations, Failures;
    var r := ReadingAt(pc, fails);
    HolderAdvances(f, pc, r);
    assert r == ReadingAt(pc, other);
    if NextPC(f, pc, r).Some? {
      OnlyReadsAhead(Effect(f, pc), NextPC(f, pc, r).value, fails, other);
    }
  }

  /** However the step at `pc` reads, what can come of it could come before it. */
  lemma StepNarrows(f: Files, pc: PC, r: Reading, fails: Fails)
    requires HoldsLog(pc) && CanRead(pc, r)
    ensures if NextPC(f, pc, r).None? then CanYield(f, pc, Effect(f, pc))
            else HoldsLog(NextPC(f, pc, r).value) && CanYield(f, pc, Section(Effect(f, pc), NextPC(f, pc, r).value, fails))
  {
    hide Effect, Section;
    HolderAdvances(f, pc, r);
    var same := if pc.CheckEnded? || pc.EndCheck? then fails.(end := r.Failed?)
                else if pc.SeqRead? || pc.EndNumber? || pc.FeedbackRead? then fails.(number := r.Failed?) else fails;
    assert ReadingAt(pc, same) == r;
    SectionUnfolds(f, pc, same);
    if NextPC(f, pc, r).Some? {
      PassedReads(f, pc, r);
      OnlyReadsAhead(Effect(f, pc), NextPC(f, pc, r).value, fails, same);
    }
  }

  lemma SectionUnfolds(f: Files, pc: PC, fails: Fails)
    requires HoldsLog(pc)
    ensures After(f, pc, fails).Some? ==> HoldsLog(After(f, pc, fails).value)
    ensures Section(f, pc, fails) ==
      if After(f, pc, fails).None? then Effect(f, pc) else Section(Effect(f, pc), After(f, pc, fails).value, fails)
  {
    HolderAdvances(f, pc, ReadingAt(pc, fails));
  }

  /** A read is made once. */
  lemma PassedReads(f: Files, pc: PC, r: Reading)
    requires HoldsLog(pc) && NextPC(f, pc, r).Some?
    ensures pc.CheckEnded? || pc.EndCheck? ==> !Ahead(NextPC(f, pc, r).value, false)
    ensures pc.SeqRead? || pc.EndNumber? || pc.FeedbackRead? ==> !Ahead(NextPC(f, pc, r).value, true)
  {
    hide Refuses, HasEnded, LastPending, InvocationExists, Invocations, Failures;
  }

  /** `p` is still inside the section it was in at `s`, and all that can come of it could
      come of it then. */
  ghost predicate OnCourse(s: State, p: Pid, t: State)
    requires p in s.procs && HoldsLog(s.procs[p])
  {
    && LocksHeld(t) && t.logLock == Some(p) && p in t.procs && HoldsLog(t.procs[p])
    && forall fails :: CanYield(s.files, s.procs[p], Section(t.files, t.procs[p], fails))
  }

  /** With action `k` the section of `p` has ended with its whole effect, and only that. */
  ghost predicate DoneAt(s: State, p: Pid, actions: seq<Action>, k: nat)
    requires p in s.procs && HoldsLog(s.procs[p])
  {
    && k < |actions| && actions[k].Advance? && actions[k].pid == p
    && Run(s, actions[..k + 1]).Some? && Run(s, actions[..k + 1]).value.logLock.None?
    && CanYield(s.files, s.procs[p], Run(s, actions[..k + 1]).value.files)
  }

  lemma HolderOnCourse(s: State, p: Pid, u: State, r: Reading)
    requires LocksHeld(s) && s.logLock == Some(p) && p in s.procs && HoldsLog(s.procs[p])
    requires OnCourse(s, p, u) && Enabled(u, Advance(p, r))
    ensures NextPC(u.files, u.procs[p], r).Some? ==> OnCourse(s, p, Next(u, p, r))
    ensures NextPC(u.files, u.procs[p], r).None? ==>
      Next(u, p, r).logLock.None? && CanYield(s.files, s.procs[p], Next(u, p, r).files)
  {
    hide Gates, Remembered, LocksHeld, CanYield, Section, NextPC, Effect, Written;
    HolderSteps(u, p, r);
    var pc := u.procs[p];
    forall fails ensures NextPC(u.files, pc, r).Some? ==>
      && HoldsLog(NextPC(u.files, pc, r).value)
      && CanYield(s.files, s.procs[p], Section(Effect(u.files, pc), NextPC(u.files, pc, r).value, fails))
    {
      StepNarrows(u.files, pc, r, fails);
      if NextPC(u.files, pc, r).Some? {
        Transit(s, p, u, Section(Effect(u.files, pc), NextPC(u.files, pc, r).value, fails));
      }
    }
    if NextPC(u.files, pc, r).None? {
      StepNarrows(u.files, pc, r, NONE);
      Transit(s, p, u, Effect(u.files, pc));
    } else {
      AtTheLock(Next(u, p, r), p);
    }
  }

  lemma Transit(s: State, p: Pid, u: State, g: Files)
    requires p in s.procs && HoldsLog(s.procs[p]) && OnCourse(s, p, u) && CanYield(u.files, u.procs[p], g)
    ensures CanYield(s.files, s.procs[p], g)
  {
    hide Section, LocksHeld;
    var fails :| Section(u.files, u.procs[p], fails) == g;
    assert CanYield(s.files, s.procs[p], Section(u.files, u.procs[p], fails));
  }

  /** In every run segment, with anything done by others between the holder's steps: as long
      as the holder is not stopped it is on course, and when it leaves, the files hold
      exactly an effect of its section on what it found when it took the lock. */
  lemma {:induction false} SectionIsAtomic(s: State, p: Pid, actions: seq<Action>, t: State)
    requires LocksHeld(s) && s.logLock == Some(p) && Run(s, actions) == Some(t) && NotStopped(actions, p)
    ensures p in s.procs && HoldsLog(s.procs[p])
    ensures OnCourse(s, p, t) || exists k :: 0 <= k < |actions| && DoneAt(s, p, actions, k)
  {
    hide LocksHeld, Section, CanYield, Next;
    AtTheLock(s, p);
    if actions == [] {
      CourseStarts(s, p);
    } else {
      var n := |actions| - 1;
      var rest, a, u := actions[..n], actions[n], Run(s, actions[..n]).value;
      SectionIsAtomic(s, p, rest, u);
      assert actions[..n + 1] == actions;
      if OnCourse(s, p, u) {
        if a.pid == p {
          AtTheLock(u, p);
          HolderOnCourse(s, p, u, a.reading);
          if NextPC(u.files, u.procs[p], a.reading).None? {
            assert DoneAt(s, p, actions, n);
          }
        } else {
          OthersLeaveTheHolderAlone(u, p, a);
          LocksStep(u, a);
        }
      } else {
        var k :| 0 <= k < |rest| && DoneAt(s, p, rest, k);
        assert rest[..k + 1] == actions[..k + 1];
        assert DoneAt(s, p, actions, k);
      }
    }
  }

  lemma AtTheLock(s: State, p: Pid)
    requires LocksHeld(s) && s.logLock == Some(p)
    ensures p in s.procs && HoldsLog(s.procs[p])
  {
  }

  lemma CourseStarts(s: State, p: Pid)
    requires LocksHeld(s) && s.logLock == Some(p) && p in s.procs && HoldsLog(s.procs[p])
    ensures OnCourse(s, p, s)
  {
  }

  lemma Quiet(f: Files, pc: PC)
    requires Appended(f, pc) == []
    ensures Effect(f, pc) == f.(counter := CounterAfter(f, pc), feedback := FeedbackAfter(f, pc))
  {
  }

  lemma Writes(f: Files, pc: PC, e: Entry)
    requires Appended(f, pc) == [e] && CounterAfter(f, pc) == f.counter && FeedbackAfter(f, pc) == f.feedback
    ensures Effect(f, pc) == WithLine(f, e)
  {
  }

  lemma Unfold(f: Files, pc: PC, g: Files, next: PC, fails: Fails)
    requires HoldsLog(pc) && After(f, pc, fails) == Some(next) && Effect(f, pc) == g
    ensures HoldsLog(next) && Section(f, pc, fails) == Section(g, next, fails)
  {
    SectionUnfolds(f, pc, fails);
  }

  lemma Final(f: Files, pc: PC, fails: Fails)
    requires HoldsLog(pc) && After(f, pc, fails).None? && Appended(f, pc) == []
    ensures Section(f, pc, fails) == f.(counter := CounterAfter(f, pc), feedback := FeedbackAfter(f, pc))
  {
    SectionUnfolds(f, pc, fails);
    Quiet(f, pc);
  }

  /** The flush section of the machine is `DoFlush`, whichever of its reads fail. */
  lemma FlushSection(f: Files, c: Call, x: bool, m: Fails)
    ensures Section(f, CheckEnded(c, x), m) == Flushed(f, c, x, m)
  {
    hide Section, HasEnded, LastPending, Refuses, InvocationExists;
    Quiet(f, CheckEnded(c, x));
    if FindsEnd(f, m) {
      Final(f, FlushUnlock(c), m);
      Unfold(f, CheckEnded(c, x), f, FlushUnlock(c), m);
    } else {
      hide Flushed;
      var v := CounterRead(f.counter, m) + 1;
      Unfold(f, CheckEnded(c, x), f, SeqWait(c, x), m);
      CounterSection(f, c, x, m);
      RecordSection(f, c, x, m);
    }
  }

  lemma CounterSection(f: Files, c: Call, x: bool, m: Fails)
    ensures var v := CounterRead(f.counter, m) + 1;
            Section(f, SeqWait(c, x), m) == Section(f.(counter := v), SeqUnlock(c, x, v), m)
  {
    hide Section, HasEnded, LastPending, Refuses, InvocationExists, Flushed;
    var v := CounterRead(f.counter, m) + 1;
    var z, u := f.(counter := 0), f.(counter := v);
    Quiet(f, SeqWait(c, x));
    Unfold(f, SeqWait(c, x), f, SeqRead(c, x), m);
    Quiet(f, SeqRead(c, x));
    Unfold(f, SeqRead(c, x), f, SeqTruncate(c, x, v), m);
    Quiet(f, SeqTruncate(c, x, v));
    Unfold(f, SeqTruncate(c, x, v), z, SeqWrite(c, x, v), m);
    Quiet(z, SeqWrite(c, x, v));
    Unfold(z, SeqWrite(c, x, v), u, SeqUnlock(c, x, v), m);
  }

  lemma RecordSection(f: Files, c: Call, x: bool, m: Fails)
    requires !FindsEnd(f, m)
    ensures var v := CounterRead(f.counter, m) + 1;
            Section(f.(counter := v), SeqUnlock(c, x, v), m) == Flushed(f, c, x, m)
  {
    hide Section, HasEnded, LastPending, Refuses, InvocationExists, WithLine;
    var v := CounterRead(f.counter, m) + 1;
    var u := f.(counter := v);
    Quiet(u, SeqUnlock(c, x, v));
    Unfold(u, SeqUnlock(c, x, v), u, Header(c, x, v), m);
    var h := if u.log == [] then WithLine(u, Started) else u;
    if u.log == [] {
      Writes(u, Header(c, x, v), Started);
    } else {
      Quiet(u, Header(c, x, v));
    }
    Unfold(u, Header(c, x, v), h, Record(c, x, v), m);
    var e := Invocation(v, c.actor, c.group, c.failed, x);
    Writes(h, Record(c, x, v), e);
    Unfold(h, Record(c, x, v), WithLine(h, e), FlushUnlock(c), m);
    Final(WithLine(h, e), FlushUnlock(c), m);
  }

  /** The end section of the machine is `WriteSessionEnd`, whichever of its reads fail. */
  lemma EndSection(f: Files, m: Fails)
    ensures Section(f, EndCheck, m) == EndedFiles(f, m)
  {
    hide Section, HasEnded, LastPending, Refuses, InvocationExists, Invocations, Failures, Written;
    Quiet(f, EndCheck);
    if FindsEnd(f, m) {
      Final(f, Unlock, m);
      Unfold(f, EndCheck, f, Unlock, m);
    } else {
      Unfold(f, EndCheck, f, EndNumber, m);
      EndRecords(f, m);
    }
  }

  lemma EndRecords(f: Files, m: Fails)
    requires !FindsEnd(f, m)
    ensures Section(f, EndNumber, m) == EndedFiles(f, m)
  {
    hide Section, HasEnded, LastPending, Refuses, InvocationExists, Invocations, Failures, Written;
    var final, n, k := CounterRead(f.counter, m), Invocations(f.log), Failures(f.log);
    Quiet(f, EndNumber);
    Unfold(f, EndNumber, f, EndCount(final), m);
    Quiet(f, EndCount(final));
    Unfold(f, EndCount(final), f, EndSummary(final, n, k), m);
    EndLines(f, final, n, k, m);
  }

  lemma EndLines(f: Files, final: int, n: nat, k: nat, m: Fails)
    ensures Section(f, EndSummary(final, n, k), m) == WithLine(WithLine(f, Summary(n, k, final)), Ended(final))
  {
    hide Section, HasEnded, LastPending, Refuses, InvocationExists, Invocations, Failures, WithLine;
    Writes(f, EndSummary(final, n, k), Summary(n, k, final));
    var u := WithLine(f, Summary(n, k, final));
    Unfold(f, EndSummary(final, n, k), u, EndRecord(final, !f.open), m);
    Writes(u, EndRecord(final, !f.open), Ended(final));
    var w := WithLine(u, Ended(final));
    Unfold(u, EndRecord(final, !f.open), w, Unlock, m);
    Final(w, Unlock, m);
  }

  /** The annotation section of the machine is the append of `WriteAnnotation`. */
  lemma AnnotationSection(f: Files, n: int, m: Fails)
    ensures Section(f, AnnotateAppend(n), m) == WithLine(f, Annotation(n))
  {
    hide Section, HasEnded, LastPending, Refuses, InvocationExists;
    Writes(f, AnnotateAppend(n), Annotation(n));
    Unfold(f, AnnotateAppend(n), WithLine(f, Annotation(n)), Unlock, m);
    Final(WithLine(f, Annotation(n)), Unlock, m);
  }

  /** The feedback section of the machine is `AppendFeedback` past its header check. */
  lemma FeedbackSection(f: Files, m: Fails)
    ensures Section(f, FeedbackSeqWait, m) == FeedbackFiles(f, m)
  {
    hide Section, WithLine, HasEnded, LastPending, Refuses, InvocationExists;
    var v := CounterRead(f.feedback, m) + 1;
    Quiet(f, FeedbackSeqWait);
    Unfold(f, FeedbackSeqWait, f, FeedbackRead, m);
    Quiet(f, FeedbackRead);
    Unfold(f, FeedbackRead, f, FeedbackTruncate(v), m);
    FeedbackCounter(f, v, m);
    FeedbackRecord(f.(feedback := v), v, m);
  }

  lemma FeedbackCounter(f: Files, v: int, m: Fails)
    ensures Section(f, FeedbackTruncate(v), m) == Section(f.(feedback := v), FeedbackSeqUnlock(v), m)
  {
    hide Section, HasEnded, LastPending, Refuses, InvocationExists;
    var z, u := f.(feedback := 0), f.(feedback := v);
    Quiet(f, FeedbackTruncate(v));
    Unfold(f, FeedbackTruncate(v), z, FeedbackWrite(v), m);
    Quiet(z, FeedbackWrite(v));
    Unfold(z, FeedbackWrite(v), u, FeedbackSeqUnlock(v), m);
  }

  lemma FeedbackRecord(f: Files, v: int, m: Fails)
    ensures Section(f, FeedbackSeqUnlock(v), m) == WithLine(f, Feedback(v))
  {
    hide Section, HasEnded, LastPending, Refuses, InvocationExists;
    Quiet(f, FeedbackSeqUnlock(v));
    Unfold(f, FeedbackSeqUnlock(v), f, FeedbackAppend(v), m);
    Writes(f, FeedbackAppend(v), Feedback(v));
    Unfold(f, FeedbackAppend(v), WithLine(f, Feedback(v)), Unlock, m);
    Final(WithLine(f, Feedback(v)), Unlock, m);
  }
}
