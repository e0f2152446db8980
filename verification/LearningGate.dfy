/**
  The learning-mode gate on top of the session-log machine: when each actor of a learning
  session runs its dispatched commands one after another, does it ever owe more than one
  annotation? The gate finds a session by itself and may miss the one that is recorded.
*/
module LearningGate {
  import opened Common
  import opened SessionLog
  import opened SessionSafety

  // ---------------------------------------------------------------- the discipline

  /** An action of a run in which commands pass through dispatch and no actor has two
      commands at once. */
  predicate Disciplined(s: State, a: Action) {
    a.Spawn? && IsCommand(a.pc) ==>
      && a.pc.Gate?
      && forall p :: p in s.procs && IsCommand(s.procs[p]) ==> s.procs[p].call.actor != a.pc.call.actor
  }

  /** A disciplined run of a learning session that ends in `s`. */
  predicate DisciplinedRun(actions: seq<Action>, s: State)
    decreases |actions|
  {
    if actions == [] then s == Start(true)
    else
      var before := Run(Start(true), actions[..|actions| - 1]);
      && before.Some?
      && DisciplinedRun(actions[..|actions| - 1], before.value)
      && Enabled(before.value, actions[|actions| - 1])
      && Disciplined(before.value, actions[|actions| - 1])
      && s == Step(before.value, actions[|actions| - 1])
  }

  // ------------------------------------------------------------------ the invariant

  predicate NonePending(log: seq<Entry>, actor: string) {
    forall i :: 0 <= i < |log| ==> !PendingAt(log, actor, i)
  }

  predicate AtMostOnePending(log: seq<Entry>, actor: string) {
    forall i, j :: 0 <= i < j < |log| ==> !(PendingAt(log, actor, i) && PendingAt(log, actor, j))
  }

  /** No actor owes two annotations. */
  ghost predicate OwesAtMostOne(s: State) {
    forall actor :: AtMostOnePending(s.files.log, actor)
  }

  /** A command that a seeing gate let through and whose record will count for the gate. */
  predicate LetThrough(pc: PC) {
    (pc.Work? || pc.CheckEnded? || Flushing(pc)) && pc.call.group !in BYPASS && !pc.refused && !Blind(pc.call)
  }

  predicate OneCommandPerActor(procs: map<Pid, PC>) {
    forall p, q :: p in procs && q in procs && p != q && IsCommand(procs[p]) && IsCommand(procs[q]) ==>
      procs[p].call.actor != procs[q].call.actor
  }

  predicate OwesNothing(log: seq<Entry>, actor: string) {
    HasEnded(log) || NonePending(log, actor)
  }

  predicate LetThroughOwesNothing(log: seq<Entry>, procs: map<Pid, PC>, misled: set<Pid>) {
    forall p :: p in procs && LetThrough(procs[p]) && p !in misled ==> OwesNothing(log, procs[p].call.actor)
  }

  ghost predicate OwesOne(f: Files) {
    forall actor :: AtMostOnePending(f.log, actor) && AtMostOnePending(Closed(f), actor)
  }

  ghost predicate GateInv(s: State) {
    && s.files.learning
    && OneCommandPerActor(s.procs)
    && LetThroughOwesNothing(s.files.log, s.procs, s.gates.misled)
    && (!s.gates.slipped ==> OwesOne(s.files))
  }

  // -------------------------------------------------------------- writing a line

  lemma AppendedPending(log: seq<Entry>, e: Entry, actor: string, i: int)
    ensures PendingAt(log + [e], actor, i) && i < |log| ==> PendingAt(log, actor, i)
    ensures PendingAt(log + [e], actor, i) && i >= |log| ==> i == |log| && Gated(e, actor) && !Annotated(log, e.number)
    ensures !e.Annotation? && PendingAt(log, actor, i) ==> PendingAt(log + [e], actor, i)
  {
    var longer := log + [e];
    assert longer[|log|] == e;
    assert forall n :: Annotated(longer, n) <==> Annotated(log, n) || e == Annotation(n);
    if 0 <= i < |log| {
      assert longer[i] == log[i];
    }
  }

  lemma AppendKeepsNone(log: seq<Entry>, e: Entry, actor: string)
    requires NonePending(log, actor) && !Gated(e, actor)
    ensures NonePending(log + [e], actor)
  {
    forall i | 0 <= i < |log + [e]| ensures !PendingAt(log + [e], actor, i) {
      AppendedPending(log, e, actor, i);
    }
  }

  lemma AppendKeepsOne(log: seq<Entry>, e: Entry, actor: string)
    requires AtMostOnePending(log, actor)
    requires Gated(e, actor) ==> NonePending(log, actor) || Annotated(log, e.number)
    ensures AtMostOnePending(log + [e], actor)
  {
    forall i, j | 0 <= i < j < |log + [e]|
      ensures !(PendingAt(log + [e], actor, i) && PendingAt(log + [e], actor, j))
    {
      AppendedPending(log, e, actor, i);
      AppendedPending(log, e, actor, j);
    }
  }

  /** Losing the last line costs no actor anything unless it is an annotation. */
  lemma DropKeepsNone(log: seq<Entry>, actor: string)
    requires log != [] && !log[|log| - 1].Annotation? && NonePending(log, actor)
    ensures NonePending(log[..|log| - 1], actor)
  {
    var rest := log[..|log| - 1];
    assert log == rest + [log[|log| - 1]];
    forall i | 0 <= i < |rest| ensures !PendingAt(rest, actor, i) {
      AppendedPending(rest, log[|log| - 1], actor, i);
    }
  }

  lemma ClosedKeepsNone(f: Files, actor: string)
    requires NonePending(f.log, actor) && !(Tail(f).Some? && Tail(f).value.Annotation?)
    ensures NonePending(Closed(f), actor)
  {
    if Tail(f).Some? {
      DropKeepsNone(f.log, actor);
    }
  }

  /** What one write does to an actor that owes nothing, as long as it hits neither an
      annotation nor the only end record. */
  lemma WriteOwesNothing(f: Files, e: Entry, actor: string)
    requires OwesNothing(f.log, actor) && !Undoes(f) && (e.Ended? ==> Tail(f).None?)
    requires Gated(e, actor) ==> HasEnded(f.log)
    ensures OwesNothing(Written(f, [e]), actor)
  {
    hide NonePending, HasEnded;
    if HasEnded(f.log) {
      WriteReopensIff(f, e);
    } else {
      ClosedKeepsNone(f, actor);
      AppendKeepsNone(Closed(f), Line(f, e), actor);
    }
  }

  /** What one write does to an actor that owes at most one annotation. */
  lemma WriteOwesOne(f: Files, e: Entry, actor: string)
    requires AtMostOnePending(f.log, actor) && AtMostOnePending(Closed(f), actor)
    requires Tail(f).None? && Gated(e, actor) ==> NonePending(f.log, actor) || Annotated(f.log, e.number)
    ensures AtMostOnePending(Written(f, [e]), actor)
  {
    hide AtMostOnePending, NonePending;
    AppendKeepsOne(Closed(f), Line(f, e), actor);
  }

  /** A gated line is appended only by the command of its own actor. */
  lemma AppendedIsOwn(f: Files, pc: PC)
    requires Appended(f, pc) != []
    ensures |Appended(f, pc)| == 1 && HoldsLog(pc)
    ensures forall actor :: Gated(Appended(f, pc)[0], actor) ==>
              pc.Record? && pc.call.actor == actor && pc.call.group !in BYPASS && !pc.refused
  {
  }

  // --------------------------------------------------------------------- the steps

  lemma LetThroughAtGate(f: Files, call: Call, r: Reading)
    requires f.learning && call.group !in BYPASS && !Blind(call) && !r.Failed? && !Refuses(f, call, r)
    ensures OwesNothing(f.log, call.actor)
  {
    hide HasEnded;
  }

  /** A command keeps its call from dispatch to its unlock, and no step starts one. */
  lemma CallIsKept(f: Files, pc: PC, r: Reading)
    requires NextPC(f, pc, r).Some? && IsCommand(NextPC(f, pc, r).value)
    ensures IsCommand(pc) && NextPC(f, pc, r).value.call == pc.call
    ensures !pc.Gate? && LetThrough(NextPC(f, pc, r).value) ==> LetThrough(pc) && !pc.Record?
    ensures !NextPC(f, pc, r).value.Gate?
  {
  }

  lemma ProcsStep(s: State, p: Pid, r: Reading)
    requires OneCommandPerActor(s.procs) && p in s.procs
    ensures OneCommandPerActor(Next(s, p, r).procs)
  {
    hide Refuses, LastPending, HasEnded, Gates, Remembered;
    if NextPC(s.files, s.procs[p], r).Some? && IsCommand(NextPC(s.files, s.procs[p], r).value) {
      CallIsKept(s.files, s.procs[p], r);
    }
  }

  /** Everybody who was let through still owes nothing when process `p` writes a line, unless
      the line destroys what they were let through on. */
  lemma LineMisleads(s: State, p: Pid, q: Pid, e: Entry)
    requires Structure(s) && GateInv(s) && p in s.procs && Appended(s.files, s.procs[p]) != []
    requires e == Garbled || e == Appended(s.files, s.procs[p])[0]
    requires q in s.procs && LetThrough(s.procs[q]) && q !in s.gates.misled && !Undoes(s.files)
    requires q != p || !s.procs[p].Record?
    ensures OwesNothing(Written(s.files, [e]), s.procs[q].call.actor)
  {
    hide OwesNothing, FilesOk, HolderFacts, LockedBy, OwesOne, Undoes;
    AppendedIsOwn(s.files, s.procs[p]);
    EndRecordsStandAlone(s, p);
    WriteOwesNothing(s.files, e, s.procs[q].call.actor);
  }

  lemma LetThroughIsPast(procs: map<Pid, PC>, q: Pid)
    requires q in procs && LetThrough(procs[q])
    ensures q in Passed(procs)
  {
  }

  lemma LetThroughAdvance(s: State, p: Pid, r: Reading)
    requires Structure(s) && GateInv(s) && Enabled(s, Advance(p, r))
    ensures var t := Next(s, p, r); LetThroughOwesNothing(t.files.log, t.procs, t.gates.misled)
  {
    hide OwesNothing, Structure, Remembered, OwesOne, Undoes, Slips, NextPC, Passed, Written, CounterAfter, FeedbackAfter;
    hide Refuses, Appended;
    var t := Next(s, p, r);
    forall q | q in t.procs && LetThrough(t.procs[q]) && q !in t.gates.misled
      ensures OwesNothing(t.files.log, t.procs[q].call.actor)
    {
      if q == p {
        OwnStep(s, p, r);
      } else {
        OthersStep(s, p, r, q);
      }
    }
  }

  lemma OwnStep(s: State, p: Pid, r: Reading)
    requires Structure(s) && GateInv(s) && Enabled(s, Advance(p, r)) && p !in Gates(s, p, r).misled
    requires NextPC(s.files, s.procs[p], r).Some? && LetThrough(NextPC(s.files, s.procs[p], r).value)
    ensures OwesNothing(Effect(s.files, s.procs[p]).log, NextPC(s.files, s.procs[p], r).value.call.actor)
  {
    hide OwesNothing, Structure, OwesOne, Undoes, Slips, NextPC, Passed, Refuses;
    var pc := s.procs[p];
    LetThroughIsACommand(NextPC(s.files, pc, r).value);
    CallIsKept(s.files, pc, r);
    if pc.Gate? {
      PassesAGate(s.files, pc, r);
    } else {
      LetThroughIsPast(s.procs, p);
      if Appended(s.files, pc) != [] {
        AppendedIsOwn(s.files, pc);
        LineMisleads(s, p, p, Appended(s.files, pc)[0]);
      }
    }
  }

  lemma LetThroughIsACommand(pc: PC)
    requires LetThrough(pc)
    ensures IsCommand(pc)
  {
  }

  lemma PassesAGate(f: Files, pc: PC, r: Reading)
    requires f.learning && pc.Gate? && !r.Failed? && NextPC(f, pc, r).Some? && LetThrough(NextPC(f, pc, r).value)
    ensures OwesNothing(f.log, pc.call.actor) && Appended(f, pc) == []
  {
    hide Refuses, OwesNothing;
    LetThroughAtGate(f, pc.call, r);
  }

  lemma OthersStep(s: State, p: Pid, r: Reading, q: Pid)
    requires Structure(s) && GateInv(s) && Enabled(s, Advance(p, r)) && q !in Gates(s, p, r).misled
    requires q != p && q in s.procs && LetThrough(s.procs[q])
    ensures OwesNothing(Effect(s.files, s.procs[p]).log, s.procs[q].call.actor)
  {
    hide OwesNothing, Structure, OwesOne, Undoes, Slips, Passed, Refuses;
    LetThroughIsPast(s.procs, q);
    if Appended(s.files, s.procs[p]) != [] {
      AppendedIsOwn(s.files, s.procs[p]);
      LineMisleads(s, p, q, Appended(s.files, s.procs[p])[0]);
    }
  }

  lemma LetThroughAbort(s: State, p: Pid, left: Left)
    requires Structure(s) && GateInv(s) && Enabled(s, Abort(p, left))
    ensures var t := Stop(s, p, left); LetThroughOwesNothing(t.files.log, t.procs, t.gates.misled)
  {
    hide OwesNothing, Structure, Stopped, OwesOne, Undoes, Slips, Passed;
    var t := Stop(s, p, left);
    forall q | q in t.procs && LetThrough(t.procs[q]) && q !in t.gates.misled
      ensures OwesNothing(t.files.log, t.procs[q].call.actor)
    {
      LetThroughIsPast(s.procs, q);
      if !left.Nothing? {
        AppendedIsOwn(s.files, s.procs[p]);
        LineMisleads(s, p, q, if left.Fragment? then Garbled else Appended(s.files, s.procs[p])[0]);
      }
    }
  }

  predicate SlipsNow(s: State, p: Pid)
    requires p in s.procs
  {
    Slips(s.files, s.procs[p], p in s.gates.misled || s.past.overlooked)
  }

  /** A record that does not slip is the first debt of its actor, or none. */
  lemma NoSlipOwesOne(s: State, p: Pid, actor: string)
    requires Structure(s) && GateInv(s) && p in s.procs && Appended(s.files, s.procs[p]) != []
    requires !SlipsNow(s, p) && Tail(s.files).None? && Gated(Appended(s.files, s.procs[p])[0], actor)
    ensures NonePending(s.files.log, actor) || Annotated(s.files.log, Appended(s.files, s.procs[p])[0].number)
  {
    hide OwesOne, FilesOk, Written;
    var pc := s.procs[p];
    AppendedIsOwn(s.files, pc);
    TheHolder(s, p);
    if LastPending(s.files.log, actor).None? {
      assert forall i :: !PendingAt(s.files.log, actor, i);
    } else if !Annotated(s.files.log, pc.value) {
      assert !Blind(pc.call) && p !in s.gates.misled && !HasEnded(s.files.log);
      assert LetThrough(pc) && OwesNothing(s.files.log, actor);
    }
  }

  /** One write of process `p`, whole or in part, that does not slip. */
  lemma WriteIsFine(s: State, p: Pid, e: Entry, actor: string)
    requires Structure(s) && GateInv(s) && p in s.procs && !s.gates.slipped && Appended(s.files, s.procs[p]) != []
    requires e == Garbled || (e == Appended(s.files, s.procs[p])[0] && !SlipsNow(s, p))
    ensures AtMostOnePending(Written(s.files, [e]), actor) && AtMostOnePending(Closed(s.files), actor)
  {
    hide AtMostOnePending, NonePending, Structure, SlipsNow, LetThroughOwesNothing;
    if e != Garbled && Tail(s.files).None? && Gated(e, actor) {
      NoSlipOwesOne(s, p, actor);
    }
    WriteOwesOne(s.files, e, actor);
  }

  /** What a step does to the log and to the flag. */
  lemma StepWrites(s: State, a: Action)
    requires Enabled(s, a) && !a.Spawn?
    ensures var lines := Appended(s.files, s.procs[a.pid]);
            if lines == [] || (a.Abort? && a.left.Nothing?)
            then Step(s, a).files.log == s.files.log && Step(s, a).files.open == s.files.open
                 && Step(s, a).gates.slipped == s.gates.slipped
            else Step(s, a).files.log == Written(s.files, [if a.Abort? && a.left.Fragment? then Garbled else lines[0]])
                 && Step(s, a).gates.slipped == (s.gates.slipped || (!(a.Abort? && a.left.Fragment?) && SlipsNow(s, a.pid)))
  {
    hide Slips, Undoes, Passed, Remembered, Stopped, CounterAfter, FeedbackAfter, NextPC;
    if Appended(s.files, s.procs[a.pid]) != [] {
      AppendedIsOwn(s.files, s.procs[a.pid]);
      assert Appended(s.files, s.procs[a.pid]) == [Appended(s.files, s.procs[a.pid])[0]];
    }
  }

  lemma OneAfterStep(s: State, a: Action)
    requires Structure(s) && GateInv(s) && Enabled(s, a) && !Step(s, a).gates.slipped
    ensures !s.gates.slipped && OwesOne(Step(s, a).files)
  {
    hide AtMostOnePending, Structure, LetThroughOwesNothing, SlipsNow, Written;
    if !a.Spawn? {
      StepWrites(s, a);
      hide Next, Stop;
      var lines := Appended(s.files, s.procs[a.pid]);
      if lines != [] && !(a.Abort? && a.left.Nothing?) {
        var e := if a.Abort? && a.left.Fragment? then Garbled else lines[0];
        forall actor ensures AtMostOnePending(Step(s, a).files.log, actor) && AtMostOnePending(Closed(Step(s, a).files), actor) {
          WriteCloses(s.files, e);
          WriteIsFine(s, a.pid, e, actor);
        }
      } else {
        assert Closed(Step(s, a).files) == Closed(s.files);
        assert forall actor :: AtMostOnePending(s.files.log, actor) && AtMostOnePending(Closed(s.files), actor);
      }
    }
  }

  lemma GateStep(s: State, a: Action)
    requires Structure(s) && GateInv(s) && Enabled(s, a) && Disciplined(s, a)
    ensures GateInv(Step(s, a))
  {
    hide Structure, LetThroughOwesNothing, OwesOne, Gates, Slipped, Remembered, Stopped;
    if !Step(s, a).gates.slipped {
      OneAfterStep(s, a);
    }
    match a
    case Spawn(p, pc) => SpawnKeepsGate(s, p, pc);
    case Advance(p, r) =>
      ProcsStep(s, p, r);
      LetThroughAdvance(s, p, r);
    case Abort(p, left) => LetThroughAbort(s, p, left);
  }

  lemma SpawnKeepsGate(s: State, p: Pid, pc: PC)
    requires GateInv(s) && Enabled(s, Spawn(p, pc)) && Disciplined(s, Spawn(p, pc))
    ensures var t := Step(s, Spawn(p, pc));
            OneCommandPerActor(t.procs) && LetThroughOwesNothing(s.files.log, t.procs, t.gates.misled)
  {
    hide OwesNothing, OwesOne;
  }

  lemma {:induction false} GateRun(actions: seq<Action>, s: State)
    requires DisciplinedRun(actions, s)
    ensures GateInv(s) && Reached(true, actions, s)
    decreases |actions|
  {
    hide GateInv, Structure;
    if actions == [] {
      GateStart();
    } else {
      var rest := actions[..|actions| - 1];
      var t := Run(Start(true), rest).value;
      GateRun(rest, t);
      InvGivesStructure(true, rest, t);
      GateStep(t, actions[|actions| - 1]);
    }
  }

  lemma GateStart()
    ensures GateInv(Start(true)) && OwesAtMostOne(Start(true)) && Throughout(true, [], OwesAtMostOne)
  {
    var none: seq<Action> := [];
    assert OwesAtMostOne(Start(true));
    assert forall k :: 0 <= k <= |none| ==> none[..k] == none;
  }

  // ------------------------------------------------------------------- the results

  /** A slip leaves its actor with two debts. */
  lemma SlipIsASecondDebt(f: Files, pc: PC, misled: bool)
    requires Slips(f, pc, misled)
    ensures pc.Record? && !AtMostOnePending(Written(f, [Appended(f, pc)[0]]), pc.call.actor)
  {
    var actor, e := pc.call.actor, Appended(f, pc)[0];
    var i :| PendingAt(f.log, actor, i);
    AppendedPending(f.log, e, actor, i);
    var log := f.log + [e];
    assert log[|f.log|] == e && PendingAt(log, actor, i) && PendingAt(log, actor, |f.log|);
  }

  lemma SlippedStays(s: State, a: Action)
    requires Enabled(s, a) && s.gates.slipped
    ensures Step(s, a).gates.slipped
  {
    hide Slips, Undoes, Passed, Remembered, Stopped, Effect, Broken, NextPC;
  }

  lemma StepOwes(s: State, a: Action)
    requires Structure(s) && GateInv(s) && Enabled(s, a) && Disciplined(s, a) && !s.gates.slipped
    ensures OwesAtMostOne(Step(s, a)) <==> !Step(s, a).gates.slipped
  {
    hide Structure, AtMostOnePending, LetThroughOwesNothing, SlipsNow, Next, Stop, Written;
    if Step(s, a).gates.slipped {
      StepWrites(s, a);
      var pc := s.procs[a.pid];
      SlipHides(s, a.pid);
      SlipIsASecondDebt(s.files, pc, a.pid in s.gates.misled || s.past.overlooked);
      assert !AtMostOnePending(Step(s, a).files.log, pc.call.actor);
    } else {
      OneAfterStep(s, a);
    }
  }

  lemma SlipHides(s: State, p: Pid)
    requires p in s.procs && SlipsNow(s, p)
    ensures Slips(s.files, s.procs[p], p in s.gates.misled || s.past.overlooked)
  {
  }

  /** In a disciplined run, with actors and failures interleaved freely, no actor ever owes
      two annotations if and only if none that owed one had a further record by a command
      - whose gate was blind: a help token, or no session or another one found; or
      - whose gate could not read the log; or
      - which had passed its gate on an annotation or an end record to which another process
        then glued a line; or
      - whose flush could not read that the session had ended. */
  lemma {:induction false} OwesAtMostOneIff(actions: seq<Action>, s: State)
    requires DisciplinedRun(actions, s)
    ensures Throughout(true, actions, OwesAtMostOne) <==> !s.gates.slipped
    decreases |actions|
  {
    hide GateInv, Structure, OwesAtMostOne, Throughout, Disciplined;
    GateStart();
    if actions != [] {
      var rest := actions[..|actions| - 1];
      var t := Run(Start(true), rest).value;
      OwesAtMostOneIff(rest, t);
      GateRun(rest, t);
      GateRun(actions, s);
      ThroughoutSplits(true, actions, OwesAtMostOne);
      if t.gates.slipped {
        SlippedStays(t, actions[|actions| - 1]);
      } else {
        InvGivesStructure(true, rest, t);
        StepOwes(t, actions[|actions| - 1]);
      }
    }
  }

  /** What a gate that saw and read everything has let through owes nothing from there to its
      record, or the session has ended, whatever others do meanwhile; unless they destroy
      what the gate relied on. */
  lemma TheGateKeepsItsWord(actions: seq<Action>, s: State, p: Pid)
    requires DisciplinedRun(actions, s) && p in s.procs && LetThrough(s.procs[p]) && p !in s.gates.misled
    ensures HasEnded(s.files.log) || forall i :: !PendingAt(s.files.log, s.procs[p].call.actor, i)
  {
    GateRun(actions, s);
    hide HasEnded;
    assert OwesNothing(s.files.log, s.procs[p].call.actor);
  }

  // --------------------------------------------------------- what a caller can see to

  /** Nothing escapes the gates: no command has a help token or another session than the one
      its gate finds, no read fails, and no process is stopped just before the newline of
      its line. */
  predicate Untroubled(a: Action) {
    match a
    case Spawn(_, pc) => pc.Gate? ==> !Blind(pc.call) || pc.call.group in BYPASS
    case Advance(_, r) => r.Whole?
    case Abort(_, left) => !left.Unended?
  }

  predicate AllUntroubled(actions: seq<Action>) {
    forall i :: 0 <= i < |actions| ==> Untroubled(actions[i])
  }

  /** So no gate is ever misled. */
  predicate Clear(s: State) {
    && (forall p :: p in s.procs && IsCommand(s.procs[p]) ==> !Blind(s.procs[p].call) || s.procs[p].call.group in BYPASS)
    && s.gates.misled == {} && !s.gates.slipped && !s.past.overlooked
    && (Tail(s.files).Some? ==> Tail(s.files).value.Garbled?)
  }

  lemma {:induction false} UntroubledIsClear(actions: seq<Action>, s: State)
    requires DisciplinedRun(actions, s) && AllUntroubled(actions)
    ensures Clear(s)
    decreases |actions|
  {
    hide Clear, Untroubled;
    if actions == [] {
      ClearAtStart();
    } else {
      var rest, a := actions[..|actions| - 1], actions[|actions| - 1];
      var t := Run(Start(true), rest).value;
      assert forall i :: 0 <= i < |rest| ==> rest[i] == actions[i];
      UntroubledIsClear(rest, t);
      ClearStep(t, a);
      assert s == Step(t, a);
    }
  }

  lemma ClearAtStart()
    ensures Clear(Start(true))
  {
  }

  lemma ClearStep(s: State, a: Action)
    requires Enabled(s, a) && Disciplined(s, a) && Clear(s) && Untroubled(a)
    ensures Clear(Step(s, a))
  {
    hide LastPending, HasEnded, Refuses, Passed;
    match a
    case Spawn(_, _) =>
    case Advance(p, r) => ClearAdvance(s, p);
    case Abort(p, left) => ClearAbort(s, p, left);
  }

  lemma ClearAdvance(s: State, p: Pid)
    requires Enabled(s, Advance(p, Whole)) && Clear(s)
    ensures Clear(Next(s, p, Whole))
  {
    hide LastPending, HasEnded, Refuses, Passed, Written, CounterAfter, FeedbackAfter, Recorded, NextPC;
    var pc := s.procs[p];
    StillRead(s.files, pc, s.past);
    ClearWrites(s, p, true);
    if NextPC(s.files, pc, Whole).Some? && IsCommand(NextPC(s.files, pc, Whole).value) {
      CallIsKept(s.files, pc, Whole);
    }
  }

  lemma StillRead(f: Files, pc: PC, past: History)
    ensures Remembered(f, pc, Whole, past).overlooked ==> past.overlooked
    ensures Effect(f, pc).open ==> f.open && Appended(f, pc) == [] && Effect(f, pc).log == f.log
  {
    hide Recorded, HasEnded;
    RecordingReadsNothing(f, pc, past);
  }

  lemma RecordingReadsNothing(f: Files, pc: PC, past: History)
    ensures Recorded(f, pc, past).overlooked == past.overlooked
  {
    hide HasInvocation, Reopens, Overruns, Outdates, Restarts, Tail, Appended;
  }

  lemma ClearWrites(s: State, p: Pid, whole: bool)
    requires Clear(s) && p in s.procs
    ensures Slipped(s, p, whole) == s.gates
  {
    hide LastPending, Passed, Closed;
  }

  lemma ClearAbort(s: State, p: Pid, left: Left)
    requires Enabled(s, Abort(p, left)) && Clear(s) && !left.Unended?
    ensures Clear(Stop(s, p, left))
  {
    hide LastPending, HasEnded, Refuses, Passed, Slipped;
    ClearWrites(s, p, false);
  }

  /** If nothing escapes the gates, no actor ever owes two annotations. */
  lemma NeverTwoPending(actions: seq<Action>, s: State, actor: string, i: int, j: int)
    requires DisciplinedRun(actions, s) && AllUntroubled(actions)
    requires PendingAt(s.files.log, actor, i) && PendingAt(s.files.log, actor, j)
    ensures i == j
  {
    UntroubledIsClear(actions, s);
    GateRun(actions, s);
    assert AtMostOnePending(s.files.log, actor);
  }

  /** While nothing has slipped, the annotation `xdr annotate` resolves by itself clears the
      whole debt of the actor, unless the file's last line is open: then it only does so
      if that line is the debt itself. */
  lemma AnnotationClearsIff(actions: seq<Action>, s: State, actor: string, n: int)
    requires DisciplinedRun(actions, s) && !s.gates.slipped && LastPending(s.files.log, actor) == Some(n)
    ensures NonePending(Written(s.files, [Annotation(n)]), actor) <==>
              Tail(s.files).None? || PendingAt(s.files.log, actor, |s.files.log| - 1)
  {
    GateRun(actions, s);
    assert AtMostOnePending(s.files.log, actor);
    hide DisciplinedRun, GateInv;
    ClearsIff(s.files, actor, n);
  }

  lemma ClearsIff(f: Files, actor: string, n: int)
    requires AtMostOnePending(f.log, actor) && LastPending(f.log, actor) == Some(n)
    ensures NonePending(Written(f, [Annotation(n)]), actor) <==>
              Tail(f).None? || PendingAt(f.log, actor, |f.log| - 1)
  {
    var k := PendingIndex(f.log, actor, n);
    hide NonePending, AtMostOnePending, PendingAt, LastPending;
    if Tail(f).None? {
      AnnotatedClears(f.log, actor, k);
    } else {
      GluedClearsIff(f.log, actor, k);
    }
  }

  lemma PendingIndex(log: seq<Entry>, actor: string, n: int) returns (k: nat)
    requires LastPending(log, actor) == Some(n)
    ensures k < |log| && PendingAt(log, actor, k) && log[k].number == n
  {
    k :| k < |log| && PendingAt(log, actor, k) && log[k].number == n;
  }

  lemma AnnotatedClears(log: seq<Entry>, actor: string, k: nat)
    requires k < |log| && PendingAt(log, actor, k) && AtMostOnePending(log, actor)
    ensures NonePending(log + [Annotation(log[k].number)], actor)
  {
    var e := Annotation(log[k].number);
    forall i | 0 <= i < |log + [e]| ensures !PendingAt(log + [e], actor, i) {
      AppendedPending(log, e, actor, i);
      assert (log + [e])[|log|] == e;
    }
  }

  lemma GluedClearsIff(log: seq<Entry>, actor: string, k: nat)
    requires k < |log| && PendingAt(log, actor, k) && AtMostOnePending(log, actor)
    ensures NonePending(log[..|log| - 1] + [Garbled], actor) <==> PendingAt(log, actor, |log| - 1)
  {
    var rest, last := log[..|log| - 1], log[|log| - 1];
    var after := rest + [Garbled];
    assert log == rest + [last];
    forall i | 0 <= i < |after| ensures PendingAt(after, actor, i) ==> i < |rest| && PendingAt(rest, actor, i) {
      AppendedPending(rest, Garbled, actor, i);
    }
    if k < |rest| {
      AppendedPending(rest, last, actor, k);
      AppendedPending(rest, Garbled, actor, k);
    } else {
      forall i | 0 <= i < |rest| ensures !PendingAt(rest, actor, i) {
        AppendedPending(rest, last, actor, i);
      }
    }
  }
}
