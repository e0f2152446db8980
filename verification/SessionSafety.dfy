/** What every interleaving of the session-log machine keeps. */
module SessionSafety {
  import opened Common
  import opened SessionLog

  // ------------------------------------------------------- appending to a log

  lemma AppendCounts(log: seq<Entry>, e: Entry)
    ensures Invocations(log + [e]) == Invocations(log) + if e.Invocation? then 1 else 0
    ensures Failures(log + [e]) == Failures(log) + if e.Invocation? && e.failed then 1 else 0
    ensures Numbers(log + [e]) == Numbers(log) + if e.Invocation? then [e.number] else []
  {
    assert (log + [e])[..|log + [e]| - 1] == log;
  }

  lemma {:induction false} NumbersAreInvocations(log: seq<Entry>)
    ensures |Numbers(log)| == Invocations(log)
    ensures HasInvocation(log) <==> Invocations(log) > 0
    ensures forall n :: n in Numbers(log) <==> InvocationExists(log, n)
  {
    if log != [] {
      var rest, last := log[..|log| - 1], log[|log| - 1];
      NumbersAreInvocations(rest);
      assert log == rest + [last];
      assert HasInvocation(log) <==> HasInvocation(rest) || last.Invocation?;
      forall n ensures n in Numbers(log) <==> InvocationExists(log, n) {
        assert InvocationExists(log, n) <==> InvocationExists(rest, n) || (last.Invocation? && last.number == n);
      }
    }
  }

  // ------------------------------------------------------------- the invariant

  predicate Increasing(numbers: seq<int>) {
    forall i, j :: 0 <= i < j < |numbers| ==> numbers[i] < numbers[j]
  }

  /** `lock` belongs to exactly the process inside the section that holds it. */
  predicate LockedBy(procs: map<Pid, PC>, lock: Option<Pid>, holds: PC -> bool) {
    && (lock.Some? ==> lock.value in procs && holds(procs[lock.value]))
    && forall p :: p in procs && holds(procs[p]) ==> lock == Some(p)
  }

  predicate LocksHeld(s: State) {
    && LockedBy(s.procs, s.logLock, HoldsLog)
    && LockedBy(s.procs, s.seqLock, HoldsSeq)
    && LockedBy(s.procs, s.feedbackLock, HoldsFeedback)
  }

  /** The line before an end record is its summary or what became of it. */
  predicate LogShape(log: seq<Entry>) {
    && (log != [] ==> !log[0].Invocation?)
    && forall i :: 0 <= i < |log| && log[i].Ended? ==> i > 0 && (log[i - 1].Summary? || log[i - 1].Garbled?)
  }

  predicate NothingAfter(log: seq<Entry>, i: nat) {
    forall j :: i < j < |log| ==> !log[j].Invocation? && !log[j].Ended?
  }

  /** An end record closes the log. */
  predicate EndsClose(log: seq<Entry>) {
    forall i :: 0 <= i < |log| && log[i].Ended? ==> NothingAfter(log, i)
  }

  /** The totals of an end record and its summary are those of the log and the counter. */
  predicate Totals(log: seq<Entry>, counter: int, i: int)
    requires 0 < i < |log| && log[i].Ended?
  {
    && (log[i - 1].Summary? ==> log[i - 1] == Summary(Invocations(log), Failures(log), log[i].finalSeq))
    && log[i].finalSeq == counter
  }

  predicate TotalsHold(log: seq<Entry>, counter: int) {
    forall i :: 0 < i < |log| && log[i].Ended? ==> Totals(log, counter, i)
  }

  predicate NoInvocationAfter(log: seq<Entry>) {
    forall i, j :: 0 <= i < j < |log| && log[i].Ended? ==> !log[j].Invocation?
  }

  predicate HolderFacts(f: Files, past: History, pc: PC) {
    && ((Flushing(pc) || Ending(pc)) && HasEnded(f.log) ==> past.overlooked)
    && (pc.SeqTruncate? ==> pc.value == f.counter + 1 || pc.value == 1)
    && (pc.SeqWrite? ==> f.counter == 0 && pc.value >= 1 && (HasEnded(f.log) && !past.outdated ==> pc.value == 1))
    && (Allocated(pc) ==> f.counter == pc.value >= 1 && (HasEnded(f.log) ==> past.outdated))
    && (pc.Record? ==> f.log != [])
    && (pc.EndSummary? ==> pc.invocations == Invocations(f.log) && pc.failures == Failures(f.log))
    && (pc.EndRecord? ==>
          && f.log != [] && !f.open
          && f.log[|f.log| - 1] == if pc.kept then Summary(Invocations(f.log), Failures(f.log), pc.final) else Garbled)
  }

  /** What the process holding the log lock is doing. */
  function Holder(s: State): Option<PC> {
    if s.logLock.Some? && s.logLock.value in s.procs then Some(s.procs[s.logLock.value]) else None
  }

  /** The counter as the next reader must find it: while the holder rewrites the
      truncated file, this is the value it had read. */
  function Counter(counter: int, holder: Option<PC>): int {
    if holder.Some? && holder.value.SeqWrite? then holder.value.value - 1 else counter
  }

  function InFlight(holder: Option<PC>): nat {
    if holder.Some? && Allocated(holder.value) then 1 else 0
  }

  predicate Positive(numbers: seq<int>) {
    forall i :: 0 <= i < |numbers| ==> numbers[i] >= 1
  }

  predicate Bounded(numbers: seq<int>, bound: int) {
    forall i :: 0 <= i < |numbers| ==> numbers[i] <= bound
  }

  /** The promise about invocation numbers. */
  predicate NumbersSound(s: State) {
    Increasing(Numbers(s.files.log)) && Bounded(Numbers(s.files.log), Counter(s.files.counter, Holder(s)))
  }

  predicate FilesOk(f: Files) {
    f.counter >= 0 && (f.open ==> f.log != []) && Positive(Numbers(f.log)) && LogShape(f.log)
  }

  predicate Structure(s: State) {
    FilesOk(s.files) && LocksHeld(s) && (Holder(s).Some? ==> HolderFacts(s.files, s.past, Holder(s).value))
  }

  /** What end records promise, as long as no end record was overlooked. */
  predicate Ends(f: Files, past: History) {
    && (!past.overrun ==> EndsClose(f.log))
    && (!past.outdated ==> NoInvocationAfter(f.log) && TotalsHold(f.log, f.counter))
  }

  /** Every allocated number is in the log, about to be, or lost to a failure. */
  predicate AccountedFor(log: seq<Entry>, counter: int, lost: nat, holder: Option<PC>) {
    && Increasing(Numbers(log))
    && Bounded(Numbers(log), Counter(counter, holder) - InFlight(holder))
    && Counter(counter, holder) == Invocations(log) + lost + InFlight(holder)
  }

  predicate Accounted(s: State) {
    AccountedFor(s.files.log, s.files.counter, s.past.lost, Holder(s))
  }

  /** The numbering has started again. */
  predicate Renumbered(past: History) {
    past.torn || past.restarted
  }

  predicate Inv(s: State) {
    Structure(s) && Ends(s.files, s.past) && (!Renumbered(s.past) ==> Accounted(s))
  }

  // --------------------------------------------------------- preservation steps

  lemma LockMoves(procs: map<Pid, PC>, lock: Option<Pid>, holds: PC -> bool, p: Pid, to: Option<PC>)
    requires LockedBy(procs, lock, holds) && p in procs
    requires to.Some? && holds(to.value) && !holds(procs[p]) ==> lock.None?
    ensures LockedBy(Put(procs, p, to), Move(lock, p, holds(procs[p]), to.Some? && holds(to.value)), holds)
  {
  }

  lemma EnteringIsGuarded(s: State, p: Pid, r: Reading)
    requires Enabled(s, Advance(p, r))
    ensures var pc, to := s.procs[p], NextPC(s.files, s.procs[p], r);
            && (to.Some? && HoldsLog(to.value) && !HoldsLog(pc) ==> s.logLock.None?)
            && (to.Some? && HoldsSeq(to.value) && !HoldsSeq(pc) ==> s.seqLock.None?)
            && (to.Some? && HoldsFeedback(to.value) && !HoldsFeedback(pc) ==> s.feedbackLock.None?)
  {
  }

  lemma LocksGoto(s: State, p: Pid, to: Option<PC>)
    requires LocksHeld(s) && p in s.procs
    requires to.Some? && HoldsLog(to.value) && !HoldsLog(s.procs[p]) ==> s.logLock.None?
    requires to.Some? && HoldsSeq(to.value) && !HoldsSeq(s.procs[p]) ==> s.seqLock.None?
    requires to.Some? && HoldsFeedback(to.value) && !HoldsFeedback(s.procs[p]) ==> s.feedbackLock.None?
    ensures LocksHeld(Goto(s, p, s.procs[p], to))
  {
    LockMoves(s.procs, s.logLock, HoldsLog, p, to);
    LockMoves(s.procs, s.seqLock, HoldsSeq, p, to);
    LockMoves(s.procs, s.feedbackLock, HoldsFeedback, p, to);
  }

  lemma LocksStep(s: State, a: Action)
    requires LocksHeld(s) && Enabled(s, a)
    ensures LocksHeld(Step(s, a))
  {
    match a
    case Spawn(_, _) =>
    case Advance(p, r) =>
      EnteringIsGuarded(s, p, r);
      LocksGoto(s, p, NextPC(s.files, s.procs[p], r));
    case Abort(p, _) => LocksGoto(s, p, None);
  }

  /** Only the holder of the log lock appends or rewrites the counter. */
  lemma OutsidersChangeNothing(f: Files, pc: PC)
    requires !HoldsLog(pc)
    ensures Appended(f, pc) == [] && CounterAfter(f, pc) == f.counter
    ensures Written(f, Appended(f, pc)) == f.log
    ensures forall past :: Recorded(f, pc, past) == past
  {
  }

  predicate PositiveEntry(e: Entry) {
    e.Invocation? ==> e.number >= 1
  }

  /** Dropping the last line, as gluing does, keeps the shape and every bound. */
  lemma DropKeeps(log: seq<Entry>)
    requires log != [] && LogShape(log) && Positive(Numbers(log))
    ensures LogShape(log[..|log| - 1]) && Positive(Numbers(log[..|log| - 1]))
    ensures HasEnded(log[..|log| - 1]) ==> HasEnded(log)
  {
    DropCounts(log);
    hide Numbers;
    PrefixFacts(log[..|log| - 1], log);
  }

  lemma PrefixFacts(rest: seq<Entry>, log: seq<Entry>)
    requires rest <= log
    ensures LogShape(log) ==> LogShape(rest)
    ensures HasEnded(rest) ==> HasEnded(log)
  {
    assert forall i :: 0 <= i < |rest| ==> rest[i] == log[i];
  }

  lemma AppendKeeps(log: seq<Entry>, e: Entry)
    requires LogShape(log) && Positive(Numbers(log)) && PositiveEntry(e)
    requires e.Invocation? ==> log != []
    requires e.Ended? ==> log != [] && (log[|log| - 1].Summary? || log[|log| - 1].Garbled?)
    ensures LogShape(log + [e]) && Positive(Numbers(log + [e]))
    ensures HasEnded(log + [e]) <==> HasEnded(log) || e.Ended?
  {
    AppendCounts(log, e);
    AppendHasEnded(log, e);
    hide HasEnded, Numbers;
    var longer := log + [e];
    assert forall i :: 0 <= i < |log| ==> longer[i] == log[i];
    assert longer[|log|] == e;
  }

  lemma AppendHasEnded(log: seq<Entry>, e: Entry)
    ensures HasEnded(log + [e]) <==> HasEnded(log) || e.Ended?
  {
    var longer := log + [e];
    assert forall i :: 0 <= i < |log| ==> longer[i] == log[i];
    assert longer[|log|] == e;
  }

  /** One line written anywhere: a glued one adds only noise. */
  lemma WriteKeeps(f: Files, e: Entry)
    requires FilesOk(f) && PositiveEntry(e)
    requires e.Invocation? ==> f.log != []
    requires e.Ended? ==> f.log != [] && !f.open && (f.log[|f.log| - 1].Summary? || f.log[|f.log| - 1].Garbled?)
    ensures LogShape(Written(f, [e])) && Positive(Numbers(Written(f, [e]))) && Written(f, [e]) != []
    ensures HasEnded(Written(f, [e])) ==> HasEnded(f.log) || e.Ended?
  {
    hide LogShape, Positive, Numbers, HasEnded;
    if f.open {
      DropKeeps(f.log);
    }
    AppendKeeps(Closed(f), Line(f, e));
  }

  /** What every step of the holder keeps of the log, and also a stop inside its append. */
  lemma HolderWrites(f: Files, past: History, pc: PC)
    requires HolderFacts(f, past, pc) && HoldsLog(pc) && FilesOk(f)
    ensures FilesOk(Effect(f, pc))
    ensures Appended(f, pc) != [] ==> CounterAfter(f, pc) == f.counter && Effect(f, pc).log != []
    ensures HasEnded(Effect(f, pc).log) ==> HasEnded(f.log) || pc.EndRecord?
  {
    hide Numbers, Invocations, Failures, HasEnded, LogShape, Positive, Refuses, LastPending, InvocationExists;
    var lines := Appended(f, pc);
    if lines != [] {
      assert lines == [lines[0]];
      WriteKeeps(f, lines[0]);
    }
  }

  /** The facts the holder relies on, carried over its own step. */
  lemma HolderStep(f: Files, past: History, pc: PC, r: Reading)
    requires HolderFacts(f, past, pc) && HoldsLog(pc) && FilesOk(f) && NextPC(f, pc, r).Some?
    ensures HolderFacts(Effect(f, pc), Remembered(f, pc, r, past), NextPC(f, pc, r).value)
  {
    HolderWrites(f, past, pc);
    hide FilesOk, Remembered;
    if pc.CheckEnded? || Flushing(pc) {
      FlushStep(f, past, pc, r);
    } else {
      OtherStep(f, past, pc, r);
    }
  }

  lemma FlushStep(f: Files, past: History, pc: PC, r: Reading)
    requires HolderFacts(f, past, pc) && (pc.CheckEnded? || Flushing(pc)) && f.counter >= 0
    requires Appended(f, pc) != [] ==> CounterAfter(f, pc) == f.counter && Effect(f, pc).log != []
    requires HasEnded(Effect(f, pc).log) ==> HasEnded(f.log) || pc.EndRecord?
    requires NextPC(f, pc, r).Some?
    ensures HolderFacts(Effect(f, pc), Remembered(f, pc, r, past), NextPC(f, pc, r).value)
  {
    hide Invocations, Failures, HasEnded, HasInvocation, Reopens, Tail;
  }

  lemma OtherStep(f: Files, past: History, pc: PC, r: Reading)
    requires HolderFacts(f, past, pc) && HoldsLog(pc) && !pc.CheckEnded? && !Flushing(pc) && (f.open ==> f.log != [])
    requires HasEnded(Effect(f, pc).log) ==> HasEnded(f.log) || pc.EndRecord?
    requires NextPC(f, pc, r).Some?
    ensures HolderFacts(Effect(f, pc), Remembered(f, pc, r, past), NextPC(f, pc, r).value)
  {
    hide Invocations, Failures, HasEnded, HasInvocation, Reopens, Tail;
    if pc.EndSummary? && !f.open {
      AppendCounts(f.log, Appended(f, pc)[0]);
    }
  }

  lemma StructureAdvance(s: State, p: Pid, r: Reading)
    requires Structure(s) && Enabled(s, Advance(p, r))
    ensures Structure(Next(s, p, r))
  {
    hide HasEnded, FilesOk, HolderFacts, Invocations, Failures, Refuses, LastPending, InvocationExists, Recorded, Gates;
    LocksStep(s, Advance(p, r));
    var pc := s.procs[p];
    if HoldsLog(pc) {
      TheHolder(s, p);
      HolderWrites(s.files, s.past, pc);
      if NextPC(s.files, pc, r).Some? {
        HolderStep(s.files, s.past, pc, r);
      }
    } else {
      OutsiderStep(s, p, r);
    }
  }

  /** A process outside the section changes neither the files nor what its holder knows. */
  lemma OutsiderStep(s: State, p: Pid, r: Reading)
    requires Structure(s) && Enabled(s, Advance(p, r)) && !HoldsLog(s.procs[p])
    ensures Structure(Next(s, p, r)) && Next(s, p, r).files == s.files && Next(s, p, r).past == s.past
    ensures Holder(s).Some? ==> Holder(Next(s, p, r)) == Holder(s)
    ensures Holder(s).None? && Holder(Next(s, p, r)).Some? ==> Starts(Holder(Next(s, p, r)).value)
  {
    hide FilesOk, HolderFacts, Gates, Remembered, Effect;
    LocksStep(s, Advance(p, r));
    var pc := s.procs[p];
    OutsiderEffect(s.files, s.past, pc, r);
    OutsiderArrives(s, p, r);
    hide NextPC, Starts, Appended;
    if Holder(Next(s, p, r)).Some? && Holder(s).None? {
      StartingFacts(s.files, s.past, Holder(Next(s, p, r)).value);
    }
  }

  lemma OutsiderEffect(f: Files, past: History, pc: PC, r: Reading)
    requires !HoldsLog(pc)
    ensures Effect(f, pc) == f && Remembered(f, pc, r, past) == past
  {
    OutsidersChangeNothing(f, pc);
  }

  lemma OutsiderArrives(s: State, p: Pid, r: Reading)
    requires Enabled(s, Advance(p, r)) && !HoldsLog(s.procs[p])
    ensures var to := NextPC(s.files, s.procs[p], r);
            to.Some? && HoldsLog(to.value) ==> s.logLock.None? && Starts(to.value)
  {
    hide Refuses, LastPending, HasEnded, InvocationExists;
  }

  lemma StartingFacts(f: Files, past: History, pc: PC)
    requires Starts(pc)
    ensures HolderFacts(f, past, pc)
  {
  }

  /** The first point of a section. */
  predicate Starts(pc: PC) {
    pc.CheckEnded? || pc.EndCheck? || pc.AnnotateAppend? || pc.FeedbackSeqWait? || pc.StartAppend?
  }

  lemma TheHolder(s: State, p: Pid)
    requires LocksHeld(s) && p in s.procs && HoldsLog(s.procs[p])
    ensures s.logLock == Some(p) && Holder(s) == Some(s.procs[p])
  {
  }

  /** A stop inside an append leaves a shorter log, the log with its line, or noise. */
  lemma BrokenKeeps(f: Files, past: History, pc: PC, left: Left)
    requires HolderFacts(f, past, pc) && HoldsLog(pc) && FilesOk(f)
    requires !left.Nothing? ==> Appended(f, pc) != []
    ensures FilesOk(Broken(f, pc, left)) && Broken(f, pc, left).counter == f.counter
  {
    hide HasEnded, LogShape, Positive, Numbers, HolderFacts;
    match left
    case Nothing =>
    case Fragment => WriteKeeps(f, Garbled);
    case Unended => HolderWrites(f, past, pc);
  }

  lemma StructureAbort(s: State, p: Pid, left: Left)
    requires Structure(s) && Enabled(s, Abort(p, left))
    ensures Structure(Stop(s, p, left))
  {
    hide HasEnded, FilesOk, HolderFacts, Recorded, Glued, Slipped;
    LocksStep(s, Abort(p, left));
    var pc := s.procs[p];
    if HoldsLog(pc) {
      TheHolder(s, p);
      BrokenKeeps(s.files, s.past, pc, left);
    } else {
      OutsidersChangeNothing(s.files, pc);
      OutsiderStops(s, p);
    }
  }

  lemma OutsiderStops(s: State, p: Pid)
    requires LocksHeld(s) && p in s.procs && !HoldsLog(s.procs[p])
    ensures Appended(s.files, s.procs[p]) == []
    ensures Stop(s, p, Nothing).files == s.files && Stop(s, p, Nothing).past == s.past
    ensures Holder(Stop(s, p, Nothing)) == Holder(s)
  {
    hide HasInvocation, Glued, Recorded;
  }

  lemma StructureStep(s: State, a: Action)
    requires Structure(s) && Enabled(s, a)
    ensures Structure(Step(s, a))
  {
    hide Next, Stop, FilesOk, HolderFacts;
    LocksStep(s, a);
    match a
    case Spawn(_, _) =>
    case Advance(p, r) => StructureAdvance(s, p, r);
    case Abort(p, left) => StructureAbort(s, p, left);
  }

  // ------------------------------------------------------------- the end records

  lemma DropEnds(log: seq<Entry>)
    requires log != []
    ensures EndsClose(log) ==> EndsClose(log[..|log| - 1])
    ensures NoInvocationAfter(log) ==> NoInvocationAfter(log[..|log| - 1])
  {
    var rest := log[..|log| - 1];
    assert forall i :: 0 <= i < |rest| ==> rest[i] == log[i];
    forall i | 0 <= i < |rest| && rest[i].Ended? && EndsClose(log) ensures NothingAfter(rest, i) {
      assert NothingAfter(log, i);
    }
  }

  lemma DropTotals(log: seq<Entry>, counter: int)
    requires log != [] && NoInvocationAfter(log) && TotalsHold(log, counter)
    ensures TotalsHold(log[..|log| - 1], counter)
  {
    var rest := log[..|log| - 1];
    assert forall i :: 0 <= i < |rest| ==> rest[i] == log[i];
    forall i | 0 < i < |rest| && rest[i].Ended? ensures Totals(rest, counter, i) {
      assert log[i].Ended? && Totals(log, counter, i);
      assert !log[|log| - 1].Invocation?;
    }
  }

  lemma AppendEnds(log: seq<Entry>, e: Entry)
    requires (e.Invocation? || e.Ended?) ==> !HasEnded(log)
    ensures EndsClose(log) ==> EndsClose(log + [e])
  {
    var longer := log + [e];
    assert forall i :: 0 <= i < |log| ==> longer[i] == log[i];
    forall i | 0 <= i < |longer| && longer[i].Ended? && EndsClose(log) ensures NothingAfter(longer, i) {
      if i < |log| {
        assert NothingAfter(log, i);
      }
    }
  }

  lemma AppendTotals(log: seq<Entry>, counter: int, e: Entry)
    requires NoInvocationAfter(log) && TotalsHold(log, counter)
    requires e.Invocation? ==> !HasEnded(log)
    requires e.Ended? ==>
      && e.finalSeq == counter && log != []
      && (log[|log| - 1].Garbled? || log[|log| - 1] == Summary(Invocations(log), Failures(log), counter))
    ensures NoInvocationAfter(log + [e]) && TotalsHold(log + [e], counter)
  {
    AppendCounts(log, e);
    var longer := log + [e];
    assert forall i :: 0 <= i < |log| ==> longer[i] == log[i];
    forall i | 0 < i < |longer| && longer[i].Ended? ensures Totals(longer, counter, i) {
      if i < |log| {
        assert Totals(log, counter, i);
      }
    }
  }

  /** One line written anywhere. */
  lemma EndsWritten(f: Files, past: History, e: Entry)
    requires Ends(f, past)
    requires !past.overrun && Tail(f).None? && (e.Invocation? || e.Ended?) ==> !HasEnded(f.log)
    requires !past.outdated && Tail(f).None? && e.Invocation? ==> !HasEnded(f.log)
    requires !past.outdated && Tail(f).None? && e.Ended? ==>
      && e.finalSeq == f.counter && f.log != []
      && (f.log[|f.log| - 1].Garbled? || f.log[|f.log| - 1] == Summary(Invocations(f.log), Failures(f.log), f.counter))
    ensures !past.overrun ==> EndsClose(Written(f, [e]))
    ensures !past.outdated ==> NoInvocationAfter(Written(f, [e])) && TotalsHold(Written(f, [e]), f.counter)
  {
    hide EndsClose, NoInvocationAfter, TotalsHold, HasEnded, Invocations, Failures;
    if Tail(f).Some? {
      DropEnds(f.log);
    }
    if !past.overrun {
      AppendEnds(Closed(f), Line(f, e));
    }
    if !past.outdated {
      if Tail(f).Some? {
        DropTotals(f.log, f.counter);
      }
      AppendTotals(Closed(f), f.counter, Line(f, e));
    }
  }

  /** The holder writes its line, or rewrites the counter. */
  lemma EndsHolder(f: Files, past: History, pc: PC)
    requires HolderFacts(f, past, pc) && HoldsLog(pc) && FilesOk(f) && Ends(f, past)
    ensures Ends(Effect(f, pc), Recorded(f, pc, past))
  {
    hide Ends, HolderFacts, FilesOk, HasEnded, Recorded, Effect;
    if Appended(f, pc) != [] {
      EndsLine(f, past, pc);
    } else {
      EndsCounter(f, past, pc);
    }
  }

  lemma EndsLine(f: Files, past: History, pc: PC)
    requires HolderFacts(f, past, pc) && HoldsLog(pc) && FilesOk(f) && Ends(f, past) && Appended(f, pc) != []
    ensures Ends(Effect(f, pc), Recorded(f, pc, past))
  {
    hide EndsClose, NoInvocationAfter, TotalsHold, HasEnded, Invocations, Failures, FilesOk, HasInvocation, Reopens, NextPC;
    var lines, after := Appended(f, pc), Recorded(f, pc, past);
    assert lines == [lines[0]];
    EndsBefore(f, past, after);
    EndsWritten(f, past.(overrun := after.overrun, outdated := after.outdated), lines[0]);
  }

  lemma EndsCounter(f: Files, past: History, pc: PC)
    requires HolderFacts(f, past, pc) && HoldsLog(pc) && Ends(f, past) && Appended(f, pc) == []
    ensures Ends(Effect(f, pc), Recorded(f, pc, past))
  {
    hide EndsClose, NoInvocationAfter, TotalsHold, HasEnded, Invocations, Failures, HasInvocation, Reopens;
    if CounterAfter(f, pc) != f.counter && !Recorded(f, pc, past).outdated {
      assert !HasEnded(f.log);
      NoTotals(f.log, CounterAfter(f, pc));
    }
  }

  lemma EndsBefore(f: Files, past: History, after: History)
    requires Ends(f, past) && (past.overrun ==> after.overrun) && (past.outdated ==> after.outdated)
    ensures Ends(f, past.(overrun := after.overrun, outdated := after.outdated))
  {
  }

  lemma NoTotals(log: seq<Entry>, counter: int)
    requires !HasEnded(log)
    ensures TotalsHold(log, counter)
  {
  }

  lemma EndsStep(s: State, a: Action)
    requires Structure(s) && Enabled(s, a) && Ends(s.files, s.past)
    ensures Ends(Step(s, a).files, Step(s, a).past)
  {
    hide EndsClose, NoInvocationAfter, TotalsHold, HasEnded, HolderFacts, FilesOk, LockedBy, Recorded, Effect, Broken;
    if !a.Spawn? {
      var pc := s.procs[a.pid];
      if HoldsLog(pc) {
        TheHolder(s, a.pid);
        EndsHolder(s.files, s.past, pc);
        if a.Abort? {
          EndsBroken(s.files, s.past, pc, a.left);
        } else {
          ChecksWriteNothing(s.files, pc);
        }
      } else if a.Advance? {
        OutsiderStep(s, a.pid, a.reading);
      } else {
        OutsiderStops(s, a.pid);
      }
    }
  }

  lemma ChecksWriteNothing(f: Files, pc: PC)
    ensures pc.CheckEnded? || pc.EndCheck? ==> Effect(f, pc) == f
  {
  }

  lemma EndsBroken(f: Files, past: History, pc: PC, left: Left)
    requires HolderFacts(f, past, pc) && HoldsLog(pc) && FilesOk(f) && Ends(f, past)
    requires !left.Nothing? ==> Appended(f, pc) != []
    ensures Ends(Broken(f, pc, left), Stopped(f, pc, left, past))
  {
    hide EndsClose, NoInvocationAfter, TotalsHold, HasEnded, HolderFacts, FilesOk, HasInvocation;
    match left
    case Nothing =>
    case Fragment => EndsWritten(f, past, Garbled);
    case Unended =>
      EndsHolder(f, past, pc);
      LineStep(f, pc);
  }

  // ---------------------------------------------------------- accounting for numbers

  lemma DropCounts(log: seq<Entry>)
    requires log != []
    ensures Invocations(log) == Invocations(log[..|log| - 1]) + if log[|log| - 1].Invocation? then 1 else 0
    ensures Numbers(log[..|log| - 1]) <= Numbers(log)
  {
  }

  /** Gluing costs the number of the line it hits. */
  lemma ClosedCounts(f: Files)
    ensures Invocations(f.log) == Invocations(Closed(f)) + if Tail(f).Some? && Tail(f).value.Invocation? then 1 else 0
    ensures Numbers(Closed(f)) <= Numbers(f.log)
  {
    if f.open && f.log != [] {
      DropCounts(f.log);
    }
  }

  lemma AccountedHolder(f: Files, past: History, pc: PC, r: Reading)
    requires HolderFacts(f, past, pc) && HoldsLog(pc)
    requires AccountedFor(f.log, f.counter, past.lost, Some(pc)) && !Recorded(f, pc, past).restarted
    ensures AccountedFor(Written(f, Appended(f, pc)), CounterAfter(f, pc), Recorded(f, pc, past).lost, NextPC(f, pc, r))
  {
    hide Invocations, Numbers, HasEnded, Failures, Refuses, LastPending, InvocationExists, HasInvocation, Outdates, Overruns;
    hide Reopens;
    var lines := Appended(f, pc);
    if lines != [] {
      ClosedCounts(f);
      AppendCounts(Closed(f), Line(f, lines[0]));
    } else if Restarts(f, pc) {
      NumbersAreInvocations(f.log);
    }
  }

  lemma AccountedAdvance(s: State, p: Pid, r: Reading)
    requires Structure(s) && Accounted(s) && Enabled(s, Advance(p, r)) && !Next(s, p, r).past.restarted
    ensures Accounted(Next(s, p, r))
  {
    hide HolderFacts, FilesOk, AccountedFor, Recorded, Gates, CounterAfter, Written, LockedBy;
    LocksStep(s, Advance(p, r));
    var pc := s.procs[p];
    if HoldsLog(pc) {
      TheHolder(s, p);
      Leaves(s.files, pc, r);
      ChecksRecordNothing(s.files, s.past, pc);
      AccountedHolder(s.files, s.past, pc, r);
      HolderAfter(s, p, r);
    } else {
      OutsiderStep(s, p, r);
      if Holder(s).None? && Holder(Next(s, p, r)).Some? {
        Starting(s.files, s.past.lost, Holder(Next(s, p, r)).value);
      }
    }
  }

  lemma HolderAfter(s: State, p: Pid, r: Reading)
    requires LocksHeld(s) && p in s.procs && HoldsLog(s.procs[p])
    requires NextPC(s.files, s.procs[p], r).Some? ==> HoldsLog(NextPC(s.files, s.procs[p], r).value)
    ensures Holder(Next(s, p, r)) == NextPC(s.files, s.procs[p], r)
  {
    TheHolder(s, p);
    hide Recorded, Gates, Refuses, LastPending, HasEnded, InvocationExists, Invocations, Failures;
  }

  lemma Starting(f: Files, lost: nat, pc: PC)
    requires Starts(pc) && AccountedFor(f.log, f.counter, lost, None)
    ensures AccountedFor(f.log, f.counter, lost, Some(pc))
  {
  }

  lemma ChecksRecordNothing(f: Files, past: History, pc: PC)
    ensures pc.CheckEnded? || pc.EndCheck? ==> Recorded(f, pc, past) == past
  {
  }

  /** A process inside the section stays inside it until it is finished. */
  lemma Leaves(f: Files, pc: PC, r: Reading)
    requires HoldsLog(pc)
    ensures NextPC(f, pc, r).Some? ==> HoldsLog(NextPC(f, pc, r).value)
  {
  }

  /** A number in flight that no line will carry is lost. */
  lemma AccountedFragment(f: Files, past: History, pc: PC)
    requires HolderFacts(f, past, pc) && HoldsLog(pc) && Appended(f, pc) != []
    requires AccountedFor(f.log, f.counter, past.lost, Some(pc))
    ensures AccountedFor(Written(f, [Garbled]), f.counter, Stopped(f, pc, Fragment, past).lost, None)
  {
    hide Invocations, Numbers, HasEnded, Failures, Refuses, LastPending, InvocationExists, HasInvocation, Reopens;
    ClosedCounts(f);
    AppendCounts(Closed(f), Garbled);
  }

  lemma AccountedUnended(f: Files, past: History, pc: PC)
    requires HolderFacts(f, past, pc) && HoldsLog(pc) && Appended(f, pc) != []
    requires AccountedFor(f.log, f.counter, past.lost, Some(pc)) && !Recorded(f, pc, past).restarted
    ensures AccountedFor(Written(f, Appended(f, pc)), f.counter, Stopped(f, pc, Unended, past).lost, None)
  {
    LineStep(f, pc);
    hide HolderFacts, Written, Recorded, Increasing, Bounded, Invocations, Numbers, NextPC, CounterAfter, Appended;
    AccountedHolder(f, past, pc, Whole);
  }

  /** A step that writes a line leaves the counter, and only a header is followed by a number
      still in flight. */
  lemma LineStep(f: Files, pc: PC)
    requires HoldsLog(pc) && Appended(f, pc) != []
    ensures CounterAfter(f, pc) == f.counter && FeedbackAfter(f, pc) == f.feedback
    ensures InFlight(NextPC(f, pc, Whole)) == if pc.Header? then 1 else 0
    ensures NextPC(f, pc, Whole).Some? ==> !NextPC(f, pc, Whole).value.SeqWrite?
  {
    hide HasEnded, LastPending, Refuses, InvocationExists, Invocations, Failures;
  }

  lemma AccountedNothing(f: Files, past: History, pc: PC)
    requires HolderFacts(f, past, pc) && HoldsLog(pc)
    requires AccountedFor(f.log, f.counter, past.lost, Some(pc)) && !Stopped(f, pc, Nothing, past).torn
    ensures AccountedFor(f.log, f.counter, Stopped(f, pc, Nothing, past).lost, None)
  {
    NumbersAreInvocations(f.log);
  }

  lemma AccountedStop(f: Files, past: History, pc: PC, left: Left)
    requires HolderFacts(f, past, pc) && HoldsLog(pc)
    requires !left.Nothing? ==> Appended(f, pc) != []
    requires AccountedFor(f.log, f.counter, past.lost, Some(pc)) && !Renumbered(Stopped(f, pc, left, past))
    ensures AccountedFor(Broken(f, pc, left).log, f.counter, Stopped(f, pc, left, past).lost, None)
  {
    hide AccountedFor, HolderFacts, Written, Glued, Recorded, HasInvocation;
    match left
    case Nothing => AccountedNothing(f, past, pc);
    case Fragment => AccountedFragment(f, past, pc);
    case Unended => AccountedUnended(f, past, pc);
  }

  lemma AccountedAbort(s: State, p: Pid, left: Left)
    requires Structure(s) && Accounted(s) && Enabled(s, Abort(p, left)) && !Renumbered(Stop(s, p, left).past)
    ensures Accounted(Stop(s, p, left))
  {
    hide AccountedFor, HolderFacts, FilesOk, Stopped, Written, LockedBy, Slipped;
    LocksStep(s, Abort(p, left));
    var pc := s.procs[p];
    if HoldsLog(pc) {
      TheHolder(s, p);
      AccountedStop(s.files, s.past, pc, left);
      assert Holder(Stop(s, p, left)).None?;
    } else {
      OutsiderStops(s, p);
    }
  }

  /** Whatever the history records stays recorded. */
  predicate Remembers(before: History, after: History) {
    && (before.torn ==> after.torn) && (before.restarted ==> after.restarted) && (before.headless ==> after.headless)
    && (before.reopened ==> after.reopened) && (before.overrun ==> after.overrun)
    && (before.outdated ==> after.outdated)
  }

  lemma StepRemembers(s: State, a: Action)
    requires Enabled(s, a)
    ensures Remembers(s.past, Step(s, a).past)
  {
    match a
    case Spawn(_, _) =>
    case Advance(p, r) => FlagsStay(s.files, s.procs[p], r, Nothing, s.past);
    case Abort(p, left) => FlagsStay(s.files, s.procs[p], Whole, left, s.past);
    hide Remembered, Stopped, Gates, Slipped, Goto, Effect, Broken, NextPC;
  }

  lemma FlagsStay(f: Files, pc: PC, r: Reading, left: Left, past: History)
    ensures Remembers(past, Remembered(f, pc, r, past)) && Remembers(past, Stopped(f, pc, left, past))
  {
    hide Glued, Recorded;
    GluedRemembers(f, past);
    RecordedRemembers(f, pc, past);
  }

  lemma GluedRemembers(f: Files, past: History)
    ensures Remembers(past, Glued(f, past))
  {
    hide Reopens, Tail;
  }

  lemma RecordedRemembers(f: Files, pc: PC, past: History)
    ensures Remembers(past, Recorded(f, pc, past))
  {
    hide HasInvocation, Overruns, Outdates, Restarts, Appended, Tail, Glued;
    GluedRemembers(f, past);
  }

  lemma RenumberedStays(s: State, a: Action)
    requires Enabled(s, a) && Renumbered(s.past)
    ensures Renumbered(Step(s, a).past)
  {
    hide Step;
    StepRemembers(s, a);
  }

  lemma InvStep(s: State, a: Action)
    requires Inv(s) && Enabled(s, a)
    ensures Inv(Step(s, a))
  {
    hide Structure, Accounted, Ends, Renumbered, Next, Stop;
    StructureStep(s, a);
    EndsStep(s, a);
    if Renumbered(s.past) {
      RenumberedStays(s, a);
    } else if !Renumbered(Step(s, a).past) {
      AccountedStep(s, a);
    }
  }

  lemma AccountedStep(s: State, a: Action)
    requires Structure(s) && Accounted(s) && Enabled(s, a) && !Renumbered(Step(s, a).past)
    ensures Accounted(Step(s, a))
  {
    hide Structure, Accounted, Next, Stop;
    match a
    case Spawn(_, _) => SpawnKeepsAccounts(s, a);
    case Advance(p, r) => AccountedAdvance(s, p, r);
    case Abort(p, left) => AccountedAbort(s, p, left);
  }

  lemma SpawnKeepsAccounts(s: State, a: Action)
    requires a.Spawn? && Enabled(s, a) && Structure(s) && Accounted(s)
    ensures Accounted(Step(s, a))
  {
    assert Holder(Step(s, a)) == Holder(s);
  }

  /** `s` is a state of some run, with any number of processes and any failures. */
  predicate Reached(learning: bool, actions: seq<Action>, s: State) {
    Run(Start(learning), actions) == Some(s)
  }

  lemma {:induction false} InvRun(learning: bool, actions: seq<Action>, s: State)
    requires Reached(learning, actions, s)
    ensures Inv(s)
  {
    if actions != [] {
      var rest := actions[..|actions| - 1];
      var t := Run(Start(learning), rest).value;
      InvRun(learning, rest, t);
      InvStep(t, actions[|actions| - 1]);
    }
  }

  // ----------------------------------------------------------- whole-run results

  /** Whatever happens in a run, a line that ends in a newline stays where it is and as it
      is; only an open last line can change, once a later write is glued to it. */
  lemma {:induction false} LogOnlyGrows(learning: bool, actions: seq<Action>, k: nat, s: State)
    requires k <= |actions| && Reached(learning, actions, s)
    ensures Run(Start(learning), actions[..k]).Some?
    ensures var before := Run(Start(learning), actions[..k]).value.files;
            Closed(before) <= Closed(s.files) <= s.files.log
  {
    if k < |actions| {
      var rest := actions[..|actions| - 1];
      assert rest[..k] == actions[..k];
      var t := Run(Start(learning), rest).value;
      LogOnlyGrows(learning, rest, k, t);
      InvRun(learning, rest, t);
      StepGrows(t, actions[|actions| - 1]);
    } else {
      assert actions[..k] == actions;
    }
  }

  lemma StepGrows(s: State, a: Action)
    requires Enabled(s, a) && Structure(s)
    ensures Closed(s.files) <= Closed(Step(s, a).files)
  {
    hide Structure, Refuses, HasEnded, LastPending, Recorded, Stopped, Gates, Slipped, CounterAfter, FeedbackAfter;
    if !a.Spawn? {
      var f, lines := s.files, Appended(s.files, s.procs[a.pid]);
      WriteCloses(f, Garbled);
      if lines != [] {
        assert Written(f, lines) == Written(f, [lines[0]]);
        WriteCloses(f, lines[0]);
      }
    }
  }

  lemma WriteCloses(f: Files, e: Entry)
    ensures var log := Written(f, [e]); Closed(f) <= log && log != [] && log[..|log| - 1] == Closed(f)
  {
  }

  // ------------------------------------------- a claim that holds throughout a run

  /** The claim holds in every state of the run. */
  ghost predicate Throughout(learning: bool, actions: seq<Action>, claim: State -> bool) {
    forall k :: 0 <= k <= |actions| ==> HoldsAfter(learning, actions[..k], claim)
  }

  predicate HoldsAfter(learning: bool, actions: seq<Action>, claim: State -> bool) {
    Run(Start(learning), actions).Some? && claim(Run(Start(learning), actions).value)
  }

  lemma ThroughoutSplits(learning: bool, actions: seq<Action>, claim: State -> bool)
    requires actions != []
    ensures Throughout(learning, actions, claim) <==>
            Throughout(learning, actions[..|actions| - 1], claim) && HoldsAfter(learning, actions, claim)
  {
    hide HoldsAfter;
    var rest := actions[..|actions| - 1];
    assert actions[..|actions|] == actions;
    assert forall k :: 0 <= k <= |rest| ==> rest[..k] == actions[..k];
    if Throughout(learning, rest, claim) && HoldsAfter(learning, actions, claim) {
      forall k | 0 <= k <= |actions| ensures HoldsAfter(learning, actions[..k], claim) {
        if k < |actions| {
          assert HoldsAfter(learning, rest[..k], claim);
        }
      }
    }
  }

  // ----------------------------------------------------------- the invocation numbers

  lemma TornIsUnsound(s: State, p: Pid)
    requires Structure(s) && p in s.procs && s.procs[p].SeqWrite? && HasInvocation(s.files.log)
    ensures !NumbersSound(Stop(s, p, Nothing))
  {
    NumbersAreInvocations(s.files.log);
    LocksStep(s, Abort(p, Nothing));
    assert HoldsLog(s.procs[p]) && Stop(s, p, Nothing).logLock.None?;
    assert Stop(s, p, Nothing).files.counter == 0 && Numbers(s.files.log)[0] >= 1;
  }

  lemma RestartIsUnsound(s: State, p: Pid)
    requires Structure(s) && p in s.procs && Restarts(s.files, s.procs[p]) && HasInvocation(s.files.log)
    ensures !NumbersSound(Next(s, p, Whole))
  {
    hide Gates, Recorded, Refuses, LastPending, HasEnded, InvocationExists, LogShape;
    NumbersAreInvocations(s.files.log);
    TheHolder(s, p);
    HolderAfter(s, p, Whole);
    assert s.procs[p].value == 1 && Numbers(s.files.log)[0] >= 1;
  }

  lemma StepSoundness(s: State, a: Action)
    requires Inv(s) && Enabled(s, a) && !Renumbered(s.past)
    ensures NumbersSound(Step(s, a)) <==> !Renumbered(Step(s, a).past)
  {
    hide Structure, NumbersSound, Ends, Step;
    InvStep(s, a);
    if Renumbered(Step(s, a).past) {
      RenumberedBy(s, a);
      if a.Abort? {
        TornIsUnsound(s, a.pid);
      } else {
        RestartIsUnsound(s, a.pid);
      }
    } else {
      AccountedIsSound(Step(s, a));
    }
  }

  lemma AccountedIsSound(s: State)
    requires Accounted(s)
    ensures NumbersSound(s)
  {
  }

  lemma RenumberedBy(s: State, a: Action)
    requires Enabled(s, a) && !Renumbered(s.past) && Renumbered(Step(s, a).past)
    ensures !a.Spawn? && a.pid in s.procs && HasInvocation(s.files.log)
    ensures a.Abort? ==> s.procs[a.pid].SeqWrite? && Step(s, a) == Stop(s, a.pid, Nothing)
    ensures a.Advance? ==> Restarts(s.files, s.procs[a.pid]) && Step(s, a) == Next(s, a.pid, Whole)
  {
    hide HasInvocation, Reopens, Overruns, Outdates, Slipped, Effect, NextPC, Broken, Goto, Gates;
  }

  /** Invocation numbers strictly increase in file order and never exceed the counter at
      every point of a run if and only if no process stopped between truncating and
      rewriting the counter file, or rewrote it after its read had failed, while the log
      held an invocation. */
  lemma {:induction false} NumbersSoundIff(learning: bool, actions: seq<Action>, s: State)
    requires Reached(learning, actions, s)
    ensures Throughout(learning, actions, NumbersSound) <==> !Renumbered(s.past)
  {
    hide NumbersSound, Throughout, Inv, Renumbered;
    if actions == [] {
      SoundAtStart(learning);
    } else {
      var rest := actions[..|actions| - 1];
      var t := Run(Start(learning), rest).value;
      ThroughoutSplits(learning, actions, NumbersSound);
      NumbersSoundIff(learning, rest, t);
      if Renumbered(t.past) {
        RenumberedStays(t, actions[|actions| - 1]);
      } else {
        InvRun(learning, rest, t);
        StepSoundness(t, actions[|actions| - 1]);
      }
    }
  }

  lemma SoundAtStart(learning: bool)
    ensures Throughout(learning, [], NumbersSound) && Throughout(learning, [], EndsFollowSummaries)
    ensures Throughout(learning, [], EndIsFinal) && Throughout(learning, [], EndTotalsHold)
    ensures !Renumbered(Start(learning).past)
  {
    var none: seq<Action> := [];
    assert NumbersSound(Start(learning)) && EndsFollowSummaries(Start(learning));
    assert EndIsFinal(Start(learning)) && EndTotalsHold(Start(learning));
    assert forall k :: 0 <= k <= |none| ==> none[..k] == none;
  }

  // --------------------------------------------------------------- the end record

  /** At most one end record, with its summary or the remains of it directly before it, and
      no invocation record after it. */
  predicate EndIsFinal(s: State) {
    var log := s.files.log;
    && (forall i :: 0 <= i < |log| && log[i].Ended? ==> i > 0 && (log[i - 1].Summary? || log[i - 1].Garbled?))
    && (forall i, j :: 0 <= i < j < |log| && log[i].Ended? ==> !log[j].Ended? && !log[j].Invocation?)
  }

  lemma OverrunStays(s: State, a: Action)
    requires Enabled(s, a) && s.past.overrun
    ensures Step(s, a).past.overrun
  {
    hide Step;
    StepRemembers(s, a);
  }

  lemma OverrunBy(s: State, a: Action)
    requires Enabled(s, a) && !s.past.overrun && Step(s, a).past.overrun
    ensures !a.Spawn? && a.pid in s.procs && Overruns(s.files, s.procs[a.pid], s.past)
    ensures Step(s, a).files.log == Written(s.files, Appended(s.files, s.procs[a.pid]))
  {
    hide HasInvocation, Reopens, Overruns, Outdates, Slipped, Restarts, NextPC, Written, CounterAfter, FeedbackAfter;
  }

  lemma OverrunIsNotFinal(f: Files, pc: PC, past: History, t: State)
    requires Overruns(f, pc, past) && t.files.log == Written(f, Appended(f, pc))
    ensures !EndIsFinal(t)
  {
    var i :| 0 <= i < |f.log| && f.log[i].Ended?;
    assert t.files.log == f.log + [Appended(f, pc)[0]];
    assert t.files.log[i].Ended? && (t.files.log[|f.log|].Invocation? || t.files.log[|f.log|].Ended?);
  }

  lemma ClosedIsFinal(s: State)
    requires Structure(s) && EndsClose(s.files.log)
    ensures EndIsFinal(s)
  {
    hide LocksHeld, HolderFacts, Positive, Numbers;
    forall i, j | 0 <= i < j < |s.files.log| && s.files.log[i].Ended?
      ensures !s.files.log[j].Ended? && !s.files.log[j].Invocation?
    {
      assert NothingAfter(s.files.log, i);
    }
  }

  lemma StepFinal(s: State, a: Action)
    requires Inv(s) && Enabled(s, a) && !s.past.overrun
    ensures EndIsFinal(Step(s, a)) <==> !Step(s, a).past.overrun
  {
    hide Structure, EndsClose, NoInvocationAfter, TotalsHold, Accounted, EndIsFinal, Overruns, Next, Stop;
    if Step(s, a).past.overrun {
      OverrunBy(s, a);
      OverrunIsNotFinal(s.files, s.procs[a.pid], s.past, Step(s, a));
    } else {
      InvStep(s, a);
      ClosedIsFinal(Step(s, a));
    }
  }

  /** The end is final throughout a run, in every interleaving with processes stopped
      anywhere, if and only if no flush and no end section that could not read the end
      record went on to write its own record behind it. */
  lemma {:induction false} EndIsFinalIff(learning: bool, actions: seq<Action>, s: State)
    requires Reached(learning, actions, s)
    ensures Throughout(learning, actions, EndIsFinal) <==> !s.past.overrun
  {
    hide EndIsFinal, Throughout, Inv;
    if actions == [] {
      SoundAtStart(learning);
    } else {
      var rest := actions[..|actions| - 1];
      var t := Run(Start(learning), rest).value;
      ThroughoutSplits(learning, actions, EndIsFinal);
      EndIsFinalIff(learning, rest, t);
      if t.past.overrun {
        OverrunStays(t, actions[|actions| - 1]);
      } else {
        InvRun(learning, rest, t);
        StepFinal(t, actions[|actions| - 1]);
      }
    }
  }

  // ------------------------------------------------------------------- the totals

  /** The end record and its summary, where that is whole, equal the totals of the log as it
      now stands, and the counter. */
  predicate EndTotalsHold(s: State) {
    TotalsHold(s.files.log, s.files.counter)
  }

  lemma OutdatedStays(s: State, a: Action)
    requires Enabled(s, a) && s.past.outdated
    ensures Step(s, a).past.outdated
  {
    hide Step;
    StepRemembers(s, a);
  }

  lemma OutdatedBy(s: State, a: Action)
    requires Enabled(s, a) && !s.past.outdated && Step(s, a).past.outdated
    ensures !a.Spawn? && a.pid in s.procs && Step(s, a).files.log == Effect(s.files, s.procs[a.pid]).log
    ensures Step(s, a).files.counter == CounterAfter(s.files, s.procs[a.pid])
    ensures var pc := s.procs[a.pid]; Outdates(s.files, pc, s.past) || (pc.EndRecord? && pc.final != s.files.counter)
  {
    hide HasInvocation, Reopens, Overruns, Outdates, Slipped, Restarts, NextPC, Written;
  }

  lemma OutdatedIsWrong(f: Files, past: History, pc: PC, t: State)
    requires HolderFacts(f, past, pc) && FilesOk(f) && TotalsHold(f.log, f.counter)
    requires Outdates(f, pc, past) || (pc.EndRecord? && pc.final != f.counter)
    requires t.files.log == Effect(f, pc).log && t.files.counter == CounterAfter(f, pc)
    ensures !EndTotalsHold(t)
  {
    hide Positive, Numbers, Invocations, Failures;
    if pc.EndRecord? {
      assert t.files.log == f.log + [Ended(pc.final)];
      assert t.files.log[|f.log|] == Ended(pc.final) && !Totals(t.files.log, t.files.counter, |f.log|);
    } else {
      var i :| 0 <= i < |f.log| && f.log[i].Ended?;
      assert Totals(f.log, f.counter, i) && t.files.log == f.log;
      assert !Totals(t.files.log, t.files.counter, i);
    }
  }

  lemma StepTotals(s: State, a: Action)
    requires Inv(s) && Enabled(s, a) && !s.past.outdated
    ensures EndTotalsHold(Step(s, a)) <==> !Step(s, a).past.outdated
  {
    hide Structure, EndsClose, NoInvocationAfter, TotalsHold, Accounted, Outdates, Next, Stop;
    if Step(s, a).past.outdated {
      OutdatedBy(s, a);
      OutdatesInside(s.files, s.procs[a.pid], s.past);
      HolderKnows(s, a.pid);
      OutdatedIsWrong(s.files, s.past, s.procs[a.pid], Step(s, a));
    } else {
      InvStep(s, a);
    }
  }

  lemma OutdatesInside(f: Files, pc: PC, past: History)
    ensures Outdates(f, pc, past) ==> HoldsLog(pc)
  {
  }

  lemma HolderKnows(s: State, p: Pid)
    requires Structure(s) && p in s.procs && HoldsLog(s.procs[p])
    ensures FilesOk(s.files) && HolderFacts(s.files, s.past, s.procs[p])
  {
    TheHolder(s, p);
  }

  /** The totals hold for ever after the end, whatever happens, if and only if no flush that
      could not read the end record went on to rewrite the counter, and no end section wrote
      a final number that it could not read. */
  lemma {:induction false} EndTotalsHoldIff(learning: bool, actions: seq<Action>, s: State)
    requires Reached(learning, actions, s)
    ensures Throughout(learning, actions, EndTotalsHold) <==> !s.past.outdated
    ensures !s.past.outdated && !Renumbered(s.past) && s.past.lost == 0 ==>
      forall i :: 0 < i < |s.files.log| && s.files.log[i].Ended? ==>
        s.files.log[i].finalSeq == Invocations(s.files.log)
  {
    hide EndTotalsHold, Throughout, Inv, TotalsHold, Invocations, Renumbered;
    if actions == [] {
      SoundAtStart(learning);
    } else {
      var rest := actions[..|actions| - 1];
      var t := Run(Start(learning), rest).value;
      ThroughoutSplits(learning, actions, EndTotalsHold);
      EndTotalsHoldIff(learning, rest, t);
      if t.past.outdated {
        OutdatedStays(t, actions[|actions| - 1]);
      } else {
        InvRun(learning, rest, t);
        StepTotals(t, actions[|actions| - 1]);
      }
    }
    InvRun(learning, actions, s);
    if !s.past.outdated && !Renumbered(s.past) && s.past.lost == 0 {
      FinalIsTheNumber(s);
    }
  }

  lemma FinalIsTheNumber(s: State)
    requires Inv(s) && !s.past.outdated && !Renumbered(s.past) && s.past.lost == 0
    ensures forall i :: 0 < i < |s.files.log| && s.files.log[i].Ended? ==>
              s.files.log[i].finalSeq == Invocations(s.files.log)
  {
    forall i | 0 < i < |s.files.log| && s.files.log[i].Ended? ensures s.files.log[i].finalSeq == Invocations(s.files.log) {
      assert Totals(s.files.log, s.files.counter, i) && HasEnded(s.files.log);
    }
  }

  /** Every end record directly follows its summary. */
  predicate EndsFollowSummaries(s: State) {
    forall i :: 0 <= i < |s.files.log| && s.files.log[i].Ended? ==> i > 0 && s.files.log[i - 1].Summary?
  }

  lemma HeadlessStays(s: State, a: Action)
    requires Enabled(s, a) && s.past.headless
    ensures Step(s, a).past.headless
  {
    hide Step;
    StepRemembers(s, a);
  }

  /** A line that is written on its own or glued changes at most the last line. */
  lemma FollowsWhenWritten(f: Files, counter: int, lines: seq<Entry>, follows: bool)
    requires |lines| == 1 && (lines[0].Ended? ==> f.log != [] && !f.open)
    requires follows <==> (lines[0].Ended? ==> f.log[|f.log| - 1].Summary?)
    requires forall i :: 0 <= i < |f.log| && f.log[i].Ended? ==> i > 0 && f.log[i - 1].Summary?
    ensures var log := Written(f, lines);
            follows <==> forall i :: 0 <= i < |log| && log[i].Ended? ==> i > 0 && log[i - 1].Summary?
  {
    var log := Written(f, lines);
    assert forall i :: 0 <= i < |log| - 1 ==> log[i] == f.log[i];
    assert log[|log| - 1] == Line(f, lines[0]);
  }

  lemma StepFollows(s: State, a: Action)
    requires Structure(s) && Enabled(s, a) && !s.past.headless && EndsFollowSummaries(s)
    ensures EndsFollowSummaries(Step(s, a)) <==> !Step(s, a).past.headless
  {
    hide Structure, Step;
    if !a.Spawn? && Appended(s.files, s.procs[a.pid]) != [] {
      var pc := s.procs[a.pid];
      var e := if a.Abort? && a.left.Fragment? then Garbled else Appended(s.files, pc)[0];
      EndRecordsStandAlone(s, a.pid);
      HeadlessByWriting(s, a, e);
      if !(a.Abort? && a.left.Nothing?) {
        AnEndRecord(s.files, pc, e);
        FollowsWhenWritten(s.files, s.files.counter, [e], !(e.Ended? && !pc.kept));
      }
    } else {
      HeadlessByNothing(s, a);
    }
  }

  lemma AnEndRecord(f: Files, pc: PC, e: Entry)
    requires |Appended(f, pc)| == 1 && (e == Garbled || e == Appended(f, pc)[0])
    ensures e.Ended? <==> pc.EndRecord? && e != Garbled
  {
  }

  lemma HeadlessByWriting(s: State, a: Action, e: Entry)
    requires Enabled(s, a) && !a.Spawn? && |Appended(s.files, s.procs[a.pid])| == 1
    requires e == if a.Abort? && a.left.Fragment? then Garbled else Appended(s.files, s.procs[a.pid])[0]
    ensures if a.Abort? && a.left.Nothing?
            then Step(s, a).files.log == s.files.log && Step(s, a).past.headless == s.past.headless
            else Step(s, a).files.log == Written(s.files, [e])
                 && Step(s, a).past.headless ==
                      (s.past.headless || (e != Garbled && s.procs[a.pid].EndRecord? && !s.procs[a.pid].kept))
  {
    hide HasInvocation, Reopens, Overruns, Outdates, Slipped, Restarts, Gates, NextPC, HasEnded, CounterAfter, FeedbackAfter;
    assert Appended(s.files, s.procs[a.pid]) == [Appended(s.files, s.procs[a.pid])[0]];
  }

  lemma HeadlessByNothing(s: State, a: Action)
    requires Enabled(s, a) && (a.Spawn? || Appended(s.files, s.procs[a.pid]) == [])
    ensures Step(s, a).files.log == s.files.log && Step(s, a).past.headless == s.past.headless
  {
    hide HasInvocation, Reopens, Overruns, Outdates, Slipped, Restarts, Gates, NextPC, HasEnded, CounterAfter, FeedbackAfter;
  }

  /** Every end record directly follows its summary throughout a run if and only if no end
      section found the file's last line open when it wrote its summary and then went on
      to write its end record. */
  lemma {:induction false} EndFollowsSummaryIff(learning: bool, actions: seq<Action>, s: State)
    requires Reached(learning, actions, s)
    ensures Throughout(learning, actions, EndsFollowSummaries) <==> !s.past.headless
  {
    hide EndsFollowSummaries, Throughout, Inv, Structure;
    if actions == [] {
      SoundAtStart(learning);
    } else {
      var rest := actions[..|actions| - 1];
      var t := Run(Start(learning), rest).value;
      ThroughoutSplits(learning, actions, EndsFollowSummaries);
      EndFollowsSummaryIff(learning, rest, t);
      if t.past.headless {
        HeadlessStays(t, actions[|actions| - 1]);
      } else if Throughout(learning, rest, EndsFollowSummaries) {
        ThroughoutNow(learning, rest, t, EndsFollowSummaries);
        InvGivesStructure(learning, rest, t);
        StepFollows(t, actions[|actions| - 1]);
      }
    }
  }

  lemma InvGivesStructure(learning: bool, actions: seq<Action>, s: State)
    requires Reached(learning, actions, s)
    ensures Structure(s)
  {
    InvRun(learning, actions, s);
  }

  lemma ThroughoutNow(learning: bool, actions: seq<Action>, s: State, claim: State -> bool)
    requires Reached(learning, actions, s) && Throughout(learning, actions, claim)
    ensures claim(s)
  {
    assert actions[..|actions|] == actions;
    assert HoldsAfter(learning, actions[..|actions|], claim);
  }

  predicate EndedAfter(learning: bool, actions: seq<Action>) {
    Run(Start(learning), actions).Some? && HasEnded(Run(Start(learning), actions).value.files.log)
  }

  /** A session that has ended at some point of the run stays ended. */
  predicate EndedForGood(learning: bool, actions: seq<Action>) {
    forall j, k :: 0 <= j <= k <= |actions| && EndedAfter(learning, actions[..j]) ==> EndedAfter(learning, actions[..k])
  }

  lemma EndedForGoodSplits(learning: bool, actions: seq<Action>)
    requires actions != []
    ensures EndedForGood(learning, actions) <==>
              && EndedForGood(learning, actions[..|actions| - 1])
              && (EndedAfter(learning, actions[..|actions| - 1]) ==> EndedAfter(learning, actions))
  {
    hide EndedAfter;
    var rest := actions[..|actions| - 1];
    assert actions[..|actions|] == actions && rest[..|rest|] == rest && actions[..|rest|] == rest;
    assert forall k :: 0 <= k <= |rest| ==> rest[..k] == actions[..k];
    if EndedForGood(learning, rest) && (EndedAfter(learning, rest) ==> EndedAfter(learning, actions)) {
      forall j, k | 0 <= j <= k <= |actions| && EndedAfter(learning, actions[..j])
        ensures EndedAfter(learning, actions[..k])
      {
        if k < |actions| {
          assert EndedAfter(learning, rest[..j]) && EndedAfter(learning, rest[..k]);
        } else if j < |actions| {
          assert EndedAfter(learning, rest[..j]) && EndedAfter(learning, rest[..|rest|]);
        }
      }
    }
    if EndedForGood(learning, actions) {
      forall j, k | 0 <= j <= k <= |rest| && EndedAfter(learning, rest[..j]) ensures EndedAfter(learning, rest[..k]) {
        assert EndedAfter(learning, actions[..j]) && EndedAfter(learning, actions[..k]);
      }
      if EndedAfter(learning, rest) {
        assert EndedAfter(learning, actions[..|rest|]) && EndedAfter(learning, actions[..|actions|]);
      }
    }
  }

  /** One write reopens an ended session exactly when it is glued to the only end record. */
  lemma WriteReopensIff(f: Files, e: Entry)
    requires HasEnded(f.log) && (e.Ended? ==> Tail(f).None?)
    ensures HasEnded(Written(f, [e])) <==> !Reopens(f)
  {
    AppendHasEnded(Closed(f), Line(f, e));
    if Tail(f).Some? {
      var rest := f.log[..|f.log| - 1];
      assert f.log == rest + [Tail(f).value];
      AppendHasEnded(rest, Tail(f).value);
    }
  }

  lemma StepReopensIff(s: State, a: Action)
    requires Structure(s) && Enabled(s, a) && !s.past.reopened && HasEnded(s.files.log)
    ensures HasEnded(Step(s, a).files.log) <==> !Step(s, a).past.reopened
  {
    hide FilesOk, LocksHeld, HolderFacts, HasEnded, Reopens, Written;
    if !a.Spawn? && Appended(s.files, s.procs[a.pid]) != [] {
      var pc := s.procs[a.pid];
      var e := if a.Abort? && a.left.Fragment? then Garbled else Appended(s.files, pc)[0];
      EndRecordsStandAlone(s, a.pid);
      WriteReopensIff(s.files, e);
      ReopenedByWriting(s, a, e);
    } else {
      ReopenedByNothing(s, a);
    }
  }

  lemma EndRecordsStandAlone(s: State, p: Pid)
    requires Structure(s) && p in s.procs && Appended(s.files, s.procs[p]) != []
    ensures HoldsLog(s.procs[p]) && |Appended(s.files, s.procs[p])| == 1
    ensures Appended(s.files, s.procs[p])[0].Ended? ==> Tail(s.files).None?
    ensures s.procs[p].EndRecord? ==>
      && s.files.log != [] && !s.files.open
      && (s.files.log[|s.files.log| - 1].Summary? <==> s.procs[p].kept)
  {
    TheHolder(s, p);
    hide FilesOk, HasEnded, Invocations, Failures;
  }

  lemma ReopenedByWriting(s: State, a: Action, e: Entry)
    requires Enabled(s, a) && !a.Spawn? && |Appended(s.files, s.procs[a.pid])| == 1
    requires e == if a.Abort? && a.left.Fragment? then Garbled else Appended(s.files, s.procs[a.pid])[0]
    ensures if a.Abort? && a.left.Nothing? then Step(s, a).files.log == s.files.log && Step(s, a).past.reopened == s.past.reopened
            else Step(s, a).files.log == Written(s.files, [e])
                 && Step(s, a).past.reopened == (s.past.reopened || Reopens(s.files))
  {
    hide HasInvocation, Reopens, Overruns, Outdates, Slipped, Restarts, Gates, NextPC, HasEnded, CounterAfter, FeedbackAfter;
    assert Appended(s.files, s.procs[a.pid]) == [Appended(s.files, s.procs[a.pid])[0]];
  }

  lemma ReopenedByNothing(s: State, a: Action)
    requires Enabled(s, a) && (a.Spawn? || Appended(s.files, s.procs[a.pid]) == [])
    ensures Step(s, a).files.log == s.files.log && Step(s, a).past.reopened == s.past.reopened
  {
    hide HasInvocation, Reopens, Overruns, Outdates, Slipped, Restarts, Gates, NextPC, HasEnded, CounterAfter, FeedbackAfter;
  }

  lemma ReopenedStays(s: State, a: Action)
    requires Enabled(s, a) && s.past.reopened
    ensures Step(s, a).past.reopened
  {
    hide Step;
    StepRemembers(s, a);
  }

  /** Nothing reopens a session that was not ended. */
  lemma ReopeningNeedsAnEnd(s: State, a: Action)
    requires Structure(s) && Enabled(s, a) && !s.past.reopened && !HasEnded(s.files.log)
    ensures !Step(s, a).past.reopened
  {
    assert !Reopens(s.files);
    hide Structure, HasEnded, Reopens, Step;
    if !a.Spawn? && Appended(s.files, s.procs[a.pid]) != [] {
      EndRecordsStandAlone(s, a.pid);
      ReopenedByWriting(s, a, if a.Abort? && a.left.Fragment? then Garbled else Appended(s.files, s.procs[a.pid])[0]);
    } else {
      ReopenedByNothing(s, a);
    }
  }

  /** An ended session stays ended throughout a run if and only if no line was ever glued to
      its only end record, which lacked its newline. */
  lemma {:induction false} EndedForGoodIff(learning: bool, actions: seq<Action>, s: State)
    requires Reached(learning, actions, s)
    ensures EndedForGood(learning, actions) <==> !s.past.reopened
  {
    hide EndedForGood, Inv, Structure, HasEnded;
    if actions == [] {
      NothingEnded(learning);
    } else {
      var rest := actions[..|actions| - 1];
      var t := Run(Start(learning), rest).value;
      EndedForGoodSplits(learning, actions);
      EndedForGoodIff(learning, rest, t);
      if t.past.reopened {
        ReopenedStays(t, actions[|actions| - 1]);
      } else if HasEnded(t.files.log) {
        InvGivesStructure(learning, rest, t);
        StepReopensIff(t, actions[|actions| - 1]);
      } else {
        InvGivesStructure(learning, rest, t);
        ReopeningNeedsAnEnd(t, actions[|actions| - 1]);
      }
    }
  }

  lemma NothingEnded(learning: bool)
    ensures EndedForGood(learning, [])
  {
  }

  lemma {:induction false} IncreasingFillsRange(numbers: seq<int>, n: nat)
    requires Increasing(numbers) && Positive(numbers) && Bounded(numbers, n) && |numbers| == n
    ensures numbers == seq(n, i => i + 1)
  {
    if n > 0 {
      var init := numbers[..n - 1];
      LastIsAtLeast(numbers);
      assert forall i :: 0 <= i < n - 1 ==> numbers[i] < numbers[n - 1] <= n;
      IncreasingFillsRange(init, n - 1);
      assert numbers == init + [numbers[n - 1]];
    }
  }

  lemma {:induction false} LastIsAtLeast(numbers: seq<int>)
    requires Increasing(numbers) && Positive(numbers) && numbers != []
    ensures numbers[|numbers| - 1] >= |numbers|
  {
    if |numbers| > 1 {
      var init := numbers[..|numbers| - 1];
      LastIsAtLeast(init);
      assert init[|init| - 1] == numbers[|numbers| - 2] < numbers[|numbers| - 1];
    }
  }

  /** As long as the numbering has not started again and no allocation is under way, the numbers are 1, 2, ..., n and
      the counter is n if and only if no allocated number was lost to a failure. */
  lemma ContiguousIffNothingLost(learning: bool, actions: seq<Action>, s: State)
    requires Reached(learning, actions, s)
    requires !Renumbered(s.past) && InFlight(Holder(s)) == 0
    ensures (Counter(s.files.counter, Holder(s)) == Invocations(s.files.log) &&
             Numbers(s.files.log) == seq(Invocations(s.files.log), i => i + 1))
            <==> s.past.lost == 0
  {
    InvRun(learning, actions, s);
    NumbersAreInvocations(s.files.log);
    if s.past.lost == 0 {
      IncreasingFillsRange(Numbers(s.files.log), Invocations(s.files.log));
    }
  }

  // ------------------------------------------------------------ lock discipline

  /** Steps the lock holder still has to take before it releases the log lock. */
  function StepsLeft(pc: PC): nat {
    match pc
    case CheckEnded(_, _) => 9
    case SeqWait(_, _) => 8
    case SeqRead(_, _) => 7
    case SeqTruncate(_, _, _) => 6
    case SeqWrite(_, _, _) => 5
    case SeqUnlock(_, _, _) => 4
    case Header(_, _, _) => 3
    case Record(_, _, _) => 2
    case EndCheck => 6
    case EndNumber => 5
    case EndCount(_) => 4
    case EndSummary(_, _, _) => 3
    case FeedbackSeqWait => 7
    case FeedbackRead => 6
    case FeedbackTruncate(_) => 5
    case FeedbackWrite(_) => 4
    case FeedbackSeqUnlock(_) => 3
    case FlushUnlock(_) => 1
    case Unlock => 1
    case _ => 2
  }

  lemma HolderAdvances(f: Files, pc: PC, r: Reading)
    requires HoldsLog(pc)
    ensures if StepsLeft(pc) == 1 then NextPC(f, pc, r).None?
            else NextPC(f, pc, r).Some? && HoldsLog(NextPC(f, pc, r).value) &&
                 1 <= StepsLeft(NextPC(f, pc, r).value) < StepsLeft(pc)
  {
    hide Refuses, HasEnded, LastPending, InvocationExists, Invocations, Failures;
  }

  /** No deadlock: whoever holds the log lock can always take its next step, whatever
      the others do, and each step brings it closer to the release. */
  lemma HolderMakesProgress(learning: bool, actions: seq<Action>, s: State, p: Pid, r: Reading)
    requires Reached(learning, actions, s)
    requires s.logLock == Some(p) && (r.Whole? || (p in s.procs && CanRead(s.procs[p], r)))
    ensures Enabled(s, Advance(p, r))
    ensures if StepsLeft(s.procs[p]) == 1 then Next(s, p, r).logLock.None?
            else Next(s, p, r).logLock == Some(p) && p in Next(s, p, r).procs &&
                 StepsLeft(Next(s, p, r).procs[p]) < StepsLeft(s.procs[p])
  {
    hide Structure, Ends, Accounted;
    InvRun(learning, actions, s);
    LocksAreHeld(s);
    hide Gates, Remembered, Refuses, HasEnded, LastPending, InvocationExists;
    HolderAdvances(s.files, s.procs[p], r);
  }

  lemma LocksAreHeld(s: State)
    requires Structure(s)
    ensures LocksHeld(s)
  {
  }

  /** The log lock excludes: two processes are never past its acquisition together. */
  lemma OneHolder(learning: bool, actions: seq<Action>, s: State, p: Pid, q: Pid)
    requires Reached(learning, actions, s)
    requires p in s.procs && q in s.procs && HoldsLog(s.procs[p]) && HoldsLog(s.procs[q])
    ensures p == q
  {
    InvRun(learning, actions, s);
  }
}
