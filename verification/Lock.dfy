/**
  `exclusive_lock` (`_lock.py`): a mutex of the process, found in a table that forgets
  unused entries, and then the file lock. Nothing is assumed of the file lock between
  uses of one process; keeping those apart is the mutex's task.
*/
module Lock {
  import opened Common

  type Pid = nat
  /** One call of `exclusive_lock`, by some thread: a thread that nests the locks of
      several paths makes as many uses. */
  type Use = nat
  type Path = string

  datatype Phase =
    | Idle
    // waits for the mutex it found, holds the mutex, holds both
    | Waiting(path: Path, mutex: nat)
    | Holding(path: Path, mutex: nat)
    | Inside(path: Path, mutex: nat)

  datatype Key = Key(pid: Pid, path: Path)

  datatype State = State(
    table: map<Key, nat>,
    made: nat,
    uses: map<Use, Phase>,
    files: map<Path, Pid>)

  datatype Action =
    | Lookup(use: Use, path: Path)
    // the garbage collector drops an entry that no use refers to
    | Forget(key: Key)
    | TakeMutex(use: Use)
    | TakeFile(use: Use)
    // a timeout at either wait, or the end of the section
    | Release(use: Use)
    | KillProcess(pid: Pid)

  function Of(s: State, t: Use): Phase {
    if t in s.uses then s.uses[t] else Idle
  }

  predicate Owns(th: Phase) {
    th.Holding? || th.Inside?
  }

  /** Some use of the process refers to the entry. */
  predicate Used(s: State, process: Use -> Pid, key: Key) {
    exists t :: t in s.uses && !s.uses[t].Idle? && Key(process(t), s.uses[t].path) == key
  }

  predicate Taken(s: State, mutex: nat) {
    exists t :: t in s.uses && Owns(s.uses[t]) && s.uses[t].mutex == mutex
  }

  predicate Enabled(s: State, process: Use -> Pid, a: Action) {
    match a
    case Lookup(t, _) => Of(s, t).Idle?
    case Forget(key) => key in s.table && !Used(s, process, key)
    case TakeMutex(t) => Of(s, t).Waiting? && !Taken(s, s.uses[t].mutex)
    case TakeFile(t) =>
      Of(s, t).Holding? && (s.uses[t].path in s.files ==> s.files[s.uses[t].path] == process(t))
    case Release(t) => !Of(s, t).Idle?
    case KillProcess(_) => true
  }

  function Put(s: State, t: Use, th: Phase): State {
    s.(uses := s.uses[t := th])
  }

  function Step(s: State, process: Use -> Pid, a: Action): State
    requires Enabled(s, process, a)
  {
    match a
    case Lookup(t, path) =>
      var key := Key(process(t), path);
      if key in s.table then Put(s, t, Waiting(path, s.table[key]))
      else Put(s, t, Waiting(path, s.made)).(table := s.table[key := s.made], made := s.made + 1)
    case Forget(key) => s.(table := s.table - {key})
    case TakeMutex(t) => Put(s, t, Holding(s.uses[t].path, s.uses[t].mutex))
    case TakeFile(t) =>
      Put(s, t, Inside(s.uses[t].path, s.uses[t].mutex)).(files := s.files[s.uses[t].path := process(t)])
    case Release(t) =>
      var th := s.uses[t];
      Put(s, t, Idle).(files := if th.Inside? then s.files - {th.path} else s.files)
    case KillProcess(p) =>
      State(map key | key in s.table && key.pid != p :: s.table[key], s.made,
            map t | t in s.uses :: if process(t) == p then Idle else s.uses[t],
            map path | path in s.files && s.files[path] != p :: s.files[path])
  }

  const START := State(map[], 0, map[], map[])

  function Run(process: Use -> Pid, actions: seq<Action>): Option<State> {
    if actions == [] then Some(START)
    else
      match Run(process, actions[..|actions| - 1])
      case None => None
      case Some(s) =>
        var a := actions[|actions| - 1];
        if Enabled(s, process, a) then Some(Step(s, process, a)) else None
  }

  // ---------------------------------------------------------------- the invariant

  /** A use that is not idle refers to the mutex the table holds now. */
  predicate Registered(s: State, process: Use -> Pid) {
    forall t :: t in s.uses && !s.uses[t].Idle? ==>
      var key := Key(process(t), s.uses[t].path);
      key in s.table && s.table[key] == s.uses[t].mutex
  }

  predicate OwnMutexes(s: State) {
    && (forall k :: k in s.table ==> s.table[k] < s.made)
    && forall k, l :: k in s.table && l in s.table && s.table[k] == s.table[l] ==> k == l
  }

  predicate OwnsOf(s: State, t: Use) {
    t in s.uses && Owns(s.uses[t])
  }

  ghost predicate OneOwner(s: State) {
    forall t, u :: OwnsOf(s, t) && OwnsOf(s, u) && s.uses[t].mutex == s.uses[u].mutex ==> t == u
  }

  predicate FileHeld(s: State, process: Use -> Pid) {
    forall t :: t in s.uses && s.uses[t].Inside? ==>
      s.uses[t].path in s.files && s.files[s.uses[t].path] == process(t)
  }

  ghost predicate Inv(s: State, process: Use -> Pid) {
    Registered(s, process) && OwnMutexes(s) && OneOwner(s) && FileHeld(s, process)
  }

  /** Two uses at the same path in one process have found the same mutex, so at most
      one of them owns it. */
  lemma OnePerProcess(s: State, process: Use -> Pid, t: Use, u: Use)
    requires Inv(s, process) && t in s.uses && u in s.uses
    requires Owns(s.uses[t]) && Owns(s.uses[u]) && s.uses[t].path == s.uses[u].path && process(t) == process(u)
    ensures t == u
  {
    assert Key(process(t), s.uses[t].path) == Key(process(u), s.uses[u].path);
  }

  lemma ReleaseKeeps(s: State, process: Use -> Pid, t: Use)
    requires Inv(s, process) && !Of(s, t).Idle?
    ensures Inv(Step(s, process, Release(t)), process)
  {
    var after := Step(s, process, Release(t));
    forall u | u in after.uses && after.uses[u].Inside?
      ensures after.uses[u].path in after.files && after.files[after.uses[u].path] == process(u)
    {
      if s.uses[t].Inside? && s.uses[t].path == s.uses[u].path {
        OnePerProcess(s, process, t, u);
      }
    }
  }

  lemma LookupKeeps(s: State, process: Use -> Pid, t: Use, path: Path)
    requires Inv(s, process) && Of(s, t).Idle?
    ensures Inv(Step(s, process, Lookup(t, path)), process)
  {
    LookupKeepsTable(s, process, t, path);
    LookupKeepsOwners(s, process, t, path);
  }

  lemma LookupKeepsTable(s: State, process: Use -> Pid, t: Use, path: Path)
    requires Registered(s, process) && OwnMutexes(s) && Of(s, t).Idle?
    ensures Registered(Step(s, process, Lookup(t, path)), process) && OwnMutexes(Step(s, process, Lookup(t, path)))
  {
  }

  lemma LookupKeepsOwners(s: State, process: Use -> Pid, t: Use, path: Path)
    requires OneOwner(s) && FileHeld(s, process) && Of(s, t).Idle?
    ensures OneOwner(Step(s, process, Lookup(t, path))) && FileHeld(Step(s, process, Lookup(t, path)), process)
  {
    var after := Step(s, process, Lookup(t, path));
    assert forall u :: OwnsOf(after, u) ==> OwnsOf(s, u) && after.uses[u] == s.uses[u];
  }

  lemma ForgetKeeps(s: State, process: Use -> Pid, key: Key)
    requires Inv(s, process) && Enabled(s, process, Forget(key))
    ensures Inv(Step(s, process, Forget(key)), process)
  {
  }

  lemma TakeMutexKeeps(s: State, process: Use -> Pid, t: Use)
    requires Inv(s, process) && Enabled(s, process, TakeMutex(t))
    ensures Inv(Step(s, process, TakeMutex(t)), process)
  {
  }

  lemma TakeFileKeeps(s: State, process: Use -> Pid, t: Use)
    requires Inv(s, process) && Enabled(s, process, TakeFile(t))
    ensures Inv(Step(s, process, TakeFile(t)), process)
  {
  }

  lemma KillKeeps(s: State, process: Use -> Pid, p: Pid)
    requires Inv(s, process)
    ensures Inv(Step(s, process, KillProcess(p)), process)
  {
  }

  lemma InvStep(s: State, process: Use -> Pid, a: Action)
    requires Inv(s, process) && Enabled(s, process, a)
    ensures Inv(Step(s, process, a), process)
  {
    hide Inv;
    match a
    case Lookup(t, path) => LookupKeeps(s, process, t, path);
    case Forget(key) => ForgetKeeps(s, process, key);
    case TakeMutex(t) => TakeMutexKeeps(s, process, t);
    case TakeFile(t) => TakeFileKeeps(s, process, t);
    case Release(t) => ReleaseKeeps(s, process, t);
    case KillProcess(p) => KillKeeps(s, process, p);
  }

  lemma {:induction false} InvRun(process: Use -> Pid, actions: seq<Action>, s: State)
    requires Run(process, actions) == Some(s)
    ensures Inv(s, process)
  {
    if actions != [] {
      var rest := actions[..|actions| - 1];
      InvRun(process, rest, Run(process, rest).value);
      InvStep(Run(process, rest).value, process, actions[|actions| - 1]);
    }
  }

  /** In every run, with table entries forgotten, waits timing out and processes killed at
      any point, at most one use, of all threads of all processes, is inside the section of a path. */
  lemma MutualExclusion(process: Use -> Pid, actions: seq<Action>, s: State, t: Use, u: Use)
    requires Run(process, actions) == Some(s) && t in s.uses && u in s.uses
    requires s.uses[t].Inside? && s.uses[u].Inside? && s.uses[t].path == s.uses[u].path
    ensures t == u
  {
    InvRun(process, actions, s);
    OnePerProcess(s, process, t, u);
  }

  // ------------------------------------------------------------------ the time budget

  /** How one wait ends: acquired after some time, or not within what it was given. A
      negative budget waits for ever. */
  predicate Waits(budget: real, took: real, acquired: bool) {
    && took >= 0.0
    && (budget >= 0.0 && acquired ==> took <= budget)
    && (!acquired ==> budget >= 0.0 && took >= budget)
  }

  /** What is left for the file lock after waiting `elapsed` for the mutex. */
  function Remaining(timeout: real, elapsed: real): real {
    if timeout < 0.0 then -1.0 else if timeout - elapsed > 0.0 then timeout - elapsed else 0.0
  }

  /** Both waits share one budget: the section is entered within the timeout, and giving
      up means that all of it has passed. */
  lemma OneBudget(timeout: real, first: real, second: real, mutex: bool, file: bool)
    requires Waits(timeout, first, mutex)
    requires mutex ==> Waits(Remaining(timeout, first), second, file)
    ensures mutex && file && timeout >= 0.0 ==> first + second <= timeout
    ensures mutex && !file ==> timeout >= 0.0 && first + second >= timeout
    ensures timeout < 0.0 ==> mutex && file
  {
  }
}
