/**
  The token cache shared by every process (`auth.py`, `secret_files.py`): a transaction
  takes the lock, reloads the file, changes the cache in memory, replaces the file
  atomically and releases the lock. Processes are killed anywhere.
*/
module TokenCache {
  import opened Common

  type Pid = nat
  type Key = string

  /** An access or refresh token; `era` is the number of logouts before it was acquired. */
  datatype Token = Token(value: string, era: nat)

  type Tokens = map<Key, Token>

  /** How a token is acquired: by signing in, silently for a cached account, or with the
      client credentials of a confidential application. */
  datatype Means = SignIn | Silent | ClientCredentials

  /** What one acquisition does to the cache in memory. */
  datatype Change = Acquire(key: Key, token: Token, means: Means) | Drop(key: Key)

  function Apply(tokens: Tokens, c: Change): Tokens {
    match c
    case Acquire(key, token, _) => tokens[key := token]
    case Drop(key) => tokens - {key}
  }

  /** The cache that the changes lead to, from the last logout on. */
  function Replay(from: Tokens, changes: seq<Change>): Tokens {
    if changes == [] then from
    else Apply(Replay(from, changes[..|changes| - 1]), changes[|changes| - 1])
  }

  function Touched(changes: seq<Change>): set<Key> {
    if changes == [] then {} else Touched(changes[..|changes| - 1]) + {changes[|changes| - 1].key}
  }

  // ---------------------------------------------------------------- the machine

  datatype PC =
    | Outside
    // holds the lock, has not reloaded
    | Entered
    // holds the lock, works on the reloaded cache; `blind` if the file could not be read
    | Inside(blind: bool, pending: seq<Change>)
    // holds the lock to log out
    | LoggingOut

  /** One process: its point, the cache in its memory, which may be old, and whether it
      has client credentials. */
  datatype Proc = Proc(pc: PC, mem: Tokens, confidential: bool)

  datatype State = State(
    file: Option<Tokens>,
    lock: Option<Pid>,
    procs: map<Pid, Proc>,
    logouts: nat,
    // what was saved since the last logout, and whether a save has lost any of it
    saved: seq<Change>,
    lossy: bool)

  datatype Action =
    // a process starts and loads the file without the lock, if it can read it
    | Spawn(pid: Pid, confidential: bool, readable: bool)
    | Enter(pid: Pid)
    | Reload(pid: Pid, readable: bool)
    | Work(pid: Pid, change: Change)
    | Save(pid: Pid)
    // the transaction ends, saved or not, by return or by exception
    | Leave(pid: Pid)
    | EnterLogout(pid: Pid)
    | Unlink(pid: Pid)
    | Kill(pid: Pid)

  function Contents(file: Option<Tokens>): Tokens {
    file.GetOr(map[])
  }

  predicate Holds(pc: PC) {
    !pc.Outside?
  }

  predicate At(s: State, p: Pid, pc: PC) {
    p in s.procs && s.procs[p].pc == pc
  }

  predicate Works(s: State, p: Pid) {
    p in s.procs && s.procs[p].pc.Inside?
  }

  /** A silent acquisition needs an account, so some cached token; one with client
      credentials needs nothing but them. */
  predicate Allowed(proc: Proc, means: Means) {
    match means
    case SignIn => true
    case Silent => proc.mem != map[]
    case ClientCredentials => proc.confidential
  }

  predicate Enabled(s: State, a: Action) {
    match a
    case Spawn(p, _, _) => p !in s.procs
    case Enter(p) => At(s, p, Outside) && s.lock.None?
    case Reload(p, _) => At(s, p, Entered)
    case Work(p, c) =>
      && Works(s, p)
      && (c.Acquire? ==> c.token.era == s.logouts && Allowed(s.procs[p], c.means))
    case Save(p) => Works(s, p)
    case Leave(p) => p in s.procs && Holds(s.procs[p].pc)
    case EnterLogout(p) => At(s, p, Outside) && s.lock.None?
    case Unlink(p) => At(s, p, LoggingOut)
    case Kill(p) => p in s.procs
  }

  function Put(s: State, p: Pid, pc: PC, mem: Tokens): State
    requires p in s.procs
  {
    s.(procs := s.procs[p := s.procs[p].(pc := pc, mem := mem)])
  }

  /** What a reload finds; a missing file is not a failure. */
  predicate Blind(s: State, readable: bool) {
    s.file.Some? && !readable
  }

  function Loaded(s: State, readable: bool): Tokens {
    if readable then Contents(s.file) else map[]
  }

  /** The save of `_save_cache`: nothing happens unless the cache has changed. */
  function Saved(s: State, p: Pid): State
    requires Works(s, p)
  {
    var proc := s.procs[p];
    if proc.pc.pending == [] then s
    else
      Put(s, p, Inside(false, []), proc.mem).(
        file := Some(proc.mem),
        saved := s.saved + proc.pc.pending,
        lossy := s.lossy || (proc.pc.blind && !(Contents(s.file).Keys <= Touched(proc.pc.pending))))
  }

  function Step(s: State, a: Action): State
    requires Enabled(s, a)
  {
    match a
    case Spawn(p, confidential, readable) =>
      s.(procs := s.procs[p := Proc(Outside, Loaded(s, readable), confidential)])
    case Enter(p) => Put(s, p, Entered, s.procs[p].mem).(lock := Some(p))
    case Reload(p, readable) => Put(s, p, Inside(Blind(s, readable), []), Loaded(s, readable))
    case Work(p, c) =>
      var proc := s.procs[p];
      Put(s, p, proc.pc.(pending := proc.pc.pending + [c]), Apply(proc.mem, c))
    case Save(p) => Saved(s, p)
    case Leave(p) => Put(s, p, Outside, s.procs[p].mem).(lock := None)
    case EnterLogout(p) => Put(s, p, LoggingOut, s.procs[p].mem).(lock := Some(p))
    case Unlink(p) =>
      Put(s, p, LoggingOut, map[]).(file := None, logouts := s.logouts + 1, saved := [], lossy := false)
    case Kill(p) => s.(procs := s.procs - {p}, lock := if Holds(s.procs[p].pc) then None else s.lock)
  }

  const START := State(None, None, map[], 0, [], false)

  /** The state after the actions, or `None` if one of them was not enabled. */
  function Run(actions: seq<Action>): Option<State> {
    if actions == [] then Some(START)
    else
      match Run(actions[..|actions| - 1])
      case None => None
      case Some(s) =>
        if Enabled(s, actions[|actions| - 1]) then Some(Step(s, actions[|actions| - 1])) else None
  }

  // ------------------------------------------------------------------- replaying

  lemma {:induction false} ReplayAppends(from: Tokens, a: seq<Change>, b: seq<Change>)
    ensures Replay(from, a + b) == Replay(Replay(from, a), b)
  {
    if b == [] {
      assert a + b == a;
    } else {
      assert (a + b)[..|a + b| - 1] == a + b[..|b| - 1];
      ReplayAppends(from, a, b[..|b| - 1]);
    }
  }

  lemma ReplayStep(from: Tokens, changes: seq<Change>, c: Change)
    ensures Replay(from, changes + [c]) == Apply(Replay(from, changes), c)
  {
    assert (changes + [c])[..|changes|] == changes;
  }

  predicate SameAt(a: Tokens, b: Tokens, k: Key) {
    (k in a <==> k in b) && (k in a ==> a[k] == b[k])
  }

  /** A key the changes touch ends the same from any start; any other key stays. */
  lemma {:induction false} ReplayAt(a: Tokens, b: Tokens, changes: seq<Change>, k: Key)
    ensures k in Touched(changes) ==> SameAt(Replay(a, changes), Replay(b, changes), k)
    ensures k !in Touched(changes) ==> SameAt(Replay(a, changes), a, k)
  {
    if changes != [] {
      ReplayAt(a, b, changes[..|changes| - 1], k);
    }
  }

  /** Starting from nothing instead of the saved cache gives the same cache exactly when
      every saved key is acquired or dropped again. */
  lemma ForgettingIsHarmlessIff(tokens: Tokens, changes: seq<Change>)
    ensures Replay(map[], changes) == Replay(tokens, changes) <==> tokens.Keys <= Touched(changes)
  {
    var fresh0, full := Replay(map[], changes), Replay(tokens, changes);
    forall k ensures k in Touched(changes) ==> SameAt(fresh0, full, k)
             ensures k !in Touched(changes) ==> k !in fresh0 && SameAt(full, tokens, k)
    {
      ReplayAt(map[], tokens, changes, k);
      ReplayAt(tokens, map[], changes, k);
    }
    if tokens.Keys <= Touched(changes) {
      assert forall k :: SameAt(fresh0, full, k);
      assert fresh0.Keys == full.Keys;
      assert fresh0 == full;
    } else {
      var k :| k in tokens && k !in Touched(changes);
      assert k in full && k !in fresh0;
    }
  }

  // ------------------------------------------------------------------ the invariant

  predicate LockOk(s: State) {
    && (s.lock.Some? ==> s.lock.value in s.procs && Holds(s.procs[s.lock.value].pc))
    && forall p :: p in s.procs && Holds(s.procs[p].pc) ==> s.lock == Some(p)
  }

  predicate Current(tokens: Tokens, logouts: nat) {
    forall k :: k in tokens ==> tokens[k].era == logouts
  }

  /** Some token was acquired without a cached one. */
  predicate HasSource(changes: seq<Change>) {
    exists i :: 0 <= i < |changes| && IsSource(changes[i])
  }

  predicate IsSource(c: Change) {
    c.Acquire? && !c.means.Silent?
  }

  predicate FileOk(file: Option<Tokens>, logouts: nat, saved: seq<Change>, lossy: bool) {
    && Current(Contents(file), logouts)
    && (Contents(file) != map[] ==> HasSource(saved))
    && (!lossy ==> Contents(file) == Replay(map[], saved))
  }

  predicate HolderOk(s: State, proc: Proc) {
    proc.pc.Inside? ==>
      && proc.mem == Replay(if proc.pc.blind then map[] else Contents(s.file), proc.pc.pending)
      && Current(proc.mem, s.logouts)
      && (proc.mem != map[] ==> HasSource(s.saved + proc.pc.pending))
  }

  predicate Inv(s: State) {
    && LockOk(s)
    && FileOk(s.file, s.logouts, s.saved, s.lossy)
    && (s.lock.Some? ==> HolderOk(s, s.procs[s.lock.value]))
  }

  lemma SourceStays(a: seq<Change>, b: seq<Change>)
    ensures HasSource(a + b) <==> HasSource(a) || HasSource(b)
  {
    if HasSource(a) {
      var i :| 0 <= i < |a| && IsSource(a[i]);
      assert (a + b)[i] == a[i];
    }
    if HasSource(b) {
      var i :| 0 <= i < |b| && IsSource(b[i]);
      assert (a + b)[|a| + i] == b[i];
    }
  }

  lemma WorkKeeps(s: State, proc: Proc, c: Change)
    requires proc.pc.Inside? && HolderOk(s, proc)
    requires c.Acquire? ==> c.token.era == s.logouts && Allowed(proc, c.means)
    ensures HolderOk(s, proc.(pc := proc.pc.(pending := proc.pc.pending + [c]), mem := Apply(proc.mem, c)))
  {
    hide Replay, HasSource;
    ReplayStep(if proc.pc.blind then map[] else Contents(s.file), proc.pc.pending, c);
    assert s.saved + (proc.pc.pending + [c]) == s.saved + proc.pc.pending + [c];
    SourceStays(s.saved + proc.pc.pending, [c]);
    OneSource(c);
  }

  lemma OneSource(c: Change)
    ensures HasSource([c]) <==> IsSource(c)
  {
    assert [c][0] == c;
  }

  /** A save keeps everything saved before exactly when its reload could read the file or
      it acquires or drops every saved key again. */
  lemma SaveKeepsIff(s: State, p: Pid)
    requires Inv(s) && !s.lossy && Works(s, p) && s.procs[p].pc.pending != []
    ensures Contents(Saved(s, p).file) == Replay(map[], Saved(s, p).saved) <==>
              !s.procs[p].pc.blind || Contents(s.file).Keys <= Touched(s.procs[p].pc.pending)
    ensures Saved(s, p).lossy <==> Contents(Saved(s, p).file) != Replay(map[], Saved(s, p).saved)
  {
    var pending := s.procs[p].pc.pending;
    ReplayAppends(map[], s.saved, pending);
    ForgettingIsHarmlessIff(Contents(s.file), pending);
  }

  lemma SaveKeepsInv(s: State, p: Pid)
    requires Inv(s) && Works(s, p)
    ensures Inv(Saved(s, p))
  {
    hide HasSource, Current;
    if s.procs[p].pc.pending != [] {
      if !s.lossy {
        SaveKeepsIff(s, p);
      }
      var t := Saved(s, p);
      assert t.saved + [] == t.saved;
    }
  }

  lemma InvStep(s: State, a: Action)
    requires Inv(s) && Enabled(s, a)
    ensures Inv(Step(s, a))
  {
    hide HasSource, Current, Replay, Touched;
    match a
    case Spawn(_, _, _) =>
    case Enter(_) =>
    case Reload(p, readable) => ReloadKeeps(s, readable);
    case Work(p, c) => WorkKeeps(s, s.procs[p], c);
    case Save(p) => SaveKeepsInv(s, p);
    case Leave(_) =>
    case EnterLogout(_) =>
    case Unlink(p) => EmptyIsFine(s.logouts + 1);
    case Kill(_) =>
  }

  lemma ReloadKeeps(s: State, readable: bool)
    requires FileOk(s.file, s.logouts, s.saved, s.lossy)
    ensures forall confidential :: HolderOk(s, Proc(Inside(Blind(s, readable), []), Loaded(s, readable), confidential))
  {
    assert s.saved + [] == s.saved;
  }

  lemma EmptyIsFine(logouts: nat)
    ensures FileOk(None, logouts, [], false)
  {
  }

  lemma {:induction false} InvRun(actions: seq<Action>, s: State)
    requires Run(actions) == Some(s)
    ensures Inv(s)
  {
    if actions == [] {
      EmptyIsFine(0);
    } else {
      var rest := actions[..|actions| - 1];
      InvRun(rest, Run(rest).value);
      InvStep(Run(rest).value, actions[|actions| - 1]);
    }
  }

  // --------------------------------------------------------------------- the results

  /** In every run, with kills anywhere: unless a save has gone over an unreadable file
      without renewing what it held, the file holds exactly what every transaction since
      the last logout has saved, in order; no process's save loses another's tokens. */
  lemma NothingSavedIsLost(actions: seq<Action>, s: State)
    requires Run(actions) == Some(s) && !s.lossy
    ensures Contents(s.file) == Replay(map[], s.saved)
  {
    InvRun(actions, s);
  }

  /** Without read failures no save is ever lossy. */
  lemma {:induction false} ReadableRunsAreNotLossy(actions: seq<Action>, s: State)
    requires Run(actions) == Some(s)
    requires forall i :: 0 <= i < |actions| && actions[i].Reload? ==> actions[i].readable
    ensures !s.lossy && forall p :: Works(s, p) ==> !s.procs[p].pc.blind
  {
    if actions != [] {
      var rest := actions[..|actions| - 1];
      ReadableRunsAreNotLossy(rest, Run(rest).value);
      assert actions[|actions| - 1].Reload? ==> actions[|actions| - 1].readable;
    }
  }

  /** Every token on disk was acquired after the last logout, by a transaction that also
      began after it. */
  lemma NoTokenSurvivesLogout(actions: seq<Action>, s: State, k: Key)
    requires Run(actions) == Some(s) && k in Contents(s.file)
    ensures s.file.value[k].era == s.logouts
  {
    InvRun(actions, s);
  }

  /** After a logout the file stays without tokens until somebody signs in or a process
      with client credentials acquires one: no process, however old its memory, can bring
      one back silently. */
  lemma OnlySourceEndsLogout(actions: seq<Action>, s: State)
    requires Run(actions) == Some(s) && !HasSource(s.saved)
    ensures Contents(s.file) == map[]
  {
    InvRun(actions, s);
  }

  predicate NoDrops(changes: seq<Change>) {
    forall i :: 0 <= i < |changes| ==> changes[i].Acquire?
  }

  lemma {:induction false} ReplayedIsThere(from: Tokens, changes: seq<Change>)
    requires NoDrops(changes) && changes != []
    ensures Replay(from, changes) != map[]
  {
    var last := changes[|changes| - 1];
    assert last.key in Replay(from, changes);
  }

  lemma SavedIsThere(s: State, p: Pid)
    requires Inv(s) && Works(s, p)
    requires NoDrops(s.saved) && s.saved != [] ==> Contents(s.file) != map[]
    ensures NoDrops(Saved(s, p).saved) && Saved(s, p).saved != [] ==> Contents(Saved(s, p).file) != map[]
  {
    hide Replay, HasSource, Current, Touched;
    var pending := s.procs[p].pc.pending;
    if pending != [] && NoDrops(s.saved + pending) {
      forall i | 0 <= i < |pending| ensures pending[i].Acquire? {
        assert (s.saved + pending)[|s.saved| + i] == pending[i];
      }
      ReplayedIsThere(if s.procs[p].pc.blind then map[] else Contents(s.file), pending);
    }
  }

  lemma {:induction false} SavedTokensAreThere(actions: seq<Action>, s: State)
    requires Run(actions) == Some(s)
    ensures NoDrops(s.saved) && s.saved != [] ==> Contents(s.file) != map[]
  {
    hide Inv, NoDrops, Replay, Touched;
    if actions != [] {
      var rest, a := actions[..|actions| - 1], actions[|actions| - 1];
      var t := Run(rest).value;
      SavedTokensAreThere(rest, t);
      if a.Save? {
        InvRun(rest, t);
        SavedIsThere(t, a.pid);
      }
    }
  }

  /** As long as no saved transaction has dropped a token, the file holds tokens after a
      logout if and only if somebody has signed in since, or a process with client
      credentials has acquired one, and saved it. */
  lemma FileHasTokensIff(actions: seq<Action>, s: State)
    requires Run(actions) == Some(s) && NoDrops(s.saved)
    ensures Contents(s.file) != map[] <==> HasSource(s.saved)
  {
    InvRun(actions, s);
    SavedTokensAreThere(actions, s);
  }

  /** With drops: a saved token is there unless a later saved change dropped it. */
  predicate Stays(changes: seq<Change>, i: nat)
    requires i < |changes|
  {
    changes[i].Acquire? && forall j :: i < j < |changes| && changes[j].Drop? ==> changes[j].key != changes[i].key
  }

  lemma {:induction false} StaysIsThere(from: Tokens, changes: seq<Change>, i: nat)
    requires i < |changes| && Stays(changes, i)
    ensures changes[i].key in Replay(from, changes)
  {
    if i < |changes| - 1 {
      StaysIsThere(from, changes[..|changes| - 1], i);
    }
  }

  lemma {:induction false} ThereHasStayed(changes: seq<Change>, k: Key) returns (i: nat)
    requires k in Replay(map[], changes)
    ensures i < |changes| && Stays(changes, i) && changes[i].key == k
  {
    var n := |changes| - 1;
    if changes[n].Acquire? && changes[n].key == k {
      i := n;
    } else {
      i := ThereHasStayed(changes[..n], k);
    }
  }

  /** In general, as long as no save was lossy: exactly if some saved acquisition was not
      followed by a saved drop of its key. */
  lemma FileHasTokensIffKept(actions: seq<Action>, s: State)
    requires Run(actions) == Some(s) && !s.lossy
    ensures Contents(s.file) != map[] <==> exists i :: 0 <= i < |s.saved| && Stays(s.saved, i)
  {
    InvRun(actions, s);
    if i :| 0 <= i < |s.saved| && Stays(s.saved, i) {
      StaysIsThere(map[], s.saved, i);
    }
    if Contents(s.file) != map[] {
      var k :| k in Contents(s.file);
      var i := ThereHasStayed(s.saved, k);
    }
  }

  /** Two threads of control are never inside the section together. */
  lemma OneHolder(actions: seq<Action>, s: State, p: Pid, q: Pid)
    requires Run(actions) == Some(s)
    requires p in s.procs && q in s.procs && Holds(s.procs[p].pc) && Holds(s.procs[q].pc)
    ensures p == q
  {
    InvRun(actions, s);
  }

  // --------------------------------------------------------- the loss, as a concrete run

  lemma Then(actions: seq<Action>, s: State, a: Action)
    requires Run(actions) == Some(s) && Enabled(s, a)
    ensures Run(actions + [a]) == Some(Step(s, a))
  {
    assert (actions + [a])[..|actions|] == actions;
  }

  /** A login takes the lock, saves one token and leaves. */
  lemma LoginRun(actions: seq<Action>, s: State, p: Pid, readable: bool, c: Change) returns (more: seq<Action>, t: State)
    requires Run(actions) == Some(s) && s.lock.None? && p !in s.procs
    requires c.Acquire? && c.means.SignIn? && c.token.era == s.logouts
    ensures Run(more) == Some(t) && t.lock.None? && t.procs.Keys == s.procs.Keys + {p}
    ensures t.logouts == s.logouts && t.saved == s.saved + [c]
    ensures t.file == Some(Loaded(s, readable)[c.key := c.token])
    ensures t.lossy <==> s.lossy || (Blind(s, readable) && !(Contents(s.file).Keys <= {c.key}))
  {
    hide Replay, Touched, Run;
    OneTouched(c);
    var a, b := Spawn(p, false, readable), Enter(p);
    Then(actions, s, a);
    more, t := actions + [a], Step(s, a);
    Then(more, t, b);
    more, t := more + [b], Step(t, b);
    a, b := Reload(p, readable), Work(p, c);
    Then(more, t, a);
    more, t := more + [a], Step(t, a);
    Then(more, t, b);
    more, t := more + [b], Step(t, b);
    assert t.procs[p].pc == Inside(Blind(s, readable), [c]);
    Then(more, t, Save(p));
    more, t := more + [Save(p)], Step(t, Save(p));
    Then(more, t, Leave(p));
    more, t := more + [Leave(p)], Step(t, Leave(p));
  }

  lemma OneTouched(c: Change)
    ensures Touched([c]) == {c.key} && [] + [c] == [c]
  {
    assert [c][..0] == [];
  }

  /** Without the readability of the file the first claim is false: a second login that
      cannot read it throws away the token the first one saved. */
  lemma UnreadableFileLosesAToken() returns (actions: seq<Action>, s: State)
    ensures Run(actions) == Some(s) && s.lossy
    ensures Acquire("graph", Token("a", 0), SignIn) in s.saved && "graph" !in Contents(s.file)
    ensures Contents(s.file) != Replay(map[], s.saved)
  {
    var first, second := Acquire("graph", Token("a", 0), SignIn), Acquire("mde", Token("b", 0), SignIn);
    actions, s := LoginRun([], START, 0, true, first);
    assert s.file == Some(map["graph" := Token("a", 0)]);
    actions, s := LoginRun(actions, s, 1, false, second);
    assert s.file == Some(map["mde" := Token("b", 0)]);
    assert s.saved == [first] + [second] && s.saved[0] == first;
    ReplayStep(map[], [first], second);
    ReplayStep(map[], [], first);
    assert [] + [first] == [first];
    assert "graph" in Replay(map[], s.saved);
  }

  /** After a logout a process with client credentials saves a token although nobody has
      signed in. */
  lemma CredentialsEndALogout() returns (actions: seq<Action>, s: State)
    ensures Run(actions) == Some(s) && s.logouts == 1
    ensures s.file == Some(map["k" := Token("v", 1)])
    ensures forall c :: c in s.saved && c.Acquire? ==> !c.means.SignIn?
  {
    hide Replay, Touched, Run;
    var c := Acquire("k", Token("v", 1), ClientCredentials);
    NoRun();
    actions, s := [], START;
    actions, s := Then2(actions, s, Spawn(0, true, true), EnterLogout(0));
    actions, s := Then2(actions, s, Unlink(0), Leave(0));
    actions, s := Then2(actions, s, Enter(0), Reload(0, true));
    assert s.procs == map[0 := Proc(Inside(false, []), map[], true)];
    actions, s := Then2(actions, s, Work(0, c), Save(0));
    assert s.saved == [c];
  }

  lemma NoRun()
    ensures Run([]) == Some(START)
  {
  }

  lemma Then2(actions: seq<Action>, s: State, a: Action, b: Action) returns (longer: seq<Action>, t: State)
    requires Run(actions) == Some(s) && Enabled(s, a) && Enabled(Step(s, a), b)
    ensures Run(longer) == Some(t) && t == Step(Step(s, a), b)
  {
    hide Run, Enabled, Step;
    Then(actions, s, a);
    Then(actions + [a], Step(s, a), b);
    longer, t := actions + [a] + [b], Step(Step(s, a), b);
  }
}
