/**
  `AuthManager` (`auth.py`): the object that one process uses. The client application
  keeps the cache object it was built with, so which object is changed and which one is
  saved matters; each method is proved to do to the file what the machine of
  `TokenCache` does in one transaction.
*/
module TokenManager {
  import opened Common
  import opened TokenCache

  /** `atomic_write_secret` replaces the file, or fails before or after doing so. */
  datatype Write = Written | FailsBefore | FailsAfter

  /** An answer of the identity service: what it changed in the cache, and whether it
      carries a token, reports an error, or raises. */
  datatype Answer = Grants(changes: seq<Change>) | Denies(changes: seq<Change>) | Throws(changes: seq<Change>)

  datatype Outcome = Granted | Busy | NotAuthenticated | Denied | Failed

  /** What meets one login: the answers of the two sign-ins, the caches of the pre-warming
      step, and what happens to each of the three saves. */
  datatype SignIns = SignIns(
    interactive: Answer,
    first: Write,
    warm: seq<seq<Change>>,
    second: Write,
    device: Answer,
    third: Write)

  /** The caches of the pre-warming step, one after another; failures are only reported. */
  function Flatten(warm: seq<seq<Change>>): seq<Change> {
    if warm == [] then [] else Flatten(warm[..|warm| - 1]) + warm[|warm| - 1]
  }

  class Cache {
    var tokens: Tokens
    var changed: bool

    constructor (tokens: Tokens)
      ensures this.tokens == tokens && !changed
    {
      this.tokens, changed := tokens, false;
    }

    method Absorb(changes: seq<Change>)
      modifies this
      ensures tokens == Replay(old(tokens), changes)
      ensures changed == (old(changed) || changes != [])
    {
      for i := 0 to |changes|
        invariant tokens == Replay(old(tokens), changes[..i]) && changed == (old(changed) || i > 0)
      {
        assert changes[..i + 1] == changes[..i] + [changes[i]];
        ReplayStep(old(tokens), changes[..i], changes[i]);
        tokens, changed := Apply(tokens, changes[i]), true;
      }
      assert changes[..|changes|] == changes;
    }
  }

  class Disk {
    var file: Option<Tokens>

    constructor ()
      ensures file.None?
    {
      file := None;
    }
  }

  function Base(file: Option<Tokens>, readable: bool): Tokens {
    if readable then Contents(file) else map[]
  }

  // ------------------------------------------------------------------ what is promised

  /** Whether `get_token` asks the service at all: a confidential application always, any
      other only for an account in the cache. */
  predicate Asks(confidential: bool, base: Tokens) {
    confidential || base != map[]
  }

  /** A replacement is attempted: the service granted the token and the cache changed. */
  predicate Replaces(confidential: bool, base: Tokens, answer: Answer) {
    Asks(confidential, base) && answer.Grants? && answer.changes != []
  }

  function TokenOutcome(confidential: bool, base: Tokens, answer: Answer, write: Write): Outcome {
    if !Asks(confidential, base) then NotAuthenticated
    else if answer.Denies? then Denied
    else if answer.Throws? || (Replaces(confidential, base, answer) && !write.Written?) then Failed
    else Granted
  }

  function TokenFile(confidential: bool, file: Option<Tokens>, readable: bool, answer: Answer, write: Write): Option<Tokens> {
    var base := Base(file, readable);
    if Replaces(confidential, base, answer) && !write.FailsBefore? then Some(Replay(base, answer.changes)) else file
  }

  /** The interactive sign-in and its first save went well, so the others are tried. */
  predicate FirstSaved(login: SignIns) {
    login.interactive.Grants? && (login.interactive.changes == [] || login.first.Written?)
  }

  /** No device code is needed. */
  predicate Interactive(login: SignIns) {
    FirstSaved(login) && (Flatten(login.warm) == [] || login.second.Written?)
  }

  function Early(login: SignIns): seq<Change> {
    login.interactive.changes + if FirstSaved(login) then Flatten(login.warm) else []
  }

  /** Everything a login acquires in memory. */
  function Acquired(login: SignIns): seq<Change> {
    if login.interactive.Denies? || Interactive(login) then Early(login) else Early(login) + login.device.changes
  }

  /** A failed save has forgotten that the cache had changed. */
  predicate Forgotten(login: SignIns) {
    && login.interactive.Grants?
    && if FirstSaved(login) then Flatten(login.warm) != [] && login.second.FailsBefore?
       else login.first.FailsBefore?
  }

  /** What of it the saves before the device code have put on disk. */
  function EarlySaved(login: SignIns): seq<Change> {
    if !login.interactive.Grants? then []
    else if !Forgotten(login) then Early(login)
    else if FirstSaved(login) then login.interactive.changes
    else []
  }

  /** What the file holds of it in the end. */
  function Kept(login: SignIns): seq<Change> {
    if login.interactive.Denies? || Interactive(login) || !login.device.Grants? || login.third.FailsBefore? then EarlySaved(login)
    else if login.interactive.Grants? && login.device.changes == [] then EarlySaved(login)
    else Acquired(login)
  }

  function LoginOutcome(login: SignIns): Outcome {
    if login.interactive.Denies? then Denied
    else if Interactive(login) then Granted
    else if login.device.Denies? then Denied
    else if login.device.Throws? then Failed
    else if login.third.Written? || (login.device.changes == [] && (login.interactive.Grants? || login.interactive.changes == []))
      then Granted
    else Failed
  }

  /** A login that reports success has saved everything it acquired, exactly unless an
      earlier save failed before replacing the file and the device code then added nothing:
      the failed save has reset the mark that the cache has changed. */
  lemma SuccessSavesAllIff(login: SignIns)
    requires LoginOutcome(login).Granted?
    ensures Kept(login) == Acquired(login) <==> !(Forgotten(login) && login.device.changes == [])
  {
    var early, device := Early(login), login.device.changes;
    assert early + [] == early;
    assert |early + device| == |early| + |device|;
    assert |Early(login)| == |login.interactive.changes| + if FirstSaved(login) then |Flatten(login.warm)| else 0;
  }

  /** Once the first save has replaced the file, the first token stays in what is kept. */
  lemma FirstTokenIsKept(login: SignIns)
    requires login.interactive.Grants? && !login.first.FailsBefore?
    ensures login.interactive.changes <= Kept(login) <= Acquired(login)
  {
    var early, device := Early(login), login.device.changes;
    assert login.interactive.changes <= early <= early + device;
  }

  class Manager {
    const disk: Disk
    const confidential: bool
    var cache: Cache
    var app: Cache?

    /** A manager loads the file without the lock; it may be old before it is used. */
    constructor (disk: Disk, confidential: bool, readable: bool)
      ensures this.disk == disk && this.confidential == confidential && app == null
      ensures fresh(cache) && cache.tokens == Base(disk.file, readable) && !cache.changed
    {
      this.disk, this.confidential, app := disk, confidential, null;
      cache := new Cache(Base(disk.file, readable));
    }

    /** `_cache_transaction`, once the lock is held. */
    method Begin(readable: bool)
      modifies this
      ensures fresh(cache) && app == null && !cache.changed
      ensures cache.tokens == Base(disk.file, readable)
    {
      cache := new Cache(Base(disk.file, readable));
      app := null;
    }

    /** `_get_app`: the application is built once, on the cache of that moment. */
    method GetApp() returns (c: Cache)
      modifies `app
      ensures app == c && c == if old(app) == null then cache else old(app)
    {
      if app == null {
        app := cache;
      }
      return app;
    }

    /** `_save_cache`. */
    method SaveCache(write: Write) returns (ok: bool)
      modifies cache`changed, disk`file
      ensures !cache.changed
      ensures !old(cache.changed) ==> ok && disk.file == old(disk.file)
      ensures old(cache.changed) ==>
        ok == write.Written? && disk.file == if write.FailsBefore? then old(disk.file) else Some(cache.tokens)
    {
      if !cache.changed {
        return true;
      }
      cache.changed := false;
      if !write.FailsBefore? {
        disk.file := Some(cache.tokens);
      }
      return write.Written?;
    }

    /** `get_token`: what it leaves in the file depends on the file alone, never on what
        this manager or its application held before; a refusal leaves the file alone. */
    method GetToken(locked: bool, readable: bool, answer: Answer, write: Write) returns (outcome: Outcome)
      modifies this, disk
      ensures !locked ==> outcome == Busy && disk.file == old(disk.file)
      ensures locked ==>
        var base := Base(old(disk.file), readable);
        && fresh(cache)
        && cache.tokens == (if Asks(confidential, base) then Replay(base, answer.changes) else base)
        && outcome == TokenOutcome(confidential, base, answer, write)
        && disk.file == TokenFile(confidential, old(disk.file), readable, answer, write)
      // the outcome, said of the lock, the reloaded cache, the service and the write
      ensures outcome.Busy? <==> !locked
      ensures outcome.NotAuthenticated? <==>
        locked && !confidential && (old(disk.file).None? || !readable || old(disk.file).value == map[])
      ensures outcome.Granted? <==>
        && locked && (confidential || (readable && old(disk.file).Some? && old(disk.file).value != map[]))
        && answer.Grants? && (answer.changes == [] || write.Written?)
      ensures outcome.Denied? <==>
        locked && (confidential || (readable && old(disk.file).Some? && old(disk.file).value != map[])) && answer.Denies?
      // a granted token is on disk with everything the service changed, a refused one changes nothing
      ensures outcome.Granted? ==> if answer.changes == [] then disk.file == old(disk.file) else disk.file == Some(cache.tokens)
      ensures outcome.Busy? || outcome.NotAuthenticated? || outcome.Denied? ==> disk.file == old(disk.file)
    {
      if !locked {
        return Busy;
      }
      Begin(readable);
      var retained := GetApp();
      if !confidential && retained.tokens == map[] {
        return NotAuthenticated;
      }
      retained.Absorb(answer.changes);
      match answer
      case Denies(_) => return Denied;
      case Throws(_) => return Failed;
      case Grants(_) =>
        var saved := SaveCache(write);
        return if saved then Granted else Failed;
    }

    /** `login`: interactive first, any failure but a refusal falls back to the device
        code. The first token is saved before the other audiences are tried. */
    method Login(readable: bool, login: SignIns) returns (outcome: Outcome)
      modifies this, disk
      ensures outcome == LoginOutcome(login)
      // granted by a sign-in whose saves worked, or by a device code whose save worked
      ensures outcome.Granted? <==>
        || (login.interactive.Grants? && (login.interactive.changes == [] || login.first.Written?)
            && (Flatten(login.warm) == [] || login.second.Written?))
        || (!login.interactive.Denies? && login.device.Grants?
            && (login.third.Written?
                || (login.device.changes == [] && (login.interactive.Grants? || login.interactive.changes == []))))
      // a refusal by the sign-in is final; anything else falls back to the device code
      ensures outcome.Denied? <==>
        || login.interactive.Denies?
        || (login.device.Denies?
            && !(login.interactive.Grants? && (login.interactive.changes == [] || login.first.Written?)
                 && (Flatten(login.warm) == [] || login.second.Written?)))
      ensures outcome.Granted? || outcome.Denied? || outcome.Failed?
      ensures var base := Base(old(disk.file), readable);
              && fresh(cache)
              && cache.tokens == Replay(base, Acquired(login))
              && (disk.file == Some(Replay(base, Kept(login))) || (Kept(login) == [] && disk.file == old(disk.file)))
    {
      hide Replay;
      Begin(readable);
      ghost var base, was := cache.tokens, disk.file;
      var retained := GetApp();
      var interactive := login.interactive;
      ghost var all := interactive.changes;
      retained.Absorb(interactive.changes);
      assert all + [] == all;
      if interactive.Denies? {
        return Denied;
      }
      if interactive.Grants? {
        var saved := SaveCache(login.first);
        if saved {
          var warm := login.warm;
          for i := 0 to |warm|
            invariant retained == cache && fresh(cache)
            invariant all == interactive.changes + Flatten(warm[..i]) && cache.tokens == Replay(base, all)
            invariant cache.changed <==> Flatten(warm[..i]) != []
            invariant disk.file == if interactive.changes == [] then was else Some(Replay(base, interactive.changes))
          {
            ReplayAppends(base, all, warm[i]);
            assert warm[..i + 1][..i] == warm[..i];
            assert interactive.changes + (Flatten(warm[..i]) + warm[i]) == all + warm[i];
            retained.Absorb(warm[i]);
            all := all + warm[i];
          }
          assert warm[..|warm|] == warm && interactive.changes + [] == interactive.changes;
          var written := SaveCache(login.second);
          if written {
            return Granted;
          }
        }
      }
      assert all == Early(login);
      ReplayAppends(base, all, login.device.changes);
      retained.Absorb(login.device.changes);
      if !login.device.Grants? {
        return if login.device.Denies? then Denied else Failed;
      }
      var saved := SaveCache(login.third);
      return if saved then Granted else Failed;
    }

    /** `logout`: the file is gone, and this manager remembers nothing. */
    method Logout()
      modifies this, disk
      ensures disk.file.None? && fresh(cache) && cache.tokens == map[] && app == null
    {
      disk.file := None;
      cache := new Cache(map[]);
      app := null;
    }
  }

  // ------------------------------------------ the methods are the machine's transactions

  /** Process `p` makes the changes one after another, if it can. */
  function WorkAll(s: State, p: Pid, changes: seq<Change>): Option<State> {
    if changes == [] then Some(s)
    else
      match WorkAll(s, p, changes[..|changes| - 1])
      case None => None
      case Some(t) =>
        var a := Work(p, changes[|changes| - 1]);
        if Enabled(t, a) then Some(Step(t, a)) else None
  }

  lemma {:induction false} WorkAllIs(s: State, p: Pid, changes: seq<Change>, t: State)
    requires Works(s, p) && WorkAll(s, p, changes) == Some(t)
    ensures var proc := s.procs[p];
            t == Put(s, p, proc.pc.(pending := proc.pc.pending + changes), Replay(proc.mem, changes))
  {
    var proc := s.procs[p];
    if changes == [] {
      assert proc.pc.pending + [] == proc.pc.pending;
      assert s.procs[p := proc] == s.procs;
    } else {
      var rest, last := changes[..|changes| - 1], changes[|changes| - 1];
      WorkAllIs(s, p, rest, WorkAll(s, p, rest).value);
      assert proc.pc.pending + rest + [last] == proc.pc.pending + changes;
    }
  }

  /** One `get_token` of a process as steps of the machine: enter, reload, change the
      cache as the service says, save unless it refused or the write failed first, leave. */
  function Transaction(s: State, p: Pid, readable: bool, answer: Answer, write: Write): Option<State>
    requires At(s, p, Outside) && s.lock.None?
  {
    var t := Step(Step(s, Enter(p)), Reload(p, readable));
    if !Asks(s.procs[p].confidential, t.procs[p].mem) then Some(Step(t, Leave(p)))
    else
      match WorkAll(t, p, answer.changes)
      case None => None
      case Some(u) =>
        WorkAllIs(t, p, answer.changes, u);
        Some(Step(if answer.Grants? && !write.FailsBefore? then Step(u, Save(p)) else u, Leave(p)))
  }

  /** Nothing but the process `p` differs. */
  predicate Only(s: State, t: State, p: Pid) {
    p in t.procs && t.procs - {p} == s.procs - {p} && t.logouts == s.logouts
  }

  lemma Begins(s: State, p: Pid, readable: bool)
    requires At(s, p, Outside) && s.lock.None?
    ensures var t := Step(Step(s, Enter(p)), Reload(p, readable));
            && Only(s, t, p) && t.file == s.file && t.saved == s.saved
            && t.procs[p] == Proc(Inside(Blind(s, readable), []), Base(s.file, readable), s.procs[p].confidential)
  {
  }

  lemma Ends(s: State, u: State, p: Pid, save: bool)
    requires Only(s, u, p) && u.procs[p].pc.Inside?
    ensures var t, changes := Step(if save then Step(u, Save(p)) else u, Leave(p)), u.procs[p].pc.pending;
            && Only(s, t, p) && t.lock.None? && t.procs[p] == u.procs[p].(pc := Outside)
            && t.file == (if save && changes != [] then Some(u.procs[p].mem) else u.file)
            && t.saved == u.saved + if save && changes != [] then changes else []
  {
    hide Touched;
    assert u.saved + [] == u.saved;
  }

  /** Whatever the service answers and however the write ends, the machine's transaction
      leaves the file as `GetToken` does, and records the changes as saved exactly when
      they reached the file; no other process is touched. */
  lemma TransactionIsGetToken(s: State, p: Pid, readable: bool, answer: Answer, write: Write, t: State)
    requires At(s, p, Outside) && s.lock.None? && Transaction(s, p, readable, answer, write) == Some(t)
    ensures var confidential, base := s.procs[p].confidential, Base(s.file, readable);
            && t.file == TokenFile(confidential, s.file, readable, answer, write)
            && t.saved == s.saved + (if Replaces(confidential, base, answer) && !write.FailsBefore? then answer.changes else [])
            && t.procs[p].mem == (if Asks(confidential, base) then Replay(base, answer.changes) else base)
    ensures At(t, p, Outside) && t.lock.None? && Only(s, t, p)
  {
    hide Replay, Works, WorkAll;
    var begun := Step(Step(s, Enter(p)), Reload(p, readable));
    Begins(s, p, readable);
    if Asks(s.procs[p].confidential, begun.procs[p].mem) {
      var u := WorkAll(begun, p, answer.changes).value;
      WorkAllIs(begun, p, answer.changes, u);
      assert [] + answer.changes == answer.changes;
      Ends(s, u, p, answer.Grants? && !write.FailsBefore?);
    } else {
      Ends(s, begun, p, false);
    }
  }

  predicate Fits(means: Means, logouts: nat, changes: seq<Change>) {
    forall i :: 0 <= i < |changes| ==>
      changes[i].Acquire? && changes[i].means == means && changes[i].token.era == logouts
  }

  /** The machine has a transaction for every answer that only acquires: with client
      credentials from any cache, also an empty one, and silently from a cache with an
      account. */
  lemma AcquiringIsEnabled(s: State, p: Pid, readable: bool, answer: Answer, write: Write)
    requires At(s, p, Outside) && s.lock.None?
    requires Fits(if s.procs[p].confidential then ClientCredentials else Silent, s.logouts, answer.changes)
    ensures Transaction(s, p, readable, answer, write).Some?
  {
    var t := Step(Step(s, Enter(p)), Reload(p, readable));
    if Asks(s.procs[p].confidential, t.procs[p].mem) {
      AcquiringWorks(t, p, answer.changes);
    }
  }

  lemma {:induction false} AcquiringWorks(s: State, p: Pid, changes: seq<Change>)
    requires Works(s, p) && Asks(s.procs[p].confidential, s.procs[p].mem)
    requires Fits(if s.procs[p].confidential then ClientCredentials else Silent, s.logouts, changes)
    ensures WorkAll(s, p, changes).Some?
  {
    if changes != [] {
      var rest := changes[..|changes| - 1];
      AcquiringWorks(s, p, rest);
      WorkAllIs(s, p, rest, WorkAll(s, p, rest).value);
      if !s.procs[p].confidential && rest != [] {
        ReplayedIsThere(s.procs[p].mem, rest);
      }
    }
  }
}
