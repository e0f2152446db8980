/**
  Which session an invocation is recorded in and which one the learning gate looks at
  (`sessions.py`, `main.py`): two resolutions that need not agree.
*/
module SessionChoice {
  import opened Common
  import opened SessionLog

  datatype Session = Session(id: string, incident: Option<string>, alert: Option<string>, automatic: bool)

  /** `XDR_SESSION`: unset, or naming a session that is live, or anything else. */
  datatype Env = Unset | Names(session: Option<Session>)

  /** What a command says about its subject; `auto` is whether it may open a session. */
  datatype Subject = Subject(auto: bool, incident: Option<string>, alert: Option<string>)

  /** `current_session`, which the gate uses. */
  function CurrentSession(env: Env, active: seq<Session>): Option<Session> {
    match env
    case Names(session) => session
    case Unset => if |active| == 1 then Some(active[0]) else None
  }

  function ByIncident(active: seq<Session>, incident: Option<string>): seq<Session> {
    if active == [] || incident.None? then []
    else (if active[0].incident == incident then [active[0]] else []) + ByIncident(active[1..], incident)
  }

  function ByAlert(active: seq<Session>, alert: Option<string>): seq<Session> {
    if active == [] || alert.None? then []
    else (if active[0].alert == alert then [active[0]] else []) + ByAlert(active[1..], alert)
  }

  /** The only active session is automatic and about something else. */
  predicate Rotates(sole: Session, s: Subject) {
    && sole.automatic
    && ((s.incident.Some? && sole.incident.Some? && sole.incident != s.incident) ||
        (s.alert.Some? && sole.alert.Some? && sole.alert != s.alert &&
         !(s.incident.Some? && sole.incident == s.incident)))
  }

  /** The session recorded in, and the active sessions afterwards; `created` is the session
      that is created if one is. */
  datatype Resolution = Resolution(recorded: Option<Session>, active: seq<Session>)

  /** `resolve_session_for_invocation`. */
  function Resolve(env: Env, active: seq<Session>, s: Subject, created: Session): Resolution {
    match env
    case Names(session) => Resolution(session, active)
    case Unset =>
      if |ByIncident(active, s.incident)| == 1 then Resolution(Some(ByIncident(active, s.incident)[0]), active)
      else if |ByAlert(active, s.alert)| == 1 then Resolution(Some(ByAlert(active, s.alert)[0]), active)
      else if |active| == 1 then
        if Rotates(active[0], s) then Resolution(Some(created), [created]) else Resolution(Some(active[0]), active)
      else if |active| > 1 || !s.auto then Resolution(None, active)
      else Resolution(Some(created), [created])
  }

  /** What the gate sees when the command has been resolved before it, as `main.py` does. */
  function GateSees(env: Env, active: seq<Session>, s: Subject, created: Session): Option<Session> {
    CurrentSession(env, Resolve(env, active, s, created).active)
  }

  /** The gate looks at another session than the one that is recorded, or at none. */
  predicate Misses(seen: Option<Session>, recorded: Option<Session>) {
    recorded.Some? && (seen.None? || seen.value.id != recorded.value.id)
  }

  /** Exactly one active session is anchored to the command's incident, or to its alert. */
  predicate Anchored(active: seq<Session>, s: Subject) {
    |ByIncident(active, s.incident)| == 1 || |ByAlert(active, s.alert)| == 1
  }

  lemma {:induction false} IncidentsAreActive(active: seq<Session>, incident: Option<string>)
    ensures |ByIncident(active, incident)| <= |active|
    ensures |ByIncident(active, incident)| == 1 ==> ByIncident(active, incident)[0] in active
  {
    if active != [] && incident.Some? {
      IncidentsAreActive(active[1..], incident);
    }
  }

  lemma {:induction false} AlertsAreActive(active: seq<Session>, alert: Option<string>)
    ensures |ByAlert(active, alert)| <= |active|
    ensures |ByAlert(active, alert)| == 1 ==> ByAlert(active, alert)[0] in active
  {
    if active != [] && alert.Some? {
      AlertsAreActive(active[1..], alert);
    }
  }

  /** The gate misses the recorded session if and only if `XDR_SESSION` is unset, at least
      two sessions are active and exactly one of them is anchored to the command's subject. */
  lemma GateMissesIff(env: Env, active: seq<Session>, s: Subject, created: Session)
    ensures Misses(GateSees(env, active, s, created), Resolve(env, active, s, created).recorded) <==>
            env.Unset? && |active| >= 2 && Anchored(active, s)
  {
    IncidentsAreActive(active, s.incident);
    AlertsAreActive(active, s.alert);
  }

  /** `alerts show` is gated before it is resolved. Then the gate misses the recorded
      session in that case too: when no active session is about the alert, and there is
      none or only an automatic one about something else. */
  lemma EarlyGateMissesIff(active: seq<Session>, s: Subject, created: Session)
    requires s.auto && forall i :: 0 <= i < |active| ==> active[i].id != created.id
    ensures Misses(CurrentSession(Unset, active), Resolve(Unset, active, s, created).recorded) <==>
              || (|active| >= 2 && Anchored(active, s))
              || (!Anchored(active, s) && (active == [] || (|active| == 1 && Rotates(active[0], s))))
  {
    IncidentsAreActive(active, s.incident);
    AlertsAreActive(active, s.alert);
  }

  /** The view of the gate on a command that is recorded in `recorded`; `refuses` is what
      another session that it finds would decide. */
  function ViewOf(seen: Option<Session>, recorded: Session, refuses: bool): View {
    if seen.None? then Nowhere else if seen.value.id == recorded.id then Here else Elsewhere(refuses)
  }

  /** So the gate is blind to a command recorded here exactly in those states, or because
      of a help token. */
  lemma BlindIff(env: Env, active: seq<Session>, s: Subject, created: Session, refuses: bool,
                 actor: string, group: string, help: bool)
    requires Resolve(env, active, s, created).recorded.Some?
    ensures var recorded := Resolve(env, active, s, created).recorded.value;
            var view := ViewOf(GateSees(env, active, s, created), recorded, refuses);
            Blind(Call(actor, group, help, view, false)) <==>
              help || (env.Unset? && |active| >= 2 && Anchored(active, s))
  {
    GateMissesIff(env, active, s, created);
  }

  /** Two sessions, one of them about incident 5: `incidents show 5` is recorded in it and
      the gate finds none. */
  lemma ConcurrentSessionHidesTheAnchored() returns (learning: Session, other: Session, s: Subject)
    ensures forall created ::
      && Resolve(Unset, [learning, other], s, created).recorded == Some(learning)
      && GateSees(Unset, [learning, other], s, created) == None
  {
    learning, other := Session("a", Some("5"), None, false), Session("b", None, None, false);
    s := Subject(true, Some("5"), None);
    var active := [learning, other];
    assert active[1..] == [other] && [other][1..] == [];
    assert ByIncident([other], s.incident) == [];
    assert ByIncident(active, s.incident) == [learning] + [];
  }

  // ------------------------------------------------------- the choice, case by case

  /** Session `i` is the only active one about this incident. */
  predicate OnlyIncident(active: seq<Session>, incident: Option<string>, i: nat)
    requires i < |active|
  {
    && incident.Some? && active[i].incident == incident
    && forall j :: 0 <= j < |active| && j != i ==> active[j].incident != incident
  }

  predicate OnlyAlert(active: seq<Session>, alert: Option<string>, i: nat)
    requires i < |active|
  {
    && alert.Some? && active[i].alert == alert
    && forall j :: 0 <= j < |active| && j != i ==> active[j].alert != alert
  }

  lemma {:induction false} NoneByIncident(active: seq<Session>, incident: Option<string>)
    requires forall j :: 0 <= j < |active| ==> active[j].incident != incident
    ensures ByIncident(active, incident) == []
  {
    if active != [] && incident.Some? {
      NoneByIncident(active[1..], incident);
    }
  }

  lemma {:induction false} NoneByAlert(active: seq<Session>, alert: Option<string>)
    requires forall j :: 0 <= j < |active| ==> active[j].alert != alert
    ensures ByAlert(active, alert) == []
  {
    if active != [] && alert.Some? {
      NoneByAlert(active[1..], alert);
    }
  }

  /** One match by the incident is the one session that is about it. */
  lemma {:induction false} OneByIncident(active: seq<Session>, incident: Option<string>)
    ensures forall i :: 0 <= i < |active| && OnlyIncident(active, incident, i) ==> ByIncident(active, incident) == [active[i]]
    ensures |ByIncident(active, incident)| == 1 ==> exists i :: 0 <= i < |active| && OnlyIncident(active, incident, i)
  {
    if active != [] && incident.Some? {
      var rest := active[1..];
      OneByIncident(rest, incident);
      forall i | 0 <= i < |active| && OnlyIncident(active, incident, i)
        ensures ByIncident(active, incident) == [active[i]]
      {
        if i == 0 {
          NoneByIncident(rest, incident);
        } else {
          assert OnlyIncident(rest, incident, i - 1) && active[0].incident != incident;
        }
      }
      if |ByIncident(active, incident)| == 1 {
        if active[0].incident == incident {
          FoundByIncident(rest, incident);
          assert OnlyIncident(active, incident, 0);
        } else {
          var i :| 0 <= i < |rest| && OnlyIncident(rest, incident, i);
          assert OnlyIncident(active, incident, i + 1);
        }
      }
    }
  }

  lemma {:induction false} FoundByIncident(active: seq<Session>, incident: Option<string>)
    requires incident.Some? && ByIncident(active, incident) == []
    ensures forall j :: 0 <= j < |active| ==> active[j].incident != incident
  {
    if active != [] {
      FoundByIncident(active[1..], incident);
    }
  }

  lemma {:induction false} OneByAlert(active: seq<Session>, alert: Option<string>)
    ensures forall i :: 0 <= i < |active| && OnlyAlert(active, alert, i) ==> ByAlert(active, alert) == [active[i]]
    ensures |ByAlert(active, alert)| == 1 ==> exists i :: 0 <= i < |active| && OnlyAlert(active, alert, i)
  {
    if active != [] && alert.Some? {
      var rest := active[1..];
      OneByAlert(rest, alert);
      forall i | 0 <= i < |active| && OnlyAlert(active, alert, i) ensures ByAlert(active, alert) == [active[i]] {
        if i == 0 {
          NoneByAlert(rest, alert);
        } else {
          assert OnlyAlert(rest, alert, i - 1) && active[0].alert != alert;
        }
      }
      if |ByAlert(active, alert)| == 1 {
        if active[0].alert == alert {
          FoundByAlert(rest, alert);
          assert OnlyAlert(active, alert, 0);
        } else {
          var i :| 0 <= i < |rest| && OnlyAlert(rest, alert, i);
          assert OnlyAlert(active, alert, i + 1);
        }
      }
    }
  }

  lemma {:induction false} FoundByAlert(active: seq<Session>, alert: Option<string>)
    requires alert.Some? && ByAlert(active, alert) == []
    ensures forall j :: 0 <= j < |active| ==> active[j].alert != alert
  {
    if active != [] {
      FoundByAlert(active[1..], alert);
    }
  }

  /** An invocation is recorded in the only session about its incident; failing that, in the
      only one about its alert; failing that, in the only active one, unless that is automatic
      and about something else: then a new one takes its place. With several it is recorded
      nowhere, and with none in a new one exactly if the command may open it. */
  lemma ResolutionIs(active: seq<Session>, s: Subject, created: Session)
    ensures var r := Resolve(Unset, active, s, created);
            var byIncident := exists i :: 0 <= i < |active| && OnlyIncident(active, s.incident, i);
            var byAlert := exists i :: 0 <= i < |active| && OnlyAlert(active, s.alert, i);
            && (forall i :: 0 <= i < |active| && OnlyIncident(active, s.incident, i) ==> r.recorded == Some(active[i]))
            && (!byIncident ==>
                  forall i :: 0 <= i < |active| && OnlyAlert(active, s.alert, i) ==> r.recorded == Some(active[i]))
            && (byIncident || byAlert ==> r.active == active)
            && (!byIncident && !byAlert ==>
                  match |active|
                  case 0 => r == if s.auto then Resolution(Some(created), [created]) else Resolution(None, [])
                  case 1 =>
                    r == if active[0].automatic && OfAnother(active[0], s) then Resolution(Some(created), [created])
                         else Resolution(Some(active[0]), active)
                  case _ => r == Resolution(None, active))
  {
    OneByIncident(active, s.incident);
    OneByAlert(active, s.alert);
  }

  /** The session is about another incident than the command, or about another alert and not
      about its incident. */
  predicate OfAnother(session: Session, s: Subject) {
    || (s.incident.Some? && session.incident.Some? && s.incident.value != session.incident.value)
    || (s.alert.Some? && session.alert.Some? && s.alert.value != session.alert.value
        && (s.incident.None? || session.incident.None?))
  }
}
