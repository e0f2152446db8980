/**
  `results prune`: the plan, the deletion, and what survives it. The plan is made twice
  under the evidence lock, once to ask and once to delete; other commands may change the
  results in between.
*/
module PruneRun {
  import opened Common
  import opened Prune

  /** Old enough, and nothing refers to it. */
  ghost predicate Target(reader: Reader, store: Store, drafts: Drafts, roots: Roots, cutoff: int, p: Place) {
    && p in store && store[p].meta.Some? && store[p].meta.value.created.Some?
    && store[p].meta.value.created.value < cutoff
    && (store[p].meta.value.runId.Some? ==> !Referred(reader, store, drafts, roots, cutoff, store[p].meta.value.runId.value))
  }

  /** The metadata lies under its own name and names its own two files. */
  predicate Consistent(p: Place, meta: Meta) {
    meta.runId.Some? && p.name == NameFor(meta.runId.value) && meta.registered
  }

  ghost predicate Refuses(reader: Reader, store: Store, drafts: Drafts, roots: Roots, cutoff: int, p: Place) {
    && p in store && store[p].meta.Some?
    && (store[p].meta.value.created.None? ||
        (Target(reader, store, drafts, roots, cutoff, p) && !Consistent(p, store[p].meta.value)))
  }

  /** Everything the plan reads can be verified, and no old bundle is inconsistent. */
  ghost predicate Plannable(reader: Reader, store: Store, drafts: Drafts, roots: Roots, cutoff: int) {
    Sane(reader, store, drafts) && forall p :: p in store ==> !Refuses(reader, store, drafts, roots, cutoff, p)
  }

  ghost predicate Plans(reader: Reader, store: Store, drafts: Drafts, roots: Roots, cutoff: int, targets: seq<Place>) {
    && Plannable(reader, store, drafts, roots, cutoff)
    && forall p :: p in targets <==> Target(reader, store, drafts, roots, cutoff, p)
  }

  /** `_results_prune_plan`: there is a plan exactly if nothing needs repair first. */
  method PrunePlan(reader: Reader, store: Store, places: seq<Place>, drafts: Drafts, registries: Registries, cutoff: int)
    returns (targets: Option<seq<Place>>)
    requires Lists(places, store)
    ensures targets.Some? <==> Verified(registries) && Plannable(reader, store, drafts, RootsOf(registries), cutoff)
    ensures targets.Some? ==> Plans(reader, store, drafts, RootsOf(registries), cutoff, targets.value) && Distinct(targets.value)
  {
    hide Referred, Verify, Distinct;
    var references := EvidenceReferences(reader, store, places, drafts, registries, cutoff);
    if references.None? {
      return None;
    }
    var roots := RootsOf(registries);
    var chosen := [];
    NoneIsDistinct();
    for i := 0 to |places|
      invariant Distinct(chosen)
      invariant forall p :: p in chosen <==> p in places[..i] && Target(reader, store, drafts, roots, cutoff, p)
      invariant forall p :: p in places[..i] ==> !Refuses(reader, store, drafts, roots, cutoff, p)
    {
      var p := places[i];
      assert p in store && places[..i + 1] == places[..i] + [p];
      StillDistinct(places, i, chosen);
      var meta := store[p].meta.value;
      if meta.created.None? {
        assert Refuses(reader, store, drafts, roots, cutoff, p);
        return None;
      }
      if meta.created.value >= cutoff {
        continue;
      }
      if meta.runId.Some? && meta.runId.value in references.value {
        continue;
      }
      assert Target(reader, store, drafts, roots, cutoff, p);
      if !Consistent(p, meta) {
        assert Refuses(reader, store, drafts, roots, cutoff, p);
        return None;
      }
      chosen := chosen + [p];
    }
    assert places[..|places|] == places;
    return Some(chosen);
  }

  lemma NoneIsDistinct()
    ensures Distinct<Place>([])
  {
  }

  lemma StillDistinct(places: seq<Place>, i: nat, chosen: seq<Place>)
    requires Distinct(places) && i < |places| && Distinct(chosen) && forall p :: p in chosen ==> p in places[..i]
    ensures Distinct(chosen + [places[i]]) && places[i] !in places[..i]
  {
    forall k | 0 <= k < |chosen| ensures chosen[k] != places[i] {
      assert chosen[k] in places[..i];
    }
  }

  /** The files of these bundles. */
  function Removals(store: Store, targets: seq<Place>): nat {
    if targets == [] then 0
    else
      var p := targets[|targets| - 1];
      Removals(store, targets[..|targets| - 1]) + if p in store && store[p].data.Some? then 2 else 1
  }

  lemma {:induction false} RemovalsGrow(store: Store, targets: seq<Place>, i: nat)
    requires i <= |targets|
    ensures Removals(store, targets[..i]) <= Removals(store, targets)
  {
    if i < |targets| {
      assert targets[..|targets| - 1][..i] == targets[..i];
      RemovalsGrow(store, targets[..|targets| - 1], i);
    } else {
      assert targets[..i] == targets;
    }
  }

  lemma NothingRemoved(store: Store)
    ensures Removals(store, []) == 0 && Shrunk(store, store, [])
  {
  }

  /** Before target `i` is removed, and what any part of its removal leaves. */
  lemma OneMore(before: Store, now: Store, targets: seq<Place>, i: nat)
    requires Distinct(targets) && i < |targets| && targets[i] in before && Shrunk(before, now, targets[..i])
    requires forall p :: p in now <==> p in before && p !in targets[..i]
    ensures var p := targets[i];
            && p in now && now[p] == before[p] && targets[..i + 1] == targets[..i] + [p]
            && Removals(before, targets[..i + 1]) == Removals(before, targets[..i]) + (if before[p].data.Some? then 2 else 1)
            && Removals(before, targets[..i + 1]) <= Removals(before, targets)
            && Shrunk(before, now, targets)
            && Shrunk(before, now[p := now[p].(data := None)], targets)
            && Shrunk(before, now - {p}, targets[..i + 1])
            && Shrunk(before, now[p := now[p].(data := None)] - {p}, targets[..i + 1])
  {
    hide Removals, Shrunk;
    var p := targets[i];
    NotYet(targets, i);
    CountsMore(before, targets, i);
    ShrinksMore(before, now, targets, i);
  }

  lemma NotYet(targets: seq<Place>, i: nat)
    requires Distinct(targets) && i < |targets|
    ensures targets[i] !in targets[..i] && targets[..i + 1] == targets[..i] + [targets[i]]
  {
  }

  lemma CountsMore(before: Store, targets: seq<Place>, i: nat)
    requires i < |targets| && targets[i] in before
    ensures Removals(before, targets[..i + 1]) ==
              Removals(before, targets[..i]) + (if before[targets[i]].data.Some? then 2 else 1)
    ensures Removals(before, targets[..i + 1]) <= Removals(before, targets)
  {
    assert targets[..i + 1][..i] == targets[..i];
    RemovalsGrow(before, targets, i + 1);
  }

  lemma ShrinksMore(before: Store, now: Store, targets: seq<Place>, i: nat)
    requires i < |targets| && targets[i] in before && targets[i] !in targets[..i] && Shrunk(before, now, targets[..i])
    ensures var p := targets[i];
            && p in now && now[p] == before[p]
            && Shrunk(before, now, targets)
            && Shrunk(before, now[p := now[p].(data := None)], targets)
            && Shrunk(before, now - {p}, targets[..i + 1])
            && Shrunk(before, now[p := now[p].(data := None)] - {p}, targets[..i + 1])
  {
    var p := targets[i];
    assert forall q :: q in targets[..i + 1] <==> q in targets[..i] || q == p;
    assert forall q :: q in targets[..i + 1] ==> q in targets;
  }

  /** Every bundle that is not a target is as it was; a target may be gone, lack its data,
      or not have been reached. */
  predicate Shrunk(before: Store, after: Store, targets: seq<Place>) {
    && (forall p :: p in after ==> p in before && after[p].meta == before[p].meta)
    && (forall p :: p in before && p !in targets ==> p in after && after[p] == before[p])
  }

  /** Created at or after the cutoff, or referred to. */
  ghost predicate Spared(reader: Reader, store: Store, drafts: Drafts, roots: Roots, cutoff: int, p: Place)
    requires p in store
  {
    || CreatedSince(store[p], cutoff)
    || (store[p].meta.Some? && store[p].meta.value.runId.Some?
        && Referred(reader, store, drafts, roots, cutoff, store[p].meta.value.runId.value))
  }

  ghost predicate CanPlan(reader: Reader, store: Store, drafts: Drafts, registries: Registries, cutoff: int) {
    Verified(registries) && Plannable(reader, store, drafts, RootsOf(registries), cutoff)
  }

  /** There is an old bundle that nothing refers to. */
  ghost predicate FindsTarget(reader: Reader, store: Store, drafts: Drafts, registries: Registries, cutoff: int) {
    Verified(registries) && exists p :: Target(reader, store, drafts, RootsOf(registries), cutoff, p)
  }

  datatype Outcome = Pruned | NeedsApproval | Refused | Broke

  /** The result directory. */
  class Results {
    var bundles: Store

    /** The sorted listing of the metadata files. */
    method Listing() returns (places: seq<Place>)
      ensures Lists(places, bundles)
    {
      places := [];
      var todo := bundles.Keys;
      while todo != {}
        invariant todo <= bundles.Keys && Distinct(places)
        invariant forall p :: p in places <==> p in bundles && p !in todo
        decreases |todo|
      {
        var p :| p in todo;
        places := places + [p];
        todo := todo - {p};
      }
    }

    /** Delete the targets, data before metadata; removal number `failing` raises. */
    method Delete(targets: seq<Place>, failing: Option<nat>) returns (ok: bool)
      requires Distinct(targets) && forall p :: p in targets ==> p in bundles
      modifies this
      ensures Shrunk(old(bundles), bundles, targets)
      ensures ok ==> forall p :: p in bundles <==> p in old(bundles) && p !in targets
      ensures ok <==> failing.None? || failing.value >= Removals(old(bundles), targets)
    {
      hide Removals, Shrunk, Distinct;
      NothingRemoved(bundles);
      var removals := 0;
      for i := 0 to |targets|
        invariant removals == Removals(old(bundles), targets[..i]) && (failing.Some? ==> failing.value >= removals)
        invariant Shrunk(old(bundles), bundles, targets[..i])
        invariant forall p :: p in bundles <==> p in old(bundles) && p !in targets[..i]
      {
        var p := targets[i];
        OneMore(old(bundles), bundles, targets, i);
        if p in bundles {
          if bundles[p].data.Some? {
            if failing == Some(removals) {
              return false;
            }
            bundles := bundles[p := bundles[p].(data := None)];
            removals := removals + 1;
          }
          if failing == Some(removals) {
            return false;
          }
          bundles := bundles - {p};
          removals := removals + 1;
        }
      }
      assert targets[..|targets|] == targets;
      return true;
    }

    /** `results prune`. `between` is what other commands make of the results while the
        operator is asked; `confirms` is the answer to the question. */
    method Prune(reader: Reader, drafts: Drafts, registries: Registries, cutoff: int, yes: bool, interactive: bool,
                 confirms: bool, between: Store, drafts': Drafts, registries': Registries, failing: Option<nat>)
      returns (outcome: Outcome)
      modifies this
      // it refuses if a plan that it needs cannot be made
      ensures outcome.Refused? <==>
        || !CanPlan(reader, old(bundles), drafts, registries, cutoff)
        || ((FindsTarget(reader, old(bundles), drafts, registries, cutoff) ==> yes || (interactive && confirms))
            && !CanPlan(reader, between, drafts', registries', cutoff))
      // it needs approval if it was not given for what one of the plans names
      ensures outcome.NeedsApproval? <==>
        && !yes && CanPlan(reader, old(bundles), drafts, registries, cutoff)
        && if FindsTarget(reader, old(bundles), drafts, registries, cutoff) then !(interactive && confirms)
           else CanPlan(reader, between, drafts', registries', cutoff)
                && FindsTarget(reader, between, drafts', registries', cutoff)
      ensures outcome.NeedsApproval? || outcome.Refused? ==> bundles == old(bundles) || bundles == between
      // otherwise exactly what the second plan names is deleted, as far as the removals work
      ensures outcome.Pruned? || outcome.Broke? ==>
        && Verified(registries')
        && exists targets ::
          && Plans(reader, between, drafts', RootsOf(registries'), cutoff, targets) && Shrunk(between, bundles, targets)
          && (targets != [] ==> yes || (interactive && confirms))
          && (outcome.Pruned? ==> forall p :: p in bundles <==> p in between && p !in targets)
          && (outcome.Broke? <==> failing.Some? && failing.value < Removals(between, targets))
      // so a bundle that is new, or that anything refers to, stays as it is
      ensures outcome.Pruned? || outcome.Broke? ==>
        forall p :: p in between && Spared(reader, between, drafts', RootsOf(registries'), cutoff, p) ==>
          p in bundles && bundles[p] == between[p]
    {
      hide Referred, Verify, Sane, Lists, Consistent, Target, Plannable;
      var places := Listing();
      var preview := PrunePlan(reader, bundles, places, drafts, registries, cutoff);
      if preview.None? {
        return Refused;
      }
      PlanFinds(reader, bundles, drafts, registries, cutoff, preview.value);
      var approved := yes;
      if preview.value != [] && !yes {
        if !interactive || !confirms {
          return NeedsApproval;
        }
        approved := true;
      }
      bundles := between;
      places := Listing();
      var plan := PrunePlan(reader, bundles, places, drafts', registries', cutoff);
      if plan.None? {
        return Refused;
      }
      PlanFinds(reader, bundles, drafts', registries', cutoff, plan.value);
      if plan.value != [] && !approved {
        return NeedsApproval;
      }
      var ok := Delete(plan.value, failing);
      forall p | p in between && Spared(reader, between, drafts', RootsOf(registries'), cutoff, p)
        ensures p in bundles && bundles[p] == between[p]
      {
        SparedStays(reader, between, bundles, drafts', RootsOf(registries'), cutoff, plan.value, p);
      }
      return if ok then Pruned else Broke;
    }
  }

  lemma PlanFinds(reader: Reader, store: Store, drafts: Drafts, registries: Registries, cutoff: int, targets: seq<Place>)
    requires Verified(registries) && Plans(reader, store, drafts, RootsOf(registries), cutoff, targets)
    ensures FindsTarget(reader, store, drafts, registries, cutoff) <==> targets != []
    ensures forall p :: p in targets ==> p in store
  {
    hide Referred, Sane, Refuses;
    if targets != [] {
      assert targets[0] in targets;
    }
  }

  // --------------------------------------------------------------- what survives

  lemma NamesTell(a: RunId, b: RunId)
    requires NameFor(a) == NameFor(b)
    ensures a == b
  {
    assert a == NameFor(a)[..|a|] && b == NameFor(b)[..|NameFor(b)| - |NameFor("")|];
  }

  lemma SparedStays(reader: Reader, before: Store, after: Store, drafts: Drafts, roots: Roots, cutoff: int,
                    targets: seq<Place>, p: Place)
    requires Plans(reader, before, drafts, roots, cutoff, targets) && Shrunk(before, after, targets)
    requires p in before && Spared(reader, before, drafts, roots, cutoff, p)
    ensures p in after && after[p] == before[p]
  {
    hide Referred, Sane;
  }

  /** The evidence of an observation that is not retired stays: an explicit one, or an
      automatic one whose evidence is all recent. */
  lemma PinnedEvidenceStays(reader: Reader, before: Store, after: Store, drafts: Drafts, roots: Roots, cutoff: int,
                            targets: seq<Place>, i: nat, run: RunId, p: Place)
    requires Plans(reader, before, drafts, roots, cutoff, targets) && Shrunk(before, after, targets)
    requires i < |roots.observations| && run in roots.observations[i].evidence
    requires !roots.observations[i].automatic || forall r :: r in roots.observations[i].evidence ==> Recent(before, r, cutoff)
    requires p in before && before[p].meta.Some? && before[p].meta.value.runId == Some(run)
    ensures p in after && after[p] == before[p]
  {
    hide Verify, Recent;
    assert !Retired(before, roots.observations[i], cutoff);
    assert OverlayRefers(before, roots, cutoff, run);
    SparedStays(reader, before, after, drafts, roots, cutoff, targets, p);
  }

  /** Evidence in a bundle that stays is still found, under the same name and alone. */
  lemma EvidenceStays(reader: Reader, before: Store, after: Store, targets: seq<Place>, run: RunId,
                      binding: Binding, tenant: string, q: Place)
    requires Shrunk(before, after, targets) && EvidenceAt(reader, before, run, binding, tenant, q)
    requires q in after && after[q] == before[q]
    ensures EvidenceFound(reader, after, run, binding, tenant)
  {
    hide EvidenceOk, NameFor;
    assert OnlyAt(after, run, q);
    assert EvidenceAt(reader, after, run, binding, tenant, q);
  }

  lemma LiveReferences(reader: Reader, store: Store, drafts: Drafts, p: Place, run: RunId)
    requires Honest(reader) && IsLive(reader, store, drafts, p)
    requires run in Verify(reader, store, drafts, p).references
    ensures ProposalRefers(reader, store, drafts, run)
  {
    hide Verify;
  }

  /** The evidence of a live proposal is in bundles that are not targets. */
  lemma LiveEvidenceIsReferred(reader: Reader, store: Store, drafts: Drafts, roots: Roots, cutoff: int, p: Place, run: RunId)
    returns (q: Place)
    requires Honest(reader) && IsLive(reader, store, drafts, p)
    requires run in Evidence(Bound(store[p].meta.value.proposal.value).value)
    ensures q in store && store[q].meta.Some? && store[q].meta.value.runId == Some(run)
    ensures EvidenceAt(reader, store, run, Bound(store[p].meta.value.proposal.value).value, store[p].meta.value.tenant.value, q)
    ensures Referred(reader, store, drafts, roots, cutoff, run)
  {
    var meta := store[p].meta.value;
    var binding := Bound(meta.proposal.value).value;
    assert EvidenceFound(reader, store, run, binding, meta.tenant.value);
    q :| q in store && EvidenceAt(reader, store, run, binding, meta.tenant.value, q);
    NamesTell(store[q].meta.value.runId.value, run);
    LiveReferences(reader, store, drafts, p, run);
  }

  /** Every draft that exists and verified before the prune verifies afterwards, with the
      same references, at every point of the deletion. */
  lemma LiveProposalsSurvive(reader: Reader, before: Store, after: Store, drafts: Drafts, roots: Roots, cutoff: int,
                             targets: seq<Place>, p: Place)
    requires Honest(reader) && Plans(reader, before, drafts, roots, cutoff, targets) && Shrunk(before, after, targets)
    requires IsLive(reader, before, drafts, p)
    ensures p in after && after[p] == before[p]
    ensures Verify(reader, after, drafts, p) == Verify(reader, before, drafts, p)
  {
    var meta := before[p].meta.value;
    var binding := Bound(meta.proposal.value).value;
    LiveReferences(reader, before, drafts, p, meta.runId.value);
    SparedStays(reader, before, after, drafts, roots, cutoff, targets, p);
    forall run | run in Evidence(binding) ensures EvidenceFound(reader, after, run, binding, meta.tenant.value) {
      var q := LiveEvidenceIsReferred(reader, before, drafts, roots, cutoff, p, run);
      SparedStays(reader, before, after, drafts, roots, cutoff, targets, q);
      EvidenceStays(reader, before, after, targets, run, binding, meta.tenant.value, q);
    }
  }

  /** What is referred to before a prune is referred to afterwards, at every point of the
      deletion: pinned evidence, reviews and live drafts are all spared. */
  lemma ReferencesPersist(reader: Reader, before: Store, after: Store, drafts: Drafts, roots: Roots, cutoff: int,
                          targets: seq<Place>, run: RunId)
    requires Honest(reader) && Plans(reader, before, drafts, roots, cutoff, targets) && Shrunk(before, after, targets)
    requires Referred(reader, before, drafts, roots, cutoff, run)
    ensures Referred(reader, after, drafts, roots, cutoff, run)
  {
    hide Verify, Retired;
    forall i | 0 <= i < |roots.observations| && !Retired(before, roots.observations[i], cutoff)
      ensures !Retired(after, roots.observations[i], cutoff)
    {
      StaysPinned(reader, before, after, drafts, roots, cutoff, targets, roots.observations[i]);
    }
    if ProposalRefers(reader, before, drafts, run) {
      var p :| p in before && IsLive(reader, before, drafts, p) && run in Verify(reader, before, drafts, p).references;
      LiveProposalsSurvive(reader, before, after, drafts, roots, cutoff, targets, p);
      assert IsLive(reader, after, drafts, p);
    } else if p :| p in before && Reviews(before[p], run)
                   && Pinned(before, roots, cutoff, before[p].meta.value.review.value.observation) {
      SparedStays(reader, before, after, drafts, roots, cutoff, targets, p);
    }
  }

  /** An observation that is not retired is not retired by the prune. */
  lemma StaysPinned(reader: Reader, before: Store, after: Store, drafts: Drafts, roots: Roots, cutoff: int,
                    targets: seq<Place>, o: Observation)
    requires Plans(reader, before, drafts, roots, cutoff, targets) && Shrunk(before, after, targets)
    requires !Retired(before, o, cutoff)
    ensures !Retired(after, o, cutoff)
  {
    hide Plans;
    if o.automatic {
      forall run | run in o.evidence ensures Recent(after, run, cutoff) {
        assert Recent(before, run, cutoff);
        var p :| p in before && OnlyAt(before, run, p) && CreatedSince(before[p], cutoff);
        SparedStays(reader, before, after, drafts, roots, cutoff, targets, p);
        assert OnlyAt(after, run, p);
      }
    }
  }

  /** The binding of a draft that has been deleted, still in the results. */
  predicate Orphan(store: Store, drafts: Drafts, p: Place) {
    && p in store && store[p].meta.Some? && store[p].meta.value.proposal.Some?
    && store[p].meta.value.proposal.value.shape.Current? && store[p].meta.value.proposal.value.path !in drafts
    && Bound(store[p].meta.value.proposal.value).Some?
  }

  function OrphanEvidence(store: Store, drafts: Drafts, p: Place): set<RunId>
    requires Orphan(store, drafts, p)
  {
    Evidence(Bound(store[p].meta.value.proposal.value).value)
  }

  /** Every bundle of the run is to be deleted. */
  predicate Goes(store: Store, targets: seq<Place>, run: RunId) {
    forall q :: q in store && q.name == NameFor(run) ==> q in targets
  }

  /** Some orphan is kept and some of its evidence is not. */
  ghost predicate Strands(store: Store, drafts: Drafts, targets: seq<Place>) {
    exists p :: Orphan(store, drafts, p) && p !in targets
                && exists run :: run in OrphanEvidence(store, drafts, p) && Goes(store, targets, run)
  }

  lemma OrphanVerdict(reader: Reader, before: Store, after: Store, drafts: Drafts, targets: seq<Place>, p: Place)
    requires Shrunk(before, after, targets) && forall q :: q in after <==> q in before && q !in targets
    requires Orphan(before, drafts, p) && p in after && !Verify(reader, before, drafts, p).Broken?
    ensures Verify(reader, after, drafts, p).Broken? <==>
              exists run :: run in OrphanEvidence(before, drafts, p) && Goes(before, targets, run)
  {
    hide EvidenceOk, NameFor, Bound, Evidence;
    var meta := before[p].meta.value;
    var binding := Bound(meta.proposal.value).value;
    assert after[p] == before[p];
    if run :| run in Evidence(binding) && Goes(before, targets, run) {
      assert !EvidenceFound(reader, after, run, binding, meta.tenant.value);
    } else {
      forall run | run in Evidence(binding) ensures EvidenceFound(reader, after, run, binding, meta.tenant.value) {
        assert EvidenceFound(reader, before, run, binding, meta.tenant.value);
        var q :| q in before && EvidenceAt(reader, before, run, binding, meta.tenant.value, q);
        var kept :| kept in before && kept.name == NameFor(run) && kept !in targets;
        assert kept == q;
        EvidenceStays(reader, before, after, targets, run, binding, meta.tenant.value, q);
      }
    }
  }

  lemma VerdictAfter(reader: Reader, before: Store, after: Store, drafts: Drafts, roots: Roots, cutoff: int,
                     targets: seq<Place>, p: Place)
    requires Honest(reader) && Plans(reader, before, drafts, roots, cutoff, targets) && Shrunk(before, after, targets)
    requires p in after && (forall q :: q in after <==> q in before && q !in targets)
    ensures after[p].meta.Some?
    ensures Verify(reader, after, drafts, p).Broken? <==>
              Orphan(before, drafts, p) && exists run :: run in OrphanEvidence(before, drafts, p) && Goes(before, targets, run)
  {
    hide EvidenceVerifies, DraftMatches, Referred, Target, Evidence, Goes, Bound, Refuses;
    if Orphan(before, drafts, p) {
      OrphanVerdict(reader, before, after, drafts, targets, p);
    } else if IsLive(reader, before, drafts, p) {
      LiveProposalsSurvive(reader, before, after, drafts, roots, cutoff, targets, p);
    }
  }

  /** After a complete prune the next one, with the same cutoff, can be planned if and only
      if the first plan strands no orphan: keeps the binding of a deleted draft while all
      the bundles of some run in its evidence go. */
  lemma NextPruneIsPlannableIff(reader: Reader, before: Store, after: Store, drafts: Drafts, roots: Roots, cutoff: int,
                                targets: seq<Place>)
    requires Honest(reader) && Plans(reader, before, drafts, roots, cutoff, targets) && Shrunk(before, after, targets)
    requires forall p :: p in after <==> p in before && p !in targets
    ensures Plannable(reader, after, drafts, roots, cutoff) <==> !Strands(before, drafts, targets)
  {
    forall p | p in after
      ensures !Refuses(reader, after, drafts, roots, cutoff, p) && after[p].meta.Some?
      ensures Verify(reader, after, drafts, p).Broken? <==>
                Orphan(before, drafts, p) && exists run :: run in OrphanEvidence(before, drafts, p) && Goes(before, targets, run)
    {
      NextRefusesNone(reader, before, after, drafts, roots, cutoff, targets, p);
      VerdictAfter(reader, before, after, drafts, roots, cutoff, targets, p);
    }
  }

  lemma NextRefusesNone(reader: Reader, before: Store, after: Store, drafts: Drafts, roots: Roots, cutoff: int,
                        targets: seq<Place>, p: Place)
    requires Honest(reader) && Plans(reader, before, drafts, roots, cutoff, targets) && Shrunk(before, after, targets)
    requires p in after && (forall q :: q in after <==> q in before && q !in targets)
    ensures !Refuses(reader, after, drafts, roots, cutoff, p)
  {
    hide Referred, Sane;
    assert !Refuses(reader, before, drafts, roots, cutoff, p);
    NextTargetsAreOld(reader, before, after, drafts, roots, cutoff, targets, p);
  }

  /** The next prune deletes only what this one was to delete: nothing after a complete
      one, the rest after one that broke off. */
  lemma NextTargetsAreOld(reader: Reader, before: Store, after: Store, drafts: Drafts, roots: Roots, cutoff: int,
                          targets: seq<Place>, p: Place)
    requires Honest(reader) && Plans(reader, before, drafts, roots, cutoff, targets) && Shrunk(before, after, targets)
    ensures Target(reader, after, drafts, roots, cutoff, p) ==> p in targets && p in after
  {
    hide Referred, Sane;
    if Target(reader, after, drafts, roots, cutoff, p) && after[p].meta.value.runId.Some? {
      var run := after[p].meta.value.runId.value;
      if Referred(reader, before, drafts, roots, cutoff, run) {
        ReferencesPersist(reader, before, after, drafts, roots, cutoff, targets, run);
      }
    }
  }

  // ------------------------------------------- a prune that blocks the next, concretely

  const BINDING := Binding("rel", ["obs"], ["s"], ["t"], ["r"])

  const PROPOSAL := Proposal(Current, "/draft", Some("rel"), Some("new"), true,
                             Some(Snapshot(None, ["obs"], ["s"], ["t"], ["r"], true)), 1, "d")

  const TENANT := Zeros(64)

  function Zeros(n: nat): (s: string)
    ensures |s| == n && forall i :: 0 <= i < n ==> s[i] == '0'
  {
    if n == 0 then "" else "0" + Zeros(n - 1)
  }

  function Sample(run: RunId, created: int, stage: Stage, proposal: Option<Proposal>): Bundle {
    Bundle(Some(Meta(Some(run), Some(created), true, Some(TENANT), stage, Some("s"),
                     Some(Review("obs", "rel", "s")), proposal)), Some("data"))
  }

  function SampleAt(run: RunId): Place {
    Place("day", NameFor(run))
  }

  /** A kept binding, newer than its evidence; its draft has been deleted. */
  function SampleStore(): Store {
    map[SampleAt("b") := Sample("b", 10, OtherStage, Some(PROPOSAL)),
        SampleAt("s") := Sample("s", 0, SourceStage, None),
        SampleAt("t") := Sample("t", 0, TargetStage, None),
        SampleAt("r") := Sample("r", 0, OtherStage, None)]
  }

  /** Accepts what lies under its own name. */
  function SampleReader(p: Place, b: Bundle): Option<Rows> {
    if b.meta.Some? && b.meta.value.runId.Some? && p.name == NameFor(b.meta.value.runId.value) then Some(["row"]) else None
  }

  lemma SamplesAreApart(a: RunId, b: RunId)
    ensures SampleAt(a) == SampleAt(b) <==> a == b
  {
    if SampleAt(a) == SampleAt(b) {
      NamesTell(a, b);
    }
  }

  lemma SampleNames()
    ensures var store := SampleStore();
            && store.Keys == {SampleAt("b"), SampleAt("s"), SampleAt("t"), SampleAt("r")}
            && store[SampleAt("b")] == Sample("b", 10, OtherStage, Some(PROPOSAL))
            && store[SampleAt("s")] == Sample("s", 0, SourceStage, None)
            && store[SampleAt("t")] == Sample("t", 0, TargetStage, None)
            && store[SampleAt("r")] == Sample("r", 0, OtherStage, None)
    ensures SampleAt("b") !in {SampleAt("s"), SampleAt("t"), SampleAt("r")}
  {
    SamplesAreApart("b", "s");
    SamplesAreApart("b", "t");
    SamplesAreApart("b", "r");
    SamplesAreApart("s", "t");
    SamplesAreApart("s", "r");
    SamplesAreApart("t", "r");
  }

  lemma SampleBinding()
    ensures Bound(PROPOSAL) == Some(BINDING) && WellShaped(PROPOSAL) && IsDigest(TENANT)
    ensures Evidence(BINDING) == {"s", "t", "r"}
  {
    assert IsStableId("rel") && IsStableId("new") && IsStableId("obs");
    assert IsRunId("s") && IsRunId("t") && IsRunId("r");
    assert SnapshotOk(PROPOSAL.snapshot.value);
    assert forall run :: run in ["s"] <==> run == "s";
    assert forall run :: run in ["t"] <==> run == "t";
    assert forall run :: run in ["r"] <==> run == "r";
  }

  lemma SampleEvidence(run: RunId)
    requires run in Evidence(BINDING)
    ensures EvidenceFound(SampleReader, SampleStore(), run, BINDING, TENANT)
  {
    SampleNames();
    hide NameFor, SampleStore;
    var store := SampleStore();
    forall q | q in store && q.name == NameFor(run) ensures q == SampleAt(run) {
    }
    assert EvidenceAt(SampleReader, store, run, BINDING, TENANT, SampleAt(run));
  }

  lemma SampleIsSane()
    ensures Sane(SampleReader, SampleStore(), map[])
    ensures forall p :: !IsLive(SampleReader, SampleStore(), map[], p)
  {
    SampleNames();
    hide NameFor, SampleStore, EvidenceAt;
    SampleBinding();
    forall run | run in Evidence(BINDING) ensures EvidenceFound(SampleReader, SampleStore(), run, BINDING, TENANT) {
      SampleEvidence(run);
    }
    assert Verify(SampleReader, SampleStore(), map[], SampleAt("b")).NotLive?;
  }

  lemma SampleIsBrokenWithout(after: Store)
    requires after == SampleStore() - {SampleAt("s"), SampleAt("t"), SampleAt("r")}
    ensures !Sane(SampleReader, after, map[])
  {
    SampleNames();
    hide NameFor, SampleStore, EvidenceOk;
    SampleBinding();
    assert "s" in Evidence(BINDING);
    SamplesAreApart("b", "s");
    assert forall q :: q in after ==> q == SampleAt("b");
    assert Verify(SampleReader, after, map[], SampleAt("b")).Broken?;
  }

  /** Its three evidence bundles are old and nothing live refers to them: they go, and
      from then on the binding that stays is broken, so every later prune refuses. */
  lemma DeletedDraftBlocksTheNextPrune() returns (targets: seq<Place>, after: Store)
    ensures Honest(SampleReader)
    ensures Plans(SampleReader, SampleStore(), map[], Roots([], {}, {}), 5, targets)
    ensures Shrunk(SampleStore(), after, targets) && !Plannable(SampleReader, after, map[], Roots([], {}, {}), 5)
  {
    SampleNames();
    SampleIsSane();
    hide NameFor, SampleStore, Verify, EvidenceVerifies, Sane;
    targets := [SampleAt("s"), SampleAt("t"), SampleAt("r")];
    after := SampleStore() - {SampleAt("s"), SampleAt("t"), SampleAt("r")};
    forall p | p in SampleStore() ensures !Refuses(SampleReader, SampleStore(), map[], Roots([], {}, {}), 5, p) {
      SampleIsConsistent(p);
    }
    SampleIsBrokenWithout(after);
  }

  lemma SampleIsConsistent(p: Place)
    requires p in SampleStore()
    ensures Consistent(p, SampleStore()[p].meta.value)
  {
    SampleNames();
    hide NameFor, SampleStore;
  }
}
