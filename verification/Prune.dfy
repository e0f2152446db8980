/**
  Pruning old results (`commands/results_cmd.py`, `schema_graph/retention.py`): a garbage
  collector whose roots are overlay observations, live proposal drafts, reference
  validations and unfinished captures.
*/
module Prune {
  import opened Common

  type RunId = string
  type Rows = seq<string>

  /** Where a metadata file lies: its day directory and its name. */
  datatype Place = Place(day: string, name: string)

  function NameFor(run: RunId): string {
    run + ".meta.json"
  }

  datatype Stage = SourceStage | TargetStage | OtherStage

  datatype Review = Review(observation: string, relationship: string, source: RunId)

  /** The keys of a binding: those of today, of an earlier version, or others. */
  datatype Shape = Current | Legacy | Misshapen

  /** `signed` is whether the recorded digest is that of the other fields. */
  datatype Snapshot = Snapshot(generation: Option<string>, observations: seq<string>, sources: seq<RunId>,
                               targets: seq<RunId>, reviews: seq<RunId>, signed: bool)

  /** Values are `None` where they have another JSON type, the snapshot also where it has
      other keys. */
  datatype Proposal = Proposal(
    shape: Shape, path: string, relationship: Option<string>, proposed: Option<string>, signed: bool,
    snapshot: Option<Snapshot>, size: int, digest: string)

  /** A metadata file that can be read. `registered` is whether the paths it names are
      those of its own bundle. */
  datatype Meta = Meta(
    runId: Option<RunId>, created: Option<int>, registered: bool, tenant: Option<string>,
    stage: Stage, sourceRun: Option<RunId>, review: Option<Review>, proposal: Option<Proposal>)

  /** `meta` is `None` where the file cannot be read, `data` where it does not exist. */
  datatype Bundle = Bundle(meta: Option<Meta>, data: Option<string>)

  type Store = map<Place, Bundle>

  datatype Draft = Draft(regular: bool, size: int, digest: string, rows: Option<Rows>)

  type Drafts = map<string, Draft>

  const MAX_PROPOSAL := 1024 * 1024

  /** `_verified_result_rows`, a function of one bundle's two files. */
  type Reader = (Place, Bundle) -> Option<Rows>

  /** A bundle is only accepted under the name of its own run ID. */
  ghost predicate Honest(reader: Reader) {
    forall p, b :: reader(p, b).Some? ==> b.meta.Some? && b.meta.value.runId.Some? && p.name == NameFor(b.meta.value.runId.value)
  }

  // ----------------------------------------------------------- verifying a proposal

  predicate At(store: Store, p: Place, run: RunId) {
    p in store && p.name == NameFor(run)
  }

  /** Exactly one metadata file carries this run ID as its name. */
  predicate OnlyAt(store: Store, run: RunId, p: Place) {
    At(store, p, run) && forall q :: q in store && q.name == NameFor(run) ==> q == p
  }

  predicate IsLetter(c: char) {
    'a' <= c <= 'z' || 'A' <= c <= 'Z'
  }

  predicate IsDigit(c: char) {
    '0' <= c <= '9'
  }

  predicate IsStableId(id: string) {
    && 1 <= |id| <= 1024 && IsLetter(id[0])
    && forall i :: 1 <= i < |id| ==> IsLetter(id[i]) || IsDigit(id[i]) || id[i] in "_.:/#~%*-"
  }

  predicate IsRunId(id: string) {
    && 1 <= |id| <= 128 && (IsLetter(id[0]) || IsDigit(id[0]))
    && forall i :: 1 <= i < |id| ==> IsLetter(id[i]) || IsDigit(id[i]) || id[i] in "_-"
  }

  predicate IsDigest(s: string) {
    |s| == 64 && forall i :: 0 <= i < |s| ==> IsDigit(s[i]) || 'a' <= s[i] <= 'f'
  }

  /** Sorted, without repetition. */
  predicate Ascending(ids: seq<string>) {
    forall i, j :: 0 <= i < j < |ids| ==> ids[i] != ids[j] && LexLeq(ids[i], ids[j])
  }

  predicate AreRunIds(ids: seq<RunId>) {
    Ascending(ids) && forall i :: 0 <= i < |ids| ==> IsRunId(ids[i])
  }

  /** What a binding in order says about its evidence. */
  datatype Binding = Binding(relationship: string, observations: seq<string>, sources: seq<RunId>, targets: seq<RunId>,
                             reviews: seq<RunId>)

  predicate SnapshotOk(s: Snapshot) {
    && (s.generation.Some? ==> IsRunId(s.generation.value))
    && Ascending(s.observations) && (forall i :: 0 <= i < |s.observations| ==> IsStableId(s.observations[i]))
    && AreRunIds(s.sources) && AreRunIds(s.targets) && AreRunIds(s.reviews)
    && s.signed
  }

  /** The checks on IDs, on the digest of a binding of today's shape and on the snapshot. */
  function Bound(proposal: Proposal): Option<Binding> {
    if proposal.relationship.None? || proposal.proposed.None? then None
    else if !IsStableId(proposal.relationship.value) || !IsStableId(proposal.proposed.value) then None
    else if proposal.shape.Current? && !proposal.signed then None
    else if proposal.snapshot.None? || !SnapshotOk(proposal.snapshot.value) then None
    else
      var s := proposal.snapshot.value;
      Some(Binding(proposal.relationship.value, s.observations, s.sources, s.targets, s.reviews))
  }

  predicate EvidenceOk(meta: Meta, rows: Rows, run: RunId, binding: Binding, tenant: string) {
    && meta.tenant == Some(tenant) && rows != []
    && (run in binding.sources ==> meta.stage.SourceStage?)
    && (run in binding.targets ==> meta.stage.TargetStage? && meta.sourceRun.Some? && meta.sourceRun.value in binding.sources)
    && (run in binding.reviews ==>
          && meta.review.Some? && meta.review.value.relationship == binding.relationship
          && meta.review.value.observation in binding.observations && meta.review.value.source in binding.sources)
  }

  predicate EvidenceAt(reader: Reader, store: Store, run: RunId, binding: Binding, tenant: string, p: Place) {
    && OnlyAt(store, run, p) && reader(p, store[p]).Some? && store[p].meta.Some?
    && EvidenceOk(store[p].meta.value, reader(p, store[p]).value, run, binding, tenant)
  }

  predicate EvidenceFound(reader: Reader, store: Store, run: RunId, binding: Binding, tenant: string) {
    exists p :: p in store && EvidenceAt(reader, store, run, binding, tenant, p)
  }

  function Evidence(binding: Binding): set<RunId> {
    (set run | run in binding.sources) + (set run | run in binding.targets) + (set run | run in binding.reviews)
  }

  /** `_verify_candidate_proposal_evidence_bundles`. */
  predicate EvidenceVerifies(reader: Reader, store: Store, meta: Meta, binding: Binding) {
    && meta.tenant.Some? && IsDigest(meta.tenant.value)
    && binding.observations != [] && binding.sources != [] && binding.targets != [] && binding.reviews != []
    && forall run :: run in Evidence(binding) ==> EvidenceFound(reader, store, run, binding, meta.tenant.value)
  }

  predicate DraftMatches(draft: Draft, proposal: Proposal, rows: Rows) {
    && draft.regular && 1 <= draft.size <= MAX_PROPOSAL && draft.rows == Some(rows)
    && (proposal.shape.Current? ==> draft.size == proposal.size && draft.digest == proposal.digest)
  }

  /** The keys are known ones and the path is absolute. */
  predicate WellShaped(proposal: Proposal) {
    !proposal.shape.Misshapen? && proposal.path != "" && proposal.path[0] == '/'
  }

  datatype Verdict = NotLive | Live(references: set<RunId>) | Broken

  /** `_verified_candidate_proposal_references`. */
  function Verify(reader: Reader, store: Store, drafts: Drafts, p: Place): Verdict
    requires p in store && store[p].meta.Some?
  {
    var meta := store[p].meta.value;
    if meta.proposal.None? then NotLive
    else
      var proposal := meta.proposal.value;
      var bound := Bound(proposal);
      if !WellShaped(proposal) then Broken
      else if proposal.shape.Legacy? && proposal.path !in drafts then NotLive
      else if bound.None? || !EvidenceVerifies(reader, store, meta, bound.value) || reader(p, store[p]).None? then Broken
      else if proposal.path !in drafts then NotLive
      else if !DraftMatches(drafts[proposal.path], proposal, reader(p, store[p]).value) then Broken
      else Live(Evidence(bound.value) + if meta.runId.Some? then {meta.runId.value} else {})
  }

  // ----------------------------------------------------------------- the references

  /** An overlay observation; `automatic` says it comes from an automatic stage. */
  datatype Observation = Observation(id: string, automatic: bool, evidence: set<RunId>)

  /** The run is the only one of its name and was created at or after the cutoff. */
  predicate Recent(store: Store, run: RunId, cutoff: int) {
    exists p :: p in store && OnlyAt(store, run, p) && CreatedSince(store[p], cutoff)
  }

  predicate CreatedSince(b: Bundle, cutoff: int) {
    b.meta.Some? && b.meta.value.created.Some? && b.meta.value.created.value >= cutoff
  }

  /** `retired_observation`: automatic evidence lapses with the first run that is old,
      unreadable, missing or ambiguous. */
  predicate Retired(store: Store, o: Observation, cutoff: int) {
    o.automatic && exists run :: run in o.evidence && !Recent(store, run, cutoff)
  }

  /** What pins evidence: the observations of the verified overlays, the captures and the
      reference validations. Each is `None` where its verification fails. */
  datatype Registries = Registries(overlays: Option<seq<Observation>>, captures: Option<set<RunId>>,
                                   validations: Option<set<RunId>>)

  predicate Verified(registries: Registries) {
    registries.overlays.Some? && registries.captures.Some? && registries.validations.Some?
  }

  function RootsOf(registries: Registries): Roots
    requires Verified(registries)
  {
    Roots(registries.overlays.value, registries.captures.value, registries.validations.value)
  }

  /** What the registries pin, once they are verified. */
  datatype Roots = Roots(observations: seq<Observation>, captures: set<RunId>, validations: set<RunId>)

  ghost predicate Pinned(store: Store, roots: Roots, cutoff: int, id: string) {
    exists i :: 0 <= i < |roots.observations| && roots.observations[i].id == id && !Retired(store, roots.observations[i], cutoff)
  }

  /** A run that an observation which is not retired, or a review of one, refers to. */
  ghost predicate OverlayRefers(store: Store, roots: Roots, cutoff: int, run: RunId) {
    || (exists i :: 0 <= i < |roots.observations| && run in roots.observations[i].evidence
                    && !Retired(store, roots.observations[i], cutoff))
    || (exists p :: p in store && Reviews(store[p], run)
                    && Pinned(store, roots, cutoff, store[p].meta.value.review.value.observation))
  }

  predicate Reviews(b: Bundle, run: RunId) {
    b.meta.Some? && b.meta.value.review.Some? && b.meta.value.runId == Some(run)
  }

  predicate ReviewsKept(b: Bundle, run: RunId, kept: set<string>) {
    Reviews(b, run) && b.meta.value.review.value.observation in kept
  }

  predicate IsLive(reader: Reader, store: Store, drafts: Drafts, p: Place) {
    p in store && store[p].meta.Some? && Verify(reader, store, drafts, p).Live?
  }

  ghost predicate ProposalRefers(reader: Reader, store: Store, drafts: Drafts, run: RunId) {
    exists p :: p in store && IsLive(reader, store, drafts, p) && run in Verify(reader, store, drafts, p).references
  }

  ghost predicate Referred(reader: Reader, store: Store, drafts: Drafts, roots: Roots, cutoff: int, run: RunId) {
    || run in roots.captures || run in roots.validations
    || OverlayRefers(store, roots, cutoff, run) || ProposalRefers(reader, store, drafts, run)
  }

  /** All metadata can be read and no proposal is broken. */
  ghost predicate Sane(reader: Reader, store: Store, drafts: Drafts) {
    forall p :: p in store ==> store[p].meta.Some? && !Verify(reader, store, drafts, p).Broken?
  }

  ghost predicate Lists(places: seq<Place>, store: Store) {
    Distinct(places) && forall p :: p in store <==> p in places
  }

  /** The metadata files that carry this run ID as their name. */
  method Matches(store: Store, places: seq<Place>, run: RunId) returns (found: seq<Place>)
    requires Lists(places, store)
    ensures forall p :: p in found <==> At(store, p, run)
    ensures Distinct(found)
  {
    found := [];
    for i := 0 to |places|
      invariant forall p :: p in found <==> p in places[..i] && p.name == NameFor(run)
      invariant Distinct(found)
    {
      assert places[..i + 1] == places[..i] + [places[i]];
      if places[i].name == NameFor(run) {
        assert places[i] !in found;
        found := found + [places[i]];
      }
    }
    assert places[..|places|] == places;
  }

  lemma OneMatch(store: Store, found: seq<Place>, run: RunId)
    requires Distinct(found) && forall p :: p in found <==> At(store, p, run)
    ensures |found| == 1 ==> OnlyAt(store, run, found[0])
    ensures |found| != 1 ==> forall p :: !OnlyAt(store, run, p)
  {
    forall p ensures At(store, p, run) <==> exists i :: 0 <= i < |found| && found[i] == p {
      assert p in found <==> At(store, p, run);
    }
    if |found| == 1 {
      forall q | q in store && q.name == NameFor(run) ensures q == found[0] {
        assert At(store, q, run);
      }
    } else if |found| > 1 {
      assert At(store, found[0], run) && At(store, found[1], run) && found[0] != found[1];
    }
  }

  /** The loop of `_verify_candidate_proposal_evidence_bundles`. */
  method VerifyEvidence(reader: Reader, store: Store, places: seq<Place>, meta: Meta, binding: Binding) returns (ok: bool)
    requires Lists(places, store)
    ensures ok <==> EvidenceVerifies(reader, store, meta, binding)
  {
    hide EvidenceOk, OnlyAt, At, Lists, Evidence;
    if meta.tenant.None? || !IsDigest(meta.tenant.value) {
      return false;
    }
    if binding.observations == [] || binding.sources == [] || binding.targets == [] || binding.reviews == [] {
      return false;
    }
    var tenant, all := meta.tenant.value, Evidence(binding);
    var todo := all;
    while todo != {}
      invariant todo <= all
      invariant forall run :: run in all && run !in todo ==> EvidenceFound(reader, store, run, binding, tenant)
      decreases |todo|
    {
      var run :| run in todo;
      var found := Matches(store, places, run);
      OneMatch(store, found, run);
      if |found| != 1 {
        return false;
      }
      var p := found[0];
      TheOnlyPlace(store, run, p);
      if reader(p, store[p]).None? || store[p].meta.None? {
        return false;
      }
      if !EvidenceOk(store[p].meta.value, reader(p, store[p]).value, run, binding, tenant) {
        return false;
      }
      assert EvidenceAt(reader, store, run, binding, tenant, p);
      assert EvidenceFound(reader, store, run, binding, tenant);
      todo := todo - {run};
    }
    return true;
  }

  lemma TheOnlyPlace(store: Store, run: RunId, p: Place)
    requires OnlyAt(store, run, p)
    ensures p in store && forall q :: OnlyAt(store, run, q) ==> q == p
  {
  }

  /** `_verified_candidate_proposal_references`. */
  method VerifyProposal(reader: Reader, store: Store, places: seq<Place>, drafts: Drafts, p: Place) returns (verdict: Verdict)
    requires Lists(places, store) && p in store && store[p].meta.Some?
    ensures verdict == Verify(reader, store, drafts, p)
  {
    hide EvidenceVerifies, Lists;
    var meta := store[p].meta.value;
    if meta.proposal.None? {
      return NotLive;
    }
    var proposal := meta.proposal.value;
    if !WellShaped(proposal) {
      return Broken;
    }
    if proposal.shape.Legacy? && proposal.path !in drafts {
      return NotLive;
    }
    var bound := Bound(proposal);
    if bound.None? {
      return Broken;
    }
    var evidence := VerifyEvidence(reader, store, places, meta, bound.value);
    if !evidence || reader(p, store[p]).None? {
      return Broken;
    }
    if proposal.path !in drafts {
      return NotLive;
    }
    if !DraftMatches(drafts[proposal.path], proposal, reader(p, store[p]).value) {
      return Broken;
    }
    return Live(Evidence(bound.value) + if meta.runId.Some? then {meta.runId.value} else {});
  }

  ghost predicate ObservationRefers(store: Store, roots: Roots, cutoff: int, n: nat, run: RunId)
    requires n <= |roots.observations|
  {
    exists j :: 0 <= j < n && run in roots.observations[j].evidence && !Retired(store, roots.observations[j], cutoff)
  }

  ghost predicate PinnedAmong(store: Store, roots: Roots, cutoff: int, n: nat, id: string)
    requires n <= |roots.observations|
  {
    exists j :: 0 <= j < n && roots.observations[j].id == id && !Retired(store, roots.observations[j], cutoff)
  }

  /** The overlay loop: the observations that stay, and the runs they name. */
  method OverlayReferences(store: Store, roots: Roots, cutoff: int) returns (kept: set<string>, overlay: set<RunId>)
    ensures forall id :: id in kept <==> PinnedAmong(store, roots, cutoff, |roots.observations|, id)
    ensures forall run :: run in overlay <==> ObservationRefers(store, roots, cutoff, |roots.observations|, run)
  {
    hide Retired;
    kept, overlay := {}, {};
    for i := 0 to |roots.observations|
      invariant forall id :: id in kept <==> PinnedAmong(store, roots, cutoff, i, id)
      invariant forall run :: run in overlay <==> ObservationRefers(store, roots, cutoff, i, run)
    {
      var o := roots.observations[i];
      if !Retired(store, o, cutoff) {
        kept := kept + {o.id};
        overlay := overlay + o.evidence;
      }
    }
  }

  ghost predicate ReviewAmong(store: Store, places: seq<Place>, n: nat, kept: set<string>, run: RunId)
    requires n <= |places| && forall i :: 0 <= i < n ==> places[i] in store
  {
    exists j :: 0 <= j < n && ReviewsKept(store[places[j]], run, kept)
  }

  ghost predicate ProposalAmong(reader: Reader, store: Store, drafts: Drafts, places: seq<Place>, n: nat, run: RunId)
    requires n <= |places| && forall i :: 0 <= i < n ==> places[i] in store
  {
    exists j :: 0 <= j < n && IsLive(reader, store, drafts, places[j])
                && run in Verify(reader, store, drafts, places[j]).references
  }

  /** `_schema_evidence_references`: first the registries, then the metadata files in the
      order of their listing; one part that cannot be verified refuses them all. */
  method EvidenceReferences(reader: Reader, store: Store, places: seq<Place>, drafts: Drafts, registries: Registries, cutoff: int)
    returns (runs: Option<set<RunId>>)
    requires Lists(places, store)
    ensures runs.Some? <==> Verified(registries) && Sane(reader, store, drafts)
    ensures runs.Some? ==>
      forall run :: run in runs.value <==> Referred(reader, store, drafts, RootsOf(registries), cutoff, run)
  {
    hide Verify, Retired, ObservationRefers, PinnedAmong, OverlayRefers, Pinned, Distinct;
    if !Verified(registries) {
      return None;
    }
    var roots := RootsOf(registries);
    var kept, fromObservations := OverlayReferences(store, roots, cutoff);
    var reviews: set<RunId>, proposals: set<RunId> := {}, {};
    for i := 0 to |places|
      invariant forall j :: 0 <= j < i ==> store[places[j]].meta.Some? && !Verify(reader, store, drafts, places[j]).Broken?
      invariant forall run :: run in reviews <==> ReviewAmong(store, places, i, kept, run)
      invariant forall run :: run in proposals <==> ProposalAmong(reader, store, drafts, places, i, run)
    {
      var p := places[i];
      assert p in store;
      if store[p].meta.None? {
        return None;
      }
      var meta := store[p].meta.value;
      if meta.review.Some? && meta.review.value.observation in kept && meta.runId.Some? {
        reviews := reviews + {meta.runId.value};
      }
      var verdict := VerifyProposal(reader, store, places, drafts, p);
      match verdict
      case NotLive =>
      case Live(references) => proposals := proposals + references;
      case Broken => return None;
    }
    var all := fromObservations + reviews + proposals + roots.validations + roots.captures;
    forall run ensures run in all <==> Referred(reader, store, drafts, roots, cutoff, run) {
      OverlayIs(store, places, roots, cutoff, kept, run);
      ProposalsAre(reader, store, drafts, places, run);
    }
    return Some(all);
  }

  lemma OverlayIs(store: Store, places: seq<Place>, roots: Roots, cutoff: int, kept: set<string>, run: RunId)
    requires Lists(places, store) && forall id :: id in kept <==> PinnedAmong(store, roots, cutoff, |roots.observations|, id)
    ensures OverlayRefers(store, roots, cutoff, run) <==>
              ObservationRefers(store, roots, cutoff, |roots.observations|, run) ||
              ReviewAmong(store, places, |places|, kept, run)
  {
    hide Retired, Distinct;
    if p :| p in store && Reviews(store[p], run)
            && Pinned(store, roots, cutoff, store[p].meta.value.review.value.observation) {
      var j :| 0 <= j < |places| && places[j] == p;
      assert ReviewsKept(store[places[j]], run, kept);
    }
  }

  lemma ProposalsAre(reader: Reader, store: Store, drafts: Drafts, places: seq<Place>, run: RunId)
    requires Lists(places, store)
    ensures ProposalRefers(reader, store, drafts, run) <==> ProposalAmong(reader, store, drafts, places, |places|, run)
  {
    hide Verify, Distinct;
    if p :| p in store && IsLive(reader, store, drafts, p) && run in Verify(reader, store, drafts, p).references {
      var j :| 0 <= j < |places| && places[j] == p;
      assert IsLive(reader, store, drafts, places[j]);
    }
  }

  // --------------------------------------------------------- the checks, written out

  lemma NamesAre(run: RunId)
    ensures NameFor(run) == run + ".meta.json"
  {
  }

  /** The three kinds of names, by their code points. */
  lemma IdsAre(id: string)
    ensures IsStableId(id) <==>
      && 1 <= |id| <= 1024 && (65 <= id[0] as int <= 90 || 97 <= id[0] as int <= 122)
      && forall c :: c in id[1..] ==>
           || 48 <= c as int <= 57 || 65 <= c as int <= 90 || 97 <= c as int <= 122
           || c as int in {35, 37, 42, 45, 46, 47, 58, 95, 126}
    ensures IsRunId(id) <==>
      && 1 <= |id| <= 128 && (48 <= id[0] as int <= 57 || 65 <= id[0] as int <= 90 || 97 <= id[0] as int <= 122)
      && forall c :: c in id[1..] ==>
           48 <= c as int <= 57 || 65 <= c as int <= 90 || 97 <= c as int <= 122 || c as int in {45, 95}
    ensures IsDigest(id) <==> |id| == 64 && forall c :: c in id ==> 48 <= c as int <= 57 || 97 <= c as int <= 102
  {
    if |id| >= 1 {
      assert forall i :: 1 <= i < |id| ==> id[i] == id[1..][i - 1];
      assert forall i :: 1 <= i < |id| ==> id[i] in id[1..];
    }
    assert forall i :: 0 <= i < |id| ==> id[i] in id;
  }

  /** Sorted without repetition means that each ID is less than the next one. */
  lemma AscendingIs(ids: seq<string>)
    ensures Ascending(ids) <==> forall i :: 1 <= i < |ids| ==> ids[i - 1] != ids[i] && LexLeq(ids[i - 1], ids[i])
  {
    hide LexLeq;
    if forall i :: 1 <= i < |ids| ==> ids[i - 1] != ids[i] && LexLeq(ids[i - 1], ids[i]) {
      forall i, j | 0 <= i < j < |ids| ensures ids[i] != ids[j] && LexLeq(ids[i], ids[j]) {
        StepsAscend(ids, i, j);
      }
    }
  }

  lemma {:induction false} StepsAscend(ids: seq<string>, i: nat, j: nat)
    requires i < j < |ids| && forall k :: 1 <= k < |ids| ==> ids[k - 1] != ids[k] && LexLeq(ids[k - 1], ids[k])
    ensures ids[i] != ids[j] && LexLeq(ids[i], ids[j])
  {
    hide LexLeq;
    if i < j - 1 {
      StepsAscend(ids, i, j - 1);
      LexTransitive(ids[i], ids[j - 1], ids[j]);
      if ids[i] == ids[j] {
        LexAntisymmetric(ids[i], ids[j - 1]);
      }
    }
  }

  /** A binding is in order if its relationship IDs and its snapshot are, and the digests
      that it carries match. */
  lemma BoundIs(proposal: Proposal)
    ensures Bound(proposal).Some? <==>
      && proposal.relationship.Some? && IsStableId(proposal.relationship.value)
      && proposal.proposed.Some? && IsStableId(proposal.proposed.value)
      && (proposal.shape.Current? ==> proposal.signed)
      && proposal.snapshot.Some?
      && (var s := proposal.snapshot.value;
          && s.signed && (s.generation.Some? ==> IsRunId(s.generation.value))
          && Ascending(s.observations) && (forall id :: id in s.observations ==> IsStableId(id))
          && Ascending(s.sources) && (forall id :: id in s.sources ==> IsRunId(id))
          && Ascending(s.targets) && (forall id :: id in s.targets ==> IsRunId(id))
          && Ascending(s.reviews) && (forall id :: id in s.reviews ==> IsRunId(id)))
    ensures Bound(proposal).Some? ==>
      var b, s := Bound(proposal).value, proposal.snapshot.value;
      b.relationship == proposal.relationship.value && b.observations == s.observations
      && b.sources == s.sources && b.targets == s.targets && b.reviews == s.reviews
  {
    hide IsStableId, IsRunId, Ascending;
  }

  /** What a live proposal has, all at once. */
  lemma LiveIs(reader: Reader, store: Store, drafts: Drafts, p: Place)
    requires p in store && store[p].meta.Some?
    ensures IsLive(reader, store, drafts, p) <==>
      var meta := store[p].meta.value;
      && meta.proposal.Some?
      && var proposal := meta.proposal.value;
         && (proposal.shape.Current? || proposal.shape.Legacy?) && proposal.path != "" && proposal.path[0] == '/'
         && Bound(proposal).Some? && EvidenceVerifies(reader, store, meta, Bound(proposal).value)
         // the result bundle and the draft hold the same rows
         && reader(p, store[p]).Some? && proposal.path in drafts
         && drafts[proposal.path].regular && 1 <= drafts[proposal.path].size <= 1048576
         && drafts[proposal.path].rows == reader(p, store[p])
         && (proposal.shape.Current? ==>
               drafts[proposal.path].size == proposal.size && drafts[proposal.path].digest == proposal.digest)
    ensures IsLive(reader, store, drafts, p) ==>
      var meta := store[p].meta.value;
      var b := Bound(meta.proposal.value).value;
      forall run :: run in Verify(reader, store, drafts, p).references <==>
        run in b.sources || run in b.targets || run in b.reviews || meta.runId == Some(run)
  {
    hide EvidenceVerifies, Bound;
  }

  /** What one piece of evidence must be. */
  lemma EvidenceIs(reader: Reader, store: Store, run: RunId, binding: Binding, tenant: string)
    ensures EvidenceFound(reader, store, run, binding, tenant) <==>
      exists p :: p in store && p.name == NameFor(run)
        && (forall q :: q in store && q.name == NameFor(run) ==> q == p)
        && store[p].meta.Some? && reader(p, store[p]).Some? && reader(p, store[p]).value != []
        && var meta := store[p].meta.value;
           && meta.tenant == Some(tenant)
           && (run in binding.sources ==> meta.stage.SourceStage?)
           && (run in binding.targets ==>
                 meta.stage.TargetStage? && exists source :: source in binding.sources && meta.sourceRun == Some(source))
           && (run in binding.reviews ==>
                 exists review :: meta.review == Some(review) && review.relationship == binding.relationship
                                  && review.observation in binding.observations && review.source in binding.sources)
  {
    if EvidenceFound(reader, store, run, binding, tenant) {
      var p :| p in store && EvidenceAt(reader, store, run, binding, tenant, p);
      var meta := store[p].meta.value;
      assert run in binding.targets ==> meta.sourceRun.value in binding.sources && meta.sourceRun == Some(meta.sourceRun.value);
      assert run in binding.reviews ==> meta.review == Some(meta.review.value);
    }
    if p :| && p in store && p.name == NameFor(run)
            && (forall q :: q in store && q.name == NameFor(run) ==> q == p)
            && store[p].meta.Some? && reader(p, store[p]).Some? && reader(p, store[p]).value != []
            && var meta := store[p].meta.value;
               && meta.tenant == Some(tenant)
               && (run in binding.sources ==> meta.stage.SourceStage?)
               && (run in binding.targets ==>
                     meta.stage.TargetStage? && exists source :: source in binding.sources && meta.sourceRun == Some(source))
               && (run in binding.reviews ==>
                     exists review :: meta.review == Some(review) && review.relationship == binding.relationship
                                      && review.observation in binding.observations && review.source in binding.sources)
    {
      assert EvidenceAt(reader, store, run, binding, tenant, p);
    }
  }

  /** An observation lapses exactly if it is automatic and some run of its evidence is not
      found under one name only, or was created before the cutoff or at an unknown time. */
  lemma RetiredIs(store: Store, o: Observation, cutoff: int)
    ensures Retired(store, o, cutoff) <==>
      && o.automatic
      && exists run :: run in o.evidence
           && forall p :: p in store && p.name == NameFor(run) ==>
                || (exists q :: q in store && q.name == NameFor(run) && q != p)
                || store[p].meta.None? || store[p].meta.value.created.None? || store[p].meta.value.created.value < cutoff
  {
    forall run
      ensures Recent(store, run, cutoff) <==>
        exists p :: p in store && p.name == NameFor(run)
          && (forall q :: q in store && q.name == NameFor(run) ==> q == p)
          && store[p].meta.Some? && store[p].meta.value.created.Some? && store[p].meta.value.created.value >= cutoff
    {
      if Recent(store, run, cutoff) {
        var p :| p in store && OnlyAt(store, run, p) && CreatedSince(store[p], cutoff);
      }
      if p :| p in store && p.name == NameFor(run)
              && (forall q :: q in store && q.name == NameFor(run) ==> q == p)
              && store[p].meta.Some? && store[p].meta.value.created.Some? && store[p].meta.value.created.value >= cutoff
      {
        assert OnlyAt(store, run, p) && CreatedSince(store[p], cutoff);
      }
    }
  }

  /** A proposal that is not live is none, or a draft that does not exist; the binding of a
      missing draft is still checked unless it is of the earlier version. Anything else that
      is not live is broken. */
  lemma NotLiveIs(reader: Reader, store: Store, drafts: Drafts, p: Place)
    requires p in store && store[p].meta.Some?
    ensures Verify(reader, store, drafts, p).NotLive? <==>
      var meta := store[p].meta.value;
      || meta.proposal.None?
      || (var proposal := meta.proposal.value;
          && (proposal.shape.Current? || proposal.shape.Legacy?) && proposal.path != "" && proposal.path[0] == '/'
          && proposal.path !in drafts
          && (proposal.shape.Legacy? ||
                (Bound(proposal).Some? && EvidenceVerifies(reader, store, meta, Bound(proposal).value)
                 && reader(p, store[p]).Some?)))
    ensures Verify(reader, store, drafts, p).Broken? <==>
      !IsLive(reader, store, drafts, p) && !Verify(reader, store, drafts, p).NotLive?
  {
    hide EvidenceVerifies, Bound;
  }
}
