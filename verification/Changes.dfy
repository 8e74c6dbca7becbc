/** The specification of every writing handler: the change it makes to the database, or the
    error that leaves the database as it was. */
module Changes {
  import opened Base
  import opened Schema
  import opened Rows
  import opened Capture

  /** Rows written and appended by one committed transaction. */
  datatype Change = Change(
    candidates: map<int, Candidate>, entries: map<int, Entry>,
    nodes: map<int, Node>, nodeTexts: map<int, NodeText>,
    edges: map<int, Edge>, droppedEdges: set<int>,
    refs: seq<SourceRef>, events: seq<CurationEvent>, captures: seq<CaptureEvent>,
    proposals: map<int, Proposal>)

  const NOTHING := Change(map[], map[], map[], map[], map[], {}, [], [], [], map[])

  function CandidateTexts(rows: map<int, Candidate>): map<int, CandidateText> {
    map id | id in rows :: TextOfCandidate(rows[id])
  }

  function EntryTexts(rows: map<int, Entry>): map<int, EntryText> {
    map id | id in rows :: TextOfEntry(rows[id])
  }

  /** ON DELETE SET NULL: events forget the edges that are gone. */
  function Unlinked(events: seq<CurationEvent>, gone: set<int>): seq<CurationEvent> {
    seq(|events|, i requires 0 <= i < |events| =>
      if events[i].edge.Some? && events[i].edge.value in gone then events[i].(edge := None) else events[i])
  }

  /** Every written candidate and entry is re-indexed; topic nodes carry their own index text. */
  function Apply(db: Db, c: Change): Db {
    Db(db.candidates + c.candidates, db.candidateTexts + CandidateTexts(c.candidates),
       db.entries + c.entries, db.entryTexts + EntryTexts(c.entries),
       db.nodes + c.nodes, db.nodeTexts + c.nodeTexts,
       (db.edges + c.edges) - c.droppedEdges,
       db.refs + c.refs, Unlinked(db.events + c.events, c.droppedEdges), db.captures + c.captures,
       db.proposals + c.proposals)
  }

  function Commit(db: Db, r: Result<Change>): Db {
    if r.Ok? then Apply(db, r.value) else db
  }

  // ---- Lookups by unique slug.

  ghost function EntryBySlug(entries: map<int, Entry>, slug: string): Option<int> {
    if SlugTaken(entries, slug) then
      var id :| id in entries && entries[id].slug == slug;
      Some(id)
    else None
  }

  ghost function NodeBySlug(nodes: map<int, Node>, slug: string): Option<int> {
    if NodeSlugTaken(nodes, slug) then
      var id :| id in nodes && nodes[id].slug == slug;
      Some(id)
    else None
  }

  // ---- Changes to one candidate.

  function CandidateEvent(id: int, action: Action, who: Actor, before: Candidate, after: Candidate): CurationEvent {
    CurationEvent(Some(id), None, None, None, action, who.name, who.reason,
                  CandidatesBefore([Snapshot(id, before)]), OfCandidate(Snapshot(id, after)))
  }

  function ReviseCandidate(db: Db, id: int, u: CandidateUpdate, action: Action, who: Actor): Result<Change> {
    if id !in db.candidates then Err(NotFound)
    else
      var row :- UpdatedCandidate(db.candidates[id], u);
      Ok(NOTHING.(candidates := map[id := row], events := [CandidateEvent(id, action, who, db.candidates[id], row)]))
  }

  /** Claim and reject write their status whatever the old one was. */
  function ClaimChange(db: Db, id: int, who: ActorFields): Result<Change> {
    var actor :- RequireActorReason(who);
    ReviseCandidate(db, id, StatusUpdate(Val(Claimed), actor.name), ActClaim, actor)
  }

  function RejectChange(db: Db, id: int, who: ActorFields): Result<Change> {
    var actor :- RequireActorReason(who);
    ReviseCandidate(db, id, StatusUpdate(Val(Rejected), actor.name), ActReject, actor)
  }

  function PatchAction(status: Field<CandidateStatus>): Action {
    if status == Val(Claimed) then ActClaim
    else if status == Val(Rejected) then ActReject
    else if status == Val(SupersededCandidate) then ActSupersede
    else ActRelabel
  }

  /** The status PATCH: any stored status may be written, and actor and reason have defaults. */
  function PatchStatusChange(db: Db, id: int, status: Field<CandidateStatus>, who: ActorFields): Result<Change> {
    var actor := Actor(OrElse(who.actor, "api"), OrElse(who.reason, "candidate status updated"));
    ReviseCandidate(db, id, StatusUpdate(if status.Val? then status else Null, actor.name), PatchAction(status), actor)
  }

  datatype RelabelFields = RelabelFields(
    title: Field<string>, summary: Field<string>, body: Field<string>, kind: Field<string>,
    claim: Field<ClaimStrength>, audience: Field<Json>)

  function RelabelUpdate(f: RelabelFields, actor: string): CandidateUpdate {
    CandidateUpdate(Absent, f.title, f.body, f.summary, f.kind, NO_LABELS.(claim := f.claim), f.audience, actor)
  }

  function RelabelChange(db: Db, id: int, f: RelabelFields, who: ActorFields): Result<Change> {
    var actor :- RequireActorReason(who);
    ReviseCandidate(db, id, RelabelUpdate(f, actor.name), ActRelabel, actor)
  }

  function RescopeUpdate(f: LabelFields, actor: string): CandidateUpdate {
    CandidateUpdate(Absent, Absent, Absent, Absent, Absent, f, Absent, actor)
  }

  /** The first scope key a rescope payload lacks. */
  function MissingScopeKey(f: LabelFields): Option<string> {
    if f.scopeKind.Absent? then Some("missing scope_kind")
    else if f.authorityKind.Absent? then Some("missing authority_scope_kind")
    else if f.discovery.Absent? then Some("missing discovery_scope")
    else if f.claim.Absent? then Some("missing claim_strength")
    else None
  }

  function RescopeChange(db: Db, id: int, f: LabelFields, who: ActorFields): Result<Change> {
    if MissingScopeKey(f).Some? then Err(Invalid(MissingScopeKey(f).value)) else
    var actor :- RequireActorReason(who);
    ReviseCandidate(db, id, RescopeUpdate(f, actor.name), ActRescope, actor)
  }

  // ---- Promotion.

  function EventOfPromotion(
    id: int, who: Actor, before: Before, after: Candidate, entryId: int, entry: Entry, refIds: seq<int>): CurationEvent
  {
    CurationEvent(Some(id), Some(entryId), None, None, ActPromote, who.name, who.reason, before,
                  OfPromotion(Snapshot(id, after), entryId, entry, refIds))
  }

  /** Ids of `count` rows appended after the first `used`. */
  function IdsAfter(used: nat, count: nat): seq<int> {
    seq(count, i requires 0 <= i < count => used + 1 + i)
  }

  function PromotionRows(
    id: int, row: Candidate, entryId: int, entry: Entry, refs: seq<SourceRef>, event: CurationEvent): Change
  {
    NOTHING.(candidates := map[id := row], entries := map[entryId := entry], refs := refs, events := [event])
  }

  /** The reference rows of a promotion; a captured payload has no id to fall back to. */
  function PromotedRefs(c: Candidate, refId: Option<int>, entryId: int, who: Actor): seq<SourceRef> {
    RefRows(RefItems(c), EntryTarget, entryId, who.name, c.summary, if refId.Some? then Decimal(refId.value) else "<nil>")
  }

  /** What is written once the candidate `id` with row `c` may be promoted to `entry`: the entry,
      one reference per object-valued source, the promoted row and the event. */
  ghost function PromotionTo(
    db: Db, id: int, c: Candidate, refId: Option<int>, entry: Entry, who: Actor, before: Before): Result<Change>
  {
    var verdict := EntryVerdict(db.entries, entry);
    if verdict.Some? then Err(verdict.value) else
    var entryId := NextId(db.entries.Keys);
    var refs := PromotedRefs(c, refId, entryId, who);
    if !RefsPass(refs) then Err(CONSTRAINT) else
    var row :- UpdatedCandidate(c, StatusUpdate(Val(Promoted), who.name));
    Ok(PromotionRows(id, row, entryId, entry, refs,
                     EventOfPromotion(id, who, before, row, entryId, entry, IdsAfter(|db.refs|, |refs|))))
  }

  ghost function PromotionOf(
    db: Db, id: int, c: Candidate, refId: Option<int>, f: EntryFields, who: Actor, before: Before): Result<Change>
  {
    PromotionTo(db, id, c, refId, PromotedEntry(c, refId, f, who.name), who, before)
  }

  /** Promoting a stored candidate, which must be pending or claimed. */
  ghost function PromoteStored(db: Db, id: int, f: EntryFields, who: Actor): Result<Change> {
    if id !in db.candidates then Err(NotFound)
    else
      var c := db.candidates[id];
      if c.status != Pending && c.status != Claimed then Err(Invalid("candidate_not_promotable"))
      else PromotionOf(db, id, c, Some(id), f, who, CandidatesBefore([Snapshot(id, c)]))
  }

  ghost function PromoteChange(db: Db, id: int, f: EntryFields, who: ActorFields): Result<Change> {
    var actor :- RequireActorReason(who);
    PromoteStored(db, id, f, actor)
  }

  // ---- Creating, capturing, splitting and merging candidates.

  function CreationRow(f: CandidateFields, log: LogFields, reason: Field<string>, id: int): CaptureEvent {
    CaptureRow(
      log.(policy := Val(OrElse(log.policy, "api-candidate-create"))), f.body, f.summary, f.refs,
      OrElse(f.createdBy, "api"), f.labels.scopeKind, f.labels.scopeId, Captured, OrElse(reason, "candidate created"),
      [id], -1, -1)
  }

  function CapturedRows(id: int, row: Candidate, captures: seq<CaptureEvent>): Change {
    NOTHING.(candidates := map[id := row], captures := captures)
  }

  ghost function CreateCandidateChange(db: Db, f: CandidateFields, log: LogFields, reason: Field<string>): Result<Change> {
    var row :- NewCandidate(f);
    var id := NextId(db.candidates.Keys);
    var event := CreationRow(f, log, reason, id);
    if !CheckCapture(event) then Err(CONSTRAINT)
    else Ok(CapturedRows(id, row, [event]))
  }

  function ErroredRow(p: CapturePayload, e: Failure): CaptureEvent {
    DecisionRow(p, Errored, ErrorText(e), [], -1)
  }

  ghost function AutoPromotionTo(
    db: Db, p: CapturePayload, id: int, row: Candidate, entry: Entry, who: Actor, event: CaptureEvent): Result<Change>
  {
    var verdict := EntryVerdict(db.entries, entry);
    if verdict.Some? then Ok(CapturedRows(id, row, [event, ErroredRow(p, verdict.value)]))
    else
      var promotion :- PromotionTo(db, id, row, None, entry, who, PayloadBefore(row));
      Ok(promotion.(captures := [event]))
  }

  function AutoPromoter(p: CapturePayload): Actor {
    Actor(OrElse(p.actor, "auto-promote"), OrElse(p.reason, "auto-promoted from capture"))
  }

  /** The rest of a capture once its candidate row is accepted. A failed entry insert in the
      auto-promotion path keeps the pending candidate and logs a second, errored, capture event;
      a failed reference insert rolls everything back. */
  ghost function CaptureRowChange(db: Db, p: CapturePayload, row: Candidate): Result<Change> {
    var id := NextId(db.candidates.Keys);
    var event := DecisionRow(p, Captured, OrElse(p.reason, "captured candidate"), [id], -1);
    if !CheckCapture(event) then Err(CONSTRAINT)
    else if !AutoPromotes(p) then Ok(CapturedRows(id, row, [event]))
    else AutoPromotionTo(db, p, id, row, PromotedEntry(row, None, p.entry, AutoPromoter(p).name), AutoPromoter(p), event)
  }

  function DecisionChange(p: CapturePayload, decision: Decision, reason: string, size: int): Result<Change> {
    var event := DecisionRow(p, decision, reason, [], size);
    if CheckCapture(event) then Ok(NOTHING.(captures := [event])) else Err(CONSTRAINT)
  }

  ghost function CaptureChange(db: Db, p: CapturePayload): Result<Change> {
    var early := EarlyDecision(p);
    if early.Some? then DecisionChange(p, early.value.0, early.value.1, early.value.2)
    else CaptureRowChange(db, p, NewCandidate(CandidateOf(p)).value)
  }

  /** The rows of the fragments that are objects, in order; the first refusal stops the split. */
  function FragmentRows(c: Candidate, fragments: seq<Option<CandidateFields>>, actor: string): Result<seq<Candidate>> {
    if fragments == [] then Ok([])
    else
      var rows :- FragmentRows(c, fragments[..|fragments| - 1], actor);
      match fragments[|fragments| - 1]
      case None => Ok(rows)
      case Some(part) =>
        var row :- NewCandidate(FragmentFields(c, part, actor));
        Ok(rows + [row])
  }

  function SnapshotsFrom(first: int, rows: seq<Candidate>): seq<Snapshot> {
    seq(|rows|, i requires 0 <= i < |rows| => Snapshot(first + i, rows[i]))
  }

  /** The table holding `rows` under consecutive ids from `first`. */
  function RowsFrom(first: int, rows: seq<Candidate>): map<int, Candidate> {
    if rows == [] then map[]
    else RowsFrom(first, rows[..|rows| - 1])[first + |rows| - 1 := rows[|rows| - 1]]
  }

  /** Inserting `rows` as the parts of the stored candidate `id`. */
  ghost function SplitInto(db: Db, id: int, rows: seq<Candidate>, who: Actor): Result<Change>
    requires id in db.candidates
  {
    var c := db.candidates[id];
    var first := NextId(db.candidates.Keys);
    var original :- UpdatedCandidate(c, StatusUpdate(Val(NeedsSplit), who.name));
    Ok(NOTHING.(
      candidates := RowsFrom(first, rows)[id := original],
      events := [CurationEvent(Some(id), None, None, None, ActSplit, who.name, who.reason,
                               CandidatesBefore([Snapshot(id, c)]),
                               OfSplit(Snapshot(id, original), SnapshotsFrom(first, rows)))]))
  }

  ghost function SplitChange(db: Db, id: int, fragments: seq<Option<CandidateFields>>, who: ActorFields): Result<Change> {
    var actor :- RequireActorReason(who);
    if |fragments| < 2 then Err(Invalid("at_least_two_fragments_required"))
    else if id !in db.candidates then Err(NotFound)
    else
      var rows :- FragmentRows(db.candidates[id], fragments, actor.name);
      SplitInto(db, id, rows, actor)
  }

  predicate AllStored(candidates: map<int, Candidate>, ids: seq<int>) {
    forall i | 0 <= i < |ids| :: ids[i] in candidates
  }

  function RowsOf(candidates: map<int, Candidate>, ids: seq<int>): seq<Candidate>
    requires AllStored(candidates, ids)
  {
    seq(|ids|, i requires 0 <= i < |ids| => candidates[ids[i]])
  }

  function SnapshotsOf(candidates: map<int, Candidate>, ids: seq<int>): seq<Snapshot>
    requires AllStored(candidates, ids)
  {
    seq(|ids|, i requires 0 <= i < |ids| => Snapshot(ids[i], candidates[ids[i]]))
  }

  function MarkedMerged(c: Candidate, actor: string): Candidate {
    c.(status := NeedsMerge, updatedBy := actor)
  }

  /** The source rows of a merge after it. */
  function SourcesAfter(candidates: map<int, Candidate>, ids: seq<int>, actor: string): (r: map<int, Candidate>)
    requires AllStored(candidates, ids)
    ensures forall k :: k in r <==> k in ids
    ensures forall k :: k in r ==> k in candidates && r[k] == MarkedMerged(candidates[k], actor)
  {
    if ids == [] then map[]
    else
      var rest := ids[..|ids| - 1];
      assert ids == rest + [ids[|ids| - 1]] && AllStored(candidates, rest);
      SourcesAfter(candidates, rest, actor)[ids[|ids| - 1] := MarkedMerged(candidates[ids[|ids| - 1]], actor)]
  }

  predicate SourcesPass(candidates: map<int, Candidate>, ids: seq<int>, actor: string)
    requires AllStored(candidates, ids)
  {
    forall i | 0 <= i < |ids| :: CheckCandidate(MarkedMerged(candidates[ids[i]], actor))
  }

  /** Storing `merged` in place of the stored candidates `ids`. */
  ghost function MergedInto(db: Db, ids: seq<int>, merged: Candidate, who: Actor): Result<Change>
    requires AllStored(db.candidates, ids)
  {
    var id := NextId(db.candidates.Keys);
    var sources := SourcesAfter(db.candidates, ids, who.name);
    if !SourcesPass(db.candidates, ids, who.name) then Err(CONSTRAINT) else
    Ok(NOTHING.(
      candidates := sources[id := merged],
      events := [CurationEvent(Some(id), None, None, None, ActMerge, who.name, who.reason,
                               CandidatesBefore(SnapshotsOf(db.candidates, ids)),
                               OfMerge(Snapshot(id, merged), SnapshotsOf(sources, ids)))]))
  }

  ghost function MergeTo(db: Db, ids: seq<int>, fields: CandidateFields, who: Actor): Result<Change>
    requires AllStored(db.candidates, ids)
  {
    var merged :- NewCandidate(fields);
    MergedInto(db, ids, merged, who)
  }

  ghost function MergeChange(db: Db, ids: seq<int>, f: CandidateFields, who: ActorFields): Result<Change> {
    var actor :- RequireActorReason(who);
    if |ids| < 2 then Err(Invalid("at_least_two_candidates_required"))
    else if !AllStored(db.candidates, ids) then Err(NotFound)
    else MergeTo(db, ids, MergedFields(RowsOf(db.candidates, ids), f, actor.name), actor)
  }

  // ---- Proposals.

  /** A proposal-create payload. `action` is the proposed_action object, of which only an
      object-valued "payload" key is read. */
  datatype ProposalFields = ProposalFields(
    kind: Field<ProposalKind>, status: Field<ProposalStatus>, proposer: Field<string>, proposerKind: Field<ProposerKind>,
    confidence: Field<Confidence>, reason: Field<string>, candidateId: Field<int>, candidateIds: seq<int>,
    targetEntry: Field<int>, entry: Field<EntryFields>, action: Field<Option<EntryFields>>)

  function PositiveIds(ids: seq<int>): seq<int> {
    if ids == [] then []
    else
      var last := ids[|ids| - 1];
      PositiveIds(ids[..|ids| - 1]) + (if last > 0 then [last] else [])
  }

  function ProposalCandidateIds(f: ProposalFields): seq<int> {
    Unique(PositiveIds([OrElse(f.candidateId, 0)] + f.candidateIds))
  }

  /** The proposal row, given that its candidates exist; a payload without an action gets one
      whose payload is the proposed entry. */
  function NewProposal(f: ProposalFields): Proposal {
    Proposal(
      OrElse(f.kind, OtherKind("")), OrElse(f.status, Proposed), ProposalCandidateIds(f), Column(f.targetEntry),
      OrElse(f.entry, NO_OVERRIDES),
      if f.action.Val? then f.action.value else Column(f.entry),
      OrElse(f.proposer, ""), OrElse(f.proposerKind, Agent), OrElse(f.confidence, Unverified), OrElse(f.reason, ""),
      None, None, None)
  }

  function ProposalVerdict(candidates: map<int, Candidate>, entries: map<int, Entry>, f: ProposalFields): Option<Failure> {
    var p := NewProposal(f);
    if p.kind.OtherKind? then Some(Invalid("invalid_proposal_kind"))
    else if p.status.OtherProposalStatus? then Some(Invalid("invalid_proposal_status"))
    else if !AwaitsDecision(p) then Some(Invalid("proposal_create_status_must_be_pending_decision"))
    else if p.proposer == "" then Some(Invalid("proposer_identity_required"))
    else if Text.Trim(p.reason) == "" then Some(Invalid("reason_required"))
    else if p.candidateIds == [] && NeedsCandidates(p.kind) then Some(Invalid("candidate_ids_required"))
    else if !AllStored(candidates, p.candidateIds) then Some(NotFound)
    else if !CheckProposal(p) || (p.targetEntry.Some? && p.targetEntry.value !in entries) then Some(CONSTRAINT)
    else None
  }

  ghost function CreateProposalChange(db: Db, f: ProposalFields): Result<Change> {
    var verdict := ProposalVerdict(db.candidates, db.entries, f);
    if verdict.Some? then Err(verdict.value)
    else Ok(NOTHING.(proposals := map[NextId(db.proposals.Keys) := NewProposal(f)]))
  }

  /** The promote payload of a proposal: its proposed entry overlaid by its action's payload. */
  function ProposalPayload(p: Proposal): EntryFields {
    OverlayEntryFields(p.entry, if p.payload.Some? then p.payload.value else NO_OVERRIDES)
  }

  /** Applying a promote proposal repeats the statements of a promotion in a sequence of its own. */
  ghost function AppliedPromotion(db: Db, id: int, f: EntryFields, who: Actor): Result<Change> {
    if id !in db.candidates then Err(NotFound) else
    var before := db.candidates[id];
    if !(before.status == Pending || before.status == Claimed) then Err(Invalid("candidate_not_promotable")) else
    // insertMemoryEntryFromCandidate
    var entry := PromotedEntry(before, Some(id), f, who.name);
    var refused := EntryVerdict(db.entries, entry);
    if refused.Some? then Err(refused.value) else
    var entryId := NextId(db.entries.Keys);
    // attachCandidateSourceRefs
    var rows := RefRows(RefItems(before), EntryTarget, entryId, who.name, before.summary, Decimal(id));
    if !RefsPass(rows) then Err(CONSTRAINT) else
    // updateCandidateFields
    var after := before.(status := Promoted, updatedBy := who.name);
    if !CheckCandidate(after) then Err(CONSTRAINT) else
    // logCuration
    var rowIds := seq(|rows|, i requires 0 <= i < |rows| => |db.refs| + 1 + i);
    var event := CurationEvent(
      Some(id), Some(entryId), None, None, ActPromote, who.name, who.reason,
      CandidatesBefore([Snapshot(id, before)]), OfPromotion(Snapshot(id, after), entryId, entry, rowIds));
    Ok(NOTHING.(candidates := map[id := after], entries := map[entryId := entry], refs := rows, events := [event]))
  }

  /** The two sequences write the same rows and refuse for the same reasons. */
  lemma AppliedIsPromoted(db: Db, id: int, f: EntryFields, who: Actor)
    ensures AppliedPromotion(db, id, f, who) == PromoteStored(db, id, f, who)
  {
    if id in db.candidates {
      var c := db.candidates[id];
      assert UpdatedCandidate(c, StatusUpdate(Val(Promoted), who.name)) ==
        var row := c.(status := Promoted, updatedBy := who.name); if CheckCandidate(row) then Ok(row) else Err(CONSTRAINT);
      var rows := RefRows(RefItems(c), EntryTarget, NextId(db.entries.Keys), who.name, c.summary, Decimal(id));
      assert IdsAfter(|db.refs|, |rows|) == seq(|rows|, i requires 0 <= i < |rows| => |db.refs| + 1 + i);
    }
  }

  /** The change to the memory tables that applying a proposal makes. */
  ghost function ProposalEffect(db: Db, p: Proposal, who: Actor): Result<Change> {
    var ids := Unique(PositiveIds(p.candidateIds));
    match p.kind
    case PromoteCandidate =>
      if |ids| != 1 then Err(Invalid("promote_candidate_requires_one_candidate"))
      else AppliedPromotion(db, ids[0], ProposalPayload(p), who)
    case RejectCandidate =>
      if |ids| != 1 then Err(Invalid("reject_candidate_requires_one_candidate"))
      else ReviseCandidate(db, ids[0], StatusUpdate(Val(Rejected), who.name), ActReject, who)
    case _ => Err(Invalid("proposal_kind_apply_not_supported"))
  }

  /** The proposal row after it was applied by the event the change appends. */
  ghost function AppliedProposal(db: Db, p: Proposal, c: Change, who: Actor): Proposal {
    p.(status := Applied, appliedBy := Some(who.name), eventId := Some(|db.events| + 1),
       entryId := if c.entries == map[] then None else Some(NextId(db.entries.Keys)))
  }

  ghost function ApplyProposalChange(db: Db, id: int, who: ActorFields): Result<Change> {
    var actor :- RequireActorReason(who);
    if id !in db.proposals then Err(NotFound)
    else if !AwaitsDecision(db.proposals[id]) then Err(Invalid("proposal_not_applicable"))
    else
      var effect :- ProposalEffect(db, db.proposals[id], actor);
      Ok(effect.(proposals := map[id := AppliedProposal(db, db.proposals[id], effect, actor)]))
  }

  /** Rejecting or deferring a proposal that is no longer waiting succeeds and changes nothing. */
  function MarkProposalChange(db: Db, id: int, status: ProposalStatus, who: ActorFields): Result<Change> {
    var actor :- RequireActorReason(who);
    if id !in db.proposals then Err(NotFound)
    else
      var p := db.proposals[id];
      if !AwaitsDecision(p) then Ok(NOTHING)
      else Ok(NOTHING.(proposals := map[id := p.(
        status := status, appliedBy := Some(actor.name), reason := if p.reason == "" then actor.reason else p.reason)]))
  }

  // ---- Entries.

  function EntryEvent(id: int, action: Action, who: Actor): CurationEvent {
    CurationEvent(None, Some(id), None, None, action, who.name, who.reason, OtherBefore, OtherAfter)
  }

  ghost function CreateEntryChange(db: Db, p: EntryPayload): Result<Change> {
    var entry :- NewEntry(p);
    var verdict := EntryVerdict(db.entries, entry);
    if verdict.Some? then Err(verdict.value) else
    var id := NextId(db.entries.Keys);
    var creator := OrElse(p.createdBy, "api");
    var items := if p.refs.Val? && p.refs.value.RefList? then p.refs.value.items else [];
    var refs := RefRows(items, EntryTarget, id, creator, OrElse(p.fields.summary, ""), entry.slug);
    if !RefsPass(refs) then Err(CONSTRAINT)
    else Ok(NOTHING.(
      entries := map[id := entry], refs := refs,
      events := [EntryEvent(id, if p.curationState == Val(Curated) then ActPromote else ActRelabel,
                            Actor(creator, "entry created")).(before := NothingBefore)]))
  }

  ghost function UpdateEntryChange(db: Db, slug: string, p: EntryPayload): Result<Change> {
    var found := EntryBySlug(db.entries, slug);
    if found.None? then Err(NotFound) else
    var entry :- UpdatedEntry(db.entries[found.value], p);
    Ok(NOTHING.(
      entries := map[found.value := entry],
      events := [EntryEvent(found.value, ActRelabel, Actor(OrElse(p.updatedBy, "api"), OrElse(p.reason, "entry updated")))]))
  }

  /** Archive and supersede are updates whose payload is completed by the handler. */
  function StatusPayload(p: EntryPayload, actor: Field<string>, status: EntryStatus, text: string): EntryPayload {
    p.(status := Val(status), updatedBy := Val(OrElse(actor, "api")), reason := Val(OrElse(p.reason, text)))
  }

  ghost function SupersedeEntryChange(db: Db, slug: string, who: ActorFields): Result<Change> {
    var actor :- RequireActorReason(who);
    var found := EntryBySlug(db.entries, slug);
    if found.None? then Err(NotFound)
    else Ok(NOTHING.(
      entries := map[found.value := db.entries[found.value].(status := SupersededEntry, updatedBy := actor.name)],
      events := [EntryEvent(found.value, ActSupersede, actor)]))
  }

  // ---- Topic graph and source references.

  /** A node payload; `restPasses` says whether the columns left out of the model are accepted. */
  datatype NodeFields = NodeFields(
    slug: Field<string>, title: Field<string>, summary: Field<string>, labels: LabelFields,
    createdBy: Field<string>, updatedBy: Field<string>, reason: Field<string>, restPasses: bool)

  ghost function CreateNodeChange(db: Db, f: NodeFields): Result<Change> {
    if !f.slug.Val? || !f.title.Val? || !f.restPasses || !CheckLabels(NewLabels(f.labels)) then Err(CONSTRAINT)
    else if NodeSlugTaken(db.nodes, f.slug.value) then Err(Duplicate)
    else
      var id := NextId(db.nodes.Keys);
      var creator := OrElse(f.createdBy, "api");
      var summary := OrElse(f.summary, "");
      Ok(NOTHING.(
        nodes := map[id := Node(f.slug.value, f.title.value, summary, NewLabels(f.labels), creator, OrElse(f.updatedBy, creator))],
        nodeTexts := map[id := NodeText(f.slug.value, f.title.value, summary)]))
  }

  function UpdatedNode(n: Node, f: NodeFields): Result<Node> {
    if f.title.Null? then Err(CONSTRAINT)
    else
      var row := n.(
        title := OrElse(f.title, n.title), summary := OverlayText(n.summary, f.summary, ""),
        labels := n.labels.(
          claim := OverlayText(n.labels.claim, f.labels.claim, Observation),
          discovery := OverlayText(n.labels.discovery, f.labels.discovery, ExplicitOnly)),
        updatedBy := OrElse(f.updatedBy, "api"));
      if CheckLabels(row.labels) then Ok(row) else Err(CONSTRAINT)
  }

  /** The row keeps its slug, but the index takes the payload's. */
  ghost function UpdateNodeChange(db: Db, slug: string, f: NodeFields): Result<Change> {
    var found := NodeBySlug(db.nodes, slug);
    if found.None? then Err(NotFound) else
    var node :- UpdatedNode(db.nodes[found.value], f);
    Ok(NOTHING.(
      nodes := map[found.value := node],
      nodeTexts := map[found.value := NodeText(OverlayText(slug, f.slug, ""), node.title, node.summary)],
      events := [CurationEvent(None, None, Some(found.value), None, ActRelabel, OrElse(f.updatedBy, "api"),
                               OrElse(f.reason, "node updated"), OtherBefore, OtherAfter)]))
  }

  datatype EdgeFields = EdgeFields(
    source: Field<int>, target: Field<int>, relation: Field<Relation>, priority: Field<int>,
    conditionHash: Field<string>, status: Field<EdgeStatus>, createdBy: Field<string>, reason: Field<string>)

  predicate SameLink(a: Edge, b: Edge) {
    a.source == b.source && a.target == b.target && a.relation == b.relation && a.conditionHash == b.conditionHash
  }

  predicate LinkTaken(edges: map<int, Edge>, e: Edge) {
    exists id :: id in edges && SameLink(edges[id], e)
  }

  function NewEdge(f: EdgeFields): Result<Edge> {
    if !f.source.Val? || !f.target.Val? || !f.relation.Val? || f.relation.value.OtherRelation?
       || OrElse(f.status, ActiveEdge).OtherEdgeStatus? then Err(CONSTRAINT)
    else Ok(Edge(f.source.value, f.target.value, f.relation.value, OrElse(f.priority, 0), OrElse(f.conditionHash, ""),
                 OrElse(f.status, ActiveEdge), OrElse(f.createdBy, "api")))
  }

  ghost function CreateEdgeChange(db: Db, f: EdgeFields): Result<Change> {
    var edge :- NewEdge(f);
    if LinkTaken(db.edges, edge) then Err(Duplicate)
    else if edge.source !in db.nodes || edge.target !in db.nodes then Err(CONSTRAINT)
    else
      var id := NextId(db.edges.Keys);
      Ok(NOTHING.(
        edges := map[id := edge],
        events := [CurationEvent(None, None, None, Some(id), ActLink, OrElse(f.createdBy, "api"),
                                 OrElse(f.reason, "edge created"), NothingBefore, OtherAfter)]))
  }

  /** Deleting an edge logs it first; the foreign key then clears its id from every event. */
  function DeleteEdgeChange(db: Db, id: int, who: ActorFields): Result<Change> {
    if id !in db.edges then Err(NotFound)
    else Ok(NOTHING.(
      droppedEdges := {id},
      events := [CurationEvent(None, None, None, Some(id), ActUnlink, OrElse(who.actor, "api"),
                               OrElse(who.reason, "edge deleted"), OtherBefore, NothingAfter)]))
  }

  /** The curation endpoints link and unlink insist on an actor and a reason first. */
  ghost function LinkEdgeChange(db: Db, f: EdgeFields, who: ActorFields): Result<Change> {
    var actor :- RequireActorReason(who);
    CreateEdgeChange(db, f.(createdBy := Val(actor.name), reason := Val(actor.reason)))
  }

  function UnlinkEdgeChange(db: Db, id: int, who: ActorFields): Result<Change> {
    var actor :- RequireActorReason(who);
    DeleteEdgeChange(db, id, ActorFields(Val(actor.name), Val(actor.reason)))
  }

  function AttachRefChange(db: Db, f: RefFields, target: Field<TargetKind>, targetId: Field<int>, actor: Field<string>): Result<Change> {
    if !target.Val? || !targetId.Val? || !f.kind.Val? || !f.sourceId.Val? then Err(CONSTRAINT)
    else
      var row := NewRef(f, target.value, targetId.value, OrElse(actor, "api"), "", f.sourceId.value);
      if CheckRef(row) then Ok(NOTHING.(refs := [row])) else Err(CONSTRAINT)
  }

  // ---- All requests.

  datatype Request =
    | CreateCandidate(candidate: CandidateFields, log: LogFields, why: Field<string>)
    | CaptureMemory(capture: CapturePayload)
    | PatchStatus(id: int, status: Field<CandidateStatus>, who: ActorFields)
    | Claim(id: int, who: ActorFields)
    | Reject(id: int, who: ActorFields)
    | Promote(id: int, overrides: EntryFields, who: ActorFields)
    | Split(id: int, fragments: seq<Option<CandidateFields>>, who: ActorFields)
    | Merge(ids: seq<int>, candidate: CandidateFields, who: ActorFields)
    | Relabel(id: int, relabel: RelabelFields, who: ActorFields)
    | Rescope(id: int, labels: LabelFields, who: ActorFields)
    | CreateProposal(proposal: ProposalFields)
    | ApplyProposal(id: int, who: ActorFields)
    | RejectProposal(id: int, who: ActorFields)
    | DeferProposal(id: int, who: ActorFields)
    | CreateEntry(entry: EntryPayload)
    | UpdateEntry(slug: string, entry: EntryPayload)
    | SupersedeEntryBySlug(slug: string, who: ActorFields)
    | CreateNode(node: NodeFields)
    | UpdateNode(slug: string, node: NodeFields)
    | CreateEdge(edge: EdgeFields)
    | LinkEdge(edge: EdgeFields, who: ActorFields)
    | DeleteEdge(id: int, who: ActorFields)
    | UnlinkEdge(id: int, who: ActorFields)
    | AttachRef(ref: RefFields, target: Field<TargetKind>, targetId: Field<int>, creator: Field<string>)

  ghost function ChangeOf(db: Db, r: Request): Result<Change> {
    match r
    case CreateCandidate(f, log, why) => CreateCandidateChange(db, f, log, why)
    case CaptureMemory(p) => CaptureChange(db, p)
    case PatchStatus(id, status, who) => PatchStatusChange(db, id, status, who)
    case Claim(id, who) => ClaimChange(db, id, who)
    case Reject(id, who) => RejectChange(db, id, who)
    case Promote(id, f, who) => PromoteChange(db, id, f, who)
    case Split(id, fragments, who) => SplitChange(db, id, fragments, who)
    case Merge(ids, f, who) => MergeChange(db, ids, f, who)
    case Relabel(id, f, who) => RelabelChange(db, id, f, who)
    case Rescope(id, f, who) => RescopeChange(db, id, f, who)
    case CreateProposal(f) => CreateProposalChange(db, f)
    case ApplyProposal(id, who) => ApplyProposalChange(db, id, who)
    case RejectProposal(id, who) => MarkProposalChange(db, id, RejectedProposal, who)
    case DeferProposal(id, who) => MarkProposalChange(db, id, Deferred, who)
    case CreateEntry(p) => CreateEntryChange(db, p)
    case UpdateEntry(slug, p) => UpdateEntryChange(db, slug, p)
    case SupersedeEntryBySlug(slug, who) => SupersedeEntryChange(db, slug, who)
    case CreateNode(f) => CreateNodeChange(db, f)
    case UpdateNode(slug, f) => UpdateNodeChange(db, slug, f)
    case CreateEdge(f) => CreateEdgeChange(db, f)
    case LinkEdge(f, who) => LinkEdgeChange(db, f, who)
    case DeleteEdge(id, who) => DeleteEdgeChange(db, id, who)
    case UnlinkEdge(id, who) => UnlinkEdgeChange(db, id, who)
    case AttachRef(f, target, targetId, actor) => AttachRefChange(db, f, target, targetId, actor)
  }

  /** One request against the service. */
  ghost function Step(db: Db, r: Request): Db {
    Commit(db, ChangeOf(db, r))
  }

  // ---- What promotions and captures leave alone.

  /** Only candidate `id`, an entry, references and events. */
  ghost predicate TouchesOnly(c: Change, id: int) {
    && c.candidates.Keys <= {id} && c.nodes == map[] && c.nodeTexts == map[] && c.edges == map[] && c.droppedEdges == {}
    && c.proposals == map[]
  }

  lemma PromotionTouchesOnly(db: Db, id: int, c: Candidate, refId: Option<int>, entry: Entry, who: Actor, before: Before)
    requires PromotionTo(db, id, c, refId, entry, who, before).Ok?
    ensures TouchesOnly(PromotionTo(db, id, c, refId, entry, who, before).value, id)
  {
  }

  lemma AutoPromotionTouchesOnly(db: Db, p: CapturePayload, id: int, row: Candidate, entry: Entry, who: Actor, event: CaptureEvent)
    requires AutoPromotionTo(db, p, id, row, entry, who, event).Ok?
    ensures TouchesOnly(AutoPromotionTo(db, p, id, row, entry, who, event).value, id)
  {
    if EntryVerdict(db.entries, entry).None? {
      PromotionTouchesOnly(db, id, row, None, entry, who, PayloadBefore(row));
    }
  }

  lemma CaptureRowTouchesOnly(db: Db, p: CapturePayload, row: Candidate)
    requires CaptureRowChange(db, p, row).Ok?
    ensures TouchesOnly(CaptureRowChange(db, p, row).value, NextId(db.candidates.Keys))
  {
    if AutoPromotes(p) {
      var id := NextId(db.candidates.Keys);
      AutoPromotionTouchesOnly(db, p, id, row, PromotedEntry(row, None, p.entry, AutoPromoter(p).name), AutoPromoter(p),
                               DecisionRow(p, Captured, OrElse(p.reason, "captured candidate"), [id], -1));
    }
  }

  lemma CaptureTouchesOnly(db: Db, p: CapturePayload)
    requires CaptureChange(db, p).Ok?
    ensures TouchesOnly(CaptureChange(db, p).value, NextId(db.candidates.Keys))
  {
    if EarlyDecision(p).None? {
      CaptureRowTouchesOnly(db, p, NewCandidate(CandidateOf(p)).value);
    }
  }

  // ---- What a capture stores is clean.

  predicate CleanCandidate(c: Candidate) {
    !Text.HasSecret(c.title) && !Text.HasSecret(c.summary) && !Text.HasSecret(c.body) && !c.labels.claim.Policy?
  }

  predicate CleanEntry(e: Entry) {
    !Text.HasSecret(e.title) && !Text.HasSecret(e.summary) && !Text.HasSecret(e.body) && !e.labels.claim.Policy?
  }

  lemma PromotionIsClean(db: Db, id: int, c: Candidate, refId: Option<int>, entry: Entry, who: Actor, before: Before)
    requires PromotionTo(db, id, c, refId, entry, who, before).Ok? && CleanCandidate(c) && CleanEntry(entry)
    ensures var change := PromotionTo(db, id, c, refId, entry, who, before).value;
      && (forall k :: k in change.candidates ==> CleanCandidate(change.candidates[k]))
      && (forall k :: k in change.entries ==> CleanEntry(change.entries[k]))
  {
    var change := PromotionTo(db, id, c, refId, entry, who, before).value;
    assert forall k :: k in change.candidates ==>
      change.candidates[k].title == c.title && change.candidates[k].summary == c.summary
      && change.candidates[k].body == c.body && change.candidates[k].labels == c.labels;
    assert forall k :: k in change.entries ==> change.entries[k] == entry;
  }

  lemma AutoPromotionIsClean(db: Db, p: CapturePayload, id: int, row: Candidate, entry: Entry, who: Actor, event: CaptureEvent)
    requires AutoPromotionTo(db, p, id, row, entry, who, event).Ok? && CleanCandidate(row) && CleanEntry(entry)
    ensures var change := AutoPromotionTo(db, p, id, row, entry, who, event).value;
      && (forall k :: k in change.candidates ==> CleanCandidate(change.candidates[k]))
      && (forall k :: k in change.entries ==> CleanEntry(change.entries[k]))
  {
    if EntryVerdict(db.entries, entry).None? {
      PromotionIsClean(db, id, row, None, entry, who, PayloadBefore(row));
    }
  }

  /** No candidate and no entry a capture stores, auto-promoted or not and whatever its payload
      overrides, has a secret marker in title, summary or body, or policy strength. */
  lemma StoredCapturesAreClean(db: Db, p: CapturePayload)
    requires CaptureChange(db, p).Ok?
    ensures var change := CaptureChange(db, p).value;
      && (forall k :: k in change.candidates ==> CleanCandidate(change.candidates[k]))
      && (forall k :: k in change.entries ==> CleanEntry(change.entries[k]))
  {
    if EarlyDecision(p).None? {
      CapturedTextIsClean(p, None);
      var id, row := NextId(db.candidates.Keys), NewCandidate(CandidateOf(p)).value;
      if AutoPromotes(p) {
        AutoPromotionIsClean(db, p, id, row, PromotedEntry(row, None, p.entry, AutoPromoter(p).name), AutoPromoter(p),
                             DecisionRow(p, Captured, OrElse(p.reason, "captured candidate"), [id], -1));
      }
    }
  }
}
