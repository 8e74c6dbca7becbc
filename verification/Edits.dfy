/** What the requests that create or edit a single row leave in it, key by key, in the terms of
    Effects: candidates, entries, proposals, topic nodes, edges and references. */
module Edits {
  import opened Base
  import opened Schema
  import opened Text
  import opened Rows
  import opened Capture
  import opened Changes
  import opened WellFormed
  import opened Effects
  import Evidence
  import Refinement

  // ---- One candidate.

  /** One candidate row was written and one event logged by `who`; everything else is as it was. */
  ghost predicate OneRevised(db: Db, after: Db, id: int, row: Candidate, action: Action, who: Actor) {
    && id in db.candidates
    && after == db.(candidates := db.candidates[id := row], candidateTexts := db.candidateTexts[id := TextOfCandidate(row)],
                    events := db.events + [CurationEvent(Some(id), None, None, None, action, who.name, who.reason,
                                                         CandidatesBefore([Snapshot(id, db.candidates[id])]),
                                                         OfCandidate(Snapshot(id, row)))])
  }

  lemma RevisionIsOne(db: Db, id: int, u: CandidateUpdate, action: Action, who: Actor)
    requires ReviseCandidate(db, id, u, action, who).Ok?
    ensures id in db.candidates && UpdatedCandidate(db.candidates[id], u).Ok?
    ensures OneRevised(db, Commit(db, ReviseCandidate(db, id, u, action, who)), id, UpdatedCandidate(db.candidates[id], u).value,
                       action, who)
  {
    Refinement.RevisionRefines(db, id, u, action, who, UpdatedCandidate(db.candidates[id], u).value);
  }

  /** The actor and the reason a request must name. */
  ghost predicate NamedBy(who: ActorFields, actor: Actor) {
    who.actor == Val(actor.name) && who.reason == Val(actor.reason) && actor.name != "" && actor.reason != ""
  }

  /** A claim, whatever the status, claims the candidate for its actor and changes nothing else. */
  lemma ClaimWrites(db: Db, id: int, who: ActorFields, after: Db) returns (actor: Actor)
    requires ChangeOf(db, Claim(id, who)).Ok? && after == Step(db, Claim(id, who))
    ensures NamedBy(who, actor) && id in db.candidates
    ensures OneRevised(db, after, id, db.candidates[id].(status := Claimed, updatedBy := actor.name), ActClaim, actor)
  {
    actor := RequireActorReason(who).value;
    RevisionIsOne(db, id, StatusUpdate(Val(Claimed), actor.name), ActClaim, actor);
    Refinement.StatusUpdateSets(db.candidates[id], Claimed, actor.name);
  }

  lemma RejectWrites(db: Db, id: int, who: ActorFields, after: Db) returns (actor: Actor)
    requires ChangeOf(db, Reject(id, who)).Ok? && after == Step(db, Reject(id, who))
    ensures NamedBy(who, actor) && id in db.candidates
    ensures OneRevised(db, after, id, db.candidates[id].(status := Rejected, updatedBy := actor.name), ActReject, actor)
  {
    actor := RequireActorReason(who).value;
    RevisionIsOne(db, id, StatusUpdate(Val(Rejected), actor.name), ActReject, actor);
    Refinement.StatusUpdateSets(db.candidates[id], Rejected, actor.name);
  }

  /** The status PATCH writes the status it is given, and logs it under the action that fits. */
  lemma PatchWrites(db: Db, id: int, status: Field<CandidateStatus>, who: ActorFields, after: Db) returns (actor: Actor)
    requires ChangeOf(db, PatchStatus(id, status, who)).Ok? && after == Step(db, PatchStatus(id, status, who))
    ensures status.Val? && id in db.candidates
    ensures GivenOr(actor.name, who.actor, "api") && GivenOr(actor.reason, who.reason, "candidate status updated")
    ensures var action := match status.value
        case Claimed => ActClaim
        case Rejected => ActReject
        case SupersededCandidate => ActSupersede
        case _ => ActRelabel;
      OneRevised(db, after, id, db.candidates[id].(status := status.value, updatedBy := actor.name), action, actor)
  {
    actor := Actor(OrElse(who.actor, "api"), OrElse(who.reason, "candidate status updated"));
    RevisionIsOne(db, id, StatusUpdate(if status.Val? then status else Null, actor.name), PatchAction(status), actor);
    Refinement.StatusUpdateSets(db.candidates[id], status.value, actor.name);
  }

  /** A relabel sets the keys it is given and no other column. */
  predicate RelabelledAs(row: Candidate, c: Candidate, f: RelabelFields, who: string) {
    && GivenOr(row.title, f.title, c.title) && GivenOr(row.summary, f.summary, c.summary) && GivenOr(row.body, f.body, c.body)
    && GivenOr(row.kind, f.kind, c.kind) && GivenOr(row.labels.claim, f.claim, c.labels.claim)
    && PresentOr(row.audience, f.audience, "[]", c.audience)
    && row == c.(title := row.title, summary := row.summary, body := row.body, kind := row.kind,
                 labels := c.labels.(claim := row.labels.claim), audience := row.audience, updatedBy := who)
  }

  lemma RelabelWrites(db: Db, id: int, f: RelabelFields, who: ActorFields, after: Db) returns (actor: Actor, row: Candidate)
    requires ChangeOf(db, Relabel(id, f, who)).Ok? && after == Step(db, Relabel(id, f, who))
    ensures NamedBy(who, actor) && id in db.candidates && RelabelledAs(row, db.candidates[id], f, actor.name)
    ensures OneRevised(db, after, id, row, ActRelabel, actor)
  {
    actor := RequireActorReason(who).value;
    RevisionIsOne(db, id, RelabelUpdate(f, actor.name), ActRelabel, actor);
    row := UpdatedCandidate(db.candidates[id], RelabelUpdate(f, actor.name)).value;
  }

  /** A rescope sets the scope, authority, discovery and claim keys it is given; null clears an id. */
  predicate RescopedAs(row: Candidate, c: Candidate, f: LabelFields, who: string) {
    && GivenOr(row.labels.scopeKind, f.scopeKind, c.labels.scopeKind) && ColumnPresentOr(row.labels.scopeId, f.scopeId, c.labels.scopeId)
    && GivenOr(row.labels.authorityKind, f.authorityKind, c.labels.authorityKind)
    && ColumnPresentOr(row.labels.authorityId, f.authorityId, c.labels.authorityId)
    && GivenOr(row.labels.discovery, f.discovery, c.labels.discovery) && GivenOr(row.labels.claim, f.claim, c.labels.claim)
    && row == c.(labels := row.labels, updatedBy := who)
  }

  lemma RescopeWrites(db: Db, id: int, f: LabelFields, who: ActorFields, after: Db) returns (actor: Actor, row: Candidate)
    requires ChangeOf(db, Rescope(id, f, who)).Ok? && after == Step(db, Rescope(id, f, who))
    ensures f.scopeKind.Val? && f.authorityKind.Val? && f.discovery.Val? && f.claim.Val?
    ensures NamedBy(who, actor) && id in db.candidates && RescopedAs(row, db.candidates[id], f, actor.name)
    ensures OneRevised(db, after, id, row, ActRescope, actor)
  {
    actor := RequireActorReason(who).value;
    RevisionIsOne(db, id, RescopeUpdate(f, actor.name), ActRescope, actor);
    row := UpdatedCandidate(db.candidates[id], RescopeUpdate(f, actor.name)).value;
  }

  predicate LabelsCreatedAs(l: Labels, f: LabelFields) {
    LabelsGivenOr(l, f, Labels(Global, None, Global, None, ExplicitOnly, Observation))
  }

  lemma NewLabelsAre(f: LabelFields)
    ensures LabelsCreatedAs(NewLabels(f), f)
  {
  }

  /** A created candidate: what the payload gives, and else the defaults. */
  predicate CandidateCreatedAs(row: Candidate, f: CandidateFields) {
    && row.status == Pending && row.layer == CandidateLayer && f.title == Val(row.title) && f.kind == Val(row.kind)
    && GivenOr(row.body, f.body, "") && GivenOr(row.summary, f.summary, "") && ColumnGivenOr(row.slug, f.slug, None)
    && LabelsCreatedAs(row.labels, f.labels) && row.labels.claim != Policy
    && GivenOr(row.audience, f.audience, "[]") && GivenOr(row.refs, f.refs, RefList([]))
    && ColumnGivenOr(row.extractionConfidence, f.extractionConfidence, None)
    && GivenOr(row.createdBy, f.createdBy, "api") && GivenOr(row.updatedBy, f.updatedBy, row.createdBy)
  }

  lemma NewCandidateIs(f: CandidateFields)
    requires NewCandidate(f).Ok?
    ensures CandidateCreatedAs(NewCandidate(f).value, f)
  {
    NewLabelsAre(f.labels);
  }

  lemma CreationRowsAre(db: Db, f: CandidateFields, log: LogFields, why: Field<string>)
    requires CreateCandidateChange(db, f, log, why).Ok?
    ensures NewCandidate(f).Ok?
    ensures var id := NextId(db.candidates.Keys);
      CreateCandidateChange(db, f, log, why).value == CapturedRows(id, NewCandidate(f).value, [CreationRow(f, log, why, id)])
  {
  }

  /** A create request stores one pending candidate and logs it as captured. */
  lemma CreateWrites(db: Db, f: CandidateFields, log: LogFields, why: Field<string>, after: Db) returns (row: Candidate, e: CaptureEvent)
    requires ChangeOf(db, CreateCandidate(f, log, why)).Ok? && after == Step(db, CreateCandidate(f, log, why))
    ensures CandidateCreatedAs(row, f)
    ensures var id := NextId(db.candidates.Keys);
      && e.decision == Captured && e.candidateIds == [id] && GivenOr(e.reason, why, "candidate created")
      && after == db.(candidates := db.candidates[id := row], candidateTexts := db.candidateTexts[id := TextOfCandidate(row)],
                      captures := db.captures + [e])
  {
    CreationRowsAre(db, f, log, why);
    NewCandidateIs(f);
    row := NewCandidate(f).value;
    e := CreationRow(f, log, why, NextId(db.candidates.Keys));
    Refinement.CaptureRefines(db, NextId(db.candidates.Keys), row, [e]);
  }

  // ---- One entry.

  /** One entry was written and one event logged; candidates, proposals and the graph are as they were. */
  ghost predicate OneEntryWritten(db: Db, after: Db, id: int, row: Entry, refs: seq<SourceRef>, event: CurationEvent) {
    after == db.(entries := db.entries[id := row], entryTexts := db.entryTexts[id := TextOfEntry(row)],
                 refs := db.refs + refs, events := db.events + [event])
  }

  predicate EntryLogged(event: CurationEvent, id: int, action: Action, actor: string) {
    && event.candidate == None && event.entry == Some(id) && event.node == None && event.edge == None
    && event.action == action && event.actor == actor
  }

  /** The entry was stored under the slug before the request. */
  ghost predicate StoredUnder(db: Db, id: int, slug: string) {
    id in db.entries && db.entries[id].slug == slug
  }

  /** An update sets every key it gives; null falls back to the default of the column, an absent key
      leaves it; slug, kind, format and creator never change. */
  predicate EntryUpdatedAs(row: Entry, e: Entry, p: EntryPayload) {
    && !p.fields.title.Null? && GivenOr(row.title, p.fields.title, e.title)
    && PresentOr(row.summary, p.fields.summary, "", e.summary) && PresentOr(row.body, p.fields.body, "", e.body)
    && PresentOr(row.layer, p.fields.layer, CuratedFact, e.layer) && LabelsPresentOr(row.labels, p.fields.labels, e.labels)
    && PresentOr(row.status, p.status, Draft, e.status) && PresentOr(row.curationState, p.curationState, CandidateState, e.curationState)
    && PresentOr(row.confidence, p.fields.confidence, Unverified, e.confidence)
    && PresentOr(row.stability, p.fields.stability, Evolving, e.stability)
    && PresentOr(row.audience, p.fields.audience, "[]", e.audience) && PresentOr(row.tags, p.fields.tags, "[]", e.tags)
    && row.slug == e.slug && row.kind == e.kind && row.contentFormat == e.contentFormat && row.createdBy == e.createdBy
    && GivenOr(row.updatedBy, p.updatedBy, "api")
  }

  predicate GivesNoKey(p: EntryPayload) {
    p.fields == NO_OVERRIDES && p.status.Absent? && p.curationState.Absent?
  }

  lemma NoKeyChangesNothing(row: Entry, e: Entry, p: EntryPayload)
    requires EntryUpdatedAs(row, e, p) && GivesNoKey(p)
    ensures row == e.(updatedBy := row.updatedBy)
  {
    assert row.labels == e.labels;
  }

  lemma UpdateIs(e: Entry, p: EntryPayload)
    requires UpdatedEntry(e, p).Ok?
    ensures EntryUpdatedAs(UpdatedEntry(e, p).value, e, p)
  {
  }

  /** An accepted update writes one entry, the one stored under the slug, key by key; without a key
      only its editor changes. */
  lemma UpdateEntryWrites(db: Db, slug: string, p: EntryPayload, after: Db) returns (id: int, row: Entry, event: CurationEvent)
    requires ChangeOf(db, UpdateEntry(slug, p)).Ok? && after == Step(db, UpdateEntry(slug, p))
    ensures StoredUnder(db, id, slug) && EntryUpdatedAs(row, db.entries[id], p)
    ensures GivesNoKey(p) ==> row == db.entries[id].(updatedBy := row.updatedBy)
    ensures EntryLogged(event, id, ActRelabel, row.updatedBy) && GivenOr(event.reason, p.reason, "entry updated")
    ensures OneEntryWritten(db, after, id, row, [], event)
  {
    id := EntryBySlug(db.entries, slug).value;
    row := UpdatedEntry(db.entries[id], p).value;
    UpdateIs(db.entries[id], p);
    if GivesNoKey(p) {
      NoKeyChangesNothing(row, db.entries[id], p);
    }
    event := EntryEvent(id, ActRelabel, Actor(OrElse(p.updatedBy, "api"), OrElse(p.reason, "entry updated")));
    Refinement.EntryWriteRefines(db, id, row, [], event);
  }

  predicate EntryCreatedAs(row: Entry, p: EntryPayload) {
    && p.fields.slug == Val(row.slug) && p.fields.title == Val(row.title) && p.fields.kind == Val(row.kind)
    && GivenOr(row.summary, p.fields.summary, "") && GivenOr(row.body, p.fields.body, "")
    && GivenOr(row.contentFormat, p.contentFormat, Markdown) && GivenOr(row.layer, p.fields.layer, CuratedFact)
    && LabelsCreatedAs(row.labels, p.fields.labels)
    && GivenOr(row.status, p.status, Draft) && GivenOr(row.curationState, p.curationState, CandidateState)
    && GivenOr(row.confidence, p.fields.confidence, Unverified) && GivenOr(row.stability, p.fields.stability, Evolving)
    && GivenOr(row.audience, p.fields.audience, "[]") && GivenOr(row.tags, p.fields.tags, "[]")
    && GivenOr(row.createdBy, p.createdBy, "api") && GivenOr(row.updatedBy, p.updatedBy, row.createdBy)
  }

  lemma CreationIs(p: EntryPayload)
    requires NewEntry(p).Ok?
    ensures EntryCreatedAs(NewEntry(p).value, p)
  {
    NewLabelsAre(p.fields.labels);
  }

  /** The references in an entry payload. */
  function PayloadRefs(p: EntryPayload): seq<RefItem> {
    if p.refs.Val? && p.refs.value.RefList? then p.refs.value.items else []
  }

  lemma CreationRowsOf(db: Db, p: EntryPayload)
    requires CreateEntryChange(db, p).Ok?
    ensures NewEntry(p).Ok? && !SlugTaken(db.entries, NewEntry(p).value.slug)
    ensures var (id, row, c) := (NextId(db.entries.Keys), NewEntry(p).value, CreateEntryChange(db, p).value);
      && c == NOTHING.(entries := map[id := row], refs := c.refs, events := c.events)
      && c.refs == RefRows(PayloadRefs(p), EntryTarget, id, row.createdBy, row.summary, row.slug)
      && |c.events| == 1 && c.events[0].reason == "entry created" && c.events[0].before == NothingBefore
      && EntryLogged(c.events[0], id, if p.curationState == Val(Curated) then ActPromote else ActRelabel, row.createdBy)
  {
  }

  lemma CreateEntryStep(db: Db, p: EntryPayload)
    ensures ChangeOf(db, CreateEntry(p)) == CreateEntryChange(db, p)
  {
  }

  /** An accepted create stores a draft unless the payload says otherwise, under a slug nobody had,
      with a reference for every object in the payload's list. */
  lemma CreateEntryWrites(db: Db, p: EntryPayload, after: Db) returns (row: Entry, refs: seq<SourceRef>, event: CurationEvent)
    requires ChangeOf(db, CreateEntry(p)).Ok? && after == Step(db, CreateEntry(p))
    ensures EntryCreatedAs(row, p) && !SlugTaken(db.entries, row.slug)
    ensures EntryLogged(event, NextId(db.entries.Keys), if p.curationState == Val(Curated) then ActPromote else ActRelabel, row.createdBy)
    ensures event.reason == "entry created" && OneEntryWritten(db, after, NextId(db.entries.Keys), row, refs, event)
    ensures Evidence.Attached(db.refs, db.refs + refs, RefObjects(PayloadRefs(p)), NextId(db.entries.Keys), row.summary, row.slug,
                              row.createdBy)
  {
    CreateEntryStep(db, p);
    CreationRowsOf(db, p);
    CreationIs(p);
    var id := NextId(db.entries.Keys);
    row := NewEntry(p).value;
    refs := CreateEntryChange(db, p).value.refs;
    event := CreateEntryChange(db, p).value.events[0];
    Refinement.EntryWriteRefines(db, id, row, refs, event);
    Evidence.RefsAreAttached(db.refs, PayloadRefs(p), id, row.createdBy, row.summary, row.slug);
  }

  /** Superseding an entry through the curation endpoint writes its status and its editor. */
  lemma SupersedeWrites(db: Db, slug: string, who: ActorFields, after: Db) returns (id: int, actor: Actor, event: CurationEvent)
    requires ChangeOf(db, SupersedeEntryBySlug(slug, who)).Ok? && after == Step(db, SupersedeEntryBySlug(slug, who))
    ensures NamedBy(who, actor) && StoredUnder(db, id, slug)
    ensures EntryLogged(event, id, ActSupersede, actor.name) && event.reason == actor.reason
    ensures OneEntryWritten(db, after, id, db.entries[id].(status := SupersededEntry, updatedBy := actor.name), [], event)
  {
    actor := RequireActorReason(who).value;
    id := EntryBySlug(db.entries, slug).value;
    var row := db.entries[id].(status := SupersededEntry, updatedBy := actor.name);
    event := EntryEvent(id, ActSupersede, actor);
    Refinement.EntryWriteRefines(db, id, row, [], event);
  }

  // ---- One proposal.

  /** A created proposal names the positive ids given, each once, all stored. */
  ghost predicate NamesCandidates(db: Db, ids: seq<int>, f: ProposalFields) {
    && (forall k :: k in ids <==> k > 0 && (f.candidateId == Val(k) || k in f.candidateIds))
    && Distinct(ids) && (forall k :: k in ids ==> k in db.candidates)
  }

  /** A created proposal waits, and says what the payload says. */
  ghost predicate ProposalCreatedAs(p: Proposal, f: ProposalFields) {
    && f.kind == Val(p.kind) && (p.status == Proposed || p.status == NeedsHuman) && GivenOr(p.status, f.status, Proposed)
    && GivenOr(p.proposer, f.proposer, "") && p.proposer != "" && GivenOr(p.proposerKind, f.proposerKind, Agent)
    && GivenOr(p.confidence, f.confidence, Unverified) && GivenOr(p.reason, f.reason, "") && Trim(p.reason) != ""
    && GivenOr(p.entry, f.entry, NO_OVERRIDES) && ColumnGivenOr(p.targetEntry, f.targetEntry, None)
    && (if f.action.Val? then p.payload == f.action.value else ColumnGivenOr(p.payload, f.entry, None))
    && p.appliedBy == None && p.eventId == None && p.entryId == None
  }

  lemma {:induction false} PositiveAmong(ids: seq<int>)
    ensures forall k :: k in PositiveIds(ids) <==> k > 0 && k in ids
    decreases |ids|
  {
    if ids != [] {
      PositiveAmong(ids[..|ids| - 1]);
      assert ids == ids[..|ids| - 1] + [ids[|ids| - 1]];
    }
  }

  lemma CandidatesOf(f: ProposalFields)
    ensures Distinct(ProposalCandidateIds(f))
    ensures forall k :: k in ProposalCandidateIds(f) <==> k > 0 && (f.candidateId == Val(k) || k in f.candidateIds)
  {
    var all := [OrElse(f.candidateId, 0)] + f.candidateIds;
    PositiveAmong(all);
    UniqueKeepsMembers(PositiveIds(all));
  }

  lemma AllStoredAre(candidates: map<int, Candidate>, ids: seq<int>)
    requires AllStored(candidates, ids)
    ensures forall k :: k in ids ==> k in candidates
  {
    forall k | k in ids
      ensures k in candidates
    {
      var i :| 0 <= i < |ids| && ids[i] == k;
    }
  }

  lemma NewProposalIs(db: Db, f: ProposalFields)
    requires ProposalVerdict(db.candidates, db.entries, f).None?
    ensures ProposalCreatedAs(NewProposal(f), f)
  {
  }

  lemma NewProposalNames(db: Db, f: ProposalFields)
    requires AllStored(db.candidates, ProposalCandidateIds(f))
    ensures NamesCandidates(db, ProposalCandidateIds(f), f)
  {
    CandidatesOf(f);
    AllStoredAre(db.candidates, ProposalCandidateIds(f));
  }

  lemma ProposalIsWritten(db: Db, f: ProposalFields)
    requires CreateProposalChange(db, f).Ok?
    ensures ProposalVerdict(db.candidates, db.entries, f).None?
    ensures Commit(db, CreateProposalChange(db, f)) == db.(proposals := db.proposals[NextId(db.proposals.Keys) := NewProposal(f)])
  {
    Refinement.CreatedProposalRefines(db, f);
  }

  lemma ProposalStep(db: Db, f: ProposalFields)
    ensures ChangeOf(db, CreateProposal(f)) == CreateProposalChange(db, f)
  {
  }

  /** An accepted proposal is stored as given and touches nothing else. */
  lemma ProposalIsCreated(db: Db, f: ProposalFields, after: Db) returns (p: Proposal)
    requires ChangeOf(db, CreateProposal(f)).Ok? && after == Step(db, CreateProposal(f))
    ensures ProposalCreatedAs(p, f) && NamesCandidates(db, p.candidateIds, f)
    ensures after == db.(proposals := db.proposals[NextId(db.proposals.Keys) := p])
  {
    ProposalStep(db, f);
    ProposalIsWritten(db, f);
    NewProposalIs(db, f);
    NewProposalNames(db, f);
    p := NewProposal(f);
  }

  lemma ProposalWritten(db: Db, id: int, p: Proposal)
    ensures Apply(db, NOTHING.(proposals := map[id := p])) == db.(proposals := db.proposals[id := p])
  {
    Refinement.ApplyFrame(db, NOTHING);
    Refinement.ProposalWriteRefines(db, NOTHING, id, p);
  }

  lemma NothingApplies(db: Db)
    ensures Apply(db, NOTHING) == db
  {
    Refinement.ApplyFrame(db, NOTHING);
  }

  /** The proposal with its decision, its decider and, if it had none, the reason. */
  function MarkedAs(p: Proposal, status: ProposalStatus, who: Actor): Proposal {
    p.(status := status, appliedBy := Some(who.name), reason := if p.reason == "" then who.reason else p.reason)
  }

  /** Rejecting or deferring a waiting proposal gives it that status, its decider and a reason; one
      that no longer waits is left alone. */
  lemma DecisionsMark(db: Db, r: Request, after: Db) returns (actor: Actor)
    requires (r.RejectProposal? || r.DeferProposal?) && ChangeOf(db, r).Ok? && after == Step(db, r)
    ensures NamedBy(r.who, actor) && r.id in db.proposals
    ensures var p := db.proposals[r.id];
      after == if p.status != Proposed && p.status != NeedsHuman then db
               else db.(proposals := db.proposals[r.id := MarkedAs(p, if r.RejectProposal? then RejectedProposal else Deferred, actor)])
  {
    actor := RequireActorReason(r.who).value;
    var p := db.proposals[r.id];
    if AwaitsDecision(p) {
      ProposalWritten(db, r.id, MarkedAs(p, if r.RejectProposal? then RejectedProposal else Deferred, actor));
    } else {
      NothingApplies(db);
    }
  }

  // ---- The topic graph and source references.

  ghost predicate NodeCreatedAs(n: Node, f: NodeFields) {
    && f.slug == Val(n.slug) && f.title == Val(n.title) && GivenOr(n.summary, f.summary, "") && LabelsCreatedAs(n.labels, f.labels)
    && GivenOr(n.createdBy, f.createdBy, "api") && GivenOr(n.updatedBy, f.updatedBy, n.createdBy)
  }

  lemma NewNodeIs(db: Db, f: NodeFields)
    requires CreateNodeChange(db, f).Ok?
    ensures var (id, c) := (NextId(db.nodes.Keys), CreateNodeChange(db, f).value);
      && id in c.nodes && NodeCreatedAs(c.nodes[id], f) && !NodeSlugTaken(db.nodes, c.nodes[id].slug)
      && var n := c.nodes[id];
      c == NOTHING.(nodes := map[id := n], nodeTexts := map[id := NodeText(n.slug, n.title, n.summary)])
  {
    NewLabelsAre(f.labels);
  }

  lemma NodeStep(db: Db, f: NodeFields)
    ensures ChangeOf(db, CreateNode(f)) == CreateNodeChange(db, f)
  {
  }

  /** A created node is stored and indexed as given, under a slug nobody had. */
  lemma NodeIsCreated(db: Db, f: NodeFields, after: Db) returns (n: Node)
    requires ChangeOf(db, CreateNode(f)).Ok? && after == Step(db, CreateNode(f))
    ensures NodeCreatedAs(n, f) && !NodeSlugTaken(db.nodes, n.slug)
    ensures var id := NextId(db.nodes.Keys);
      after == db.(nodes := db.nodes[id := n], nodeTexts := db.nodeTexts[id := NodeText(n.slug, n.title, n.summary)])
  {
    var id := NextId(db.nodes.Keys);
    NodeStep(db, f);
    NewNodeIs(db, f);
    n := CreateNodeChange(db, f).value.nodes[id];
    Refinement.NodeWriteRefines(db, id, n, NodeText(n.slug, n.title, n.summary), []);
  }

  /** An update of a node sets title, summary, claim and discovery, and no other column of its row. */
  predicate NodeUpdatedAs(row: Node, n: Node, f: NodeFields) {
    && !f.title.Null? && GivenOr(row.title, f.title, n.title) && PresentOr(row.summary, f.summary, "", n.summary)
    && PresentOr(row.labels.claim, f.labels.claim, Observation, n.labels.claim)
    && PresentOr(row.labels.discovery, f.labels.discovery, ExplicitOnly, n.labels.discovery)
    && GivenOr(row.updatedBy, f.updatedBy, "api")
    && row == n.(title := row.title, summary := row.summary, updatedBy := row.updatedBy,
                 labels := n.labels.(claim := row.labels.claim, discovery := row.labels.discovery))
  }

  lemma NodeIsUpdated(db: Db, slug: string, f: NodeFields, after: Db) returns (id: int, row: Node, text: NodeText, event: CurationEvent)
    requires ChangeOf(db, UpdateNode(slug, f)).Ok? && after == Step(db, UpdateNode(slug, f))
    ensures id in db.nodes && db.nodes[id].slug == slug && NodeUpdatedAs(row, db.nodes[id], f)
    ensures text.title == row.title && text.summary == row.summary && event.action == ActRelabel && event.node == Some(id)
    ensures event.actor == row.updatedBy && GivenOr(event.reason, f.reason, "node updated")
    ensures after == db.(nodes := db.nodes[id := row], nodeTexts := db.nodeTexts[id := text], events := db.events + [event])
  {
    id := NodeBySlug(db.nodes, slug).value;
    row := UpdatedNode(db.nodes[id], f).value;
    text := UpdateNodeChange(db, slug, f).value.nodeTexts[id];
    event := UpdateNodeChange(db, slug, f).value.events[0];
    Refinement.NodeWriteRefines(db, id, row, text, [event]);
  }

  ghost predicate EdgeCreatedAs(db: Db, e: Edge, f: EdgeFields) {
    && f.source == Val(e.source) && f.target == Val(e.target) && f.relation == Val(e.relation)
    && e.source in db.nodes && e.target in db.nodes && !e.relation.OtherRelation? && !e.status.OtherEdgeStatus?
    && GivenOr(e.priority, f.priority, 0) && GivenOr(e.conditionHash, f.conditionHash, "") && GivenOr(e.status, f.status, ActiveEdge)
    && GivenOr(e.createdBy, f.createdBy, "api")
    && forall k :: k in db.edges ==>
         var d := db.edges[k];
         d.source != e.source || d.target != e.target || d.relation != e.relation || d.conditionHash != e.conditionHash
  }

  lemma EdgeStep(db: Db, f: EdgeFields)
    ensures ChangeOf(db, CreateEdge(f)) == CreateEdgeChange(db, f)
  {
  }

  lemma NewEdgeIs(db: Db, f: EdgeFields)
    requires CreateEdgeChange(db, f).Ok?
    ensures NewEdge(f).Ok? && EdgeCreatedAs(db, NewEdge(f).value, f)
    ensures var (id, c) := (NextId(db.edges.Keys), CreateEdgeChange(db, f).value);
      |c.events| == 1 && c == NOTHING.(edges := map[id := NewEdge(f).value], events := c.events)
  {
    var e := NewEdge(f).value;
    forall k | k in db.edges
      ensures !SameLink(db.edges[k], e)
    {
      assert !LinkTaken(db.edges, e);
    }
  }

  /** A created edge links two stored nodes by a relation that did not link them yet under the same
      condition, and is logged. */
  lemma EdgeIsCreated(db: Db, f: EdgeFields, after: Db) returns (e: Edge, event: CurationEvent)
    requires ChangeOf(db, CreateEdge(f)).Ok? && after == Step(db, CreateEdge(f))
    ensures EdgeCreatedAs(db, e, f) && event.action == ActLink && event.edge == Some(NextId(db.edges.Keys))
    ensures GivenOr(event.actor, f.createdBy, "api") && GivenOr(event.reason, f.reason, "edge created")
    ensures after == db.(edges := db.edges[NextId(db.edges.Keys) := e], events := db.events + [event])
  {
    EdgeStep(db, f);
    e := NewEdge(f).value;
    event := CreateEdgeChange(db, f).value.events[0];
    NewEdgeIs(db, f);
    Refinement.EdgeWriteRefines(db, NextId(db.edges.Keys), e, event);
  }

  /** A link by the curation endpoint is a created edge whose creator is the named actor. */
  lemma LinkIsCreated(db: Db, f: EdgeFields, who: ActorFields)
    requires LinkEdgeChange(db, f, who).Ok?
    ensures var named := f.(createdBy := who.actor, reason := who.reason);
      && who.actor.Val? && who.actor.value != "" && who.reason.Val? && who.reason.value != ""
      && LinkEdgeChange(db, f, who) == CreateEdgeChange(db, named)
  {
  }

  lemma EdgeDropped(db: Db, id: int, event: CurationEvent, after: Db)
    requires after == db.(edges := db.edges - {id}, events := Unlinked(db.events + [event], {id}))
    ensures |after.events| == |db.events| + 1 && after.events[|db.events|].(edge := None) == event.(edge := None)
    ensures forall k :: 0 <= k < |after.events| ==> after.events[k].edge != Some(id)
  {
  }

  lemma DeletionLeaves(db: Db, id: int, who: ActorFields, after: Db)
    requires DeleteEdgeChange(db, id, who).Ok? && after == Commit(db, DeleteEdgeChange(db, id, who))
    ensures id in db.edges
    ensures var event := DeleteEdgeChange(db, id, who).value.events[0];
      after == db.(edges := db.edges - {id}, events := Unlinked(db.events + [event], {id}))
  {
    Refinement.EdgeDropRefines(db, id, DeleteEdgeChange(db, id, who).value.events[0]);
  }

  lemma DeleteStep(db: Db, id: int, who: ActorFields)
    ensures ChangeOf(db, DeleteEdge(id, who)) == DeleteEdgeChange(db, id, who)
  {
  }

  /** A deleted edge is gone, and its unlinking is logged; no event names it any more, and no other
      table changes. */
  lemma EdgeIsDeleted(db: Db, id: int, who: ActorFields, after: Db) returns (event: CurationEvent)
    requires ChangeOf(db, DeleteEdge(id, who)).Ok? && after == Step(db, DeleteEdge(id, who))
    ensures id in db.edges && |after.events| == |db.events| + 1 && after == db.(edges := db.edges - {id}, events := after.events)
    ensures event.action == ActUnlink && GivenOr(event.actor, who.actor, "api") && GivenOr(event.reason, who.reason, "edge deleted")
    ensures after.events[|db.events|].(edge := None) == event.(edge := None)
    ensures forall k :: 0 <= k < |after.events| ==> after.events[k].edge != Some(id)
  {
    DeleteStep(db, id, who);
    event := DeleteEdgeChange(db, id, who).value.events[0];
    DeletionLeaves(db, id, who, after);
    EdgeDropped(db, id, event, after);
  }

  /** An attached reference says what the payload says. */
  predicate RefAttachedAs(row: SourceRef, f: RefFields, target: Field<TargetKind>, targetId: Field<int>, actor: Field<string>) {
    && target == Val(row.targetKind) && targetId == Val(row.targetId) && f.kind == Val(row.kind) && f.sourceId == Val(row.sourceId)
    && ColumnGivenOr(row.project, f.project, None) && GivenOr(row.locator, f.locator, "{}") && GivenOr(row.summary, f.summary, "")
    && ColumnGivenOr(row.observedAt, f.observedAt, None) && ColumnGivenOr(row.verifiedAt, f.verifiedAt, None)
    && GivenOr(row.verification, f.verification, UnverifiedSource) && GivenOr(row.createdBy, actor, "api")
  }

  lemma AttachLeaves(db: Db, f: RefFields, target: Field<TargetKind>, targetId: Field<int>, actor: Field<string>)
    requires AttachRefChange(db, f, target, targetId, actor).Ok?
    ensures var c := AttachRefChange(db, f, target, targetId, actor).value;
      |c.refs| == 1 && RefAttachedAs(c.refs[0], f, target, targetId, actor) && Apply(db, c) == db.(refs := db.refs + c.refs)
  {
    Refinement.ApplyFrame(db, AttachRefChange(db, f, target, targetId, actor).value);
  }

  lemma AttachStep(db: Db, f: RefFields, target: Field<TargetKind>, targetId: Field<int>, actor: Field<string>)
    ensures ChangeOf(db, AttachRef(f, target, targetId, actor)) == AttachRefChange(db, f, target, targetId, actor)
  {
  }

  lemma RefIsAttached(db: Db, f: RefFields, target: Field<TargetKind>, targetId: Field<int>, actor: Field<string>, after: Db)
    returns (row: SourceRef)
    requires ChangeOf(db, AttachRef(f, target, targetId, actor)).Ok? && after == Step(db, AttachRef(f, target, targetId, actor))
    ensures RefAttachedAs(row, f, target, targetId, actor) && after == db.(refs := db.refs + [row])
  {
    AttachStep(db, f, target, targetId, actor);
    AttachLeaves(db, f, target, targetId, actor);
    row := AttachRefChange(db, f, target, targetId, actor).value.refs[0];
  }
}
