/** When each request is accepted, told by its payload and the tables: what it must name, which rows
    must be there, and which words its columns admit. */
module Verdicts {
  import opened Base
  import opened Schema
  import opened Text
  import opened Rows
  import opened Capture
  import opened Changes
  import opened WellFormed
  import opened Effects
  import opened Decisions
  import Edits
  import History
  import Promotions
  import Refinement
  import Slugs

  // ---- What a payload must bring.

  predicate Named(who: ActorFields) {
    who.actor.Val? && who.actor.value != "" && who.reason.Val? && who.reason.value != ""
  }

  /** The label keys that are given hold words of their lists. */
  predicate LabelsKnown(f: LabelFields) {
    && (f.scopeKind.Val? ==> !f.scopeKind.value.OtherScope?)
    && (f.authorityKind.Val? ==> !f.authorityKind.value.OtherScope? && f.authorityKind.value != External)
    && (f.discovery.Val? ==> !f.discovery.value.OtherDiscovery?) && (f.claim.Val? ==> !f.claim.value.OtherClaim?)
  }

  /** The other keys of an entry that are given hold words of their lists. */
  predicate EntryKeysKnown(f: EntryFields) {
    && LabelsKnown(f.labels) && (f.layer.Val? ==> !f.layer.value.OtherLayer?)
    && (f.confidence.Val? ==> !f.confidence.value.OtherConfidence? && !f.confidence.value.NeedsHumanEye?)
    && (f.stability.Val? ==> !f.stability.value.OtherStability?)
  }

  predicate EntryPayloadKnown(p: EntryPayload) {
    && EntryKeysKnown(p.fields) && (p.status.Val? ==> !p.status.value.OtherEntryStatus?)
    && (p.curationState.Val? ==> !p.curationState.value.OtherState?)
  }

  predicate RefKnown(f: RefFields) {
    (f.kind.Val? ==> !f.kind.value.OtherSource?) && (f.verification.Val? ==> !f.verification.value.OtherValidation?)
  }

  /** The object members of a list of references hold known words. */
  predicate RefsKnown(refs: RefColumn) {
    refs.RefList? ==> forall i :: 0 <= i < |refs.items| && refs.items[i].RefObject? ==> RefKnown(refs.items[i].fields)
  }

  predicate ConfidenceFits(f: Field<real>) {
    f.Val? ==> 0.0 <= f.value <= 1.0
  }

  /** A capture log row can be written. */
  predicate Loggable(log: LogFields, scope: Field<ScopeKind>) {
    && (log.eventKind.Val? ==> !log.eventKind.value.OtherEvent?) && (log.runtime.Val? ==> !log.runtime.value.OtherRuntime?)
    && (scope.Val? ==> !scope.value.OtherScope?)
  }

  predicate Creatable(f: CandidateFields) {
    && f.title.Val? && f.kind.Val?
    && (f.status.Val? ==> f.status.value == Pending || f.status.value == OtherCandidateStatus(""))
    && (f.layer.Val? ==> f.layer.value == CandidateLayer || f.layer.value == OtherLayer(""))
    && LabelsKnown(f.labels) && f.labels.claim != Val(Policy) && ConfidenceFits(f.extractionConfidence)
  }

  // ---- Single rows.

  lemma NewCandidateFits(f: CandidateFields)
    ensures NewCandidate(f).Ok? <==> Creatable(f)
  {
  }

  /** A change to one candidate is accepted when the row is stored and the given values fit. */
  lemma RevisionFits(db: Db, id: int, u: CandidateUpdate, action: Action, who: Actor)
    requires ChecksPass(db.candidates)
    requires !u.status.Null? && !u.title.Null? && !u.body.Null? && !u.summary.Null? && !u.kind.Null?
    requires !u.labels.scopeKind.Null? && !u.labels.authorityKind.Null? && !u.labels.discovery.Null? && !u.labels.claim.Null?
    requires u.status.Val? ==> !u.status.value.OtherCandidateStatus?
    ensures ReviseCandidate(db, id, u, action, who).Ok? <==> id in db.candidates && LabelsKnown(u.labels)
  {
  }

  predicate Relabellable(f: RelabelFields) {
    && !f.title.Null? && !f.body.Null? && !f.summary.Null? && !f.kind.Null? && !f.claim.Null?
    && (f.claim.Val? ==> !f.claim.value.OtherClaim?)
  }

  predicate Rescopable(f: LabelFields) {
    f.scopeKind.Val? && f.authorityKind.Val? && f.discovery.Val? && f.claim.Val? && LabelsKnown(f)
  }

  ghost predicate AcceptsRevision(db: Db, r: Request) {
    match r
    case Claim(id, who) => Named(who) && id in db.candidates
    case Reject(id, who) => Named(who) && id in db.candidates
    case PatchStatus(id, status, who) => status.Val? && !status.value.OtherCandidateStatus? && id in db.candidates
    case Relabel(id, f, who) => Named(who) && id in db.candidates && Relabellable(f)
    case Rescope(id, f, who) => Named(who) && id in db.candidates && Rescopable(f)
    case _ => false
  }

  lemma StatusRevisions(db: Db, r: Request)
    requires (r.Claim? || r.Reject? || r.PatchStatus?) && ChecksPass(db.candidates)
    ensures ChangeOf(db, r).Ok? <==> AcceptsRevision(db, r)
  {
  }

  lemma RelabelAccepted(db: Db, r: Request)
    requires r.Relabel? && ChecksPass(db.candidates)
    ensures ChangeOf(db, r).Ok? <==> AcceptsRevision(db, r)
  {
  }

  lemma RescopeAccepted(db: Db, r: Request)
    requires r.Rescope? && ChecksPass(db.candidates)
    ensures ChangeOf(db, r).Ok? <==> AcceptsRevision(db, r)
  {
  }

  lemma CreationAccepted(db: Db, f: CandidateFields, log: LogFields, why: Field<string>)
    ensures CreateCandidateChange(db, f, log, why).Ok? <==> Creatable(f) && Loggable(log, f.labels.scopeKind)
  {
    NewCandidateFits(f);
  }

  // ---- Splits and merges.

  /** A fragment can become a part of the candidate. */
  predicate FragmentFits(c: Candidate, part: CandidateFields) {
    && !part.title.Null? && !part.kind.Null? && LabelsKnown(part.labels) && ConfidenceFits(part.extractionConfidence)
    && part.labels.claim != Val(Policy) && (part.labels.claim.Absent? ==> c.labels.claim != Policy)
  }

  lemma FragmentAccepted(c: Candidate, part: CandidateFields, who: string)
    requires CheckCandidate(c)
    ensures NewCandidate(FragmentFields(c, part, who)).Ok? <==> FragmentFits(c, part)
  {
    NewCandidateFits(FragmentFields(c, part, who));
  }

  ghost predicate FragmentsFit(c: Candidate, fragments: seq<Option<CandidateFields>>) {
    forall i :: 0 <= i < |fragments| && fragments[i].Some? ==> FragmentFits(c, fragments[i].value)
  }

  lemma {:induction false} FragmentsAccepted(c: Candidate, fragments: seq<Option<CandidateFields>>, who: string)
    requires CheckCandidate(c)
    ensures FragmentRows(c, fragments, who).Ok? <==> FragmentsFit(c, fragments)
    decreases |fragments|
  {
    if fragments != [] {
      var (front, last) := (fragments[..|fragments| - 1], fragments[|fragments| - 1]);
      FragmentsAccepted(c, front, who);
      assert FragmentsFit(c, fragments) <==> FragmentsFit(c, front) && (last.Some? ==> FragmentFits(c, last.value));
      if last.Some? {
        FragmentAccepted(c, last.value, who);
      }
    }
  }

  lemma SplitAccepted(db: Db, id: int, fragments: seq<Option<CandidateFields>>, who: ActorFields)
    requires ChecksPass(db.candidates)
    ensures SplitChange(db, id, fragments, who).Ok?
      <==> Named(who) && |fragments| >= 2 && id in db.candidates && FragmentsFit(db.candidates[id], fragments)
  {
    if id in db.candidates {
      FragmentsAccepted(db.candidates[id], fragments, OrElse(who.actor, ""));
      Refinement.StatusUpdateSets(db.candidates[id], NeedsSplit, OrElse(who.actor, ""));
    }
  }

  ghost predicate MergeFits(db: Db, ids: seq<int>, f: CandidateFields) {
    && |ids| >= 2 && (forall i :: 0 <= i < |ids| ==> ids[i] in db.candidates)
    && LabelsKnown(f.labels) && f.labels.claim != Val(Policy)
    && (!f.labels.claim.Val? ==> db.candidates[ids[0]].labels.claim != Policy)
  }

  lemma MergedFits(rows: seq<Candidate>, f: CandidateFields, who: string)
    requires rows != [] && CheckCandidate(rows[0])
    ensures NewCandidate(MergedFields(rows, f, who)).Ok?
      <==> LabelsKnown(f.labels) && f.labels.claim != Val(Policy) && (!f.labels.claim.Val? ==> rows[0].labels.claim != Policy)
  {
  }

  lemma StoredPasses(db: Db, id: int)
    requires ChecksPass(db.candidates) && id in db.candidates
    ensures CheckCandidate(db.candidates[id])
  {
  }

  lemma SourcesAccepted(db: Db, ids: seq<int>, who: string)
    requires ChecksPass(db.candidates) && AllStored(db.candidates, ids)
    ensures SourcesPass(db.candidates, ids, who)
  {
    forall i | 0 <= i < |ids|
      ensures CheckCandidate(MarkedMerged(db.candidates[ids[i]], who))
    {
      StoredPasses(db, ids[i]);
    }
  }

  lemma MergeAccepted(db: Db, ids: seq<int>, f: CandidateFields, who: ActorFields)
    requires ChecksPass(db.candidates)
    ensures MergeChange(db, ids, f, who).Ok? <==> Named(who) && MergeFits(db, ids, f)
  {
    if |ids| >= 2 && AllStored(db.candidates, ids) {
      StoredPasses(db, ids[0]);
      MergedFits(RowsOf(db.candidates, ids), f, OrElse(who.actor, ""));
      SourcesAccepted(db, ids, OrElse(who.actor, ""));
    }
  }

  // ---- References.

  predicate AllKnown(objects: seq<RefFields>) {
    forall i :: 0 <= i < |objects| ==> RefKnown(objects[i])
  }

  lemma OneMoreKnown(objects: seq<RefFields>, last: RefFields)
    ensures AllKnown(objects + [last]) <==> AllKnown(objects) && RefKnown(last)
  {
    var all := objects + [last];
    if AllKnown(all) {
      assert all[|objects|] == last;
      assert forall i :: 0 <= i < |objects| ==> objects[i] == all[i];
    }
  }

  lemma {:induction false} ObjectsKnown(items: seq<RefItem>)
    ensures RefsKnown(RefList(items)) <==> AllKnown(RefObjects(items))
    decreases |items|
  {
    if items != [] {
      var (front, last) := (items[..|items| - 1], items[|items| - 1]);
      ObjectsKnown(front);
      assert RefsKnown(RefList(items)) <==> RefsKnown(RefList(front)) && (last.RefObject? ==> RefKnown(last.fields));
      if last.RefObject? {
        OneMoreKnown(RefObjects(front), last.fields);
      } else {
        assert RefObjects(items) == RefObjects(front);
      }
    }
  }

  lemma RowsKnown(items: seq<RefItem>, entryId: int, who: string, summary: string, sourceId: string)
    ensures RefsPass(RefRows(items, EntryTarget, entryId, who, summary, sourceId)) <==> RefsKnown(RefList(items))
  {
    var (objects, rows) := (RefObjects(items), RefRows(items, EntryTarget, entryId, who, summary, sourceId));
    ObjectsKnown(items);
    assert forall i :: 0 <= i < |rows| ==> rows[i] in rows && (CheckRef(rows[i]) <==> RefKnown(objects[i]));
    if RefsKnown(RefList(items)) {
      forall row | row in rows
        ensures CheckRef(row)
      {
        var i :| 0 <= i < |rows| && rows[i] == row;
        assert RefKnown(objects[i]);
      }
    } else {
      var i :| 0 <= i < |objects| && !RefKnown(objects[i]);
      assert !CheckRef(rows[i]);
    }
  }

  // ---- Promotions.

  ghost predicate SlugUsed(db: Db, slug: string) {
    exists id :: id in db.entries && db.entries[id].slug == slug
  }

  /** The candidate can become an entry. */
  ghost predicate EntryAdmitted(db: Db, proposed: Option<string>, f: EntryFields, fallback: string) {
    EntryKeysKnown(f) && exists slug :: SlugTold(slug, f.slug, proposed, fallback) && !SlugUsed(db, slug)
  }

  ghost predicate PromotionFits(db: Db, id: int, f: EntryFields) {
    && id in db.candidates
    && var c := db.candidates[id];
    && (c.status == Pending || c.status == Claimed) && EntryAdmitted(db, c.slug, f, Decimal(id)) && RefsKnown(c.refs)
  }

  lemma AdmittedEntryPasses(db: Db, c: Candidate, id: Option<int>, f: EntryFields, who: string)
    requires CheckLabels(c.labels)
    ensures EntryVerdict(db.entries, PromotedEntry(c, id, f, who)).None?
      <==> EntryAdmitted(db, c.slug, f, if id.Some? then Decimal(id.value) else "<nil>")
  {
    var slug := PromotedSlug(c, id, f);
    assert SlugTold(slug, f.slug, c.slug, if id.Some? then Decimal(id.value) else "<nil>");
  }

  lemma PromotionAccepted(db: Db, id: int, f: EntryFields, who: Actor)
    requires ChecksPass(db.candidates)
    ensures PromoteStored(db, id, f, who).Ok? <==> PromotionFits(db, id, f)
  {
    if id in db.candidates {
      var c := db.candidates[id];
      AdmittedEntryPasses(db, c, Some(id), f, who.name);
      RowsKnown(RefItems(c), NextId(db.entries.Keys), who.name, c.summary, Decimal(id));
      Refinement.StatusUpdateSets(c, Promoted, who.name);
    }
  }

  // ---- Captures.

  lemma EarlyAccepted(db: Db, p: CapturePayload)
    requires EarlyDecision(p).Some?
    ensures CaptureChange(db, p).Ok? <==> Loggable(p.log, p.entry.labels.scopeKind)
  {
    EarlyIsDecided(db, p);
    EarlySize(p);
  }

  /** A captured row of a named agent is promoted, if its entry is admitted. */
  predicate PromotesItself(p: CapturePayload) {
    !WorksOrAudits(p) && !RunsUnder(p, "audit_service") && p.actor.Val? && p.actor.value != ""
  }

  /** The candidate of the capture is stored. */
  ghost predicate Stores(p: CapturePayload) {
    DecidedAs(p, Captured, OrElse(p.reason, "captured candidate"))
  }

  ghost predicate CaptureFits(db: Db, p: CapturePayload) {
    && Loggable(p.log, p.entry.labels.scopeKind)
    && (Stores(p) && PromotesItself(p) && EntryAdmitted(db, Column(p.proposedSlug), p.entry, "<nil>")
        ==> RefsKnown(OrElse(p.refs, RefList([]))))
  }

  lemma CapturedLogPasses(p: CapturePayload, id: int)
    ensures CheckCapture(Slugs.CapturedLog(p, id)) <==> Loggable(p.log, p.entry.labels.scopeKind)
  {
  }

  lemma AutoPromotionAccepted(db: Db, p: CapturePayload)
    requires EarlyDecision(p).None? && AutoPromotes(p)
    ensures CaptureChange(db, p).Ok? <==>
      Loggable(p.log, p.entry.labels.scopeKind)
      && (EntryAdmitted(db, Column(p.proposedSlug), p.entry, "<nil>") ==> RefsKnown(OrElse(p.refs, RefList([]))))
  {
    var row := Slugs.CapturedRow(p);
    Slugs.AutoPromotionOutcome(db, p);
    CapturedLogPasses(p, NextId(db.candidates.Keys));
    Slugs.CapturedRowPasses(p);
    CapturedRowIs(p);
    AdmittedEntryPasses(db, row, None, p.entry, AutoPromoter(p).name);
    RowsKnown(RefItems(row), NextId(db.entries.Keys), AutoPromoter(p).name, row.summary, "<nil>");
  }

  lemma PlainCaptureAccepted(db: Db, p: CapturePayload)
    requires EarlyDecision(p).None? && !AutoPromotes(p)
    ensures CaptureChange(db, p).Ok? <==> Loggable(p.log, p.entry.labels.scopeKind)
  {
    CapturedLogPasses(p, NextId(db.candidates.Keys));
  }

  lemma AutoPromotesTells(p: CapturePayload)
    ensures AutoPromotes(p) <==> PromotesItself(p)
  {
  }

  lemma NotStored(p: CapturePayload, decision: Decision, reason: string)
    requires DecidedAs(p, decision, reason) && decision != Captured
    ensures !Stores(p)
  {
  }

  lemma CaptureAccepted(db: Db, p: CapturePayload)
    ensures CaptureChange(db, p).Ok? <==> CaptureFits(db, p)
  {
    EarlyTells(p);
    AutoPromotesTells(p);
    if EarlyDecision(p).Some? {
      EarlyAccepted(db, p);
      NotStored(p, EarlyDecision(p).value.0, EarlyDecision(p).value.1);
    } else if AutoPromotes(p) {
      AutoPromotionAccepted(db, p);
    } else {
      PlainCaptureAccepted(db, p);
    }
  }

  // ---- Proposals.

  /** The payload of a proposal names candidate k. */
  predicate Names(f: ProposalFields, k: int) {
    k > 0 && (f.candidateId == Val(k) || k in f.candidateIds)
  }

  ghost predicate NamesStored(db: Db, f: ProposalFields) {
    forall k :: Names(f, k) ==> k in db.candidates
  }

  ghost predicate NamesSome(f: ProposalFields) {
    exists k :: Names(f, k)
  }

  predicate ProposalKnown(f: ProposalFields) {
    && f.kind.Val? && !f.kind.value.OtherKind? && (f.status.Val? ==> f.status.value == Proposed || f.status.value == NeedsHuman)
    && f.proposer.Val? && f.proposer.value != ""
    && (f.proposerKind.Val? ==> !f.proposerKind.value.OtherProposer?) && (f.confidence.Val? ==> !f.confidence.value.OtherConfidence?)
  }

  ghost predicate ProposalFits(db: Db, f: ProposalFields) {
    && ProposalKnown(f) && f.reason.Val? && !Blank(f.reason.value)
    && NamesStored(db, f) && (f.kind.value != SupersedeEntry && f.kind.value != ProposalKind.Defer ==> NamesSome(f))
    && (f.targetEntry.Val? ==> f.targetEntry.value in db.entries)
  }

  lemma NamesTold(db: Db, f: ProposalFields)
    ensures AllStored(db.candidates, ProposalCandidateIds(f)) <==> NamesStored(db, f)
    ensures ProposalCandidateIds(f) == [] <==> !NamesSome(f)
  {
    var ids := ProposalCandidateIds(f);
    Edits.CandidatesOf(f);
    assert forall k :: k in ids <==> Names(f, k);
    if AllStored(db.candidates, ids) {
      Edits.AllStoredAre(db.candidates, ids);
    }
    assert forall i :: 0 <= i < |ids| ==> ids[i] in ids;
    assert ids != [] ==> Names(f, ids[0]);
  }

  lemma ReasonTold(f: ProposalFields)
    ensures Trim(OrElse(f.reason, "")) != "" <==> f.reason.Val? && !Blank(f.reason.value)
  {
    BlankTrims(OrElse(f.reason, ""));
  }

  lemma ProposalAccepted(db: Db, f: ProposalFields)
    ensures CreateProposalChange(db, f).Ok? <==> ProposalFits(db, f)
  {
    NamesTold(db, f);
    ReasonTold(f);
  }

  /** The one candidate a proposal is about. */
  ghost predicate About(p: Proposal, id: int) {
    forall k :: k > 0 && k in p.candidateIds <==> k == id
  }

  /** The request a proposal stands for is accepted. */
  ghost predicate EffectFits(db: Db, p: Proposal, id: int) {
    About(p, id) && ((p.kind == PromoteCandidate && PromotionFits(db, id, ProposalPayload(p)))
                     || (p.kind == RejectCandidate && id in db.candidates))
  }

  ghost predicate ApplicationFits(db: Db, pid: int) {
    && pid in db.proposals
    && var p := db.proposals[pid];
    && (p.status == Proposed || p.status == NeedsHuman)
    && exists id :: EffectFits(db, p, id)
  }

  lemma FirstTwoDiffer(ids: seq<int>)
    requires Distinct(ids) && |ids| >= 2
    ensures ids[0] != ids[1]
  {
  }

  lemma OnlyMember(ids: seq<int>, id: int)
    requires Distinct(ids) && forall k {:trigger k in ids} :: k in ids <==> k == id
    ensures ids == [id]
  {
    assert id in ids;
    forall i | 0 <= i < |ids|
      ensures ids[i] == id
    {
      assert ids[i] in ids;
    }
    if |ids| >= 2 {
      FirstTwoDiffer(ids);
    }
  }

  lemma NamedOnce(p: Proposal, k: int)
    ensures k in Unique(PositiveIds(p.candidateIds)) <==> k > 0 && k in p.candidateIds
  {
    Edits.PositiveAmong(p.candidateIds);
    UniqueKeepsMembers(PositiveIds(p.candidateIds));
  }

  lemma AboutTells(p: Proposal, id: int, k: int)
    requires About(p, id)
    ensures k > 0 && k in p.candidateIds <==> k == id
  {
  }

  lemma OneIsAbout(p: Proposal, id: int)
    ensures About(p, id) <==> Unique(PositiveIds(p.candidateIds)) == [id]
  {
    var ids := Unique(PositiveIds(p.candidateIds));
    UniqueKeepsMembers(PositiveIds(p.candidateIds));
    if About(p, id) {
      forall k
        ensures k in ids <==> k == id
      {
        NamedOnce(p, k);
        AboutTells(p, id, k);
      }
      OnlyMember(ids, id);
    } else if ids == [id] {
      forall k
        ensures k > 0 && k in p.candidateIds <==> k == id
      {
        NamedOnce(p, k);
      }
    }
  }

  lemma EffectAccepted(db: Db, p: Proposal, id: int, who: Actor)
    requires ChecksPass(db.candidates) && About(p, id)
    ensures ProposalEffect(db, p, who).Ok? <==> EffectFits(db, p, id)
  {
    OneIsAbout(p, id);
    AppliedIsPromoted(db, id, ProposalPayload(p), who);
    PromotionAccepted(db, id, ProposalPayload(p), who);
    RevisionFits(db, id, StatusUpdate(Val(Rejected), who.name), ActReject, who);
  }

  lemma AboutOne(p: Proposal, id: int)
    requires About(p, id)
    ensures forall k :: About(p, k) ==> k == id
  {
    OneIsAbout(p, id);
    forall k | About(p, k)
      ensures k == id
    {
      OneIsAbout(p, k);
    }
  }

  lemma NoEffect(db: Db, p: Proposal, who: Actor)
    requires forall id :: !About(p, id)
    ensures ProposalEffect(db, p, who).Err?
  {
    var ids := Unique(PositiveIds(p.candidateIds));
    assert |ids| == 1 ==> ids == [ids[0]];
    if |ids| == 1 {
      OneIsAbout(p, ids[0]);
    }
  }

  lemma ApplicationAccepted(db: Db, pid: int, who: ActorFields)
    requires ChecksPass(db.candidates)
    ensures ApplyProposalChange(db, pid, who).Ok? <==> Named(who) && ApplicationFits(db, pid)
  {
    if Named(who) && pid in db.proposals {
      var (p, actor) := (db.proposals[pid], RequireActorReason(who).value);
      if id :| About(p, id) {
        EffectAccepted(db, p, id, actor);
        AboutOne(p, id);
      } else {
        NoEffect(db, p, actor);
      }
    }
  }

  // ---- Entries.

  lemma {:induction false} EntryRowsKnown(p: EntryPayload, entryId: int, who: string, summary: string, sourceId: string)
    ensures var items := if p.refs.Val? && p.refs.value.RefList? then p.refs.value.items else [];
      RefsPass(RefRows(items, EntryTarget, entryId, who, summary, sourceId)) <==> RefsKnown(OrElse(p.refs, RefList([])))
  {
    RowsKnown(if p.refs.Val? && p.refs.value.RefList? then p.refs.value.items else [], entryId, who, summary, sourceId);
  }

  ghost predicate EntryCreatable(db: Db, p: EntryPayload) {
    && p.fields.slug.Val? && p.fields.title.Val? && p.fields.kind.Val? && !SlugUsed(db, p.fields.slug.value)
    && EntryPayloadKnown(p) && (p.contentFormat.Val? ==> !p.contentFormat.value.OtherFormat?)
    && RefsKnown(OrElse(p.refs, RefList([])))
  }

  lemma EntryCreationAccepted(db: Db, p: EntryPayload)
    ensures CreateEntryChange(db, p).Ok? <==> EntryCreatable(db, p)
  {
    EntryRowsKnown(p, NextId(db.entries.Keys), OrElse(p.createdBy, "api"), OrElse(p.fields.summary, ""), OrElse(p.fields.slug, ""));
  }

  lemma EntryUpdateAccepted(db: Db, slug: string, p: EntryPayload)
    requires EntryChecksPass(db.entries)
    ensures UpdateEntryChange(db, slug, p).Ok? <==> SlugUsed(db, slug) && !p.fields.title.Null? && EntryPayloadKnown(p)
  {
  }

  // ---- The topic graph and references.

  ghost predicate NodeSlugUsed(db: Db, slug: string) {
    exists id :: id in db.nodes && db.nodes[id].slug == slug
  }

  predicate NodeUpdatable(n: Node, f: NodeFields) {
    && !f.title.Null? && CheckLabels(n.labels.(claim := Observation, discovery := ExplicitOnly))
    && (if f.labels.claim.Val? then !f.labels.claim.value.OtherClaim? else f.labels.claim.Absent? ==> !n.labels.claim.OtherClaim?)
    && (if f.labels.discovery.Val? then !f.labels.discovery.value.OtherDiscovery?
        else f.labels.discovery.Absent? ==> !n.labels.discovery.OtherDiscovery?)
  }

  ghost predicate EdgeCreatable(db: Db, f: EdgeFields) {
    && f.source.Val? && f.source.value in db.nodes && f.target.Val? && f.target.value in db.nodes
    && f.relation.Val? && !f.relation.value.OtherRelation? && (f.status.Val? ==> !f.status.value.OtherEdgeStatus?)
    && forall k :: k in db.edges ==>
         var e := db.edges[k];
         e.source != f.source.value || e.target != f.target.value || e.relation != f.relation.value
         || e.conditionHash != OrElse(f.conditionHash, "")
  }

  lemma EdgeAccepted(db: Db, f: EdgeFields)
    ensures CreateEdgeChange(db, f).Ok? <==> EdgeCreatable(db, f)
  {
  }

  ghost predicate AcceptsGraph(db: Db, r: Request) {
    match r
    case CreateNode(f) => f.slug.Val? && f.title.Val? && f.restPasses && LabelsKnown(f.labels) && !NodeSlugUsed(db, f.slug.value)
    case UpdateNode(slug, f) => exists id :: id in db.nodes && db.nodes[id].slug == slug && NodeUpdatable(db.nodes[id], f)
    case CreateEdge(f) => EdgeCreatable(db, f)
    case LinkEdge(f, who) => Named(who) && EdgeCreatable(db, f)
    case DeleteEdge(id, _) => id in db.edges
    case UnlinkEdge(id, who) => Named(who) && id in db.edges
    case AttachRef(f, target, targetId, _) =>
      target.Val? && !target.value.OtherTarget? && targetId.Val? && f.kind.Val? && f.sourceId.Val? && RefKnown(f)
    case _ => false
  }

  lemma NodesAccepted(db: Db, r: Request)
    requires (r.CreateNode? || r.UpdateNode?) && UniqueNodeSlugs(db.nodes)
    ensures ChangeOf(db, r).Ok? <==> AcceptsGraph(db, r)
  {
  }

  lemma LinksAccepted(db: Db, r: Request)
    requires r.CreateEdge? || r.LinkEdge?
    ensures ChangeOf(db, r).Ok? <==> AcceptsGraph(db, r)
  {
    EdgeAccepted(db, r.edge);
    if r.LinkEdge? && Named(r.who) {
      EdgeAccepted(db, r.edge.(createdBy := Val(r.who.actor.value), reason := Val(r.who.reason.value)));
    }
  }

  lemma RestAccepted(db: Db, r: Request)
    requires r.DeleteEdge? || r.UnlinkEdge? || r.AttachRef?
    ensures ChangeOf(db, r).Ok? <==> AcceptsGraph(db, r)
  {
  }

  // ---- Every request.

  ghost predicate Accepts(db: Db, r: Request) {
    match r
    case CreateCandidate(f, log, _) => Creatable(f) && Loggable(log, f.labels.scopeKind)
    case CaptureMemory(p) => CaptureFits(db, p)
    case Promote(id, f, who) => Named(who) && PromotionFits(db, id, f)
    case Split(id, fragments, who) =>
      Named(who) && |fragments| >= 2 && id in db.candidates && FragmentsFit(db.candidates[id], fragments)
    case Merge(ids, f, who) => Named(who) && MergeFits(db, ids, f)
    case CreateProposal(f) => ProposalFits(db, f)
    case ApplyProposal(id, who) => Named(who) && ApplicationFits(db, id)
    case RejectProposal(id, who) => Named(who) && id in db.proposals
    case DeferProposal(id, who) => Named(who) && id in db.proposals
    case CreateEntry(p) => EntryCreatable(db, p)
    case UpdateEntry(slug, p) => SlugUsed(db, slug) && !p.fields.title.Null? && EntryPayloadKnown(p)
    case SupersedeEntryBySlug(slug, who) => Named(who) && SlugUsed(db, slug)
    case _ => AcceptsRevision(db, r) || AcceptsGraph(db, r)
  }

  lemma PromoteAccepted(db: Db, id: int, f: EntryFields, who: ActorFields)
    requires ChecksPass(db.candidates)
    ensures PromoteChange(db, id, f, who).Ok? <==> Named(who) && PromotionFits(db, id, f)
  {
    PromotionAccepted(db, id, f, Actor(OrElse(who.actor, ""), OrElse(who.reason, "")));
  }

  lemma MarksAccepted(db: Db, r: Request)
    requires r.RejectProposal? || r.DeferProposal? || r.SupersedeEntryBySlug?
    ensures ChangeOf(db, r).Ok? <==> Accepts(db, r)
  {
  }

  lemma GraphAccepted(db: Db, r: Request)
    requires History.AboutGraph(r) && UniqueNodeSlugs(db.nodes)
    ensures ChangeOf(db, r).Ok? <==> AcceptsGraph(db, r)
  {
    if r.CreateNode? || r.UpdateNode? {
      NodesAccepted(db, r);
    } else if r.CreateEdge? || r.LinkEdge? {
      LinksAccepted(db, r);
    } else {
      RestAccepted(db, r);
    }
  }

  lemma RevisionAccepted(db: Db, r: Request)
    requires (r.Claim? || r.Reject? || r.PatchStatus? || r.Relabel? || r.Rescope?) && ChecksPass(db.candidates)
    ensures ChangeOf(db, r).Ok? <==> AcceptsRevision(db, r)
  {
    if r.Relabel? {
      RelabelAccepted(db, r);
    } else if r.Rescope? {
      RescopeAccepted(db, r);
    } else {
      StatusRevisions(db, r);
    }
  }

  lemma InsertionsAccepted(db: Db, r: Request)
    requires r.CreateCandidate? || r.CaptureMemory? || r.CreateProposal? || r.CreateEntry?
    ensures ChangeOf(db, r).Ok? <==> Accepts(db, r)
  {
    match r
    case CreateCandidate(f, log, why) => CreationAccepted(db, f, log, why);
    case CaptureMemory(p) => CaptureAccepted(db, p);
    case CreateProposal(f) => ProposalAccepted(db, f);
    case CreateEntry(p) => EntryCreationAccepted(db, p);
  }

  lemma DecisionsAccepted(db: Db, r: Request)
    requires (r.Promote? || r.Split? || r.Merge? || r.ApplyProposal?) && ChecksPass(db.candidates)
    ensures ChangeOf(db, r).Ok? <==> Accepts(db, r)
  {
    match r
    case Promote(id, f, who) => PromoteAccepted(db, id, f, who);
    case Split(id, fragments, who) => SplitAccepted(db, id, fragments, who);
    case Merge(ids, f, who) => MergeAccepted(db, ids, f, who);
    case ApplyProposal(id, who) => ApplicationAccepted(db, id, who);
  }

  lemma UpdateAccepted(db: Db, r: Request)
    requires r.UpdateEntry? && EntryChecksPass(db.entries)
    ensures ChangeOf(db, r).Ok? <==> Accepts(db, r)
  {
    EntryUpdateAccepted(db, r.slug, r.entry);
  }

  predicate Inserts(r: Request) {
    r.CreateCandidate? || r.CaptureMemory? || r.CreateProposal? || r.CreateEntry?
  }

  predicate Decides(r: Request) {
    r.Promote? || r.Split? || r.Merge? || r.ApplyProposal?
  }

  lemma OthersAccepted(db: Db, r: Request)
    requires WellFormed.WellFormed(db) && !Inserts(r) && !Decides(r)
    ensures ChangeOf(db, r).Ok? <==> Accepts(db, r)
  {
    if r.UpdateEntry? {
      UpdateAccepted(db, r);
    } else if r.RejectProposal? || r.DeferProposal? || r.SupersedeEntryBySlug? {
      MarksAccepted(db, r);
    } else if History.AboutGraph(r) {
      GraphAccepted(db, r);
    } else {
      RevisionAccepted(db, r);
    }
  }

  /** In every well-formed database, and so in every reachable one, a request is accepted exactly when
      its payload brings what it must and names what is there. */
  lemma RequestsAreAccepted(db: Db, r: Request)
    requires WellFormed.WellFormed(db)
    ensures ChangeOf(db, r).Ok? <==> Accepts(db, r)
  {
    if Inserts(r) {
      InsertionsAccepted(db, r);
    } else if Decides(r) {
      DecisionsAccepted(db, r);
    } else {
      OthersAccepted(db, r);
    }
  }
}
