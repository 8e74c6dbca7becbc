/** What every request keeps about the tables themselves: indexes agree with rows, slugs are
    unique, ids are positive, stored candidates pass their CHECKs, foreign keys resolve. */
module WellFormed {
  import opened Base
  import opened Schema
  import opened Rows
  import opened Capture
  import opened Changes

  /** Row ids, and the text every index row must carry. A node's index slug may drift. */
  ghost predicate Indexed(db: Db) {
    && db.candidateTexts == CandidateTexts(db.candidates)
    && db.entryTexts == EntryTexts(db.entries)
    && db.nodeTexts.Keys == db.nodes.Keys
    && (forall id :: id in db.nodes ==>
          db.nodeTexts[id].title == db.nodes[id].title && db.nodeTexts[id].summary == db.nodes[id].summary)
  }

  ghost predicate UniqueEntrySlugs(entries: map<int, Entry>) {
    forall i, j :: i in entries && j in entries && entries[i].slug == entries[j].slug ==> i == j
  }

  ghost predicate UniqueNodeSlugs(nodes: map<int, Node>) {
    forall i, j :: i in nodes && j in nodes && nodes[i].slug == nodes[j].slug ==> i == j
  }

  ghost predicate PositiveKeys(ids: set<int>) {
    forall id :: id in ids ==> id > 0
  }

  ghost predicate ChecksPass(candidates: map<int, Candidate>) {
    forall id :: id in candidates ==> CheckCandidate(candidates[id])
  }

  ghost predicate EntryChecksPass(entries: map<int, Entry>) {
    forall id :: id in entries ==> CheckEntry(entries[id])
  }

  ghost predicate EdgesResolve(db: Db) {
    forall id :: id in db.edges ==> db.edges[id].source in db.nodes && db.edges[id].target in db.nodes
  }

  /** No event names an edge that is not there. */
  ghost predicate EventEdgesResolve(db: Db) {
    forall k :: 0 <= k < |db.events| && db.events[k].edge.Some? ==> db.events[k].edge.value in db.edges
  }

  ghost predicate WellFormed(db: Db) {
    && Indexed(db)
    && UniqueEntrySlugs(db.entries)
    && UniqueNodeSlugs(db.nodes)
    && PositiveKeys(db.candidates.Keys) && PositiveKeys(db.entries.Keys) && PositiveKeys(db.proposals.Keys)
    && ChecksPass(db.candidates) && EntryChecksPass(db.entries)
    && EdgesResolve(db)
    && EventEdgesResolve(db)
  }

  /** What a well-formed database says in columns: the indexes hold the text of the rows, and the
      closed vocabularies are closed. */
  lemma IndexesTellColumns(db: Db, id: int)
    requires WellFormed(db)
    ensures db.candidateTexts.Keys == db.candidates.Keys && db.entryTexts.Keys == db.entries.Keys
    ensures id in db.candidates ==> var (c, t) := (db.candidates[id], db.candidateTexts[id]);
      t.title == c.title && t.summary == c.summary && t.body == c.body && t.kind == c.kind
    ensures id in db.entries ==> var (e, t) := (db.entries[id], db.entryTexts[id]);
      t.slug == e.slug && t.title == e.title && t.summary == e.summary && t.body == e.body && t.tags == e.tags
  {
  }

  predicate ClosedLabels(l: Labels) {
    && l.scopeKind in {Global, Project, Space, Profile, AgentInstance, User, TaskScope, External}
    && l.authorityKind in {Global, Project, Space, Profile, AgentInstance, User, TaskScope}
    && l.discovery in {SameProject, LinkedProjects, GlobalDiscoverable, ExplicitOnly}
    && l.claim in {Observation, Assessment, Recommendation, Policy}
  }

  lemma VocabulariesAreClosed(db: Db, id: int)
    requires WellFormed(db)
    ensures id in db.candidates ==> var c := db.candidates[id];
      && c.status in {Pending, Claimed, Promoted, Rejected, NeedsSplit, NeedsMerge, SupersededCandidate}
      && ClosedLabels(c.labels) && (c.extractionConfidence.Some? ==> 0.0 <= c.extractionConfidence.value <= 1.0)
    ensures id in db.entries ==> var e := db.entries[id];
      && e.status in {Draft, Active, Disputed, SupersededEntry, Deprecated, Archived}
      && e.confidence in {Unverified, Inferred, SourceBacked, Verified} && e.stability in {Volatile, Evolving, Stable, Canonical}
      && e.contentFormat in {Markdown, Plain, StructuredJson, ExternalRef} && ClosedLabels(e.labels)
  {
  }

  lemma EmptyIsWellFormed()
    ensures WellFormed(EMPTY_DB)
  {
  }

  // ---- What the rows of a change must satisfy for WellFormed to survive it, table by table.

  ghost predicate TidyCandidates(c: Change) {
    forall id :: id in c.candidates ==> id > 0 && CheckCandidate(c.candidates[id])
  }

  /** At most one entry is written: an old one keeps its slug, a new one has a slug of its own. */
  ghost predicate TidyEntries(db: Db, c: Change) {
    && (forall i, j :: i in c.entries && j in c.entries ==> i == j)
    && (forall id :: id in c.entries ==>
          id > 0 && CheckEntry(c.entries[id]) && if id in db.entries then c.entries[id].slug == db.entries[id].slug
                    else !SlugTaken(db.entries, c.entries[id].slug))
  }

  ghost predicate TidyNodes(db: Db, c: Change) {
    && c.nodeTexts.Keys == c.nodes.Keys
    && (forall id :: id in c.nodes ==>
          c.nodeTexts[id].title == c.nodes[id].title && c.nodeTexts[id].summary == c.nodes[id].summary)
    && (forall i, j :: i in c.nodes && j in c.nodes ==> i == j)
    && (forall id :: id in c.nodes ==>
          if id in db.nodes then c.nodes[id].slug == db.nodes[id].slug else !NodeSlugTaken(db.nodes, c.nodes[id].slug))
  }

  ghost predicate TidyEdges(db: Db, c: Change) {
    && (forall id :: id in c.edges ==> c.edges[id].source in db.nodes && c.edges[id].target in db.nodes)
    && (forall k :: 0 <= k < |c.events| && c.events[k].edge.Some? ==>
          c.events[k].edge.value in db.edges || c.events[k].edge.value in c.edges)
  }

  ghost predicate Tidy(db: Db, c: Change) {
    && TidyCandidates(c)
    && TidyEntries(db, c)
    && TidyNodes(db, c)
    && TidyEdges(db, c)
    && PositiveKeys(c.proposals.Keys)
  }

  lemma CandidateTextsOfUnion(a: map<int, Candidate>, b: map<int, Candidate>)
    ensures CandidateTexts(a + b) == CandidateTexts(a) + CandidateTexts(b)
  {
  }

  lemma EntryTextsOfUnion(a: map<int, Entry>, b: map<int, Entry>)
    ensures EntryTexts(a + b) == EntryTexts(a) + EntryTexts(b)
  {
  }

  lemma NodeTextsFollow(db: Db, c: Change)
    requires Indexed(db) && TidyNodes(db, c)
    ensures (db.nodeTexts + c.nodeTexts).Keys == (db.nodes + c.nodes).Keys
    ensures forall id :: id in db.nodes + c.nodes ==>
      && (db.nodeTexts + c.nodeTexts)[id].title == (db.nodes + c.nodes)[id].title
      && (db.nodeTexts + c.nodeTexts)[id].summary == (db.nodes + c.nodes)[id].summary
  {
  }

  lemma IndexesFollow(db: Db, c: Change)
    requires Indexed(db) && TidyNodes(db, c)
    ensures Indexed(Apply(db, c))
  {
    CandidateTextsOfUnion(db.candidates, c.candidates);
    EntryTextsOfUnion(db.entries, c.entries);
    NodeTextsFollow(db, c);
  }

  lemma EntrySlugsStayUnique(db: Db, c: Change)
    requires UniqueEntrySlugs(db.entries) && TidyEntries(db, c)
    ensures UniqueEntrySlugs(db.entries + c.entries)
  {
  }

  lemma NodeSlugsStayUnique(db: Db, c: Change)
    requires UniqueNodeSlugs(db.nodes) && TidyNodes(db, c)
    ensures UniqueNodeSlugs(db.nodes + c.nodes)
  {
  }

  lemma EdgesStayResolved(db: Db, c: Change)
    requires EdgesResolve(db) && EventEdgesResolve(db) && TidyEdges(db, c)
    ensures EdgesResolve(Apply(db, c)) && EventEdgesResolve(Apply(db, c))
  {
    var after := Apply(db, c);
    forall k | 0 <= k < |after.events| && after.events[k].edge.Some?
      ensures after.events[k].edge.value in after.edges
    {
      var e := (db.events + c.events)[k];
      assert e == if k < |db.events| then db.events[k] else c.events[k - |db.events|];
    }
  }

  lemma TidyKeepsWellFormed(db: Db, c: Change)
    requires WellFormed(db) && Tidy(db, c)
    ensures WellFormed(Apply(db, c))
  {
    IndexesFollow(db, c);
    EntrySlugsStayUnique(db, c);
    NodeSlugsStayUnique(db, c);
    EdgesStayResolved(db, c);
  }

  lemma RowsFromKeys(first: int, rows: seq<Candidate>)
    ensures forall id :: id in RowsFrom(first, rows) <==> first <= id < first + |rows|
    ensures forall id :: id in RowsFrom(first, rows) ==> RowsFrom(first, rows)[id] == rows[id - first]
  {
  }

  lemma {:induction false} FragmentRowsPass(c: Candidate, fragments: seq<Option<CandidateFields>>, actor: string)
    requires FragmentRows(c, fragments, actor).Ok?
    ensures forall r :: r in FragmentRows(c, fragments, actor).value ==>
      CheckCandidate(r) && r.status == Pending && !r.labels.claim.Policy?
  {
    if fragments != [] {
      FragmentRowsPass(c, fragments[..|fragments| - 1], actor);
    }
  }

  lemma PromotionIsTidy(db: Db, id: int, c: Candidate, refId: Option<int>, f: EntryFields, who: Actor, before: Before)
    requires WellFormed(db) && id > 0
    requires PromotionOf(db, id, c, refId, f, who, before).Ok?
    ensures Tidy(db, PromotionOf(db, id, c, refId, f, who, before).value)
  {
  }

  lemma SplitIsTidy(db: Db, id: int, fragments: seq<Option<CandidateFields>>, who: ActorFields)
    requires WellFormed(db)
    requires SplitChange(db, id, fragments, who).Ok?
    ensures Tidy(db, SplitChange(db, id, fragments, who).value)
  {
    var first := NextId(db.candidates.Keys);
    var rows := FragmentRows(db.candidates[id], fragments, OrElse(who.actor, "")).value;
    FragmentRowsPass(db.candidates[id], fragments, OrElse(who.actor, ""));
    RowsFromKeys(first, rows);
  }

  lemma MergedIntoIsTidy(db: Db, ids: seq<int>, merged: Candidate, who: Actor)
    requires WellFormed(db) && AllStored(db.candidates, ids) && CheckCandidate(merged)
    requires MergedInto(db, ids, merged, who).Ok?
    ensures Tidy(db, MergedInto(db, ids, merged, who).value)
  {
  }

  lemma MergeIsTidy(db: Db, ids: seq<int>, f: CandidateFields, who: ActorFields)
    requires WellFormed(db)
    requires MergeChange(db, ids, f, who).Ok?
    ensures Tidy(db, MergeChange(db, ids, f, who).value)
  {
    var actor := RequireActorReason(who).value;
    var merged := NewCandidate(MergedFields(RowsOf(db.candidates, ids), f, actor.name)).value;
    MergedIntoIsTidy(db, ids, merged, actor);
  }

  lemma ReviseIsTidy(db: Db, id: int, u: CandidateUpdate, action: Action, who: Actor)
    requires WellFormed(db)
    requires ReviseCandidate(db, id, u, action, who).Ok?
    ensures Tidy(db, ReviseCandidate(db, id, u, action, who).value)
  {
  }

  lemma CreateCandidateIsTidy(db: Db, f: CandidateFields, log: LogFields, why: Field<string>)
    requires WellFormed(db)
    requires CreateCandidateChange(db, f, log, why).Ok?
    ensures Tidy(db, CreateCandidateChange(db, f, log, why).value)
  {
  }

  lemma CapturedRowsAreTidy(db: Db, row: Candidate, captures: seq<CaptureEvent>)
    requires WellFormed(db) && CheckCandidate(row)
    ensures Tidy(db, CapturedRows(NextId(db.candidates.Keys), row, captures))
  {
  }

  lemma AutoPromotionIsTidy(db: Db, p: CapturePayload, row: Candidate, event: CaptureEvent)
    requires WellFormed(db) && CheckCandidate(row)
    ensures var id := NextId(db.candidates.Keys);
      var entry := PromotedEntry(row, None, p.entry, AutoPromoter(p).name);
      var change := AutoPromotionTo(db, p, id, row, entry, AutoPromoter(p), event);
      change.Ok? ==> Tidy(db, change.value)
  {
    var id := NextId(db.candidates.Keys);
    var verdict := EntryVerdict(db.entries, PromotedEntry(row, None, p.entry, AutoPromoter(p).name));
    if verdict.Some? {
      CapturedRowsAreTidy(db, row, [event, ErroredRow(p, verdict.value)]);
    } else if PromotionOf(db, id, row, None, p.entry, AutoPromoter(p), PayloadBefore(row)).Ok? {
      PromotionIsTidy(db, id, row, None, p.entry, AutoPromoter(p), PayloadBefore(row));
    }
  }

  lemma CaptureRowIsTidy(db: Db, p: CapturePayload, row: Candidate)
    requires WellFormed(db) && CheckCandidate(row)
    requires CaptureRowChange(db, p, row).Ok?
    ensures Tidy(db, CaptureRowChange(db, p, row).value)
  {
    var event := DecisionRow(p, Captured, OrElse(p.reason, "captured candidate"), [NextId(db.candidates.Keys)], -1);
    CapturedRowsAreTidy(db, row, [event]);
    AutoPromotionIsTidy(db, p, row, event);
  }

  lemma PromoteIsTidy(db: Db, id: int, f: EntryFields, who: Actor)
    requires WellFormed(db)
    requires PromoteStored(db, id, f, who).Ok?
    ensures Tidy(db, PromoteStored(db, id, f, who).value)
  {
    PromotionIsTidy(db, id, db.candidates[id], Some(id), f, who, CandidatesBefore([Snapshot(id, db.candidates[id])]));
  }

  lemma CandidateChangesAreTidy(db: Db, r: Request)
    requires WellFormed(db)
    requires r.PatchStatus? || r.Claim? || r.Reject? || r.Promote? || r.Relabel? || r.Rescope?
    requires ChangeOf(db, r).Ok?
    ensures Tidy(db, ChangeOf(db, r).value)
  {
    var who := Actor(OrElse(r.who.actor, "api"), OrElse(r.who.reason, "candidate status updated"));
    match r {
      case PatchStatus(id, status, _) =>
        ReviseIsTidy(db, id, StatusUpdate(if status.Val? then status else Null, who.name), PatchAction(status), who);
      case Claim(id, _) => ReviseIsTidy(db, id, StatusUpdate(Val(Claimed), who.name), ActClaim, who);
      case Reject(id, _) => ReviseIsTidy(db, id, StatusUpdate(Val(Rejected), who.name), ActReject, who);
      case Promote(id, f, _) => PromoteIsTidy(db, id, f, who);
      case Relabel(id, f, _) => ReviseIsTidy(db, id, RelabelUpdate(f, who.name), ActRelabel, who);
      case Rescope(id, f, _) => ReviseIsTidy(db, id, RescopeUpdate(f, who.name), ActRescope, who);
    }
  }

  lemma CreateEntryIsTidy(db: Db, p: EntryPayload)
    requires WellFormed(db)
    requires CreateEntryChange(db, p).Ok?
    ensures Tidy(db, CreateEntryChange(db, p).value)
  {
  }

  lemma UpdateEntryIsTidy(db: Db, slug: string, p: EntryPayload)
    requires WellFormed(db)
    requires UpdateEntryChange(db, slug, p).Ok?
    ensures Tidy(db, UpdateEntryChange(db, slug, p).value)
  {
  }

  lemma SupersedeEntryIsTidy(db: Db, slug: string, who: ActorFields)
    requires WellFormed(db)
    requires SupersedeEntryChange(db, slug, who).Ok?
    ensures Tidy(db, SupersedeEntryChange(db, slug, who).value)
  {
  }

  lemma EntryChangesAreTidy(db: Db, r: Request)
    requires WellFormed(db)
    requires r.CreateEntry? || r.UpdateEntry? || r.SupersedeEntryBySlug?
    requires ChangeOf(db, r).Ok?
    ensures Tidy(db, ChangeOf(db, r).value)
  {
    match r {
      case CreateEntry(p) => CreateEntryIsTidy(db, p);
      case UpdateEntry(slug, p) => UpdateEntryIsTidy(db, slug, p);
      case SupersedeEntryBySlug(slug, who) => SupersedeEntryIsTidy(db, slug, who);
    }
  }

  lemma CreateNodeIsTidy(db: Db, f: NodeFields)
    requires WellFormed(db)
    requires CreateNodeChange(db, f).Ok?
    ensures Tidy(db, CreateNodeChange(db, f).value)
  {
  }

  lemma UpdateNodeIsTidy(db: Db, slug: string, f: NodeFields)
    requires WellFormed(db)
    requires UpdateNodeChange(db, slug, f).Ok?
    ensures Tidy(db, UpdateNodeChange(db, slug, f).value)
  {
  }

  lemma CreateEdgeIsTidy(db: Db, f: EdgeFields)
    requires WellFormed(db)
    requires CreateEdgeChange(db, f).Ok?
    ensures Tidy(db, CreateEdgeChange(db, f).value)
  {
  }

  lemma DeleteEdgeIsTidy(db: Db, id: int, who: ActorFields)
    requires WellFormed(db)
    requires DeleteEdgeChange(db, id, who).Ok?
    ensures Tidy(db, DeleteEdgeChange(db, id, who).value)
  {
  }

  lemma AttachRefIsTidy(db: Db, f: RefFields, target: Field<TargetKind>, targetId: Field<int>, actor: Field<string>)
    requires AttachRefChange(db, f, target, targetId, actor).Ok?
    ensures Tidy(db, AttachRefChange(db, f, target, targetId, actor).value)
  {
  }

  lemma CreateProposalIsTidy(db: Db, f: ProposalFields)
    requires WellFormed(db)
    requires CreateProposalChange(db, f).Ok?
    ensures Tidy(db, CreateProposalChange(db, f).value)
  {
  }

  lemma ApplyProposalIsTidy(db: Db, id: int, who: ActorFields)
    requires WellFormed(db)
    requires ApplyProposalChange(db, id, who).Ok?
    ensures Tidy(db, ApplyProposalChange(db, id, who).value)
  {
    var p := db.proposals[id];
    var actor := RequireActorReason(who).value;
    var cid := Unique(PositiveIds(p.candidateIds))[0];
    if p.kind == PromoteCandidate {
      AppliedIsPromoted(db, cid, ProposalPayload(p), actor);
      PromoteIsTidy(db, cid, ProposalPayload(p), actor);
    } else {
      ReviseIsTidy(db, cid, StatusUpdate(Val(Rejected), actor.name), ActReject, actor);
    }
  }

  lemma MarkProposalIsTidy(db: Db, id: int, status: ProposalStatus, who: ActorFields)
    requires WellFormed(db)
    requires MarkProposalChange(db, id, status, who).Ok?
    ensures Tidy(db, MarkProposalChange(db, id, status, who).value)
  {
  }

  lemma CaptureIsTidy(db: Db, p: CapturePayload)
    requires WellFormed(db) && CaptureChange(db, p).Ok?
    ensures Tidy(db, CaptureChange(db, p).value)
  {
    if EarlyDecision(p).None? {
      CaptureRowIsTidy(db, p, NewCandidate(CandidateOf(p)).value);
    }
  }

  lemma InsertionsAreTidy(db: Db, r: Request)
    requires WellFormed(db)
    requires r.CreateCandidate? || r.CaptureMemory? || r.Split? || r.Merge?
    requires ChangeOf(db, r).Ok?
    ensures Tidy(db, ChangeOf(db, r).value)
  {
    match r {
      case CreateCandidate(f, log, why) => CreateCandidateIsTidy(db, f, log, why);
      case CaptureMemory(p) => CaptureIsTidy(db, p);
      case Split(id, fragments, who) => SplitIsTidy(db, id, fragments, who);
      case Merge(ids, f, who) => MergeIsTidy(db, ids, f, who);
    }
  }

  lemma ProposalChangesAreTidy(db: Db, r: Request)
    requires WellFormed(db)
    requires r.CreateProposal? || r.ApplyProposal? || r.RejectProposal? || r.DeferProposal?
    requires ChangeOf(db, r).Ok?
    ensures Tidy(db, ChangeOf(db, r).value)
  {
    match r {
      case CreateProposal(f) => CreateProposalIsTidy(db, f);
      case ApplyProposal(id, who) => ApplyProposalIsTidy(db, id, who);
      case RejectProposal(id, who) => MarkProposalIsTidy(db, id, RejectedProposal, who);
      case DeferProposal(id, who) => MarkProposalIsTidy(db, id, Deferred, who);
    }
  }

  lemma GraphChangesAreTidy(db: Db, r: Request)
    requires WellFormed(db)
    requires r.CreateNode? || r.UpdateNode? || r.CreateEdge? || r.LinkEdge? || r.DeleteEdge? || r.UnlinkEdge? || r.AttachRef?
    requires ChangeOf(db, r).Ok?
    ensures Tidy(db, ChangeOf(db, r).value)
  {
    match r {
      case CreateNode(f) => CreateNodeIsTidy(db, f);
      case UpdateNode(slug, f) => UpdateNodeIsTidy(db, slug, f);
      case CreateEdge(f) => CreateEdgeIsTidy(db, f);
      case LinkEdge(f, who) =>
        var actor := RequireActorReason(who).value;
        CreateEdgeIsTidy(db, f.(createdBy := Val(actor.name), reason := Val(actor.reason)));
      case DeleteEdge(id, who) => DeleteEdgeIsTidy(db, id, who);
      case UnlinkEdge(id, who) =>
        var actor := RequireActorReason(who).value;
        DeleteEdgeIsTidy(db, id, ActorFields(Val(actor.name), Val(actor.reason)));
      case AttachRef(f, target, targetId, actor) => AttachRefIsTidy(db, f, target, targetId, actor);
    }
  }

  lemma ChangesAreTidy(db: Db, r: Request)
    requires WellFormed(db)
    requires ChangeOf(db, r).Ok?
    ensures Tidy(db, ChangeOf(db, r).value)
  {
    if r.CreateCandidate? || r.CaptureMemory? || r.Split? || r.Merge? {
      InsertionsAreTidy(db, r);
    } else if r.CreateProposal? || r.ApplyProposal? || r.RejectProposal? || r.DeferProposal? {
      ProposalChangesAreTidy(db, r);
    } else if r.CreateEntry? || r.UpdateEntry? || r.SupersedeEntryBySlug? {
      EntryChangesAreTidy(db, r);
    } else if r.PatchStatus? || r.Claim? || r.Reject? || r.Promote? || r.Relabel? || r.Rescope? {
      CandidateChangesAreTidy(db, r);
    } else {
      GraphChangesAreTidy(db, r);
    }
  }

  /** Every request keeps the tables well formed. */
  lemma StepKeepsWellFormed(db: Db, r: Request)
    requires WellFormed(db)
    ensures WellFormed(Step(db, r))
  {
    if ChangeOf(db, r).Ok? {
      ChangesAreTidy(db, r);
      TidyKeepsWellFormed(db, ChangeOf(db, r).value);
    }
  }
}
