/** What slugs decide: entries keep theirs for good, so a capture without one can be auto-promoted
    only once in the life of a database; and where the node index stops following its table. */
module Slugs {
  import opened Base
  import opened Schema
  import opened Rows
  import opened Capture
  import opened Changes
  import opened WellFormed
  import opened History
  import opened Runs
  import Refinement

  // ---- Entry slugs are permanent.

  lemma EntrySlugStays(db: Db, r: Request, id: int)
    requires WellFormed.WellFormed(db) && id in db.entries
    ensures id in Step(db, r).entries && Step(db, r).entries[id].slug == db.entries[id].slug
  {
    if ChangeOf(db, r).Ok? {
      ChangesAreTidy(db, r);
    }
  }

  /** No entry ever disappears or changes its slug. */
  lemma {:induction false} EntrySlugsArePermanent(dbs: seq<Db>, requests: seq<Request>, i: int, j: int, id: int)
    requires IsRun(dbs, requests) && 0 <= i <= j < |dbs| && id in dbs[i].entries
    ensures id in dbs[j].entries && dbs[j].entries[id].slug == dbs[i].entries[id].slug
    decreases j
  {
    if i < j {
      EntrySlugsArePermanent(dbs, requests, i, j - 1, id);
      RunsKeepInvariants(dbs, requests, j - 1);
      EntrySlugStays(dbs[j - 1], requests[j - 1], id);
    }
  }

  // ---- Auto-promotion.

  function CapturedRow(p: CapturePayload): Candidate
    requires EarlyDecision(p).None?
  {
    NewCandidate(CandidateOf(p)).value
  }

  /** The entry an eligible capture asks for; the captured payload has no id to make a slug from. */
  function WantedEntry(p: CapturePayload): Entry
    requires EarlyDecision(p).None?
  {
    PromotedEntry(CapturedRow(p), None, p.entry, AutoPromoter(p).name)
  }

  /** The captured event of the candidate stored under `id`. */
  function CapturedLog(p: CapturePayload, id: int): CaptureEvent {
    DecisionRow(p, Captured, OrElse(p.reason, "captured candidate"), [id], -1)
  }

  /** The entry can be inserted: it passes its CHECKs and its slug is free. */
  ghost predicate EntryFits(db: Db, p: CapturePayload)
    requires EarlyDecision(p).None?
  {
    CheckEntry(WantedEntry(p)) && !SlugTaken(db.entries, WantedEntry(p).slug)
  }

  ghost predicate RefsFit(db: Db, p: CapturePayload)
    requires EarlyDecision(p).None?
  {
    RefsPass(PromotedRefs(CapturedRow(p), None, NextId(db.entries.Keys), AutoPromoter(p)))
  }

  lemma CapturedRowPasses(p: CapturePayload)
    requires EarlyDecision(p).None?
    ensures CheckCandidate(CapturedRow(p)) && CapturedRow(p).status == Pending
  {
  }

  lemma CaptureOfRow(db: Db, p: CapturePayload)
    requires EarlyDecision(p).None? && AutoPromotes(p)
    ensures var id := NextId(db.candidates.Keys);
      CaptureChange(db, p) ==
        if CheckCapture(CapturedLog(p, id)) then
          AutoPromotionTo(db, p, id, CapturedRow(p), WantedEntry(p), AutoPromoter(p), CapturedLog(p, id))
        else Err(CONSTRAINT)
  {
  }

  ghost predicate AutoPromoted(db: Db, p: CapturePayload, c: Change)
    requires EarlyDecision(p).None?
  {
    && c.entries == map[NextId(db.entries.Keys) := WantedEntry(p)]
    && c.candidates == map[NextId(db.candidates.Keys) := CapturedRow(p).(status := Promoted, updatedBy := AutoPromoter(p).name)]
    && c.captures == [CapturedLog(p, NextId(db.candidates.Keys))]
    && |c.events| == 1 && Promotes(c.events[0], NextId(db.candidates.Keys)) && c.droppedEdges == {}
  }

  ghost predicate KeptPending(db: Db, p: CapturePayload, c: Change)
    requires EarlyDecision(p).None?
  {
    && c.candidates == map[NextId(db.candidates.Keys) := CapturedRow(p)] && CapturedRow(p).status == Pending
    && c.entries == map[] && c.events == [] && c.refs == [] && c.droppedEdges == {}
    && |c.captures| == 2 && c.captures[0].decision == Captured && c.captures[1].decision == Errored
  }

  lemma AutoPromotionCases(db: Db, p: CapturePayload, id: int, row: Candidate, entry: Entry, who: Actor, event: CaptureEvent)
    requires CheckCandidate(row) && row.status == Pending
    ensures var r := AutoPromotionTo(db, p, id, row, entry, who, event);
      if EntryVerdict(db.entries, entry).Some? then
        r == Ok(CapturedRows(id, row, [event, ErroredRow(p, EntryVerdict(db.entries, entry).value)]))
      else if !RefsPass(PromotedRefs(row, None, NextId(db.entries.Keys), who)) then r.Err?
      else
        && r.Ok? && r.value.entries == map[NextId(db.entries.Keys) := entry] && NextId(db.entries.Keys) in r.value.entries
        && r.value.candidates == map[id := row.(status := Promoted, updatedBy := who.name)]
        && r.value.captures == [event] && |r.value.events| == 1 && Promotes(r.value.events[0], id) && r.value.droppedEdges == {}
  {
    Refinement.StatusUpdateSets(row, Promoted, who.name);
  }

  /** The three outcomes of an eligible capture, each if and only if: promoted, when log row, entry
      and references pass and the slug is free; kept pending with a captured and an errored event,
      when the log row passes but the entry does not fit; and refused with nothing kept, not even
      the candidate, otherwise. */
  lemma AutoPromotionOutcome(db: Db, p: CapturePayload)
    requires EarlyDecision(p).None? && AutoPromotes(p)
    ensures var r := CaptureChange(db, p);
      var logged := CheckCapture(CapturedLog(p, NextId(db.candidates.Keys)));
      && (r.Ok? && r.value.entries != map[] <==> logged && EntryFits(db, p) && RefsFit(db, p))
      && (r.Ok? && r.value.entries == map[] <==> logged && !EntryFits(db, p))
      && (r.Err? <==> !logged || (EntryFits(db, p) && !RefsFit(db, p)))
      && (r.Ok? && r.value.entries != map[] ==> AutoPromoted(db, p, r.value))
      && (r.Ok? && r.value.entries == map[] ==> KeptPending(db, p, r.value))
  {
    var id := NextId(db.candidates.Keys);
    CapturedRowPasses(p);
    CaptureOfRow(db, p);
    if CheckCapture(CapturedLog(p, id)) {
      AutoPromotionCases(db, p, id, CapturedRow(p), WantedEntry(p), AutoPromoter(p), CapturedLog(p, id));
    }
  }

  predicate GivesNoSlug(p: CapturePayload) {
    OrElse(p.entry.slug, "") == "" && OrElse(p.proposedSlug, "") == ""
  }

  /** The slug every capture without one asks for. */
  function FallbackSlug(): string {
    "candidate-" + "<nil>"
  }

  lemma WithoutASlugTheFallback(p: CapturePayload)
    requires EarlyDecision(p).None? && GivesNoSlug(p)
    ensures WantedEntry(p).slug == FallbackSlug()
  {
    assert CapturedRow(p).slug == Column(p.proposedSlug);
  }

  /** Request r auto-promotes a capture that gives no slug. */
  ghost predicate PromotesWithoutSlug(db: Db, r: Request) {
    && r.CaptureMemory? && EarlyDecision(r.capture).None? && AutoPromotes(r.capture) && GivesNoSlug(r.capture)
    && CaptureChange(db, r.capture).Ok? && CaptureChange(db, r.capture).value.entries != map[]
  }

  /** In any run at most one capture without a slug is auto-promoted: later ones, if accepted at
      all, leave a pending candidate and an errored event. */
  lemma FallbackSlugPromotesOnce(dbs: seq<Db>, requests: seq<Request>, i: int, j: int)
    requires IsRun(dbs, requests) && 0 <= i < j < |requests|
    requires PromotesWithoutSlug(dbs[i], requests[i])
    ensures !PromotesWithoutSlug(dbs[j], requests[j])
  {
    var p := requests[i].capture;
    AutoPromotionOutcome(dbs[i], p);
    WithoutASlugTheFallback(p);
    var id := NextId(dbs[i].entries.Keys);
    assert dbs[i + 1].entries[id] == WantedEntry(p);
    EntrySlugsArePermanent(dbs, requests, i + 1, j, id);
    assert SlugTaken(dbs[j].entries, FallbackSlug());
    if PromotesWithoutSlug(dbs[j], requests[j]) {
      AutoPromotionOutcome(dbs[j], requests[j].capture);
      WithoutASlugTheFallback(requests[j].capture);
    }
  }

  // ---- The node index.

  /** The index slug of node id is the row's. */
  ghost predicate IndexSlugAgrees(db: Db, id: int) {
    id in db.nodes && id in db.nodeTexts && db.nodeTexts[id].slug == db.nodes[id].slug
  }

  lemma UpdateWritesIndexSlug(db: Db, slug: string, f: NodeFields)
    requires UpdateNodeChange(db, slug, f).Ok?
    ensures var id := NodeBySlug(db.nodes, slug).value;
      IndexSlugAgrees(Commit(db, UpdateNodeChange(db, slug, f)), id) <==> OverlayText(slug, f.slug, "") == slug
  {
    var id := NodeBySlug(db.nodes, slug).value;
    assert db.nodes[id].slug == slug;
  }

  lemma NodeUpdateStep(db: Db, slug: string, f: NodeFields)
    ensures Step(db, UpdateNode(slug, f)) == Commit(db, UpdateNodeChange(db, slug, f))
  {
  }

  lemma NodeCreationStep(db: Db, f: NodeFields)
    ensures Step(db, CreateNode(f)) == Commit(db, CreateNodeChange(db, f))
  {
  }

  /** The index keeps following a node's slug exactly when no update carries another one. */
  lemma NodeIndexSlugAfterUpdate(db: Db, slug: string, f: NodeFields, after: Db)
    requires UpdateNodeChange(db, slug, f).Ok? && after == Step(db, UpdateNode(slug, f))
    ensures IndexSlugAgrees(after, NodeBySlug(db.nodes, slug).value) <==> OverlayText(slug, f.slug, "") == slug
  {
    NodeUpdateStep(db, slug, f);
    UpdateWritesIndexSlug(db, slug, f);
  }

  ghost predicate WritesNoNode(c: Change) {
    c.nodes == map[] && c.nodeTexts == map[]
  }

  lemma EntriesAndProposalsWriteNoNode(db: Db, r: Request)
    requires AboutEntries(r) || AboutProposals(r)
    requires ChangeOf(db, r).Ok?
    ensures WritesNoNode(ChangeOf(db, r).value)
  {
  }

  lemma EdgesWriteNoNode(db: Db, r: Request)
    requires r.CreateEdge? || r.LinkEdge? || r.DeleteEdge? || r.UnlinkEdge? || r.AttachRef?
    requires ChangeOf(db, r).Ok?
    ensures WritesNoNode(ChangeOf(db, r).value)
  {
  }

  lemma PromoteWritesNoNode(db: Db, id: int, f: EntryFields, who: Actor)
    requires PromoteStored(db, id, f, who).Ok?
    ensures WritesNoNode(PromoteStored(db, id, f, who).value)
  {
    var c := db.candidates[id];
    PromotionTouchesOnly(db, id, c, Some(id), PromotedEntry(c, Some(id), f, who.name), who, CandidatesBefore([Snapshot(id, c)]));
  }

  lemma ApplyWritesNoNode(db: Db, id: int, who: ActorFields)
    requires ApplyProposalChange(db, id, who).Ok?
    ensures WritesNoNode(ApplyProposalChange(db, id, who).value)
  {
    var p := db.proposals[id];
    if p.kind == PromoteCandidate {
      AppliedIsPromoted(db, Unique(PositiveIds(p.candidateIds))[0], ProposalPayload(p), RequireActorReason(who).value);
      PromoteWritesNoNode(db, Unique(PositiveIds(p.candidateIds))[0], ProposalPayload(p), RequireActorReason(who).value);
    }
  }

  lemma InsertionsWriteNoNode(db: Db, r: Request)
    requires r.CreateCandidate? || r.Split? || r.Merge?
    requires ChangeOf(db, r).Ok?
    ensures WritesNoNode(ChangeOf(db, r).value)
  {
  }

  lemma RevisionsWriteNoNode(db: Db, r: Request)
    requires r.PatchStatus? || r.Claim? || r.Reject? || r.Relabel? || r.Rescope?
    requires ChangeOf(db, r).Ok?
    ensures WritesNoNode(ChangeOf(db, r).value)
  {
  }

  lemma OnlyNodesWriteNodes(db: Db, r: Request)
    requires !r.UpdateNode? && !r.CreateNode? && ChangeOf(db, r).Ok?
    ensures WritesNoNode(ChangeOf(db, r).value)
  {
    if AboutEntries(r) || AboutProposals(r) {
      EntriesAndProposalsWriteNoNode(db, r);
    } else if AboutGraph(r) {
      EdgesWriteNoNode(db, r);
    } else if r.ApplyProposal? {
      ApplyWritesNoNode(db, r.id, r.who);
    } else if r.Promote? {
      PromoteWritesNoNode(db, r.id, r.overrides, RequireActorReason(r.who).value);
    } else if r.CaptureMemory? {
      CaptureTouchesOnly(db, r.capture);
    } else if r.CreateCandidate? || r.Split? || r.Merge? {
      InsertionsWriteNoNode(db, r);
    } else {
      RevisionsWriteNoNode(db, r);
    }
  }

  lemma CreationKeepsNodeIndex(db: Db, f: NodeFields, id: int)
    requires id in db.nodes ==> id in db.nodeTexts && IndexSlugAgrees(db, id)
    requires id in Commit(db, CreateNodeChange(db, f)).nodes
    ensures id in Commit(db, CreateNodeChange(db, f)).nodeTexts && IndexSlugAgrees(Commit(db, CreateNodeChange(db, f)), id)
  {
  }

  /** Every other request keeps the index of every node as it is or writes row and index alike. */
  lemma OtherRequestsKeepNodeIndex(db: Db, r: Request, id: int)
    requires WellFormed.WellFormed(db) && !r.UpdateNode?
    requires id in db.nodes ==> IndexSlugAgrees(db, id)
    requires id in Step(db, r).nodes
    ensures IndexSlugAgrees(Step(db, r), id)
  {
    if r.CreateNode? {
      CreationKeepsNodeIndex(db, r.node, id);
    } else if ChangeOf(db, r).Ok? {
      OnlyNodesWriteNodes(db, r);
    }
  }

  ghost predicate IndexSlugsAgree(db: Db) {
    forall id :: id in db.nodes ==> IndexSlugAgrees(db, id)
  }

  lemma UpdateKeepsOtherSlugs(db: Db, slug: string, f: NodeFields)
    requires IndexSlugsAgree(db) && OverlayText(slug, f.slug, "") == slug
    ensures IndexSlugsAgree(Commit(db, UpdateNodeChange(db, slug, f)))
  {
    if UpdateNodeChange(db, slug, f).Ok? {
      UpdateWritesIndexSlug(db, slug, f);
    }
  }

  lemma UpdateKeepsIndexSlugs(db: Db, slug: string, f: NodeFields, after: Db)
    requires IndexSlugsAgree(db) && OverlayText(slug, f.slug, "") == slug && after == Step(db, UpdateNode(slug, f))
    ensures IndexSlugsAgree(after)
  {
    NodeUpdateStep(db, slug, f);
    UpdateKeepsOtherSlugs(db, slug, f);
  }

  /** As long as no update carries another slug, every index slug is its row's. */
  lemma {:induction false} IndexSlugsAgreeWithoutRenames(dbs: seq<Db>, requests: seq<Request>, k: int)
    requires IsRun(dbs, requests) && 0 <= k < |dbs|
    requires forall i :: 0 <= i < k && requests[i].UpdateNode? ==> OverlayText(requests[i].slug, requests[i].node.slug, "") == requests[i].slug
    ensures IndexSlugsAgree(dbs[k])
    decreases k
  {
    if k > 0 {
      var (db, r) := (dbs[k - 1], requests[k - 1]);
      IndexSlugsAgreeWithoutRenames(dbs, requests, k - 1);
      if r.UpdateNode? {
        UpdateKeepsIndexSlugs(db, r.slug, r.node, dbs[k]);
      } else {
        RunsKeepInvariants(dbs, requests, k - 1);
        forall id | id in dbs[k].nodes
          ensures IndexSlugAgrees(dbs[k], id)
        {
          OtherRequestsKeepNodeIndex(db, r, id);
        }
      }
    }
  }

  const FIRST := NodeFields(Val("a"), Val("t"), Absent, NO_LABELS, Absent, Absent, Absent, true)

  const RENAMED := FIRST.(slug := Val("b"))

  lemma FirstNode(id: int, db: Db)
    requires id == NextId({}) && db == Commit(EMPTY_DB, CreateNodeChange(EMPTY_DB, FIRST))
    ensures db.nodes == map[id := Node("a", "t", "", NewLabels(NO_LABELS), "api", "api")]
  {
    assert EMPTY_DB.nodes.Keys == {};
  }

  lemma RenamingDrifts(id: int, db: Db, later: Db)
    requires db.nodes == map[id := Node("a", "t", "", NewLabels(NO_LABELS), "api", "api")]
    requires later == Commit(db, UpdateNodeChange(db, "a", RENAMED))
    ensures exists k :: k in later.nodes && !IndexSlugAgrees(later, k)
  {
    assert id in db.nodes && db.nodes[id].slug == "a";
    assert NodeSlugTaken(db.nodes, "a") && NodeBySlug(db.nodes, "a") == Some(id);
    assert id in later.nodes && later.nodes[id].slug == "a" && later.nodeTexts[id].slug == "b";
  }

  /** One create and one update are enough to make the index lose a node's slug. */
  lemma NodeIndexCanDrift()
    ensures var db := Step(Step(EMPTY_DB, CreateNode(FIRST)), UpdateNode("a", RENAMED));
      exists id :: id in db.nodes && !IndexSlugAgrees(db, id)
  {
    var db := Step(EMPTY_DB, CreateNode(FIRST));
    NodeCreationStep(EMPTY_DB, FIRST);
    FirstNode(NextId({}), db);
    NodeUpdateStep(db, "a", RENAMED);
    RenamingDrifts(NextId({}), db, Step(db, UpdateNode("a", RENAMED)));
  }
}
