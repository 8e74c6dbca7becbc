/** Across the two cores: what is promoted in the store is recalled, until somebody edits it. */
module Journeys {
  import opened Base
  import opened Schema
  import opened Scoring
  import opened Packet
  import opened Recall
  import opened Delivery
  import opened History
  import opened WellFormed
  import C = Changes
  import Capture
  import Effects
  import Promotions
  import R = Rows
  import Runs
  import Slugs

  /** The request speaks with the authority of the row. */
  predicate SpeaksFor(l: Labels, ctx: Context) {
    OfScope(l.authorityKind, l.authorityId, ctx)
  }

  /** A stored active entry among the first hits of a request with its authority is gathered as authoritative. */
  lemma ActiveIsRecalled(db: Db, views: map<string, View>, w: Weights, r: RecallRequest, hits: Hits, packet: Gathered, p: nat)
    requires Recalls(db, views, w, r, hits, Delivered(packet))
    requires p < |hits.entries| && p < Limit(r) && hits.entries[p] in db.entries
    requires db.entries[hits.entries[p]].status == Active && SpeaksFor(db.entries[hits.entries[p]].labels, r.context)
    ensures Matched(r, packet, MemoryEntry, hits.entries[p], db.entries[hits.entries[p]].slug, AuthoritativeHit)
  {
    EntryHitsAreDecided(db, views, w, r, hits, packet, p);
  }

  // ---- An entry stays as it is until it is edited.

  /** The request edits the entry with this slug. */
  predicate EditsEntry(r: C.Request, slug: string) {
    (r.UpdateEntry? && r.slug == slug) || (r.SupersedeEntryBySlug? && r.slug == slug)
  }

  lemma StoredPromotionWritesNew(db: Db, id: int, f: EntryFields, who: R.Actor)
    requires C.PromoteStored(db, id, f, who).Ok?
    ensures C.PromoteStored(db, id, f, who).value.entries.Keys == {NextId(db.entries.Keys)}
  {
  }

  lemma ApplyWritesNew(db: Db, pid: int, who: R.ActorFields)
    requires C.ApplyProposalChange(db, pid, who).Ok?
    ensures C.ApplyProposalChange(db, pid, who).value.entries.Keys <= {NextId(db.entries.Keys)}
  {
    var (p, actor) := (db.proposals[pid], R.RequireActorReason(who).value);
    if p.kind == PromoteCandidate {
      var id := Unique(C.PositiveIds(p.candidateIds))[0];
      C.AppliedIsPromoted(db, id, C.ProposalPayload(p), actor);
      StoredPromotionWritesNew(db, id, C.ProposalPayload(p), actor);
    }
  }

  lemma CaptureWritesNew(db: Db, p: Capture.CapturePayload)
    requires C.CaptureChange(db, p).Ok?
    ensures C.CaptureChange(db, p).value.entries.Keys <= {NextId(db.entries.Keys)}
  {
    if Capture.EarlyDecision(p).None? && Capture.AutoPromotes(p) {
      Slugs.AutoPromotionOutcome(db, p);
    }
  }

  lemma EntryRequestsWrite(db: Db, r: C.Request, id: int)
    requires AboutEntries(r) && C.ChangeOf(db, r).Ok? && id in db.entries && !EditsEntry(r, db.entries[id].slug)
    ensures id !in C.ChangeOf(db, r).value.entries
  {
  }

  lemma InsertionsWriteNoEntry(db: Db, r: C.Request)
    requires r.CreateCandidate? || r.Split? || r.Merge?
    requires C.ChangeOf(db, r).Ok?
    ensures C.ChangeOf(db, r).value.entries == map[]
  {
  }

  lemma RevisionsWriteNoEntry(db: Db, r: C.Request)
    requires r.PatchStatus? || r.Claim? || r.Reject? || r.Relabel? || r.Rescope?
    requires C.ChangeOf(db, r).Ok?
    ensures C.ChangeOf(db, r).value.entries == map[]
  {
  }

  lemma ProposalsAndGraphWriteNoEntry(db: Db, r: C.Request)
    requires AboutProposals(r) || AboutGraph(r)
    requires C.ChangeOf(db, r).Ok?
    ensures C.ChangeOf(db, r).value.entries == map[]
  {
  }

  /** Only an edit of its own slug writes the row of a stored entry. */
  lemma OnlyEditsRewrite(db: Db, r: C.Request, id: int)
    requires C.ChangeOf(db, r).Ok? && id in db.entries && !EditsEntry(r, db.entries[id].slug)
    ensures id !in C.ChangeOf(db, r).value.entries
  {
    if AboutEntries(r) {
      EntryRequestsWrite(db, r, id);
    } else if AboutProposals(r) || AboutGraph(r) {
      ProposalsAndGraphWriteNoEntry(db, r);
    } else if r.Promote? {
      StoredPromotionWritesNew(db, r.id, r.overrides, R.RequireActorReason(r.who).value);
    } else if r.ApplyProposal? {
      ApplyWritesNew(db, r.id, r.who);
    } else if r.CaptureMemory? {
      CaptureWritesNew(db, r.capture);
    } else if r.CreateCandidate? || r.Split? || r.Merge? {
      InsertionsWriteNoEntry(db, r);
    } else {
      RevisionsWriteNoEntry(db, r);
    }
  }

  lemma UnwrittenStays(db: Db, c: C.Change, id: int)
    requires id in db.entries && id !in c.entries
    ensures id in C.Apply(db, c).entries && C.Apply(db, c).entries[id] == db.entries[id]
  {
  }

  lemma EntryStays(db: Db, r: C.Request, id: int)
    requires id in db.entries && !EditsEntry(r, db.entries[id].slug)
    ensures id in C.Step(db, r).entries && C.Step(db, r).entries[id] == db.entries[id]
  {
    if C.ChangeOf(db, r).Ok? {
      OnlyEditsRewrite(db, r, id);
      UnwrittenStays(db, C.ChangeOf(db, r).value, id);
    }
  }

  /** Over any stretch of a run in which nobody edits it an entry keeps its row. */
  lemma {:induction false} UneditedEntriesStay(dbs: seq<Db>, requests: seq<C.Request>, i: int, j: int, id: int)
    requires Runs.IsRun(dbs, requests) && 0 <= i <= j < |dbs| && id in dbs[i].entries
    requires forall k :: i <= k < j ==> !EditsEntry(requests[k], dbs[i].entries[id].slug)
    ensures id in dbs[j].entries && dbs[j].entries[id] == dbs[i].entries[id]
    decreases j
  {
    if i < j {
      UneditedEntriesStay(dbs, requests, i, j - 1, id);
      EntryStays(dbs[j - 1], requests[j - 1], id);
    }
  }

  // ---- From a promotion to the packet.

  /** Request r promotes a candidate: a stored one, directly or through a proposal, or a captured one. */
  ghost predicate Promotes(db: Db, r: C.Request, id: int) {
    Promotions.PromotesStored(db, r, id) || Promotions.PromotesCapture(db, r, id)
  }

  lemma PromotionIsActive(db: Db, r: C.Request, id: int)
    requires Promotes(db, r, id)
    ensures var entryId := NextId(db.entries.Keys);
      entryId in C.Step(db, r).entries && C.Step(db, r).entries[entryId].status == Active
  {
    if Promotions.PromotesStored(db, r, id) {
      var e := Effects.PromotionMakes(db, r, id);
    } else {
      var e, row := Effects.CaptureMakes(db, r, id);
    }
  }

  /** What one core promotes the other recalls: from an accepted promotion on, direct, through a
      proposal or of a capture, and until somebody edits the new entry, every recall with its
      authority that hits it early gathers it as authoritative. */
  lemma PromotedIsRecalled(dbs: seq<Db>, requests: seq<C.Request>, i: int, j: int, id: int, views: map<string, View>, w: Weights,
                           r: RecallRequest, hits: Hits, packet: Gathered, p: nat)
    requires Runs.IsRun(dbs, requests) && 0 <= i < j < |dbs| && Promotes(dbs[i], requests[i], id)
    requires var entryId := NextId(dbs[i].entries.Keys);
      && entryId in dbs[i + 1].entries
      && var e := dbs[i + 1].entries[entryId];
      && (forall k :: i < k < j ==> !EditsEntry(requests[k], e.slug)) && SpeaksFor(e.labels, r.context)
      && p < |hits.entries| && p < Limit(r) && hits.entries[p] == entryId
    requires Recalls(dbs[j], views, w, r, hits, Delivered(packet))
    ensures var entryId := NextId(dbs[i].entries.Keys);
      Matched(r, packet, MemoryEntry, entryId, dbs[i + 1].entries[entryId].slug, AuthoritativeHit)
  {
    var entryId := NextId(dbs[i].entries.Keys);
    assert dbs[i + 1] == C.Step(dbs[i], requests[i]);
    PromotionIsActive(dbs[i], requests[i], id);
    UneditedEntriesStay(dbs, requests, i + 1, j, entryId);
    ActiveIsRecalled(dbs[j], views, w, r, hits, packet, p);
  }
}
