/** What the curation log records of the requests that touch several rows: promotions, splits and merges. */
module Events {
  import opened Base
  import opened Schema
  import opened Rows
  import opened Capture
  import opened Changes
  import opened History
  import opened Promotions
  import opened WellFormed
  import Effects
  import Evidence
  import Refinement
  import Slugs

  /** The ids of the references appended by a request. */
  predicate AppendedIds(refIds: seq<int>, before: nat, after: nat) {
    |refIds| == after - before && forall i :: 0 <= i < |refIds| ==> refIds[i] == before + 1 + i
  }

  /** One promote event names promoter and reason, the rows before, and the rows and references after. */
  ghost predicate PromotionLogged(db: Db, after: Db, id: int, name: string, reason: string, before: Before, refIds: seq<int>) {
    var entryId := NextId(db.entries.Keys);
    && id in after.candidates && entryId in after.entries && AppendedIds(refIds, |db.refs|, |after.refs|)
    && after.events == db.events + [
         CurationEvent(Some(id), Some(entryId), None, None, ActPromote, name, reason, before,
                       OfPromotion(Snapshot(id, after.candidates[id]), entryId, after.entries[entryId], refIds))]
  }

  lemma PromotionRowsLog(db: Db, c: Change, id: int, row: Candidate, refId: Option<int>, e: Entry, who: Actor, before: Before)
    requires CheckCandidate(row) && PromotionTo(db, id, row, refId, e, who, before).Ok?
    requires var promotion := PromotionTo(db, id, row, refId, e, who, before).value;
      && c.candidates == promotion.candidates && c.entries == promotion.entries && c.refs == promotion.refs
      && c.events == promotion.events && c.droppedEdges == {}
    ensures PromotionLogged(db, Apply(db, c), id, who.name, who.reason, before, IdsAfter(|db.refs|, |c.refs|))
  {
    Refinement.StatusUpdateSets(row, Promoted, who.name);
    ChangeLeaves(db, c);
  }

  lemma StoredPromotion(db: Db, id: int, f: EntryFields, who: Actor)
    requires PromoteStored(db, id, f, who).Ok?
    ensures id in db.candidates && CheckCandidate(db.candidates[id].(status := Promoted, updatedBy := who.name))
    ensures var row := db.candidates[id];
      PromoteStored(db, id, f, who)
      == PromotionTo(db, id, row, Some(id), PromotedEntry(row, Some(id), f, who.name), who, CandidatesBefore([Snapshot(id, row)]))
  {
    Refinement.StatusUpdateSets(db.candidates[id], Promoted, who.name);
  }

  lemma PromotionParts(c: Change, promotion: Change)
    requires c.(proposals := map[]) == promotion
    ensures c.candidates == promotion.candidates && c.entries == promotion.entries && c.refs == promotion.refs
    ensures c.events == promotion.events && c.droppedEdges == promotion.droppedEdges
  {
    assert c.candidates == c.(proposals := map[]).candidates && c.entries == c.(proposals := map[]).entries;
  }

  /** Every accepted promotion of a stored candidate, direct or through a proposal, logs one event. */
  lemma PromotionIsLogged(db: Db, r: Request, id: int) returns (refIds: seq<int>)
    requires PromotesStored(db, r, id)
    ensures id in db.candidates
    ensures PromotionLogged(db, Step(db, r), id, OrElse(r.who.actor, ""), OrElse(r.who.reason, ""),
                            CandidatesBefore([Snapshot(id, db.candidates[id])]), refIds)
  {
    var who := PromotesAlike(db, r, id);
    var f := OverridesOf(db, r);
    var c := ChangeOf(db, r).value;
    StoredPromotion(db, id, f, who);
    PromotionParts(c, PromoteStored(db, id, f, who).value);
    PromotionRowsLog(db, c, id, db.candidates[id], Some(id), PromotedEntry(db.candidates[id], Some(id), f, who.name), who,
                     CandidatesBefore([Snapshot(id, db.candidates[id])]));
    refIds := IdsAfter(|db.refs|, |c.refs|);
  }

  /** The promotion inside an auto-promoted capture. */
  lemma CapturePromotion(db: Db, p: CapturePayload)
    requires EarlyDecision(p).None? && AutoPromotes(p) && CaptureChange(db, p).Ok? && CaptureChange(db, p).value.entries != map[]
    ensures var (id, row, who) := (NextId(db.candidates.Keys), Slugs.CapturedRow(p), AutoPromoter(p));
      var promotion := PromotionTo(db, id, row, None, Slugs.WantedEntry(p), who, PayloadBefore(row));
      && promotion.Ok? && CaptureChange(db, p).value == promotion.value.(captures := [Slugs.CapturedLog(p, id)])
      && promotion.value.droppedEdges == {}
  {
    Slugs.CaptureOfRow(db, p);
    Slugs.CapturedRowPasses(p);
    Refinement.StatusUpdateSets(Slugs.CapturedRow(p), Promoted, AutoPromoter(p).name);
  }

  /** An auto-promoted capture logs one event whose rows before are the captured payload. */
  lemma AutoPromotionIsLogged(db: Db, r: Request, id: int) returns (row: Candidate, refIds: seq<int>)
    requires PromotesCapture(db, r, id)
    ensures Effects.CapturedAs(row, r.capture)
    ensures PromotionLogged(db, Step(db, r), id, OrElse(r.capture.actor, ""), OrElse(r.capture.reason, "auto-promoted from capture"),
                            PayloadBefore(row), refIds)
  {
    var p := r.capture;
    row := Slugs.CapturedRow(p);
    Effects.CapturedRowIs(p);
    Slugs.CapturedRowPasses(p);
    CapturePromotion(db, p);
    CaptureStep(db, p);
    var c := CaptureChange(db, p).value;
    PromotionRowsLog(db, c, id, row, None, Slugs.WantedEntry(p), AutoPromoter(p), PayloadBefore(row));
    refIds := IdsAfter(|db.refs|, |c.refs|);
  }

  lemma AppendedRefs(db: Db, c: Change)
    ensures Apply(db, c).refs == db.refs + c.refs
  {
  }

  lemma CapturedRefs(db: Db, p: CapturePayload)
    requires EarlyDecision(p).None? && AutoPromotes(p) && CaptureChange(db, p).Ok? && CaptureChange(db, p).value.entries != map[]
    ensures CaptureChange(db, p).value.refs == PromotedRefs(Slugs.CapturedRow(p), None, NextId(db.entries.Keys), AutoPromoter(p))
    ensures AutoPromoter(p).name == OrElse(p.actor, "")
  {
    CapturePromotion(db, p);
  }

  lemma CaptureApplies(db: Db, p: CapturePayload, after: Db)
    requires CaptureChange(db, p).Ok? && after == Step(db, CaptureMemory(p))
    ensures after.refs == db.refs + CaptureChange(db, p).value.refs
  {
    CaptureStep(db, p);
    AppendedRefs(db, CaptureChange(db, p).value);
  }

  /** An auto-promoted capture attaches the references it brings, one row for each object in order. */
  lemma AutoPromotionAttaches(db: Db, r: Request, id: int, after: Db) returns (row: Candidate)
    requires PromotesCapture(db, r, id) && after == Step(db, r)
    ensures Effects.CapturedAs(row, r.capture)
    ensures Evidence.Attached(db.refs, after.refs, RefObjects(RefItems(row)), NextId(db.entries.Keys), row.summary, "<nil>",
                              OrElse(r.capture.actor, ""))
  {
    row := Slugs.CapturedRow(r.capture);
    Effects.CapturedRowIs(r.capture);
    CapturedRefs(db, r.capture);
    CaptureApplies(db, r.capture, after);
    Evidence.RefsAreAttached(db.refs, RefItems(row), NextId(db.entries.Keys), OrElse(r.capture.actor, ""), row.summary, "<nil>");
  }

  // ---- Splits and merges.

  /** Snapshots of consecutive rows of a table from id `first`. */
  ghost predicate Snapshots(snapshots: seq<Snapshot>, rows: map<int, Candidate>, first: int) {
    forall k :: 0 <= k < |snapshots| ==> first + k in rows && snapshots[k] == Snapshot(first + k, rows[first + k])
  }

  /** One split event holds the original before, and the original and all parts after. */
  ghost predicate SplitLogged(db: Db, after: Db, id: int, count: nat, actor: Actor, parts: seq<Snapshot>) {
    && id in db.candidates && id in after.candidates
    && |parts| == count && Snapshots(parts, after.candidates, NextId(db.candidates.Keys))
    && after.events == db.events + [
         CurationEvent(Some(id), None, None, None, ActSplit, actor.name, actor.reason,
                       CandidatesBefore([Snapshot(id, db.candidates[id])]), OfSplit(Snapshot(id, after.candidates[id]), parts))]
  }

  lemma PartsAreStored(before: map<int, Candidate>, first: int, rows: seq<Candidate>, id: int, marked: Candidate)
    requires id < first
    ensures Snapshots(SnapshotsFrom(first, rows), (before + RowsFrom(first, rows))[id := marked], first)
  {
    RowsFromKeys(first, rows);
    forall k | 0 <= k < |rows|
      ensures first + k in RowsFrom(first, rows) && RowsFrom(first, rows)[first + k] == rows[k]
    {
      assert first + k in RowsFrom(first, rows) && RowsFrom(first, rows)[first + k] == rows[first + k - first];
    }
  }

  lemma SplitIntoLogs(db: Db, id: int, rows: seq<Candidate>, who: Actor, after: Db)
    requires id in db.candidates && SplitInto(db, id, rows, who).Ok? && after == Commit(db, SplitInto(db, id, rows, who))
    ensures SplitLogged(db, after, id, |rows|, who, SnapshotsFrom(NextId(db.candidates.Keys), rows))
  {
    Refinement.SplitLeaves(db, id, rows, who);
    var marked := UpdatedCandidate(db.candidates[id], StatusUpdate(Val(NeedsSplit), who.name)).value;
    PartsAreStored(db.candidates, NextId(db.candidates.Keys), rows, id, marked);
  }

  lemma SplitIsLogged(db: Db, id: int, fragments: seq<Option<CandidateFields>>, who: ActorFields, after: Db) returns (parts: seq<Snapshot>)
    requires ChangeOf(db, Split(id, fragments, who)).Ok? && after == Step(db, Split(id, fragments, who))
    ensures RequireActorReason(who).Ok?
    ensures SplitLogged(db, after, id, |Effects.Objects(fragments)|, RequireActorReason(who).value, parts)
  {
    Effects.SplitStep(db, id, fragments, who);
    Effects.SplitIsInto(db, id, fragments, who);
    var actor := RequireActorReason(who).value;
    var rows := FragmentRows(db.candidates[id], fragments, actor.name).value;
    Effects.FragmentsAreParts(db.candidates[id], fragments, actor.name);
    SplitIntoLogs(db, id, rows, actor, after);
    parts := SnapshotsFrom(NextId(db.candidates.Keys), rows);
  }

  ghost predicate SourceSnapshots(snapshots: seq<Snapshot>, rows: map<int, Candidate>, ids: seq<int>) {
    && |snapshots| == |ids|
    && forall k :: 0 <= k < |ids| ==> ids[k] in rows && snapshots[k] == Snapshot(ids[k], rows[ids[k]])
  }

  /** One merge event holds the sources before and after, and the merged row. */
  ghost predicate MergeLogged(db: Db, after: Db, ids: seq<int>, actor: Actor, was: seq<Snapshot>, marked: seq<Snapshot>) {
    var id := NextId(db.candidates.Keys);
    && id in after.candidates
    && SourceSnapshots(was, db.candidates, ids) && SourceSnapshots(marked, after.candidates, ids)
    && after.events == db.events + [
         CurationEvent(Some(id), None, None, None, ActMerge, actor.name, actor.reason,
                       CandidatesBefore(was), OfMerge(Snapshot(id, after.candidates[id]), marked))]
  }

  lemma MergeIntoLogs(db: Db, ids: seq<int>, row: Candidate, who: Actor, after: Db)
    requires AllStored(db.candidates, ids) && MergedInto(db, ids, row, who).Ok? && after == Commit(db, MergedInto(db, ids, row, who))
    ensures MergeLogged(db, after, ids, who, SnapshotsOf(db.candidates, ids),
                        SnapshotsOf(SourcesAfter(db.candidates, ids, who.name), ids))
  {
    var (id, sources) := (NextId(db.candidates.Keys), SourcesAfter(db.candidates, ids, who.name));
    Refinement.MergeRefines(db, id, row, sources, MergedInto(db, ids, row, who).value.events[0]);
    assert forall k :: 0 <= k < |ids| ==> ids[k] in sources;
  }

  lemma MergeIsLogged(db: Db, ids: seq<int>, f: CandidateFields, who: ActorFields, after: Db)
    returns (was: seq<Snapshot>, marked: seq<Snapshot>)
    requires ChangeOf(db, Merge(ids, f, who)).Ok? && after == Step(db, Merge(ids, f, who))
    ensures RequireActorReason(who).Ok? && MergeLogged(db, after, ids, RequireActorReason(who).value, was, marked)
  {
    Evidence.MergeStep(db, Merge(ids, f, who));
    Effects.MergeIsInto(db, ids, f, who);
    var (actor, rows) := (RequireActorReason(who).value, RowsOf(db.candidates, ids));
    MergeIntoLogs(db, ids, NewCandidate(MergedFields(rows, f, actor.name)).value, actor, after);
    was := SnapshotsOf(db.candidates, ids);
    marked := SnapshotsOf(SourcesAfter(db.candidates, ids, actor.name), ids);
  }
}
