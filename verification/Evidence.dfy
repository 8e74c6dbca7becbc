/** Source references are conserved from candidates through merges to the promoted entry. */
module Evidence {
  import opened Base
  import opened Schema
  import opened Rows
  import opened Changes
  import opened Runs
  import opened Promotions

  /** The object-valued references of several candidates, candidate by candidate. */
  function EvidenceOf(rows: seq<Candidate>): seq<RefFields> {
    if rows == [] then []
    else EvidenceOf(rows[..|rows| - 1]) + RefObjects(RefItems(rows[|rows| - 1]))
  }

  lemma {:induction false} RefObjectsOfJoin(a: seq<RefItem>, b: seq<RefItem>)
    ensures RefObjects(a + b) == RefObjects(a) + RefObjects(b)
  {
    if b == [] {
      assert a + b == a;
    } else {
      RefObjectsOfJoin(a, b[..|b| - 1]);
      assert (a + b)[..|a + b| - 1] == a + b[..|b| - 1];
    }
  }

  lemma {:induction false} JoinedEvidence(rows: seq<Candidate>)
    ensures RefObjects(JoinedRefs(rows)) == EvidenceOf(rows)
  {
    if rows != [] {
      JoinedEvidence(rows[..|rows| - 1]);
      RefObjectsOfJoin(JoinedRefs(rows[..|rows| - 1]), RefItems(rows[|rows| - 1]));
    }
  }

  /** A merged candidate carries its sources' references, concatenated in order. */
  lemma MergeKeepsEvidence(db: Db, ids: seq<int>, f: CandidateFields, who: ActorFields)
    requires MergeChange(db, ids, f, who).Ok?
    ensures var id := NextId(db.candidates.Keys);
      var c := MergeChange(db, ids, f, who).value;
      && id in c.candidates && id !in db.candidates
      && RefItems(c.candidates[id]) == JoinedRefs(RowsOf(db.candidates, ids))
      && RefObjects(RefItems(c.candidates[id])) == EvidenceOf(RowsOf(db.candidates, ids))
  {
    JoinedEvidence(RowsOf(db.candidates, ids));
  }

  /** `after` is `before` with one row per object, in order, each pointing at the entry and
      saying what the object says. */
  ghost predicate Attached(before: seq<SourceRef>, after: seq<SourceRef>, objects: seq<RefFields>, entryId: int,
                           summary: string, sourceId: string, creator: string)
  {
    && |after| == |before| + |objects| && after[..|before|] == before
    && forall i :: 0 <= i < |objects| ==>
         var row := after[|before| + i];
         && row.targetKind == EntryTarget && row.targetId == entryId
         && row.kind == OrElse(objects[i].kind, ManualNote) && row.project == Column(objects[i].project)
         && row.sourceId == OrElse(objects[i].sourceId, sourceId)
         && row.locator == OrElse(objects[i].locator, "{}")
         && row.summary == OrElse(objects[i].summary, summary)
         && row.observedAt == Column(objects[i].observedAt) && row.verifiedAt == Column(objects[i].verifiedAt)
         && row.verification == OrElse(objects[i].verification, UnverifiedSource) && row.createdBy == creator
  }

  /** The rows made from a list of references attach its objects. */
  lemma RefsAreAttached(refs: seq<SourceRef>, items: seq<RefItem>, entryId: int, actor: string, summary: string, sourceId: string)
    ensures Attached(refs, refs + RefRows(items, EntryTarget, entryId, actor, summary, sourceId), RefObjects(items), entryId,
                     summary, sourceId, actor)
  {
  }

  /** A promotion appends exactly one reference row per object-valued reference, in order and
      pointing at the new entry; the event lists their ids. A refused promotion appends nothing. */
  lemma PromotionKeepsEvidence(db: Db, id: int, overrides: EntryFields, who: ActorFields)
    ensures var r := PromoteChange(db, id, overrides, who);
      if r.Err? then Commit(db, r) == db
      else
        && id in db.candidates
        && Attached(db.refs, Commit(db, r).refs, RefObjects(RefItems(db.candidates[id])), NextId(db.entries.Keys),
                    db.candidates[id].summary, Decimal(id), OrElse(who.actor, ""))
        && |r.value.events| == 1 && r.value.events[0].after.OfPromotion?
        && r.value.events[0].after.refIds == IdsAfter(|db.refs|, |RefObjects(RefItems(db.candidates[id]))|)
  {
    if PromoteChange(db, id, overrides, who).Ok? {
      var c := db.candidates[id];
      var actor := RequireActorReason(who).value;
      RefsAreAttached(db.refs, RefItems(c), NextId(db.entries.Keys), actor.name, c.summary, Decimal(id));
    }
  }

  /** The rows of a promotion attach the candidate's references, whatever becomes of proposals. */
  lemma RowsAttach(db: Db, c: Change, id: int, f: EntryFields, who: Actor)
    requires PromoteStored(db, id, f, who).Ok? && c.(proposals := map[]) == PromoteStored(db, id, f, who).value
    ensures id in db.candidates
    ensures Attached(db.refs, Apply(db, c).refs, RefObjects(RefItems(db.candidates[id])), NextId(db.entries.Keys),
                     db.candidates[id].summary, Decimal(id), who.name)
  {
    var row := db.candidates[id];
    assert c.refs == c.(proposals := map[]).refs;
    RefsAreAttached(db.refs, RefItems(row), NextId(db.entries.Keys), who.name, row.summary, Decimal(id));
  }

  /** A promotion of a stored candidate, directly or through a proposal, attaches its references. */
  lemma PromotionAttaches(db: Db, r: Request, id: int)
    requires PromotesStored(db, r, id)
    ensures id in db.candidates
    ensures Attached(db.refs, Step(db, r).refs, RefObjects(RefItems(db.candidates[id])), NextId(db.entries.Keys),
                     db.candidates[id].summary, Decimal(id), OrElse(r.who.actor, ""))
  {
    var who := PromotesAlike(db, r, id);
    RowsAttach(db, ChangeOf(db, r).value, id, OverridesOf(db, r), who);
  }

  /** The references a candidate has at any time are those that any later promotion of it, direct or
      through a proposal, attaches to the entry, whatever happened in between. */
  lemma EvidenceReachesTheEntry(dbs: seq<Db>, requests: seq<Request>, i: int, j: int, id: int)
    requires IsRun(dbs, requests) && 0 <= i <= j < |requests|
    requires id in dbs[i].candidates && PromotesStored(dbs[j], requests[j], id)
    ensures id in dbs[j].candidates
    ensures Attached(dbs[j].refs, dbs[j + 1].refs, RefObjects(RefItems(dbs[i].candidates[id])), NextId(dbs[j].entries.Keys),
                     dbs[j].candidates[id].summary, Decimal(id), OrElse(requests[j].who.actor, ""))
  {
    OriginsArePermanent(dbs, requests, i, j, id);
    PromotionAttaches(dbs[j], requests[j], id);
  }

  lemma WrittenRowIsLeft(db: Db, c: Change, id: int)
    requires id in c.candidates
    ensures id in Apply(db, c).candidates && Apply(db, c).candidates[id] == c.candidates[id]
  {
  }

  lemma MergeStep(db: Db, r: Request)
    requires r.Merge?
    ensures ChangeOf(db, r) == MergeChange(db, r.ids, r.candidate, r.who)
  {
  }

  lemma MergedRow(db: Db, r: Request, after: Db)
    requires r.Merge? && ChangeOf(db, r).Ok? && after == Step(db, r)
    ensures var id := NextId(db.candidates.Keys);
      && AllStored(db.candidates, r.ids) && id in after.candidates
      && RefObjects(RefItems(after.candidates[id])) == EvidenceOf(RowsOf(db.candidates, r.ids))
  {
    MergeStep(db, r);
    MergeKeepsEvidence(db, r.ids, r.candidate, r.who);
    WrittenRowIsLeft(db, MergeChange(db, r.ids, r.candidate, r.who).value, NextId(db.candidates.Keys));
  }

  /** From a merge to the entry: any later promotion of the merged candidate, direct or through a
      proposal, attaches the evidence of all the sources, in order. */
  lemma MergedEvidenceReachesTheEntry(dbs: seq<Db>, requests: seq<Request>, i: int, j: int)
    requires IsRun(dbs, requests) && 0 <= i < j < |requests|
    requires requests[i].Merge? && ChangeOf(dbs[i], requests[i]).Ok?
    requires PromotesStored(dbs[j], requests[j], NextId(dbs[i].candidates.Keys))
    ensures var id := NextId(dbs[i].candidates.Keys);
      && id in dbs[j].candidates && AllStored(dbs[i].candidates, requests[i].ids)
      && Attached(dbs[j].refs, dbs[j + 1].refs, EvidenceOf(RowsOf(dbs[i].candidates, requests[i].ids)),
                  NextId(dbs[j].entries.Keys), dbs[j].candidates[id].summary, Decimal(id),
                  OrElse(requests[j].who.actor, ""))
  {
    MergedRow(dbs[i], requests[i], dbs[i + 1]);
    EvidenceReachesTheEntry(dbs, requests, i + 1, j, NextId(dbs[i].candidates.Keys));
  }
}
