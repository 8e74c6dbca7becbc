/** The service's handlers, statement by statement over the tables, each proved to make exactly
    the change its specification gives. */
module Service {
  import opened Base
  import opened Schema
  import opened Rows
  import opened Capture
  import opened Changes
  import opened WellFormed
  import opened Refinement

  // ---- Small helpers.

  method FreshId(ids: set<int>) returns (id: int)
    ensures id == NextId(ids)
  {
    id := 1;
    var rest, seen := ids, {};
    while rest != {}
      invariant seen + rest == ids
      invariant forall k :: k in seen ==> k < id
      invariant if seen == {} then id == 1 else id - 1 in seen
      decreases |rest|
    {
      HasMember(rest);
      var k :| k in rest;
      if seen == {} || k >= id { id := k + 1; }
      rest, seen := rest - {k}, seen + {k};
    }
    NextIdIs(ids, id);
  }

  method UniqueInts(ids: seq<int>) returns (result: seq<int>)
    ensures result == Unique(ids)
  {
    result := [];
    var seen := {};
    for i := 0 to |ids|
      invariant result == Unique(ids[..i])
      invariant forall k :: k in seen <==> k in result
    {
      assert ids[..i + 1][..i] == ids[..i];
      if ids[i] !in seen {
        seen := seen + {ids[i]};
        result := result + [ids[i]];
      }
    }
    assert ids[..|ids|] == ids;
  }

  method CandidateIdsFromList(ids: seq<int>) returns (result: seq<int>)
    ensures result == Unique(PositiveIds(ids))
  {
    var positive := [];
    for i := 0 to |ids|
      invariant positive == PositiveIds(ids[..i])
    {
      assert ids[..i + 1][..i] == ids[..i];
      if ids[i] > 0 { positive := positive + [ids[i]]; }
    }
    assert ids[..|ids|] == ids;
    result := UniqueInts(positive);
  }

  method JoinTitles(rows: seq<Candidate>) returns (text: string)
    ensures text == JoinedTitles(rows)
  {
    text := "";
    for i := 0 to |rows|
      invariant text == JoinedTitles(rows[..i])
    {
      assert rows[..i + 1][..i] == rows[..i];
      text := if i == 0 then rows[i].title else text + " / " + rows[i].title;
    }
    assert rows[..|rows|] == rows;
  }

  method JoinField(texts: seq<string>, separator: string) returns (text: string)
    ensures text == JoinedTexts(texts, separator)
  {
    text := "";
    for i := 0 to |texts|
      invariant text == JoinedTexts(texts[..i], separator)
    {
      assert texts[..i + 1][..i] == texts[..i];
      if texts[i] != "" {
        text := if text == "" then texts[i] else text + separator + texts[i];
      }
    }
    assert texts[..|texts|] == texts;
  }

  /** One kind of index drift: rows without an index row, and index rows without a row. */
  datatype DriftIssue = DriftIssue(table: string, missing: set<int>, extra: set<int>)

  /** The database, its handlers and the index doctor. */
  class Handler {
    var candidates: map<int, Candidate>
    var candidateTexts: map<int, CandidateText>
    var entries: map<int, Entry>
    var entryTexts: map<int, EntryText>
    var nodes: map<int, Node>
    var nodeTexts: map<int, NodeText>
    var edges: map<int, Edge>
    var refs: seq<SourceRef>
    var events: seq<CurationEvent>
    var captures: seq<CaptureEvent>
    var proposals: map<int, Proposal>

    function Tables(): Db
      reads this
    {
      Db(candidates, candidateTexts, entries, entryTexts, nodes, nodeTexts, edges, refs, events, captures, proposals)
    }

    ghost predicate Valid()
      reads this
    {
      WellFormed.WellFormed(Tables())
    }

    constructor ()
      ensures Valid() && Tables() == EMPTY_DB
    {
      candidates, candidateTexts, entries, entryTexts := map[], map[], map[], map[];
      nodes, nodeTexts, edges, refs, events, captures, proposals := map[], map[], map[], [], [], [], map[];
      new;
      EmptyIsWellFormed();
    }

    /** Ending a transaction without a commit. */
    method Rollback(saved: Db)
      modifies this
      ensures Tables() == saved
    {
      candidates, candidateTexts, entries, entryTexts := saved.candidates, saved.candidateTexts, saved.entries, saved.entryTexts;
      nodes, nodeTexts, edges, refs := saved.nodes, saved.nodeTexts, saved.edges, saved.refs;
      events, captures, proposals := saved.events, saved.captures, saved.proposals;
    }

    // ---- Index refreshes: delete the index row, insert the new one.

    method RefreshCandidateFts(id: int, title: string, summary: string, body: string, kind: string)
      modifies this`candidateTexts
      ensures candidateTexts == old(candidateTexts)[id := CandidateText(title, summary, body, kind)]
    {
      candidateTexts := candidateTexts - {id};
      candidateTexts := candidateTexts[id := CandidateText(title, summary, body, kind)];
    }

    method RefreshEntryFts(id: int, slug: string, title: string, summary: string, body: string, tags: Json)
      modifies this`entryTexts
      ensures entryTexts == old(entryTexts)[id := EntryText(slug, title, summary, body, tags)]
    {
      entryTexts := entryTexts - {id};
      entryTexts := entryTexts[id := EntryText(slug, title, summary, body, tags)];
    }

    method RefreshNodeFts(id: int, slug: string, title: string, summary: string)
      modifies this`nodeTexts
      ensures nodeTexts == old(nodeTexts)[id := NodeText(slug, title, summary)]
    {
      nodeTexts := nodeTexts - {id};
      nodeTexts := nodeTexts[id := NodeText(slug, title, summary)];
    }

    // ---- Logs.

    method LogCuration(event: CurationEvent) returns (id: int)
      modifies this`events
      ensures events == old(events) + [event] && id == |events|
    {
      events := events + [event];
      id := |events|;
    }

    method LogCapture(event: CaptureEvent) returns (ok: bool)
      modifies this`captures
      ensures ok == CheckCapture(event)
      ensures captures == if ok then old(captures) + [event] else old(captures)
    {
      ok := CheckCapture(event);
      if ok { captures := captures + [event]; }
    }

    // ---- Row operations.

    method InsertCandidate(f: CandidateFields) returns (r: Result<int>)
      modifies this`candidates, this`candidateTexts
      ensures r.Verdict() == NewCandidate(f).Verdict()
      ensures r.Ok? ==>
        var row := NewCandidate(f).value;
        && r.value == NextId(old(candidates).Keys)
        && candidates == old(candidates)[r.value := row]
        && candidateTexts == old(candidateTexts)[r.value := TextOfCandidate(row)]
      ensures r.Err? ==> candidates == old(candidates) && candidateTexts == old(candidateTexts)
    {
      if f.status.Val? && f.status.value != Pending && f.status.value != OtherCandidateStatus("") {
        return Err(Invalid("candidate_create_status_must_be_pending"));
      }
      if f.layer.Val? && f.layer.value != CandidateLayer && f.layer.value != OtherLayer("") {
        return Err(Invalid("candidate_create_layer_must_be_candidate"));
      }
      if OrElse(f.labels.claim, Observation) == Policy {
        return Err(Invalid("candidate_create_cannot_use_policy_claim_strength"));
      }
      if !f.title.Val? || !f.kind.Val? { return Err(CONSTRAINT); }
      var creator := OrElse(f.createdBy, "api");
      var row := Candidate(
        Column(f.slug), f.title.value, OrElse(f.body, ""), OrElse(f.summary, ""), f.kind.value, CandidateLayer,
        NewLabels(f.labels), OrElse(f.audience, EMPTY_LIST), RefsOr(f.refs), Column(f.extractionConfidence),
        Pending, creator, OrElse(f.updatedBy, creator));
      if !CheckCandidate(row) { return Err(CONSTRAINT); }
      var id := FreshId(candidates.Keys);
      candidates := candidates[id := row];
      RefreshCandidateFts(id, OrElse(f.title, ""), OrElse(f.summary, ""), OrElse(f.body, ""), OrElse(f.kind, ""));
      r := Ok(id);
    }

    method UpdateCandidateFields(id: int, u: CandidateUpdate) returns (r: Result<Candidate>)
      requires id in candidates
      modifies this`candidates, this`candidateTexts
      ensures r == UpdatedCandidate(old(candidates)[id], u)
      ensures r.Ok? ==>
        && candidates == old(candidates)[id := r.value]
        && candidateTexts == old(candidateTexts)[id := TextOfCandidate(r.value)]
      ensures r.Err? ==> candidates == old(candidates) && candidateTexts == old(candidateTexts)
    {
      if u.status.Null? || u.title.Null? || u.body.Null? || u.summary.Null? || u.kind.Null? { return Err(CONSTRAINT); }
      if u.labels.scopeKind.Null? || u.labels.authorityKind.Null? || u.labels.discovery.Null? || u.labels.claim.Null? {
        return Err(CONSTRAINT);
      }
      var row := candidates[id].(updatedBy := u.updatedBy, labels := UpdatedLabels(candidates[id].labels, u.labels));
      if u.status.Val? { row := row.(status := u.status.value); }
      if u.title.Val? { row := row.(title := u.title.value); }
      if u.body.Val? { row := row.(body := u.body.value); }
      if u.summary.Val? { row := row.(summary := u.summary.value); }
      if u.kind.Val? { row := row.(kind := u.kind.value); }
      if !u.audience.Absent? { row := row.(audience := OrElse(u.audience, EMPTY_LIST)); }
      if !CheckCandidate(row) { return Err(CONSTRAINT); }
      candidates := candidates[id := row];
      RefreshCandidateFts(id, row.title, row.summary, row.body, row.kind);
      r := Ok(row);
    }

    /** The INSERT into memory_entries, which its CHECKs or the unique slug may refuse. */
    method InsertEntryRow(entry: Entry) returns (r: Result<int>)
      modifies this`entries
      ensures r.Verdict() == EntryVerdict(old(entries), entry)
      ensures r.Ok? ==> r.value == NextId(old(entries).Keys) && entries == old(entries)[r.value := entry]
      ensures r.Err? ==> entries == old(entries)
    {
      if !CheckEntry(entry) { return Err(CONSTRAINT); }
      if SlugTaken(entries, entry.slug) { return Err(Duplicate); }
      var id := FreshId(entries.Keys);
      entries := entries[id := entry];
      r := Ok(id);
    }

    /** The entry map of a promotion, key by key. */
    method BuildEntry(c: Candidate, refId: Option<int>, f: EntryFields, actor: string) returns (entry: Entry)
      ensures entry == PromotedEntry(c, refId, f, actor)
    {
      var slug := OrElse(f.slug, "");
      if slug == "" {
        slug := if c.slug.Some? then c.slug.value else "";
      }
      if slug == "" {
        slug := "candidate-" + (if refId.Some? then Decimal(refId.value) else "<nil>");
      }
      entry := Entry(
        slug, OrElse(f.title, c.title), OrElse(f.summary, c.summary), OrElse(f.body, c.body), Markdown,
        OrElse(f.kind, c.kind), OrElse(f.layer, CuratedFact), DerivedLabels(c.labels, f.labels), Active, Curated,
        OrElse(f.confidence, SourceBacked), OrElse(f.stability, Evolving), OrElse(f.audience, c.audience),
        OrElse(f.tags, EMPTY_LIST), actor, actor);
    }

    method InsertAndIndexEntry(entry: Entry) returns (r: Result<int>)
      modifies this`entries, this`entryTexts
      ensures r.Verdict() == EntryVerdict(old(entries), entry)
      ensures r.Ok? ==>
        && r.value == NextId(old(entries).Keys)
        && entries == old(entries)[r.value := entry]
        && entryTexts == old(entryTexts)[r.value := TextOfEntry(entry)]
      ensures r.Err? ==> entries == old(entries) && entryTexts == old(entryTexts)
    {
      r := InsertEntryRow(entry);
      if r.Ok? {
        RefreshEntryFts(r.value, entry.slug, entry.title, entry.summary, entry.body, entry.tags);
      }
    }

    method AttachSourceRefs(items: seq<RefItem>, target: TargetKind, targetId: int, actor: string,
                            summary: string, sourceId: string) returns (r: Result<seq<int>>)
      modifies this`refs
      ensures var rows := RefRows(items, target, targetId, actor, summary, sourceId);
        if RefsPass(rows) then r == Ok(IdsAfter(|old(refs)|, |rows|)) && refs == old(refs) + rows
        else r == Err(CONSTRAINT)
    {
      var ids := [];
      for i := 0 to |items|
        invariant RefsPass(RefRows(items[..i], target, targetId, actor, summary, sourceId))
        invariant refs == old(refs) + RefRows(items[..i], target, targetId, actor, summary, sourceId)
        invariant ids == IdsAfter(|old(refs)|, |RefRows(items[..i], target, targetId, actor, summary, sourceId)|)
      {
        RefRowsSnoc(items, i, target, targetId, actor, summary, sourceId);
        if items[i].RefObject? {
          var row := NewRef(items[i].fields, target, targetId, actor, summary, sourceId);
          if !CheckRef(row) {
            PrefixFails(items, i + 1, target, targetId, actor, summary, sourceId);
            return Err(CONSTRAINT);
          }
          OneMoreRef(old(refs), RefRows(items[..i], target, targetId, actor, summary, sourceId), row);
          refs := refs + [row];
          ids := ids + [|refs|];
        }
      }
      assert items[..|items|] == items;
      r := Ok(ids);
    }

    // ---- Handlers: one candidate.

    /** Read the row, update it, log before and after. */
    method ReviseRow(id: int, u: CandidateUpdate, action: Action, who: Actor) returns (err: Option<Failure>)
      modifies this
      ensures Tables() == Commit(old(Tables()), ReviseCandidate(old(Tables()), id, u, action, who))
      ensures err == ReviseCandidate(old(Tables()), id, u, action, who).Verdict()
    {
      if id !in candidates { return Some(NotFound); }
      ghost var db := Tables();
      var before := candidates[id];
      var after := UpdateCandidateFields(id, u);
      if after.Err? {
        assert Tables() == db;
        return Some(after.error);
      }
      var event := CandidateEvent(id, action, who, before, after.value);
      var _ := LogCuration(event);
      RevisionRefines(db, id, u, action, who, after.value);
      err := None;
    }

    method SimpleCandidateAction(id: int, who: ActorFields, status: CandidateStatus, action: Action)
      returns (err: Option<Failure>)
      modifies this
      ensures var change := if RequireActorReason(who).Err? then Err(RequireActorReason(who).error)
                            else ReviseCandidate(old(Tables()), id, StatusUpdate(Val(status), RequireActorReason(who).value.name),
                                                 action, RequireActorReason(who).value);
        Tables() == Commit(old(Tables()), change) && err == change.Verdict()
    {
      var actor := RequireActorReason(who);
      if actor.Err? { return Some(actor.error); }
      err := ReviseRow(id, StatusUpdate(Val(status), actor.value.name), action, actor.value);
    }

    method ClaimCandidate(id: int, who: ActorFields) returns (err: Option<Failure>)
      modifies this
      ensures Tables() == Commit(old(Tables()), ClaimChange(old(Tables()), id, who))
      ensures err == ClaimChange(old(Tables()), id, who).Verdict()
    {
      err := SimpleCandidateAction(id, who, Claimed, ActClaim);
    }

    method RejectCandidateById(id: int, who: ActorFields) returns (err: Option<Failure>)
      modifies this
      ensures Tables() == Commit(old(Tables()), RejectChange(old(Tables()), id, who))
      ensures err == RejectChange(old(Tables()), id, who).Verdict()
    {
      err := SimpleCandidateAction(id, who, Rejected, ActReject);
    }

    method UpdateCandidateStatus(id: int, status: Field<CandidateStatus>, who: ActorFields) returns (err: Option<Failure>)
      modifies this
      ensures Tables() == Commit(old(Tables()), PatchStatusChange(old(Tables()), id, status, who))
      ensures err == PatchStatusChange(old(Tables()), id, status, who).Verdict()
    {
      var actor := OrElse(who.actor, "api");
      var action := ActRelabel;
      if status == Val(Claimed) { action := ActClaim; }
      else if status == Val(Rejected) { action := ActReject; }
      else if status == Val(SupersededCandidate) { action := ActSupersede; }
      err := ReviseRow(id, StatusUpdate(if status.Val? then status else Null, actor), action,
                       Actor(actor, OrElse(who.reason, "candidate status updated")));
    }

    method RelabelCandidateById(id: int, f: RelabelFields, who: ActorFields) returns (err: Option<Failure>)
      modifies this
      ensures Tables() == Commit(old(Tables()), RelabelChange(old(Tables()), id, f, who))
      ensures err == RelabelChange(old(Tables()), id, f, who).Verdict()
    {
      var actor := RequireActorReason(who);
      if actor.Err? { return Some(actor.error); }
      err := ReviseRow(id, RelabelUpdate(f, actor.value.name), ActRelabel, actor.value);
    }

    method RescopeCandidateById(id: int, f: LabelFields, who: ActorFields) returns (err: Option<Failure>)
      modifies this
      ensures Tables() == Commit(old(Tables()), RescopeChange(old(Tables()), id, f, who))
      ensures err == RescopeChange(old(Tables()), id, f, who).Verdict()
    {
      var missing := MissingScopeKey(f);
      if missing.Some? { return Some(Invalid(missing.value)); }
      var actor := RequireActorReason(who);
      if actor.Err? { return Some(actor.error); }
      err := ReviseRow(id, RescopeUpdate(f, actor.value.name), ActRescope, actor.value);
    }

    // ---- Handlers: promotion.

    /** What follows the insert of a promoted entry: its references, the candidate's status, the
        event. After a refusal the caller rolls back. */
    method FinishPromotion(id: int, before: Candidate, refId: Option<int>, entryId: int, entry: Entry, who: Actor, logged: Before)
      returns (err: Option<Failure>)
      requires id in candidates && candidates[id] == before
      modifies this`candidates, this`candidateTexts, this`refs, this`events
      ensures Finished(old(Tables()), id, before, refId, entryId, entry, who, logged, Tables(), err)
    {
      var refIds := AttachSourceRefs(RefItems(before), EntryTarget, entryId, who.name, before.summary,
                                     if refId.Some? then Decimal(refId.value) else "<nil>");
      if refIds.Err? { return Some(refIds.error); }
      var after := UpdateCandidateFields(id, StatusUpdate(Val(Promoted), who.name));
      if after.Err? { return Some(after.error); }
      var eventId := LogCuration(EventOfPromotion(id, who, logged, after.value, entryId, entry, refIds.value));
      err := None;
    }

    /** The writing statements of a promotion to `entry`; any refusal rolls them all back. */
    method PromoteTo(id: int, before: Candidate, refId: Option<int>, entry: Entry, who: Actor, logged: Before)
      returns (err: Option<Failure>)
      requires id in candidates && candidates[id] == before
      modifies this
      ensures err == PromotionVerdict(old(Tables()), before, refId, entry, who)
      ensures Tables() == if err.Some? then old(Tables())
                          else AfterPromotion(old(Tables()), id, before, refId, entry, who, logged)
    {
      var saved := Tables();
      var entryId := InsertAndIndexEntry(entry);
      if entryId.Err? { return Some(entryId.error); }
      ghost var inserted := Tables();
      err := FinishPromotion(id, before, refId, entryId.value, entry, who, logged);
      FinishedIsPromoted(saved, inserted, id, before, refId, entry, who, logged, Tables(), err);
      if err.Some? { Rollback(saved); }
    }

    method PromoteCandidateById(id: int, f: EntryFields, who: ActorFields) returns (err: Option<Failure>)
      modifies this
      ensures Tables() == Commit(old(Tables()), PromoteChange(old(Tables()), id, f, who))
      ensures err == PromoteChange(old(Tables()), id, f, who).Verdict()
    {
      var actor := RequireActorReason(who);
      if actor.Err? { return Some(actor.error); }
      if id !in candidates { return Some(NotFound); }
      var before := candidates[id];
      if before.status != Pending && before.status != Claimed { return Some(Invalid("candidate_not_promotable")); }
      var entry := BuildEntry(before, Some(id), f, actor.value.name);
      var logged := CandidatesBefore([Snapshot(id, before)]);
      PromotionRefines(Tables(), id, before, Some(id), entry, actor.value, logged);
      err := PromoteTo(id, before, Some(id), entry, actor.value, logged);
    }

    method CaptureDecision(p: CapturePayload, decision: Decision, reason: string, size: int) returns (err: Option<Failure>)
      modifies this`captures
      ensures Tables() == Commit(old(Tables()), DecisionChange(p, decision, reason, size))
      ensures err == DecisionChange(p, decision, reason, size).Verdict()
    {
      var event := DecisionRow(p, decision, reason, [], size);
      var ok := LogCapture(event);
      if !ok { return Some(CONSTRAINT); }
      ApplyFrame(old(Tables()), NOTHING.(captures := [event]));
      err := None;
    }

    /** Insert a candidate and log its capture, or neither. */
    method InsertAndLog(f: CandidateFields, event: int -> CaptureEvent, ghost row: Candidate) returns (r: Result<int>)
      requires NewCandidate(f) == Ok(row)
      modifies this
      ensures var id := NextId(old(candidates).Keys);
        if CheckCapture(event(id)) then r == Ok(id) && Tables() == AfterCapture(old(Tables()), id, row, [event(id)])
        else r == Err(CONSTRAINT) && Tables() == old(Tables())
    {
      var saved := Tables();
      var id := InsertCandidate(f);
      var ok := LogCapture(event(id.value));
      if !ok { Rollback(saved); return Err(CONSTRAINT); }
      r := id;
    }

    method FinishOrRollback(id: int, row: Candidate, entryId: int, entry: Entry, who: Actor, saved: Db) returns (err: Option<Failure>)
      requires id in candidates && candidates[id] == row && id in candidateTexts
      requires candidates == saved.candidates[id := row] && candidateTexts == saved.candidateTexts[id := TextOfCandidate(row)]
      requires refs == saved.refs && events == saved.events && entryId == NextId(saved.entries.Keys)
      requires EntryVerdict(saved.entries, entry).None?
      modifies this
      ensures err == PromotionVerdict(saved, row, None, entry, who)
      ensures Tables() == if err.Some? then saved else
        old(Tables()).(
          candidates := AfterPromotion(saved, id, row, None, entry, who, PayloadBefore(row)).candidates,
          candidateTexts := AfterPromotion(saved, id, row, None, entry, who, PayloadBefore(row)).candidateTexts,
          refs := AfterPromotion(saved, id, row, None, entry, who, PayloadBefore(row)).refs,
          events := AfterPromotion(saved, id, row, None, entry, who, PayloadBefore(row)).events)
    {
      err := FinishPromotion(id, row, None, entryId, entry, who, PayloadBefore(row));
      if err.Some? { Rollback(saved); return; }
      Overwrite(saved.candidates, id, row, candidates[id]);
      Overwrite(saved.candidateTexts, id, TextOfCandidate(row), candidateTexts[id]);
    }

    /** The auto-promotion of a capture just inserted and logged. A refused entry leaves the
        candidate pending and logs an errored capture; any later refusal rolls back to `saved`. */
    method AutoPromote(p: CapturePayload, id: int, row: Candidate, entry: Entry, who: Actor, saved: Db, ghost event: CaptureEvent)
      returns (err: Option<Failure>)
      requires forall e :: CheckCapture(ErroredRow(p, e))
      requires Tables() == AfterCapture(saved, id, row, [event])
      modifies this
      ensures (Tables(), err) == AfterAutoPromotion(saved, p, id, row, entry, who, event)
    {
      var entryId := InsertAndIndexEntry(entry);
      if entryId.Err? {
        var ok := LogCapture(DecisionRow(p, Errored, ErrorText(entryId.error), [], -1));
        assert captures == saved.captures + [event, ErroredRow(p, entryId.error)];
        return None;
      }
      err := FinishOrRollback(id, row, entryId.value, entry, who, saved);
    }

    /** The part of a capture after its candidate row is known to be acceptable. */
    method CaptureAccepted(p: CapturePayload, f: CandidateFields, row: Candidate) returns (err: Option<Failure>)
      requires NewCandidate(f) == Ok(row)
      modifies this
      ensures Tables() == Commit(old(Tables()), CaptureRowChange(old(Tables()), p, row))
      ensures err == CaptureRowChange(old(Tables()), p, row).Verdict()
    {
      var saved := Tables();
      var id := InsertAndLog(f, id => DecisionRow(p, Captured, OrElse(p.reason, "captured candidate"), [id], -1), row);
      if id.Err? { return Some(id.error); }
      ghost var event := DecisionRow(p, Captured, OrElse(p.reason, "captured candidate"), [id.value], -1);
      CaptureRefines(saved, id.value, row, [event]);
      if !AutoPromotes(p) { return None; }
      var who := Actor(OrElse(p.actor, "auto-promote"), OrElse(p.reason, "auto-promoted from capture"));
      var entry := BuildEntry(row, None, p.entry, who.name);
      forall e { ErroredRowPasses(p, Captured, OrElse(p.reason, "captured candidate"), [id.value], e); }
      err := AutoPromote(p, id.value, row, entry, who, saved, event);
      AutoPromotionRefines(saved, p, id.value, row, entry, who, event);
    }

    method CaptureMemoryRequest(p: CapturePayload) returns (err: Option<Failure>)
      modifies this
      ensures Tables() == Commit(old(Tables()), CaptureChange(old(Tables()), p))
      ensures err == CaptureChange(old(Tables()), p).Verdict()
    {
      var saved := Tables();
      var mode := OrElse(p.mode, OtherMode(""));
      if mode == OtherMode("") { mode := DefaultMode(OrElse(p.log.runtime, Manual), OrElse(p.role, "")); }
      if mode.OtherMode? {
        err := CaptureDecision(p, Errored, "invalid_capture_mode", 0);
        return;
      }
      if p.simulateError {
        err := CaptureDecision(p, Errored, OrElse(p.reason, "simulated_capture_error"), -1);
        return;
      }
      if mode == Off { err := CaptureDecision(p, Ignored, OrElse(p.reason, "capture_mode_off"), -1); return; }
      if mode == MetadataOnly { err := CaptureDecision(p, Ignored, OrElse(p.reason, "metadata_only"), 0); return; }
      if mode == CuratedManualOnly { err := CaptureDecision(p, Ignored, OrElse(p.reason, "curated_manual_only"), -1); return; }
      var f := CandidateOf(p);
      var reason := FilterReason(f);
      if reason.Some? {
        err := CaptureDecision(p, Filtered, OrElse(p.reason, reason.value), -1);
        return;
      }
      var row := NewCandidate(f);
      if row.Err? {
        err := CaptureDecision(p, Errored, ErrorText(row.error), -1);
        return;
      }
      assert EarlyDecision(p).None?;
      err := CaptureAccepted(p, f, row.value);
    }

    method CreateCandidateRow(f: CandidateFields, log: LogFields, why: Field<string>) returns (err: Option<Failure>)
      modifies this
      ensures Tables() == Commit(old(Tables()), CreateCandidateChange(old(Tables()), f, log, why))
      ensures err == CreateCandidateChange(old(Tables()), f, log, why).Verdict()
    {
      var row := NewCandidate(f);
      if row.Err? { return Some(row.error); }
      ghost var db := Tables();
      var id := InsertAndLog(f, id => CreationRow(f, log, why, id), row.value);
      if id.Err? { return Some(id.error); }
      CaptureRefines(db, id.value, row.value, [CreationRow(f, log, why, id.value)]);
      err := None;
    }

    // ---- Handlers: split and merge.

    method InsertFragments(c: Candidate, fragments: seq<Option<CandidateFields>>, actor: string) returns (r: Result<seq<Snapshot>>)
      modifies this`candidates, this`candidateTexts
      ensures var rows := FragmentRows(c, fragments, actor);
        var first := NextId(old(candidates).Keys);
        if rows.Err? then r == Err(rows.error)
        else
          && r == Ok(SnapshotsFrom(first, rows.value))
          && candidates == old(candidates) + RowsFrom(first, rows.value)
          && candidateTexts == old(candidateTexts) + CandidateTexts(RowsFrom(first, rows.value))
    {
      var snapshots := [];
      ghost var rows := [];
      for i := 0 to |fragments|
        invariant FragmentRows(c, fragments[..i], actor) == Ok(rows)
        invariant Inserted(old(candidates), old(candidateTexts), rows, candidates, candidateTexts, snapshots)
      {
        assert fragments[..i + 1][..i] == fragments[..i];
        if fragments[i].Some? {
          var f := FragmentFields(c, fragments[i].value, actor);
          ghost var before, texts := candidates, candidateTexts;
          var id := InsertCandidate(f);
          if id.Err? {
            FragmentFailure(c, fragments, i + 1, actor);
            return Err(id.error);
          }
          var row := candidates[id.value];
          InsertOneMore(old(candidates), old(candidateTexts), rows, before, texts, snapshots, id.value, row);
          snapshots := snapshots + [Snapshot(id.value, row)];
          rows := rows + [row];
        }
      }
      assert fragments[..|fragments|] == fragments;
      r := Ok(snapshots);
    }

    /** The original's status and the event, once the fragments are in. */
    method FinishSplit(id: int, parts: seq<Snapshot>, who: Actor, saved: Db, ghost rows: seq<Candidate>) returns (err: Option<Failure>)
      requires id in saved.candidates
      requires Inserted(saved.candidates, saved.candidateTexts, rows, candidates, candidateTexts, parts)
      requires Tables() == saved.(candidates := candidates, candidateTexts := candidateTexts)
      modifies this
      ensures Tables() == Commit(saved, SplitInto(saved, id, rows, who))
      ensures err == SplitInto(saved, id, rows, who).Verdict()
    {
      var before := saved.candidates[id];
      SplitMarks(saved, Tables(), id, rows, parts, who);
      var original := UpdateCandidateFields(id, StatusUpdate(Val(NeedsSplit), who.name));
      if original.Err? { Rollback(saved); return Some(original.error); }
      var eventId := LogCuration(SplitEvent(id, who, before, original.value, parts));
      err := None;
    }

    method SplitCandidateById(id: int, fragments: seq<Option<CandidateFields>>, who: ActorFields) returns (err: Option<Failure>)
      modifies this
      ensures Tables() == Commit(old(Tables()), SplitChange(old(Tables()), id, fragments, who))
      ensures err == SplitChange(old(Tables()), id, fragments, who).Verdict()
    {
      var actor := RequireActorReason(who);
      if actor.Err? { return Some(actor.error); }
      if |fragments| < 2 { return Some(Invalid("at_least_two_fragments_required")); }
      if id !in candidates { return Some(NotFound); }
      var saved := Tables();
      var parts := InsertFragments(candidates[id], fragments, actor.value.name);
      if parts.Err? { Rollback(saved); return Some(parts.error); }
      err := FinishSplit(id, parts.value, actor.value, saved,
                         FragmentRows(saved.candidates[id], fragments, actor.value.name).value);
    }

    /** Read the merged rows and their references. */
    method GatherRows(ids: seq<int>) returns (r: Result<(seq<Candidate>, seq<RefItem>)>)
      ensures if !AllStored(candidates, ids) then r == Err(NotFound)
              else r == Ok((RowsOf(candidates, ids), JoinedRefs(RowsOf(candidates, ids))))
    {
      var rows, sources := [], [];
      for i := 0 to |ids|
        invariant AllStored(candidates, ids[..i])
        invariant rows == RowsOf(candidates, ids[..i]) && sources == JoinedRefs(rows)
      {
        if ids[i] !in candidates { return Err(NotFound); }
        var row := candidates[ids[i]];
        RowsOfOneMore(candidates, ids, i);
        JoinedRefsSnoc(rows, row);
        rows, sources := rows + [row], sources + RefItems(row);
      }
      assert ids[..|ids|] == ids;
      r := Ok((rows, sources));
    }

    method MarkOne(id: int, actor: string) returns (r: Result<Candidate>)
      requires id in candidates
      modifies this`candidates, this`candidateTexts
      ensures var row := MarkedMerged(old(candidates)[id], actor);
        if CheckCandidate(row) then
          r == Ok(row) && candidates == old(candidates)[id := row] && candidateTexts == old(candidateTexts)[id := TextOfCandidate(row)]
        else r == Err(CONSTRAINT)
    {
      StatusUpdateSets(candidates[id], NeedsMerge, actor);
      r := UpdateCandidateFields(id, StatusUpdate(Val(NeedsMerge), actor));
    }

    /** Mark every source of a merge; one that fails its CHECKs stops it. */
    method MarkMerged(ids: seq<int>, actor: string) returns (r: Result<seq<Snapshot>>)
      requires AllStored(candidates, ids)
      modifies this`candidates, this`candidateTexts
      ensures var sources := SourcesAfter(old(candidates), ids, actor);
        if !SourcesPass(old(candidates), ids, actor) then r == Err(CONSTRAINT)
        else
          && r == Ok(SnapshotsOf(sources, ids))
          && candidates == old(candidates) + sources
          && candidateTexts == old(candidateTexts) + CandidateTexts(sources)
    {
      var snapshots := [];
      for i := 0 to |ids|
        invariant SourcesPass(old(candidates), ids[..i], actor)
        invariant Marked(old(candidates), old(candidateTexts), ids[..i], actor, candidates, candidateTexts, snapshots)
      {
        var id := ids[i];
        ghost var before, texts := candidates, candidateTexts;
        var updated := MarkOne(id, actor);
        if updated.Err? {
          assert !CheckCandidate(MarkedMerged(old(candidates)[ids[i]], actor));
          return Err(updated.error);
        }
        PassOneMore(old(candidates), ids, i, actor);
        MarkOneMore(old(candidates), old(candidateTexts), ids[..i], actor, before, texts, snapshots, id);
        snapshots := snapshots + [Snapshot(id, updated.value)];
      }
      assert ids[..|ids|] == ids;
      r := Ok(snapshots);
    }

    method BuildMerge(rows: seq<Candidate>, sources: seq<RefItem>, f: CandidateFields, actor: string) returns (fields: CandidateFields)
      requires rows != [] && sources == JoinedRefs(rows)
      ensures fields == MergedFields(rows, f, actor)
    {
      var titles := JoinTitles(rows);
      var summaries := JoinField(Summaries(rows), "\n");
      var bodies := JoinField(Bodies(rows), "\n\n");
      var labels := DerivedLabels(rows[0].labels, f.labels);
      fields := CandidateFields(
        Absent, Val(OrElse(f.title, titles)), Val(OrElse(f.body, bodies)), Val(OrElse(f.summary, summaries)),
        Val(OrElse(f.kind, rows[0].kind)), Absent, LabelsAsFields(labels), Absent, Val(RefList(sources)),
        Absent, Absent, Val(actor), Val(actor));
    }

    /** Inserting a candidate that is known to pass. */
    method InsertAccepted(f: CandidateFields, ghost row: Candidate) returns (id: int)
      requires NewCandidate(f) == Ok(row)
      modifies this`candidates, this`candidateTexts
      ensures id == NextId(old(candidates).Keys)
      ensures candidates == old(candidates)[id := row] && candidateTexts == old(candidateTexts)[id := TextOfCandidate(row)]
    {
      var inserted := InsertCandidate(f);
      id := inserted.value;
    }

    /** The sources' status and the event, once the merged candidate is in. */
    method FinishMerge(ids: seq<int>, id: int, merged: Candidate, who: Actor, saved: Db) returns (err: Option<Failure>)
      requires AllStored(saved.candidates, ids) && id == NextId(saved.candidates.Keys)
      requires Tables() == saved.(candidates := saved.candidates[id := merged],
                                  candidateTexts := saved.candidateTexts[id := TextOfCandidate(merged)])
      modifies this
      ensures var change := MergedInto(saved, ids, merged, who);
        Tables() == Commit(saved, change) && err == change.Verdict()
    {
      SourcesUntouched(saved.candidates, ids, id, merged, who.name);
      var marked := MarkMerged(ids, who.name);
      if marked.Err? { Rollback(saved); return Some(marked.error); }
      var event := CurationEvent(Some(id), None, None, None, ActMerge, who.name, who.reason,
                                 CandidatesBefore(SnapshotsOf(saved.candidates, ids)),
                                 OfMerge(Snapshot(id, merged), marked.value));
      var eventId := LogCuration(event);
      MergeRefines(saved, id, merged, SourcesAfter(saved.candidates, ids, who.name), event);
      err := None;
    }

    method MergeInto(ids: seq<int>, fields: CandidateFields, who: Actor) returns (err: Option<Failure>)
      requires AllStored(candidates, ids)
      modifies this
      ensures var change := MergeTo(old(Tables()), ids, fields, who);
        Tables() == Commit(old(Tables()), change) && err == change.Verdict()
    {
      var row := NewCandidate(fields);
      if row.Err? { return Some(row.error); }
      var saved := Tables();
      var id := InsertAccepted(fields, row.value);
      err := FinishMerge(ids, id, row.value, who, saved);
    }

    method MergeCandidatesByIds(ids: seq<int>, f: CandidateFields, who: ActorFields) returns (err: Option<Failure>)
      modifies this
      ensures Tables() == Commit(old(Tables()), MergeChange(old(Tables()), ids, f, who))
      ensures err == MergeChange(old(Tables()), ids, f, who).Verdict()
    {
      var actor := RequireActorReason(who);
      if actor.Err? { return Some(actor.error); }
      if |ids| < 2 { return Some(Invalid("at_least_two_candidates_required")); }
      var gathered := GatherRows(ids);
      if gathered.Err? { return Some(gathered.error); }
      var (rows, sources) := gathered.value;
      var fields := BuildMerge(rows, sources, f, actor.value.name);
      err := MergeInto(ids, fields, actor.value);
    }

    // ---- Handlers: proposals.

    /** The checks before a proposal is stored, in the order they are made. */
    method CheckProposalFields(f: ProposalFields, ids: seq<int>) returns (err: Option<Failure>)
      requires ids == ProposalCandidateIds(f)
      ensures err == ProposalVerdict(candidates, entries, f)
    {
      var kind, status := OrElse(f.kind, OtherKind("")), OrElse(f.status, Proposed);
      if kind.OtherKind? { return Some(Invalid("invalid_proposal_kind")); }
      if status.OtherProposalStatus? { return Some(Invalid("invalid_proposal_status")); }
      if status != Proposed && status != NeedsHuman { return Some(Invalid("proposal_create_status_must_be_pending_decision")); }
      if OrElse(f.proposer, "") == "" { return Some(Invalid("proposer_identity_required")); }
      if Text.Trim(OrElse(f.reason, "")) == "" { return Some(Invalid("reason_required")); }
      if ids == [] && NeedsCandidates(kind) { return Some(Invalid("candidate_ids_required")); }
      for i := 0 to |ids|
        invariant AllStored(candidates, ids[..i])
      {
        if ids[i] !in candidates { return Some(NotFound); }
      }
      assert ids[..|ids|] == ids;
      if OrElse(f.proposerKind, Agent).OtherProposer? || OrElse(f.confidence, Unverified).OtherConfidence? {
        return Some(CONSTRAINT);
      }
      if f.targetEntry.Val? && f.targetEntry.value !in entries { return Some(CONSTRAINT); }
      err := None;
    }

    method CreateCurationProposal(f: ProposalFields) returns (r: Result<int>)
      modifies this`proposals
      ensures Tables() == Commit(old(Tables()), CreateProposalChange(old(Tables()), f))
      ensures r.Verdict() == CreateProposalChange(old(Tables()), f).Verdict()
      ensures r.Ok? ==> r.value == NextId(old(proposals).Keys)
    {
      var ids := CandidateIdsFromList([OrElse(f.candidateId, 0)] + f.candidateIds);
      var err := CheckProposalFields(f, ids);
      if err.Some? { return Err(err.value); }
      var payload := if f.action.Val? then f.action.value else Column(f.entry);
      var row := Proposal(OrElse(f.kind, OtherKind("")), OrElse(f.status, Proposed), ids, Column(f.targetEntry),
                          OrElse(f.entry, NO_OVERRIDES), payload, OrElse(f.proposer, ""), OrElse(f.proposerKind, Agent),
                          OrElse(f.confidence, Unverified), OrElse(f.reason, ""), None, None, None);
      var id := FreshId(proposals.Keys);
      assert row == NewProposal(f);
      proposals := proposals[id := row];
      CreatedProposalRefines(old(Tables()), f);
      r := Ok(id);
    }

    /** The remaining statements: references, candidate, event. */
    method FinishApply(id: int, before: Candidate, entryId: int, entry: Entry, who: Actor) returns (r: Result<int>)
      requires id in candidates && candidates[id] == before
      modifies this`candidates, this`candidateTexts, this`refs, this`events
      ensures var rows := RefRows(RefItems(before), EntryTarget, entryId, who.name, before.summary, Decimal(id));
        var after := before.(status := Promoted, updatedBy := who.name);
        if !RefsPass(rows) || !CheckCandidate(after) then r == Err(CONSTRAINT)
        else
          && r.Ok?
          && candidates == old(candidates)[id := after] && candidateTexts == old(candidateTexts)[id := TextOfCandidate(after)]
          && refs == old(refs) + rows
          && events == old(events) + [CurationEvent(
               Some(id), Some(entryId), None, None, ActPromote, who.name, who.reason, CandidatesBefore([Snapshot(id, before)]),
               OfPromotion(Snapshot(id, after), entryId, entry, IdsAfter(|old(refs)|, |rows|)))]
    {
      var refIds := AttachSourceRefs(RefItems(before), EntryTarget, entryId, who.name, before.summary, Decimal(id));
      if refIds.Err? { return Err(refIds.error); }
      StatusUpdateSets(before, Promoted, who.name);
      var after := UpdateCandidateFields(id, StatusUpdate(Val(Promoted), who.name));
      if after.Err? { return Err(after.error); }
      var eventId := LogCuration(CurationEvent(
        Some(id), Some(entryId), None, None, ActPromote, who.name, who.reason, CandidatesBefore([Snapshot(id, before)]),
        OfPromotion(Snapshot(id, after.value), entryId, entry, refIds.value)));
      r := Ok(eventId);
    }

    method ApplyStatements(id: int, before: Candidate, entry: Entry, who: Actor) returns (r: Result<Option<int>>)
      requires id in candidates && candidates[id] == before
      modifies this`candidates, this`candidateTexts, this`entries, this`entryTexts, this`refs, this`events
      ensures r.Verdict() == AppliedRefusal(old(Tables()), id, before, entry, who)
      ensures r.Ok? ==> r.value == Some(NextId(old(entries).Keys))
      ensures r.Ok? ==> Tables() == AfterApplied(old(Tables()), id, before, entry, who)
    {
      var entryId := InsertAndIndexEntry(entry);
      if entryId.Err? { return Err(entryId.error); }
      var logged := FinishApply(id, before, entryId.value, entry, who);
      if logged.Err? { return Err(logged.error); }
      r := Ok(Some(entryId.value));
    }

    /** The promotion as the apply handler carries it out. Its caller rolls back after a refusal. */
    method ApplyPromote(id: int, f: EntryFields, who: Actor) returns (r: Result<Option<int>>)
      modifies this`candidates, this`candidateTexts, this`entries, this`entryTexts, this`refs, this`events
      ensures Effected(old(Tables()), AppliedPromotion(old(Tables()), id, f, who), r, Tables())
    {
      if id !in candidates { return Err(NotFound); }
      var before := candidates[id];
      if before.status != Pending && before.status != Claimed { return Err(Invalid("candidate_not_promotable")); }
      var entry := BuildEntry(before, Some(id), f, who.name);
      AppliedRefines(Tables(), id, f, who);
      r := ApplyStatements(id, before, entry, who);
    }

    /** Applying: only promote and reject proposals for exactly one candidate can be applied. A
        refusal may leave writes behind for the caller to roll back. */
    method ApplyEffect(p: Proposal, who: Actor) returns (r: Result<Option<int>>)
      modifies this
      ensures proposals == old(proposals)
      ensures Effected(old(Tables()), ProposalEffect(old(Tables()), p, who), r, Tables())
    {
      var ids := CandidateIdsFromList(p.candidateIds);
      match p.kind {
        case PromoteCandidate =>
          if |ids| != 1 { return Err(Invalid("promote_candidate_requires_one_candidate")); }
          r := ApplyPromote(ids[0], ProposalPayload(p), who);
        case RejectCandidate =>
          if |ids| != 1 { return Err(Invalid("reject_candidate_requires_one_candidate")); }
          ghost var db := Tables();
          var err := ReviseRow(ids[0], StatusUpdate(Val(Rejected), who.name), ActReject, who);
          if err.None? { ReviseShape(db, ids[0], StatusUpdate(Val(Rejected), who.name), ActReject, who); }
          r := if err.Some? then Err(err.value) else Ok(None);
        case _ => r := Err(Invalid("proposal_kind_apply_not_supported"));
      }
    }

    method ApplyAndMark(id: int, p: Proposal, who: Actor) returns (err: Option<Failure>)
      requires id in proposals && proposals[id] == p
      modifies this
      ensures var effect := ProposalEffect(old(Tables()), p, who);
        var change := if effect.Err? then Err(effect.error)
                      else Ok(effect.value.(proposals := map[id := AppliedProposal(old(Tables()), p, effect.value, who)]));
        Tables() == Commit(old(Tables()), change) && err == change.Verdict()
    {
      var db := Tables();
      var entryId := ApplyEffect(p, who);
      if entryId.Err? { Rollback(db); return Some(entryId.error); }
      var applied := p.(status := Applied, appliedBy := Some(who.name), eventId := Some(|events|), entryId := entryId.value);
      proposals := proposals[id := applied];
      ProposalWriteRefines(db, ProposalEffect(db, p, who).value, id, applied);
      err := None;
    }

    /** A refused apply leaves every table as it was, whatever its statements wrote before. */
    method ApplyCurationProposal(id: int, who: ActorFields) returns (err: Option<Failure>)
      modifies this
      ensures err.Some? ==> Tables() == old(Tables())
      ensures Tables() == Commit(old(Tables()), ApplyProposalChange(old(Tables()), id, who))
      ensures err == ApplyProposalChange(old(Tables()), id, who).Verdict()
    {
      var actor := RequireActorReason(who);
      if actor.Err? { return Some(actor.error); }
      if id !in proposals { return Some(NotFound); }
      var p := proposals[id];
      if p.status != Proposed && p.status != NeedsHuman { return Some(Invalid("proposal_not_applicable")); }
      err := ApplyAndMark(id, p, actor.value);
    }

    method MarkCurationProposal(id: int, status: ProposalStatus, who: ActorFields) returns (err: Option<Failure>)
      modifies this`proposals
      ensures Tables() == Commit(old(Tables()), MarkProposalChange(old(Tables()), id, status, who))
      ensures err == MarkProposalChange(old(Tables()), id, status, who).Verdict()
    {
      ApplyFrame(old(Tables()), NOTHING);
      var actor := RequireActorReason(who);
      if actor.Err? { return Some(actor.error); }
      if id in proposals && (proposals[id].status == Proposed || proposals[id].status == NeedsHuman) {
        var p := proposals[id];
        proposals := proposals[id := p.(status := status, appliedBy := Some(actor.value.name),
                                        reason := if p.reason == "" then actor.value.reason else p.reason)];
        ProposalWriteRefines(old(Tables()), NOTHING, id, proposals[id]);
      }
      if id !in proposals { return Some(NotFound); }
      err := None;
    }

    // ---- Handlers: entries.

    method FindEntry(slug: string) returns (id: Option<int>)
      requires UniqueEntrySlugs(entries)
      ensures id == EntryBySlug(entries, slug)
    {
      if SlugTaken(entries, slug) {
        var k :| k in entries && entries[k].slug == slug;
        return Some(k);
      }
      id := None;
    }

    /** The references and the event of a created entry. */
    method FinishEntry(id: int, entry: Entry, items: seq<RefItem>, creator: string, summary: string, event: CurationEvent, saved: Db)
      returns (err: Option<Failure>)
      requires Tables() == saved.(entries := saved.entries[id := entry], entryTexts := saved.entryTexts[id := TextOfEntry(entry)])
      modifies this
      ensures var rows := RefRows(items, EntryTarget, id, creator, summary, entry.slug);
        if RefsPass(rows) then
          err == None && Tables() == Apply(saved, NOTHING.(entries := map[id := entry], refs := rows, events := [event]))
        else err == Some(CONSTRAINT) && Tables() == saved
    {
      var refIds := AttachSourceRefs(items, EntryTarget, id, creator, summary, entry.slug);
      if refIds.Err? { Rollback(saved); return Some(refIds.error); }
      var eventId := LogCuration(event);
      EntryWriteRefines(saved, id, entry, RefRows(items, EntryTarget, id, creator, summary, entry.slug), event);
      err := None;
    }

    /** Insert a new entry and index it by what its payload says. */
    method InsertNewEntry(p: EntryPayload, entry: Entry) returns (r: Result<int>)
      requires NewEntry(p) == Ok(entry)
      modifies this`entries, this`entryTexts
      ensures r.Verdict() == EntryVerdict(old(entries), entry)
      ensures r.Ok? ==>
        && r.value == NextId(old(entries).Keys)
        && entries == old(entries)[r.value := entry] && entryTexts == old(entryTexts)[r.value := TextOfEntry(entry)]
      ensures r.Err? ==> entries == old(entries) && entryTexts == old(entryTexts)
    {
      r := InsertEntryRow(entry);
      if r.Err? { return; }
      RefreshEntryFts(r.value, OrElse(p.fields.slug, ""), OrElse(p.fields.title, ""), OrElse(p.fields.summary, ""),
                      OrElse(p.fields.body, ""), OrElse(p.fields.tags, EMPTY_LIST));
    }

    method CreateEntryRow(p: EntryPayload) returns (err: Option<Failure>)
      modifies this
      ensures Tables() == Commit(old(Tables()), CreateEntryChange(old(Tables()), p))
      ensures err == CreateEntryChange(old(Tables()), p).Verdict()
    {
      var entry := NewEntry(p);
      if entry.Err? { return Some(entry.error); }
      var saved := Tables();
      var id := InsertNewEntry(p, entry.value);
      if id.Err? { return Some(id.error); }
      var items := if p.refs.Val? && p.refs.value.RefList? then p.refs.value.items else [];
      var creator := OrElse(p.createdBy, "api");
      var action := if p.curationState == Val(Curated) then ActPromote else ActRelabel;
      var event := EntryEvent(id.value, action, Actor(creator, "entry created")).(before := NothingBefore);
      err := FinishEntry(id.value, entry.value, items, creator, OrElse(p.fields.summary, ""), event, saved);
    }

    /** One key of the merge: a present key wins, and null then means the default. */
    method MergeKey<T>(stored: T, key: Field<T>, fallback: T) returns (value: T)
      ensures value == OverlayText(stored, key, fallback)
    {
      value := stored;
      if !key.Absent? {
        value := if key.Null? then fallback else key.value;
      }
    }

    /** Unlike a candidate's, an entry's labels fall back to the defaults on null. */
    method MergeLabels(l: Labels, f: LabelFields) returns (r: Labels)
      ensures r == Labels(
        OverlayText(l.scopeKind, f.scopeKind, Global), OverlayColumn(l.scopeId, f.scopeId),
        OverlayText(l.authorityKind, f.authorityKind, Global), OverlayColumn(l.authorityId, f.authorityId),
        OverlayText(l.discovery, f.discovery, ExplicitOnly), OverlayText(l.claim, f.claim, Observation))
    {
      r := l;
      if !f.scopeKind.Absent? { r := r.(scopeKind := OrElse(f.scopeKind, Global)); }
      if !f.scopeId.Absent? { r := r.(scopeId := Column(f.scopeId)); }
      if !f.authorityKind.Absent? { r := r.(authorityKind := OrElse(f.authorityKind, Global)); }
      if !f.authorityId.Absent? { r := r.(authorityId := Column(f.authorityId)); }
      if !f.discovery.Absent? { r := r.(discovery := OrElse(f.discovery, ExplicitOnly)); }
      if !f.claim.Absent? { r := r.(claim := OrElse(f.claim, Observation)); }
    }

    /** The stored record overlaid by the payload, key by key. */
    method MergeEntry(e: Entry, p: EntryPayload) returns (r: Result<Entry>)
      ensures r == UpdatedEntry(e, p)
    {
      var f := p.fields;
      if f.title.Null? { return Err(CONSTRAINT); }
      var title := MergeKey(e.title, f.title, "");
      var summary := MergeKey(e.summary, f.summary, "");
      var body := MergeKey(e.body, f.body, "");
      var layer := MergeKey(e.layer, f.layer, CuratedFact);
      var labels := MergeLabels(e.labels, f.labels);
      var status := MergeKey(e.status, p.status, Draft);
      var curationState := MergeKey(e.curationState, p.curationState, CandidateState);
      var confidence := MergeKey(e.confidence, f.confidence, Unverified);
      var stability := MergeKey(e.stability, f.stability, Evolving);
      var audience := MergeKey(e.audience, f.audience, EMPTY_LIST);
      var tags := MergeKey(e.tags, f.tags, EMPTY_LIST);
      var row := e.(
        title := title, summary := summary, body := body, layer := layer, labels := labels, status := status,
        curationState := curationState, confidence := confidence, stability := stability, audience := audience,
        tags := tags, updatedBy := OrElse(p.updatedBy, "api"));
      r := if CheckEntry(row) then Ok(row) else Err(CONSTRAINT);
    }

    method UpdateEntryBySlug(slug: string, p: EntryPayload) returns (err: Option<Failure>)
      requires UniqueEntrySlugs(entries)
      modifies this
      ensures Tables() == Commit(old(Tables()), UpdateEntryChange(old(Tables()), slug, p))
      ensures err == UpdateEntryChange(old(Tables()), slug, p).Verdict()
    {
      var found := FindEntry(slug);
      if found.None? { return Some(NotFound); }
      var id := found.value;
      var merged := MergeEntry(entries[id], p);
      if merged.Err? { return Some(merged.error); }
      ghost var saved := Tables();
      var row := merged.value;
      entries := entries[id := row];
      RefreshEntryFts(id, slug, row.title, row.summary, row.body, row.tags);
      var event := EntryEvent(id, ActRelabel, Actor(OrElse(p.updatedBy, "api"), OrElse(p.reason, "entry updated")));
      var eventId := LogCuration(event);
      EntryWriteRefines(saved, id, row, [], event);
      err := None;
    }

    /** Archive and supersede go through the update handler. Without other keys in the payload they
        change the status and the editor, and nothing that is indexed. */
    method StatusEntry(slug: string, p: EntryPayload, actor: Field<string>, status: EntryStatus, text: string)
      returns (err: Option<Failure>)
      requires UniqueEntrySlugs(entries) && EntryChecksPass(entries) && entryTexts == EntryTexts(entries)
      requires status == Archived || status == SupersededEntry
      modifies this
      ensures Tables() == Commit(old(Tables()), UpdateEntryChange(old(Tables()), slug, StatusPayload(p, actor, status, text)))
      ensures err == UpdateEntryChange(old(Tables()), slug, StatusPayload(p, actor, status, text)).Verdict()
      ensures OnlyStatus(p) ==> (err == if SlugTaken(old(entries), slug) then None else Some(NotFound))
      ensures OnlyStatus(p) ==> entryTexts == old(entryTexts) && entries.Keys == old(entries).Keys
      ensures OnlyStatus(p) ==> forall id :: id in entries ==>
        entries[id] == if old(entries)[id].slug != slug then old(entries)[id]
                       else old(entries)[id].(status := status, updatedBy := OrElse(actor, "api"))
    {
      StatusKeepsTheRest(Tables(), slug, p, actor, status, text);
      err := UpdateEntryBySlug(slug, p.(status := Val(status), updatedBy := Val(OrElse(actor, "api")), reason := Val(OrElse(p.reason, text))));
    }

    /** The curation endpoint writes the status alone and leaves the index as it is. */
    method CurationSupersedeEntry(slug: string, who: ActorFields) returns (err: Option<Failure>)
      requires UniqueEntrySlugs(entries) && entryTexts == EntryTexts(entries)
      modifies this
      ensures Tables() == Commit(old(Tables()), SupersedeEntryChange(old(Tables()), slug, who))
      ensures err == SupersedeEntryChange(old(Tables()), slug, who).Verdict()
    {
      var actor := RequireActorReason(who);
      if actor.Err? { return Some(actor.error); }
      var found := FindEntry(slug);
      if found.None? { return Some(NotFound); }
      var id := found.value;
      ghost var saved := Tables();
      var row := entries[id].(status := SupersededEntry, updatedBy := actor.value.name);
      entries := entries[id := row];
      var event := EntryEvent(id, ActSupersede, actor.value);
      var eventId := LogCuration(event);
      EntryWriteRefines(saved, id, row, [], event);
      assert entryTexts == saved.entryTexts[id := TextOfEntry(row)];
      err := None;
    }

    // ---- Handlers: topic graph and source references.

    method FindNode(slug: string) returns (id: Option<int>)
      requires UniqueNodeSlugs(nodes)
      ensures id == NodeBySlug(nodes, slug)
    {
      if NodeSlugTaken(nodes, slug) {
        var k :| k in nodes && nodes[k].slug == slug;
        return Some(k);
      }
      id := None;
    }

    method CreateNodeRow(f: NodeFields) returns (err: Option<Failure>)
      modifies this`nodes, this`nodeTexts
      ensures Tables() == Commit(old(Tables()), CreateNodeChange(old(Tables()), f))
      ensures err == CreateNodeChange(old(Tables()), f).Verdict()
    {
      if !f.slug.Val? || !f.title.Val? || !f.restPasses || !CheckLabels(NewLabels(f.labels)) { return Some(CONSTRAINT); }
      if NodeSlugTaken(nodes, f.slug.value) { return Some(Duplicate); }
      ghost var saved := Tables();
      var id := FreshId(nodes.Keys);
      var creator := OrElse(f.createdBy, "api");
      nodes := nodes[id := Node(f.slug.value, f.title.value, OrElse(f.summary, ""), NewLabels(f.labels), creator,
                                OrElse(f.updatedBy, creator))];
      RefreshNodeFts(id, OrElse(f.slug, ""), OrElse(f.title, ""), OrElse(f.summary, ""));
      NodeWriteRefines(saved, id, nodes[id], nodeTexts[id], []);
      err := None;
    }

    method UpdateNodeBySlug(slug: string, f: NodeFields) returns (err: Option<Failure>)
      requires UniqueNodeSlugs(nodes)
      modifies this`nodes, this`nodeTexts, this`events
      ensures Tables() == Commit(old(Tables()), UpdateNodeChange(old(Tables()), slug, f))
      ensures err == UpdateNodeChange(old(Tables()), slug, f).Verdict()
    {
      var found := FindNode(slug);
      if found.None? { return Some(NotFound); }
      var id := found.value;
      var merged := UpdatedNode(nodes[id], f);
      if merged.Err? { return Some(merged.error); }
      ghost var saved := Tables();
      nodes := nodes[id := merged.value];
      RefreshNodeFts(id, OverlayText(slug, f.slug, ""), merged.value.title, merged.value.summary);
      var event := CurationEvent(None, None, Some(id), None, ActRelabel, OrElse(f.updatedBy, "api"),
                                 OrElse(f.reason, "node updated"), OtherBefore, OtherAfter);
      var eventId := LogCuration(event);
      NodeWriteRefines(saved, id, nodes[id], nodeTexts[id], [event]);
      err := None;
    }

    method CreateEdgeRow(f: EdgeFields) returns (err: Option<Failure>)
      modifies this`edges, this`events
      ensures Tables() == Commit(old(Tables()), CreateEdgeChange(old(Tables()), f))
      ensures err == CreateEdgeChange(old(Tables()), f).Verdict()
    {
      if !f.source.Val? || !f.target.Val? || !f.relation.Val? { return Some(CONSTRAINT); }
      if f.relation.value.OtherRelation? || OrElse(f.status, ActiveEdge).OtherEdgeStatus? { return Some(CONSTRAINT); }
      var edge := Edge(f.source.value, f.target.value, f.relation.value, OrElse(f.priority, 0), OrElse(f.conditionHash, ""),
                       OrElse(f.status, ActiveEdge), OrElse(f.createdBy, "api"));
      if LinkTaken(edges, edge) { return Some(Duplicate); }
      if edge.source !in nodes || edge.target !in nodes { return Some(CONSTRAINT); }
      ghost var saved := Tables();
      var id := FreshId(edges.Keys);
      edges := edges[id := edge];
      var event := CurationEvent(None, None, None, Some(id), ActLink, OrElse(f.createdBy, "api"),
                                 OrElse(f.reason, "edge created"), NothingBefore, OtherAfter);
      var eventId := LogCuration(event);
      EdgeWriteRefines(saved, id, edge, event);
      err := None;
    }

    method ClearEdge(id: int)
      modifies this`events
      ensures events == Unlinked(old(events), {id})
    {
      for k := 0 to |events|
        invariant |events| == |old(events)|
        invariant forall j :: 0 <= j < k ==> events[j] == Unlinked(old(events), {id})[j]
        invariant forall j :: k <= j < |events| ==> events[j] == old(events)[j]
      {
        if events[k].edge == Some(id) {
          events := events[k := events[k].(edge := None)];
        }
      }
    }

    /** Deleting an edge; the foreign key clears its id from the events, the new one included. */
    method DeleteEdgeRow(id: int, who: ActorFields) returns (err: Option<Failure>)
      modifies this`edges, this`events
      ensures Tables() == Commit(old(Tables()), DeleteEdgeChange(old(Tables()), id, who))
      ensures err == DeleteEdgeChange(old(Tables()), id, who).Verdict()
    {
      if id !in edges { return Some(NotFound); }
      ghost var saved := Tables();
      var event := CurationEvent(None, None, None, Some(id), ActUnlink, OrElse(who.actor, "api"),
                                 OrElse(who.reason, "edge deleted"), OtherBefore, NothingAfter);
      var eventId := LogCuration(event);
      edges := edges - {id};
      ClearEdge(id);
      EdgeDropRefines(saved, id, event);
      err := None;
    }

    method CurationLinkEdge(f: EdgeFields, who: ActorFields) returns (err: Option<Failure>)
      modifies this`edges, this`events
      ensures Tables() == Commit(old(Tables()), LinkEdgeChange(old(Tables()), f, who))
      ensures err == LinkEdgeChange(old(Tables()), f, who).Verdict()
    {
      var actor := RequireActorReason(who);
      if actor.Err? { return Some(actor.error); }
      err := CreateEdgeRow(f.(createdBy := Val(actor.value.name), reason := Val(actor.value.reason)));
    }

    method CurationUnlinkEdge(id: int, who: ActorFields) returns (err: Option<Failure>)
      modifies this`edges, this`events
      ensures Tables() == Commit(old(Tables()), UnlinkEdgeChange(old(Tables()), id, who))
      ensures err == UnlinkEdgeChange(old(Tables()), id, who).Verdict()
    {
      var actor := RequireActorReason(who);
      if actor.Err? { return Some(actor.error); }
      err := DeleteEdgeRow(id, ActorFields(Val(actor.value.name), Val(actor.value.reason)));
    }

    method AttachSourceRef(f: RefFields, target: Field<TargetKind>, targetId: Field<int>, actor: Field<string>) returns (err: Option<Failure>)
      modifies this`refs
      ensures Tables() == Commit(old(Tables()), AttachRefChange(old(Tables()), f, target, targetId, actor))
      ensures err == AttachRefChange(old(Tables()), f, target, targetId, actor).Verdict()
    {
      if !target.Val? || !targetId.Val? || !f.kind.Val? || !f.sourceId.Val? { return Some(CONSTRAINT); }
      var row := NewRef(f, target.value, targetId.value, OrElse(actor, "api"), "", f.sourceId.value);
      if !CheckRef(row) { return Some(CONSTRAINT); }
      refs := refs + [row];
      ApplyFrame(old(Tables()), NOTHING.(refs := [row]));
      err := None;
    }

    // ---- The index doctor.

    /** The drift checks, one table at a time; a well-formed database has no issue. */
    method FtsDriftIssues() returns (issues: seq<DriftIssue>)
      ensures issues == [] <==>
        entryTexts.Keys == entries.Keys && candidateTexts.Keys == candidates.Keys && nodeTexts.Keys == nodes.Keys
      ensures forall i :: i in issues ==> i.missing != {} || i.extra != {}
      ensures Valid() ==> issues == []
    {
      issues := [];
      var checks := [("memory_entries", entries.Keys, entryTexts.Keys),
                     ("memory_candidates", candidates.Keys, candidateTexts.Keys),
                     ("topic_nodes", nodes.Keys, nodeTexts.Keys)];
      for k := 0 to |checks|
        invariant issues == [] <==> forall j :: 0 <= j < k ==> checks[j].1 == checks[j].2
        invariant forall i :: i in issues ==> i.missing != {} || i.extra != {}
      {
        var (table, ids, indexed) := checks[k];
        var missing, extra := ids - indexed, indexed - ids;
        if missing != {} || extra != {} {
          issues := issues + [DriftIssue(table, missing, extra)];
          assert ids != indexed;
        } else {
          assert ids == indexed;
        }
      }
      assert checks[0].1 == entries.Keys && checks[1].1 == candidates.Keys && checks[2].1 == nodes.Keys;
    }

    // ---- The router: every request is one atomic step that keeps the tables well formed.

    method HandleInsertion(r: Request) returns (err: Option<Failure>)
      requires r.CreateCandidate? || r.CaptureMemory? || r.Split? || r.Merge?
      modifies this
      ensures Answers(old(Tables()), ChangeOf(old(Tables()), r), Tables(), err)
    {
      ghost var db := Tables();
      match r {
        case CreateCandidate(f, log, why) =>
          err := CreateCandidateRow(f, log, why);
          Settle(db, r, CreateCandidateChange(db, f, log, why), Tables(), err);
        case CaptureMemory(p) =>
          err := CaptureMemoryRequest(p);
          Settle(db, r, CaptureChange(db, p), Tables(), err);
        case Split(id, fragments, who) =>
          err := SplitCandidateById(id, fragments, who);
          Settle(db, r, SplitChange(db, id, fragments, who), Tables(), err);
        case Merge(ids, f, who) =>
          err := MergeCandidatesByIds(ids, f, who);
          Settle(db, r, MergeChange(db, ids, f, who), Tables(), err);
      }
    }

    method HandleCandidate(r: Request) returns (err: Option<Failure>)
      requires r.PatchStatus? || r.Claim? || r.Reject? || r.Promote? || r.Relabel? || r.Rescope?
      modifies this
      ensures Answers(old(Tables()), ChangeOf(old(Tables()), r), Tables(), err)
    {
      ghost var db := Tables();
      match r {
        case PatchStatus(id, status, who) =>
          err := UpdateCandidateStatus(id, status, who);
          Settle(db, r, PatchStatusChange(db, id, status, who), Tables(), err);
        case Claim(id, who) =>
          err := ClaimCandidate(id, who);
          Settle(db, r, ClaimChange(db, id, who), Tables(), err);
        case Reject(id, who) =>
          err := RejectCandidateById(id, who);
          Settle(db, r, RejectChange(db, id, who), Tables(), err);
        case Promote(id, f, who) =>
          err := PromoteCandidateById(id, f, who);
          Settle(db, r, PromoteChange(db, id, f, who), Tables(), err);
        case Relabel(id, f, who) =>
          err := RelabelCandidateById(id, f, who);
          Settle(db, r, RelabelChange(db, id, f, who), Tables(), err);
        case Rescope(id, f, who) =>
          err := RescopeCandidateById(id, f, who);
          Settle(db, r, RescopeChange(db, id, f, who), Tables(), err);
      }
    }

    method HandleProposal(r: Request) returns (err: Option<Failure>)
      requires r.CreateProposal?
      modifies this
      ensures Answers(old(Tables()), ChangeOf(old(Tables()), r), Tables(), err)
    {
      ghost var db := Tables();
      var id := CreateCurationProposal(r.proposal);
      err := id.Verdict();
      Settle(db, r, CreateProposalChange(db, r.proposal), Tables(), err);
    }

    method HandleApply(r: Request) returns (err: Option<Failure>)
      requires r.ApplyProposal?
      modifies this
      ensures Answers(old(Tables()), ChangeOf(old(Tables()), r), Tables(), err)
    {
      ghost var db := Tables();
      err := ApplyCurationProposal(r.id, r.who);
      Settle(db, r, ApplyProposalChange(db, r.id, r.who), Tables(), err);
    }

    method HandleMark(r: Request) returns (err: Option<Failure>)
      requires r.RejectProposal? || r.DeferProposal?
      modifies this
      ensures Answers(old(Tables()), ChangeOf(old(Tables()), r), Tables(), err)
    {
      ghost var db := Tables();
      var status := if r.RejectProposal? then RejectedProposal else Deferred;
      err := MarkCurationProposal(r.id, status, r.who);
      Settle(db, r, MarkProposalChange(db, r.id, status, r.who), Tables(), err);
    }

    method HandleEntry(r: Request) returns (err: Option<Failure>)
      requires r.CreateEntry? || r.UpdateEntry? || r.SupersedeEntryBySlug?
      requires UniqueEntrySlugs(entries) && entryTexts == EntryTexts(entries)
      modifies this
      ensures Answers(old(Tables()), ChangeOf(old(Tables()), r), Tables(), err)
    {
      ghost var db := Tables();
      match r {
        case CreateEntry(p) =>
          err := CreateEntryRow(p);
          Settle(db, r, CreateEntryChange(db, p), Tables(), err);
        case UpdateEntry(slug, p) =>
          err := UpdateEntryBySlug(slug, p);
          Settle(db, r, UpdateEntryChange(db, slug, p), Tables(), err);
        case SupersedeEntryBySlug(slug, who) =>
          err := CurationSupersedeEntry(slug, who);
          Settle(db, r, SupersedeEntryChange(db, slug, who), Tables(), err);
      }
    }

    method HandleNode(r: Request) returns (err: Option<Failure>)
      requires r.CreateNode? || r.UpdateNode? || r.AttachRef?
      requires UniqueNodeSlugs(nodes)
      modifies this
      ensures Answers(old(Tables()), ChangeOf(old(Tables()), r), Tables(), err)
    {
      ghost var db := Tables();
      match r {
        case CreateNode(f) =>
          err := CreateNodeRow(f);
          Settle(db, r, CreateNodeChange(db, f), Tables(), err);
        case UpdateNode(slug, f) =>
          err := UpdateNodeBySlug(slug, f);
          Settle(db, r, UpdateNodeChange(db, slug, f), Tables(), err);
        case AttachRef(f, target, targetId, actor) =>
          err := AttachSourceRef(f, target, targetId, actor);
          Settle(db, r, AttachRefChange(db, f, target, targetId, actor), Tables(), err);
      }
    }

    method HandleEdge(r: Request) returns (err: Option<Failure>)
      requires r.CreateEdge? || r.DeleteEdge?
      modifies this
      ensures Answers(old(Tables()), ChangeOf(old(Tables()), r), Tables(), err)
    {
      ghost var db := Tables();
      match r {
        case CreateEdge(f) =>
          err := CreateEdgeRow(f);
          Settle(db, r, CreateEdgeChange(db, f), Tables(), err);
        case DeleteEdge(id, who) =>
          err := DeleteEdgeRow(id, who);
          Settle(db, r, DeleteEdgeChange(db, id, who), Tables(), err);
      }
    }

    method HandleCurationEdge(r: Request) returns (err: Option<Failure>)
      requires r.LinkEdge? || r.UnlinkEdge?
      modifies this
      ensures Answers(old(Tables()), ChangeOf(old(Tables()), r), Tables(), err)
    {
      ghost var db := Tables();
      match r {
        case LinkEdge(f, who) =>
          err := CurationLinkEdge(f, who);
          Settle(db, r, LinkEdgeChange(db, f, who), Tables(), err);
        case UnlinkEdge(id, who) =>
          err := CurationUnlinkEdge(id, who);
          Settle(db, r, UnlinkEdgeChange(db, id, who), Tables(), err);
      }
    }

    method Route(r: Request) returns (err: Option<Failure>)
      requires Valid()
      modifies this
      ensures Answers(old(Tables()), ChangeOf(old(Tables()), r), Tables(), err)
    {
      if r.CreateCandidate? || r.CaptureMemory? || r.Split? || r.Merge? { err := HandleInsertion(r); }
      else if r.PatchStatus? || r.Claim? || r.Reject? || r.Promote? || r.Relabel? || r.Rescope? { err := HandleCandidate(r); }
      else if r.CreateProposal? { err := HandleProposal(r); }
      else if r.ApplyProposal? { err := HandleApply(r); }
      else if r.RejectProposal? || r.DeferProposal? { err := HandleMark(r); }
      else if r.CreateEntry? || r.UpdateEntry? || r.SupersedeEntryBySlug? { err := HandleEntry(r); }
      else if r.CreateNode? || r.UpdateNode? || r.AttachRef? { err := HandleNode(r); }
      else if r.CreateEdge? || r.DeleteEdge? { err := HandleEdge(r); }
      else { err := HandleCurationEdge(r); }
    }

    method Handle(r: Request) returns (err: Option<Failure>)
      requires Valid()
      modifies this
      ensures Tables() == Step(old(Tables()), r)
      ensures err == ChangeOf(old(Tables()), r).Verdict()
      ensures Valid()
    {
      err := Route(r);
      StepKeepsWellFormed(old(Tables()), r);
    }
  }
}
