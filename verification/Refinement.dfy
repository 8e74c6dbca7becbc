/** What the statements of the handlers leave, and why that is what the changes of their
    specifications leave. */
module Refinement {
  import opened Base
  import opened Schema
  import opened Rows
  import opened Capture
  import opened Changes
  import opened WellFormed

  // ---- Sequences and maps.

  lemma {:induction false} RefObjectsSnoc(items: seq<RefItem>, x: RefItem)
    ensures RefObjects(items + [x]) == RefObjects(items) + (if x.RefObject? then [x.fields] else [])
  {
    assert (items + [x])[..|items|] == items;
  }

  /** The rows of one more item: one more if it is an object, otherwise the same. */
  lemma RefRowsSnoc(items: seq<RefItem>, i: nat, target: TargetKind, targetId: int, actor: string, summary: string, sourceId: string)
    requires i < |items|
    ensures RefRows(items[..i + 1], target, targetId, actor, summary, sourceId) ==
      if items[i].RefObject? then
        RefRows(items[..i], target, targetId, actor, summary, sourceId)
        + [NewRef(items[i].fields, target, targetId, actor, summary, sourceId)]
      else RefRows(items[..i], target, targetId, actor, summary, sourceId)
  {
    RefObjectsSnoc(items[..i], items[i]);
    assert items[..i + 1] == items[..i] + [items[i]];
  }

  lemma OneMoreRef(before: seq<SourceRef>, rows: seq<SourceRef>, row: SourceRef)
    requires RefsPass(rows) && CheckRef(row)
    ensures RefsPass(rows + [row])
    ensures (before + rows) + [row] == before + (rows + [row])
    ensures IdsAfter(|before|, |rows|) + [|before| + |rows| + 1] == IdsAfter(|before|, |rows| + 1)
  {
  }

  /** A row that fails its CHECK in a prefix of a reference list fails the whole list. */
  lemma {:induction false} PrefixFails(items: seq<RefItem>, n: int, target: TargetKind, targetId: int, actor: string,
                                       summary: string, sourceId: string)
    requires 0 <= n <= |items|
    requires !RefsPass(RefRows(items[..n], target, targetId, actor, summary, sourceId))
    ensures !RefsPass(RefRows(items, target, targetId, actor, summary, sourceId))
    decreases |items| - n
  {
    if n < |items| {
      RefObjectsSnoc(items[..n], items[n]);
      assert items[..n + 1] == items[..n] + [items[n]];
      var some := RefRows(items[..n], target, targetId, actor, summary, sourceId);
      var more := RefRows(items[..n + 1], target, targetId, actor, summary, sourceId);
      assert some == more[..|some|];
      var r :| r in some && !CheckRef(r);
      assert r in more;
      PrefixFails(items, n + 1, target, targetId, actor, summary, sourceId);
    } else {
      assert items[..n] == items;
    }
  }

  lemma PlusNothing<K, V>(m: map<K, V>)
    ensures m + map[] == m && m - {} == m
  {
  }

  lemma PutIsPlus<V>(m: map<int, V>, id: int, v: V)
    ensures m + map[id := v] == m[id := v]
  {
  }

  lemma PlusPut<V>(m: map<int, V>, d: map<int, V>, id: int, v: V)
    ensures (m + d)[id := v] == m + d[id := v]
  {
  }

  lemma PutPlus<V>(m: map<int, V>, d: map<int, V>, id: int, v: V)
    requires id !in d
    ensures m + d[id := v] == m[id := v] + d
  {
  }

  lemma Overwrite<V>(m: map<int, V>, id: int, first: V, second: V)
    ensures m[id := first][id := second] == m[id := second]
  {
  }

  lemma UnlinkNothing(events: seq<CurationEvent>)
    ensures Unlinked(events, {}) == events
  {
  }

  lemma TextsPut(rows: map<int, Candidate>, id: int, c: Candidate)
    ensures CandidateTexts(rows[id := c]) == CandidateTexts(rows)[id := TextOfCandidate(c)]
  {
  }

  // ---- What a change leaves of each table.

  /** Parts of a change that are empty leave their tables as they were. */
  lemma ApplyFrame(db: Db, c: Change)
    ensures c.candidates == map[] ==>
      Apply(db, c).candidates == db.candidates && Apply(db, c).candidateTexts == db.candidateTexts
    ensures c.entries == map[] ==> Apply(db, c).entries == db.entries && Apply(db, c).entryTexts == db.entryTexts
    ensures c.nodes == map[] ==> Apply(db, c).nodes == db.nodes
    ensures c.nodeTexts == map[] ==> Apply(db, c).nodeTexts == db.nodeTexts
    ensures c.edges == map[] && c.droppedEdges == {} ==> Apply(db, c).edges == db.edges
    ensures c.droppedEdges == {} ==> Apply(db, c).events == db.events + c.events
    ensures c.proposals == map[] ==> Apply(db, c).proposals == db.proposals
  {
    assert CandidateTexts(map[]) == map[];
    assert EntryTexts(map[]) == map[];
    PlusNothing(db.candidates);
    PlusNothing(db.candidateTexts);
    PlusNothing(db.entries);
    PlusNothing(db.entryTexts);
    PlusNothing(db.nodes);
    PlusNothing(db.nodeTexts);
    PlusNothing(db.edges);
    PlusNothing(db.proposals);
    UnlinkNothing(db.events + c.events);
  }

  /** Writing one row is a one-row change, and its index row follows. */
  lemma ApplyOneRow(db: Db, c: Change, id: int)
    ensures c.candidates.Keys == {id} ==>
      Apply(db, c).candidates == db.candidates[id := c.candidates[id]]
      && Apply(db, c).candidateTexts == db.candidateTexts[id := TextOfCandidate(c.candidates[id])]
  {
    if c.candidates.Keys == {id} {
      assert CandidateTexts(c.candidates).Keys == {id};
      assert Apply(db, c).candidates == db.candidates[id := c.candidates[id]];
      assert Apply(db, c).candidateTexts == db.candidateTexts[id := TextOfCandidate(c.candidates[id])];
    }
  }

  lemma ApplyOneEntry(db: Db, c: Change, id: int)
    ensures c.entries.Keys == {id} ==>
      Apply(db, c).entries == db.entries[id := c.entries[id]]
      && Apply(db, c).entryTexts == db.entryTexts[id := TextOfEntry(c.entries[id])]
  {
    if c.entries.Keys == {id} {
      assert EntryTexts(c.entries).Keys == {id};
      assert Apply(db, c).entries == db.entries[id := c.entries[id]];
      assert Apply(db, c).entryTexts == db.entryTexts[id := TextOfEntry(c.entries[id])];
    }
  }

  /** Setting only the status changes only the status and the last writer. */
  lemma StatusUpdateSets(c: Candidate, status: CandidateStatus, actor: string)
    ensures UpdatedCandidate(c, StatusUpdate(Val(status), actor)) ==
      var row := c.(status := status, updatedBy := actor); if CheckCandidate(row) then Ok(row) else Err(CONSTRAINT)
  {
  }

  /** One candidate row and one event. */
  lemma ReviseRefines(db: Db, id: int, row: Candidate, event: CurationEvent)
    ensures Apply(db, NOTHING.(candidates := map[id := row], events := [event])) ==
      db.(candidates := db.candidates[id := row], candidateTexts := db.candidateTexts[id := TextOfCandidate(row)],
          events := db.events + [event])
  {
    var c := NOTHING.(candidates := map[id := row], events := [event]);
    ApplyFrame(db, c);
    ApplyOneRow(db, c, id);
  }

  lemma RevisionRefines(db: Db, id: int, u: CandidateUpdate, action: Action, who: Actor, row: Candidate)
    requires id in db.candidates && UpdatedCandidate(db.candidates[id], u) == Ok(row)
    ensures ReviseCandidate(db, id, u, action, who).Ok?
    ensures Commit(db, ReviseCandidate(db, id, u, action, who)) ==
      db.(candidates := db.candidates[id := row], candidateTexts := db.candidateTexts[id := TextOfCandidate(row)],
          events := db.events + [CandidateEvent(id, action, who, db.candidates[id], row)])
  {
    ReviseRefines(db, id, row, CandidateEvent(id, action, who, db.candidates[id], row));
  }

  lemma ReviseShape(db: Db, id: int, u: CandidateUpdate, action: Action, who: Actor)
    requires ReviseCandidate(db, id, u, action, who).Ok?
    ensures var c := ReviseCandidate(db, id, u, action, who).value;
      && c.proposals == map[] && |c.events| == 1 && c.entries == map[]
      && Apply(db, c).proposals == db.proposals && |Apply(db, c).events| == |db.events| + 1
  {
    ApplyFrame(db, ReviseCandidate(db, id, u, action, who).value);
  }

  lemma LoggedChange(db: Db, c: Change, captures: seq<CaptureEvent>)
    requires c.captures == []
    ensures Apply(db, c.(captures := captures)) == Apply(db, c).(captures := db.captures + captures)
  {
  }

  lemma ProposalWriteRefines(db: Db, c: Change, id: int, p: Proposal)
    requires c.proposals == map[]
    ensures Apply(db, c.(proposals := map[id := p])) == Apply(db, c).(proposals := db.proposals[id := p])
  {
    var d := c.(proposals := map[id := p]);
    assert d.candidates == c.candidates && d.entries == c.entries && d.nodes == c.nodes && d.nodeTexts == c.nodeTexts;
    assert d.edges == c.edges && d.droppedEdges == c.droppedEdges;
    assert d.refs == c.refs && d.events == c.events && d.captures == c.captures;
    PutIsPlus(db.proposals, id, p);
  }

  lemma CreatedProposalRefines(db: Db, f: ProposalFields)
    requires ProposalVerdict(db.candidates, db.entries, f).None?
    ensures CreateProposalChange(db, f).Ok?
    ensures Commit(db, CreateProposalChange(db, f)) == db.(proposals := db.proposals[NextId(db.proposals.Keys) := NewProposal(f)])
  {
    ApplyFrame(db, NOTHING);
    ProposalWriteRefines(db, NOTHING, NextId(db.proposals.Keys), NewProposal(f));
  }

  lemma EntryWriteRefines(db: Db, id: int, entry: Entry, rows: seq<SourceRef>, event: CurationEvent)
    ensures Apply(db, NOTHING.(entries := map[id := entry], refs := rows, events := [event])) ==
      db.(entries := db.entries[id := entry], entryTexts := db.entryTexts[id := TextOfEntry(entry)],
          refs := db.refs + rows, events := db.events + [event])
  {
    var c := NOTHING.(entries := map[id := entry], refs := rows, events := [event]);
    ApplyFrame(db, c);
    ApplyOneEntry(db, c, id);
  }

  lemma NodeWriteRefines(db: Db, id: int, node: Node, text: NodeText, events: seq<CurationEvent>)
    ensures Apply(db, NOTHING.(nodes := map[id := node], nodeTexts := map[id := text], events := events)) ==
      db.(nodes := db.nodes[id := node], nodeTexts := db.nodeTexts[id := text], events := db.events + events)
  {
    var c := NOTHING.(nodes := map[id := node], nodeTexts := map[id := text], events := events);
    ApplyFrame(db, c);
    assert db.nodes + c.nodes == db.nodes[id := node];
    assert db.nodeTexts + c.nodeTexts == db.nodeTexts[id := text];
  }

  lemma EdgeWriteRefines(db: Db, id: int, edge: Edge, event: CurationEvent)
    ensures Apply(db, NOTHING.(edges := map[id := edge], events := [event])) ==
      db.(edges := db.edges[id := edge], events := db.events + [event])
  {
    ApplyFrame(db, NOTHING.(edges := map[id := edge], events := [event]));
    assert (db.edges + map[id := edge]) - {} == db.edges[id := edge];
  }

  lemma EdgeDropRefines(db: Db, id: int, event: CurationEvent)
    ensures Apply(db, NOTHING.(droppedEdges := {id}, events := [event])) ==
      db.(edges := db.edges - {id}, events := Unlinked(db.events + [event], {id}))
  {
    ApplyFrame(db, NOTHING.(droppedEdges := {id}, events := [event]));
    assert (db.edges + map[]) - {id} == db.edges - {id};
  }

  // ---- Promotions.

  /** Why a promotion to `entry` is refused, if it is. */
  ghost function PromotionVerdict(db: Db, c: Candidate, refId: Option<int>, entry: Entry, who: Actor): Option<Failure> {
    var verdict := EntryVerdict(db.entries, entry);
    if verdict.Some? then verdict
    else if !RefsPass(PromotedRefs(c, refId, NextId(db.entries.Keys), who)) then Some(CONSTRAINT)
    else UpdatedCandidate(c, StatusUpdate(Val(Promoted), who.name)).Verdict()
  }

  /** The database after the statements of a promotion: entry, references, candidate, event. */
  ghost function AfterPromotion(db: Db, id: int, c: Candidate, refId: Option<int>, entry: Entry, who: Actor, logged: Before): Db
    requires PromotionVerdict(db, c, refId, entry, who).None?
  {
    var entryId := NextId(db.entries.Keys);
    var rows := PromotedRefs(c, refId, entryId, who);
    var row := UpdatedCandidate(c, StatusUpdate(Val(Promoted), who.name)).value;
    db.(candidates := db.candidates[id := row], candidateTexts := db.candidateTexts[id := TextOfCandidate(row)],
        entries := db.entries[entryId := entry], entryTexts := db.entryTexts[entryId := TextOfEntry(entry)],
        refs := db.refs + rows,
        events := db.events + [EventOfPromotion(id, who, logged, row, entryId, entry, IdsAfter(|db.refs|, |rows|))])
  }

  /** The statements after the entry insert: references, candidate and event, or why they are refused. */
  ghost predicate Finished(db: Db, id: int, c: Candidate, refId: Option<int>, entryId: int, entry: Entry, who: Actor, logged: Before,
                           now: Db, err: Option<Failure>)
  {
    var rows := PromotedRefs(c, refId, entryId, who);
    var row := UpdatedCandidate(c, StatusUpdate(Val(Promoted), who.name));
    if !RefsPass(rows) then err == Some(CONSTRAINT)
    else if row.Err? then err == Some(row.error)
    else
      && err == None
      && now == db.(
           candidates := db.candidates[id := row.value], candidateTexts := db.candidateTexts[id := TextOfCandidate(row.value)],
           refs := db.refs + rows,
           events := db.events + [EventOfPromotion(id, who, logged, row.value, entryId, entry, IdsAfter(|db.refs|, |rows|))])
  }

  lemma FinishedIsPromoted(db: Db, inserted: Db, id: int, c: Candidate, refId: Option<int>, entry: Entry, who: Actor, logged: Before,
                           now: Db, err: Option<Failure>)
    requires EntryVerdict(db.entries, entry).None?
    requires inserted == db.(entries := db.entries[NextId(db.entries.Keys) := entry],
                             entryTexts := db.entryTexts[NextId(db.entries.Keys) := TextOfEntry(entry)])
    requires Finished(inserted, id, c, refId, NextId(db.entries.Keys), entry, who, logged, now, err)
    ensures err == PromotionVerdict(db, c, refId, entry, who)
    ensures err.None? ==> now == AfterPromotion(db, id, c, refId, entry, who, logged)
  {
  }

  lemma PromotionRowsApply(db: Db, id: int, row: Candidate, entryId: int, entry: Entry, rows: seq<SourceRef>, event: CurationEvent)
    ensures Apply(db, PromotionRows(id, row, entryId, entry, rows, event)) ==
      db.(candidates := db.candidates[id := row], candidateTexts := db.candidateTexts[id := TextOfCandidate(row)],
          entries := db.entries[entryId := entry], entryTexts := db.entryTexts[entryId := TextOfEntry(entry)],
          refs := db.refs + rows, events := db.events + [event])
  {
    var change := PromotionRows(id, row, entryId, entry, rows, event);
    ApplyFrame(db, change);
    ApplyOneRow(db, change, id);
    ApplyOneEntry(db, change, entryId);
  }

  lemma PromotionRefines(db: Db, id: int, c: Candidate, refId: Option<int>, entry: Entry, who: Actor, logged: Before)
    ensures var change := PromotionTo(db, id, c, refId, entry, who, logged);
      && change.Verdict() == PromotionVerdict(db, c, refId, entry, who)
      && (change.Ok? ==> Apply(db, change.value) == AfterPromotion(db, id, c, refId, entry, who, logged))
  {
    if PromotionTo(db, id, c, refId, entry, who, logged).Ok? {
      var entryId := NextId(db.entries.Keys);
      var rows := PromotedRefs(c, refId, entryId, who);
      var row := UpdatedCandidate(c, StatusUpdate(Val(Promoted), who.name)).value;
      PromotionRowsApply(db, id, row, entryId, entry, rows,
                         EventOfPromotion(id, who, logged, row, entryId, entry, IdsAfter(|db.refs|, |rows|)));
    }
  }

  /** The effect of a proposal was carried out, with the id of the entry it made, or refused. */
  ghost predicate Effected(db: Db, effect: Result<Change>, r: Result<Option<int>>, now: Db) {
    && r.Verdict() == effect.Verdict()
    && (r.Ok? ==>
          && now == Apply(db, effect.value) && |now.events| == |db.events| + 1 && effect.value.proposals == map[]
          && r.value == if effect.value.entries == map[] then None else Some(NextId(db.entries.Keys)))
  }

  /** Why the apply statements refuse to make `entry` of a promotable candidate, if they do. */
  ghost function AppliedRefusal(db: Db, id: int, before: Candidate, entry: Entry, who: Actor): Option<Failure> {
    var rows := RefRows(RefItems(before), EntryTarget, NextId(db.entries.Keys), who.name, before.summary, Decimal(id));
    if EntryVerdict(db.entries, entry).Some? then EntryVerdict(db.entries, entry)
    else if !RefsPass(rows) || !CheckCandidate(before.(status := Promoted, updatedBy := who.name)) then Some(CONSTRAINT)
    else None
  }

  /** The database after the apply statements. */
  ghost function AfterApplied(db: Db, id: int, before: Candidate, entry: Entry, who: Actor): Db {
    var entryId := NextId(db.entries.Keys);
    var rows := RefRows(RefItems(before), EntryTarget, entryId, who.name, before.summary, Decimal(id));
    var after := before.(status := Promoted, updatedBy := who.name);
    db.(candidates := db.candidates[id := after], candidateTexts := db.candidateTexts[id := TextOfCandidate(after)],
        entries := db.entries[entryId := entry], entryTexts := db.entryTexts[entryId := TextOfEntry(entry)],
        refs := db.refs + rows,
        events := db.events + [CurationEvent(
          Some(id), Some(entryId), None, None, ActPromote, who.name, who.reason, CandidatesBefore([Snapshot(id, before)]),
          OfPromotion(Snapshot(id, after), entryId, entry, IdsAfter(|db.refs|, |rows|)))])
  }

  /** Refusals and rows of the apply statements are those of the change AppliedPromotion describes. */
  lemma AppliedRefines(db: Db, id: int, f: EntryFields, who: Actor)
    requires id in db.candidates && (db.candidates[id].status == Pending || db.candidates[id].status == Claimed)
    ensures var before := db.candidates[id];
      var entry := PromotedEntry(before, Some(id), f, who.name);
      var change := AppliedPromotion(db, id, f, who);
      && change.Verdict() == AppliedRefusal(db, id, before, entry, who)
      && (change.Ok? ==> Effected(db, change, Ok(Some(NextId(db.entries.Keys))), AfterApplied(db, id, before, entry, who)))
  {
    if AppliedPromotion(db, id, f, who).Ok? {
      var before := db.candidates[id];
      var entryId := NextId(db.entries.Keys);
      var entry := PromotedEntry(before, Some(id), f, who.name);
      var rows := RefRows(RefItems(before), EntryTarget, entryId, who.name, before.summary, Decimal(id));
      var after := before.(status := Promoted, updatedBy := who.name);
      var event := CurationEvent(
        Some(id), Some(entryId), None, None, ActPromote, who.name, who.reason, CandidatesBefore([Snapshot(id, before)]),
        OfPromotion(Snapshot(id, after), entryId, entry, IdsAfter(|db.refs|, |rows|)));
      var change := PromotionRows(id, after, entryId, entry, rows, event);
      assert IdsAfter(|db.refs|, |rows|) == seq(|rows|, i requires 0 <= i < |rows| => |db.refs| + 1 + i);
      assert AppliedPromotion(db, id, f, who) == Ok(change);
      assert entryId in change.entries;
      PromotionRowsApply(db, id, after, entryId, entry, rows, event);
    }
  }

  // ---- Captures.

  /** The database after a candidate was inserted and capture events logged. */
  function AfterCapture(db: Db, id: int, row: Candidate, captures: seq<CaptureEvent>): Db {
    db.(candidates := db.candidates[id := row], candidateTexts := db.candidateTexts[id := TextOfCandidate(row)],
        captures := db.captures + captures)
  }

  lemma CaptureRefines(db: Db, id: int, row: Candidate, captures: seq<CaptureEvent>)
    ensures Apply(db, CapturedRows(id, row, captures)) == AfterCapture(db, id, row, captures)
  {
    ApplyFrame(db, CapturedRows(id, row, captures));
    ApplyOneRow(db, CapturedRows(id, row, captures), id);
  }

  /** The outcome of an auto-promotion: the database and the reported failure. */
  ghost function AfterAutoPromotion(
    db: Db, p: CapturePayload, id: int, row: Candidate, entry: Entry, who: Actor, event: CaptureEvent): (Db, Option<Failure>)
  {
    var refused := EntryVerdict(db.entries, entry);
    if refused.Some? then (AfterCapture(db, id, row, [event, ErroredRow(p, refused.value)]), None)
    else
      var verdict := PromotionVerdict(db, row, None, entry, who);
      if verdict.Some? then (db, verdict)
      else (AfterPromotion(db, id, row, None, entry, who, PayloadBefore(row)).(captures := db.captures + [event]), None)
  }

  lemma AutoPromotionRefines(db: Db, p: CapturePayload, id: int, row: Candidate, entry: Entry, who: Actor, event: CaptureEvent)
    ensures var change := AutoPromotionTo(db, p, id, row, entry, who, event);
      AfterAutoPromotion(db, p, id, row, entry, who, event) == (Commit(db, change), change.Verdict())
  {
    var refused := EntryVerdict(db.entries, entry);
    if refused.Some? {
      CaptureRefines(db, id, row, [event, ErroredRow(p, refused.value)]);
    } else {
      PromotionRefines(db, id, row, None, entry, who, PayloadBefore(row));
      var change := PromotionTo(db, id, row, None, entry, who, PayloadBefore(row));
      if change.Ok? {
        LoggedChange(db, change.value, [event]);
      }
    }
  }

  lemma ErroredRowPasses(p: CapturePayload, decision: Decision, reason: string, ids: seq<int>, e: Failure)
    requires CheckCapture(DecisionRow(p, decision, reason, ids, -1))
    ensures CheckCapture(ErroredRow(p, e))
  {
  }

  // ---- Splits.

  lemma {:induction false} FragmentFailure(c: Candidate, fragments: seq<Option<CandidateFields>>, n: int, actor: string)
    requires 0 <= n <= |fragments| && FragmentRows(c, fragments[..n], actor).Err?
    ensures FragmentRows(c, fragments, actor) == FragmentRows(c, fragments[..n], actor)
    decreases |fragments| - n
  {
    if n < |fragments| {
      assert fragments[..n + 1][..n] == fragments[..n];
      FragmentFailure(c, fragments, n + 1, actor);
    } else {
      assert fragments[..n] == fragments;
    }
  }

  /** Ids handed out one after the other are consecutive. */
  lemma NextIdAfterRows(candidates: map<int, Candidate>, rows: seq<Candidate>)
    ensures var first := NextId(candidates.Keys);
      NextId((candidates + RowsFrom(first, rows)).Keys) == first + |rows|
  {
    var first := NextId(candidates.Keys);
    var all := (candidates + RowsFrom(first, rows)).Keys;
    RowsFromKeys(first, rows);
    if rows == [] {
      assert all == candidates.Keys;
    } else {
      assert first + |rows| - 1 in all;
      NextIdIs(all, first + |rows|);
    }
  }

  lemma SplitRefines(db: Db, id: int, original: Candidate, rows: seq<Candidate>, event: CurationEvent)
    requires id in db.candidates
    ensures var first := NextId(db.candidates.Keys);
      var c := NOTHING.(candidates := RowsFrom(first, rows)[id := original], events := [event]);
      Apply(db, c) == db.(
        candidates := (db.candidates + RowsFrom(first, rows))[id := original],
        candidateTexts := (db.candidateTexts + CandidateTexts(RowsFrom(first, rows)))[id := TextOfCandidate(original)],
        events := db.events + [event])
  {
    var rest := RowsFrom(NextId(db.candidates.Keys), rows);
    ApplyFrame(db, NOTHING.(candidates := rest[id := original], events := [event]));
    PlusPut(db.candidates, rest, id, original);
    TextsPut(rest, id, original);
    PlusPut(db.candidateTexts, CandidateTexts(rest), id, TextOfCandidate(original));
  }

  function SplitEvent(id: int, who: Actor, before: Candidate, original: Candidate, parts: seq<Snapshot>): CurationEvent {
    CurationEvent(Some(id), None, None, None, ActSplit, who.name, who.reason,
                  CandidatesBefore([Snapshot(id, before)]), OfSplit(Snapshot(id, original), parts))
  }

  /** What a split leaves once its parts are accepted, or why the original's update refuses it. */
  lemma SplitLeaves(db: Db, id: int, rows: seq<Candidate>, who: Actor)
    requires id in db.candidates
    ensures var first := NextId(db.candidates.Keys);
      var original := UpdatedCandidate(db.candidates[id], StatusUpdate(Val(NeedsSplit), who.name));
      var split := SplitInto(db, id, rows, who);
      && split.Verdict() == original.Verdict()
      && (if original.Err? then Commit(db, split) == db
          else Commit(db, split) == db.(
            candidates := (db.candidates + RowsFrom(first, rows))[id := original.value],
            candidateTexts := (db.candidateTexts + CandidateTexts(RowsFrom(first, rows)))[id := TextOfCandidate(original.value)],
            events := db.events + [SplitEvent(id, who, db.candidates[id], original.value, SnapshotsFrom(first, rows))]))
  {
    var original := UpdatedCandidate(db.candidates[id], StatusUpdate(Val(NeedsSplit), who.name));
    if original.Ok? {
      SplitRefines(db, id, original.value, rows,
                   SplitEvent(id, who, db.candidates[id], original.value, SnapshotsFrom(NextId(db.candidates.Keys), rows)));
    }
  }

  /** Writing one more row of a block. */
  lemma ExtendRows(candidates: map<int, Candidate>, texts: map<int, CandidateText>, first: int, rows: seq<Candidate>, c: Candidate)
    ensures var more := RowsFrom(first, rows + [c]);
      && (candidates + RowsFrom(first, rows))[first + |rows| := c] == candidates + more
      && (texts + CandidateTexts(RowsFrom(first, rows)))[first + |rows| := TextOfCandidate(c)] == texts + CandidateTexts(more)
  {
    assert (rows + [c])[..|rows|] == rows;
    PlusPut(candidates, RowsFrom(first, rows), first + |rows|, c);
    TextsPut(RowsFrom(first, rows), first + |rows|, c);
    PlusPut(texts, CandidateTexts(RowsFrom(first, rows)), first + |rows|, TextOfCandidate(c));
  }

  /** `rows` were inserted, one after the other, into the tables `candidates0` and `texts0`. */
  ghost predicate Inserted(
    candidates0: map<int, Candidate>, texts0: map<int, CandidateText>, rows: seq<Candidate>,
    candidates: map<int, Candidate>, texts: map<int, CandidateText>, snapshots: seq<Snapshot>)
  {
    var first := NextId(candidates0.Keys);
    && candidates == candidates0 + RowsFrom(first, rows)
    && texts == texts0 + CandidateTexts(RowsFrom(first, rows))
    && snapshots == SnapshotsFrom(first, rows)
  }

  lemma SnapshotsSnoc(first: int, rows: seq<Candidate>, row: Candidate)
    ensures SnapshotsFrom(first, rows + [row]) == SnapshotsFrom(first, rows) + [Snapshot(first + |rows|, row)]
  {
  }

  lemma InsertOneMore(
    candidates0: map<int, Candidate>, texts0: map<int, CandidateText>, rows: seq<Candidate>,
    candidates: map<int, Candidate>, texts: map<int, CandidateText>, snapshots: seq<Snapshot>, id: int, row: Candidate)
    requires Inserted(candidates0, texts0, rows, candidates, texts, snapshots)
    requires id == NextId(candidates.Keys)
    ensures Inserted(candidates0, texts0, rows + [row], candidates[id := row], texts[id := TextOfCandidate(row)],
                     snapshots + [Snapshot(id, row)])
  {
    NextIdAfterRows(candidates0, rows);
    ExtendRows(candidates0, texts0, NextId(candidates0.Keys), rows, row);
    SnapshotsSnoc(NextId(candidates0.Keys), rows, row);
  }

  /** Marking the original once its parts are in the tables. */
  lemma SplitMarks(db: Db, inserted: Db, id: int, rows: seq<Candidate>, parts: seq<Snapshot>, who: Actor)
    requires id in db.candidates && Inserted(db.candidates, db.candidateTexts, rows, inserted.candidates, inserted.candidateTexts, parts)
    requires inserted == db.(candidates := inserted.candidates, candidateTexts := inserted.candidateTexts)
    ensures id in inserted.candidates && inserted.candidates[id] == db.candidates[id]
    ensures var original := UpdatedCandidate(db.candidates[id], StatusUpdate(Val(NeedsSplit), who.name));
      var split := SplitInto(db, id, rows, who);
      && split.Verdict() == original.Verdict()
      && Commit(db, split) ==
           if original.Err? then db
           else inserted.(
             candidates := inserted.candidates[id := original.value],
             candidateTexts := inserted.candidateTexts[id := TextOfCandidate(original.value)],
             events := db.events + [SplitEvent(id, who, db.candidates[id], original.value, parts)])
  {
    RowsFromKeys(NextId(db.candidates.Keys), rows);
    SplitLeaves(db, id, rows, who);
  }

  // ---- Merges.

  lemma MergeTables(db: Db, id: int, merged: Candidate, sources: map<int, Candidate>, c: Change)
    requires id !in sources && c.candidates == sources[id := merged]
    ensures Apply(db, c).candidates == db.candidates[id := merged] + sources
    ensures Apply(db, c).candidateTexts == db.candidateTexts[id := TextOfCandidate(merged)] + CandidateTexts(sources)
  {
    PutPlus(db.candidates, sources, id, merged);
    TextsPut(sources, id, merged);
    PutPlus(db.candidateTexts, CandidateTexts(sources), id, TextOfCandidate(merged));
  }

  lemma MergeRefines(db: Db, id: int, merged: Candidate, sources: map<int, Candidate>, event: CurationEvent)
    requires id !in sources
    ensures var c := NOTHING.(candidates := sources[id := merged], events := [event]);
      Apply(db, c) == db.(
        candidates := db.candidates[id := merged] + sources,
        candidateTexts := db.candidateTexts[id := TextOfCandidate(merged)] + CandidateTexts(sources),
        events := db.events + [event])
  {
    var c := NOTHING.(candidates := sources[id := merged], events := [event]);
    ApplyFrame(db, c);
    MergeTables(db, id, merged, sources, c);
  }

  /** The inserted row is none of the sources. */
  lemma {:induction false} SourcesUntouched(candidates: map<int, Candidate>, ids: seq<int>, id: int, merged: Candidate, actor: string)
    requires AllStored(candidates, ids) && id !in candidates
    ensures AllStored(candidates[id := merged], ids)
    ensures SourcesAfter(candidates[id := merged], ids, actor) == SourcesAfter(candidates, ids, actor)
    ensures SourcesPass(candidates[id := merged], ids, actor) == SourcesPass(candidates, ids, actor)
    ensures id !in SourcesAfter(candidates, ids, actor)
  {
  }

  lemma {:induction false} JoinedRefsSnoc(rows: seq<Candidate>, c: Candidate)
    ensures JoinedRefs(rows + [c]) == JoinedRefs(rows) + RefItems(c)
  {
    assert (rows + [c])[..|rows|] == rows;
  }

  /** The candidates `ids` were marked as merged, one after the other. */
  ghost predicate Marked(
    candidates0: map<int, Candidate>, texts0: map<int, CandidateText>, ids: seq<int>, actor: string,
    candidates: map<int, Candidate>, texts: map<int, CandidateText>, snapshots: seq<Snapshot>)
  {
    && AllStored(candidates0, ids)
    && var done := SourcesAfter(candidates0, ids, actor);
    && candidates == candidates0 + done
    && texts == texts0 + CandidateTexts(done)
    && snapshots == SnapshotsOf(done, ids)
  }

  lemma PassOneMore(candidates: map<int, Candidate>, ids: seq<int>, i: nat, actor: string)
    requires i < |ids| && AllStored(candidates, ids)
    requires SourcesPass(candidates, ids[..i], actor) && CheckCandidate(MarkedMerged(candidates[ids[i]], actor))
    ensures ids[..i + 1] == ids[..i] + [ids[i]]
    ensures SourcesPass(candidates, ids[..i + 1], actor)
  {
  }

  lemma RowsOfOneMore(candidates: map<int, Candidate>, ids: seq<int>, i: nat)
    requires i < |ids| && AllStored(candidates, ids[..i]) && ids[i] in candidates
    ensures AllStored(candidates, ids[..i + 1])
    ensures RowsOf(candidates, ids[..i + 1]) == RowsOf(candidates, ids[..i]) + [candidates[ids[i]]]
  {
    assert ids[..i + 1] == ids[..i] + [ids[i]];
  }

  lemma SourcesAfterOneMore(candidates: map<int, Candidate>, ids: seq<int>, actor: string, id: int)
    requires AllStored(candidates, ids) && id in candidates
    ensures AllStored(candidates, ids + [id])
    ensures SourcesAfter(candidates, ids + [id], actor) == SourcesAfter(candidates, ids, actor)[id := MarkedMerged(candidates[id], actor)]
  {
    assert (ids + [id])[..|ids|] == ids;
  }

  lemma SnapshotsOfOneMore(rows: map<int, Candidate>, ids: seq<int>, id: int, row: Candidate)
    requires AllStored(rows, ids) && (id in rows ==> rows[id] == row)
    ensures AllStored(rows[id := row], ids + [id])
    ensures SnapshotsOf(rows[id := row], ids + [id]) == SnapshotsOf(rows, ids) + [Snapshot(id, row)]
  {
  }

  lemma MarkOneMore(
    candidates0: map<int, Candidate>, texts0: map<int, CandidateText>, ids: seq<int>, actor: string,
    candidates: map<int, Candidate>, texts: map<int, CandidateText>, snapshots: seq<Snapshot>, id: int)
    requires Marked(candidates0, texts0, ids, actor, candidates, texts, snapshots)
    requires id in candidates0
    ensures var row := MarkedMerged(candidates0[id], actor);
      Marked(candidates0, texts0, ids + [id], actor, candidates[id := row], texts[id := TextOfCandidate(row)],
             snapshots + [Snapshot(id, row)])
  {
    var row := MarkedMerged(candidates0[id], actor);
    var done := SourcesAfter(candidates0, ids, actor);
    SourcesAfterOneMore(candidates0, ids, actor, id);
    PlusPut(candidates0, done, id, row);
    TextsPut(done, id, row);
    PlusPut(texts0, CandidateTexts(done), id, TextOfCandidate(row));
    SnapshotsOfOneMore(done, ids, id, row);
  }

  // ---- Archiving and superseding entries.

  /** The payload of an archive or supersede request that asks for nothing else. */
  predicate OnlyStatus(p: EntryPayload) {
    p.fields == NO_OVERRIDES && p.curationState.Absent?
  }

  lemma StatusRow(e: Entry, p: EntryPayload, actor: Field<string>, status: EntryStatus, text: string)
    requires OnlyStatus(p) && CheckEntry(e) && (status == Archived || status == SupersededEntry)
    ensures UpdatedEntry(e, StatusPayload(p, actor, status, text)) == Ok(e.(status := status, updatedBy := OrElse(actor, "api")))
  {
  }

  /** Writing a row with the same text leaves the index as it was. */
  lemma SameTextWritten(db: Db, c: Change, id: int, row: Entry)
    requires id in db.entries && db.entryTexts == EntryTexts(db.entries)
    requires c.entries == map[id := row] && TextOfEntry(row) == TextOfEntry(db.entries[id])
    ensures Apply(db, c).entries == db.entries[id := row] && Apply(db, c).entryTexts == db.entryTexts
  {
    ApplyOneEntry(db, c, id);
  }

  /** Archiving and superseding touch status and editor of the entry with the slug, and nothing else
      of any entry or its index. */
  lemma StatusKeepsTheRest(db: Db, slug: string, p: EntryPayload, actor: Field<string>, status: EntryStatus, text: string)
    requires UniqueEntrySlugs(db.entries) && EntryChecksPass(db.entries) && db.entryTexts == EntryTexts(db.entries)
    requires status == Archived || status == SupersededEntry
    ensures var change := UpdateEntryChange(db, slug, StatusPayload(p, actor, status, text));
      var after := Commit(db, change);
      OnlyStatus(p) ==>
        && change.Verdict() == (if SlugTaken(db.entries, slug) then None else Some(NotFound))
        && after.entryTexts == db.entryTexts && after.entries.Keys == db.entries.Keys
        && forall id :: id in after.entries ==>
             after.entries[id] == if db.entries[id].slug != slug then db.entries[id]
                                  else db.entries[id].(status := status, updatedBy := OrElse(actor, "api"))
  {
    if OnlyStatus(p) && SlugTaken(db.entries, slug) {
      var id := EntryBySlug(db.entries, slug).value;
      var e := db.entries[id];
      StatusRow(e, p, actor, status, text);
      SameTextWritten(db, UpdateEntryChange(db, slug, StatusPayload(p, actor, status, text)).value, id,
                      e.(status := status, updatedBy := OrElse(actor, "api")));
    }
  }

  // ---- Requests.

  /** A request was answered as the change or the refusal c asks. */
  ghost predicate Answers(db: Db, c: Result<Change>, after: Db, err: Option<Failure>) {
    after == Commit(db, c) && err == c.Verdict()
  }

  lemma Settle(db: Db, r: Request, c: Result<Change>, after: Db, err: Option<Failure>)
    requires ChangeOf(db, r) == c && after == Commit(db, c) && err == c.Verdict()
    ensures Answers(db, ChangeOf(db, r), after, err)
  {
  }
}
