/** What every change does to candidates and to the curation log at once; the invariants over
    whole runs are built on it. */
module History {
  import opened Base
  import opened Schema
  import opened Rows
  import opened Capture
  import opened Changes
  import opened WellFormed

  // ---- Reading the log.

  /** The candidate snapshots an event's `after` holds. */
  function Mentions(a: After): seq<Snapshot> {
    match a
    case OfCandidate(c) => [c]
    case OfPromotion(c, _, _, _) => [c]
    case OfSplit(original, parts) => [original] + parts
    case OfMerge(merged, sources) => [merged] + sources
    case _ => []
  }

  function Find(snapshots: seq<Snapshot>, id: int): Option<Candidate> {
    if snapshots == [] then None
    else
      var last := snapshots[|snapshots| - 1];
      if last.id == id then Some(last.row) else Find(snapshots[..|snapshots| - 1], id)
  }

  /** The row of a candidate in the last event that mentions it. */
  function LastSnapshot(events: seq<CurationEvent>, id: int): Option<Candidate> {
    if events == [] then None
    else
      var found := Find(Mentions(events[|events| - 1].after), id);
      if found.Some? then found else LastSnapshot(events[..|events| - 1], id)
  }

  lemma {:induction false} FindAmong(snapshots: seq<Snapshot>, rows: map<int, Candidate>, id: int)
    requires forall s :: s in snapshots ==> s.id in rows && s.row == rows[s.id]
    ensures Find(snapshots, id).Some? <==> exists s :: s in snapshots && s.id == id
    ensures Find(snapshots, id).Some? ==> id in rows && Find(snapshots, id) == Some(rows[id])
  {
    if snapshots != [] {
      var rest, last := snapshots[..|snapshots| - 1], snapshots[|snapshots| - 1];
      assert snapshots == rest + [last];
      FindAmong(rest, rows, id);
    }
  }

  lemma {:induction false} UnlinkingKeepsSnapshots(events: seq<CurationEvent>, gone: set<int>, id: int)
    ensures LastSnapshot(Unlinked(events, gone), id) == LastSnapshot(events, id)
  {
    if events != [] {
      UnlinkingKeepsSnapshots(events[..|events| - 1], gone, id);
      assert Unlinked(events, gone)[..|events| - 1] == Unlinked(events[..|events| - 1], gone);
    }
  }

  // ---- Lawful changes.

  predicate Open(status: CandidateStatus) {
    status == Pending || status == Claimed
  }

  /** The event that raises a candidate to policy strength: a relabel or a rescope of it by a
      named actor for a stated reason. */
  ghost predicate Raises(e: CurationEvent, id: int) {
    && (e.action == ActRelabel || e.action == ActRescope)
    && e.candidate == Some(id) && e.actor != "" && e.reason != ""
    && e.before.CandidatesBefore? && |e.before.rows| == 1 && e.before.rows[0].id == id
    && !e.before.rows[0].row.labels.claim.Policy?
    && e.after.OfCandidate? && e.after.candidate.id == id && e.after.candidate.row.labels.claim.Policy?
  }

  /** A claim of the candidate, or the only relabel that changes a status: the status PATCH. */
  ghost predicate Reopens(e: CurationEvent, id: int) {
    && e.candidate == Some(id)
    && e.before.CandidatesBefore? && |e.before.rows| == 1 && e.before.rows[0].id == id
    && e.after.OfCandidate? && e.after.candidate.id == id
    && Open(e.after.candidate.row.status)
    && (e.action == ActClaim
        || (e.action == ActRelabel && e.before.rows[0].row.status != e.after.candidate.row.status))
  }

  ghost predicate Promotes(e: CurationEvent, id: int) {
    e.action == ActPromote && e.candidate == Some(id)
  }

  /** An existing candidate goes from row `o` to row `n` under event `e`. */
  ghost predicate Moves(o: Candidate, n: Candidate, e: CurationEvent, id: int) {
    && (n.labels.claim.Policy? && !o.labels.claim.Policy? ==> Raises(e, id))
    && (Open(n.status) && !Open(o.status) ==> Reopens(e, id))
    && (Promotes(e, id) ==> Open(o.status) && n.status == Promoted)
  }

  /** The candidates a change writes are those its event records: old rows only together with
      an event, new rows below policy strength and pending unless the event promotes them. */
  ghost predicate Lawful(db: Db, c: Change) {
    && |c.events| <= 1
    && (forall id :: id in c.candidates && id in db.candidates ==>
          |c.events| == 1 && Moves(db.candidates[id], c.candidates[id], c.events[0], id))
    && (forall id :: id in c.candidates && id !in db.candidates ==>
          !c.candidates[id].labels.claim.Policy?
          && (c.candidates[id].status == Pending
              || (|c.events| == 1 && Promotes(c.events[0], id) && c.candidates[id].status == Promoted)))
    && (|c.events| == 1 ==>
          && (forall id :: id in c.candidates ==> Find(Mentions(c.events[0].after), id) == Some(c.candidates[id]))
          && (forall id :: Find(Mentions(c.events[0].after), id).Some? ==> id in c.candidates)
          && (forall id :: Promotes(c.events[0], id) ==> id in c.candidates && c.candidates[id].status == Promoted))
  }

  lemma ReviseIsLawful(db: Db, id: int, u: CandidateUpdate, action: Action, who: Actor)
    requires ReviseCandidate(db, id, u, action, who).Ok?
    requires action != ActPromote
    requires u.labels.claim.Absent? || ((action == ActRelabel || action == ActRescope) && who.name != "" && who.reason != "")
    requires u.status == Val(Claimed) ==> action == ActClaim
    requires u.status == Val(Pending) ==> action == ActRelabel
    ensures Lawful(db, ReviseCandidate(db, id, u, action, who).value)
  {
    var row := UpdatedCandidate(db.candidates[id], u).value;
    forall k
      ensures Find([Snapshot(id, row)], k) == if k == id then Some(row) else None
    {
      FindAmong([Snapshot(id, row)], map[id := row], k);
    }
  }

  lemma PromotionIsLawful(db: Db, id: int, c: Candidate, refId: Option<int>, entry: Entry, who: Actor, before: Before)
    requires if id in db.candidates then db.candidates[id] == c && Open(c.status) else !c.labels.claim.Policy?
    requires PromotionTo(db, id, c, refId, entry, who, before).Ok?
    ensures Lawful(db, PromotionTo(db, id, c, refId, entry, who, before).value)
  {
    var row := UpdatedCandidate(c, StatusUpdate(Val(Promoted), who.name)).value;
    forall k
      ensures Find([Snapshot(id, row)], k) == if k == id then Some(row) else None
    {
      FindAmong([Snapshot(id, row)], map[id := row], k);
    }
  }

  lemma CaptureIsLawful(db: Db, p: CapturePayload, row: Candidate)
    requires row.status == Pending && !row.labels.claim.Policy?
    requires CaptureRowChange(db, p, row).Ok?
    ensures Lawful(db, CaptureRowChange(db, p, row).value)
  {
    var id := NextId(db.candidates.Keys);
    var entry := PromotedEntry(row, None, p.entry, AutoPromoter(p).name);
    if PromotionTo(db, id, row, None, entry, AutoPromoter(p), PayloadBefore(row)).Ok? {
      PromotionIsLawful(db, id, row, None, entry, AutoPromoter(p), PayloadBefore(row));
    }
  }

  /** Snapshots that list exactly the rows of a table, with any repetitions. */
  lemma SnapshotsCover(snapshots: seq<Snapshot>, rows: map<int, Candidate>)
    requires forall s :: s in snapshots ==> s.id in rows && s.row == rows[s.id]
    requires forall id :: id in rows ==> Snapshot(id, rows[id]) in snapshots
    ensures forall id :: Find(snapshots, id) == if id in rows then Some(rows[id]) else None
  {
    forall id
      ensures Find(snapshots, id) == if id in rows then Some(rows[id]) else None
    {
      FindAmong(snapshots, rows, id);
      if id in rows {
        assert Snapshot(id, rows[id]).id == id;
      }
    }
  }

  lemma SplitSnapshots(first: int, rows: seq<Candidate>, id: int, original: Candidate)
    requires id < first
    ensures var table := RowsFrom(first, rows)[id := original];
      var snapshots := [Snapshot(id, original)] + SnapshotsFrom(first, rows);
      forall k :: Find(snapshots, k) == if k in table then Some(table[k]) else None
  {
    RowsFromKeys(first, rows);
    var table := RowsFrom(first, rows)[id := original];
    var snapshots := [Snapshot(id, original)] + SnapshotsFrom(first, rows);
    forall i | 0 <= i < |snapshots|
      ensures snapshots[i].id in table && snapshots[i].row == table[snapshots[i].id]
    {
      if i > 0 {
        assert snapshots[i] == Snapshot(first + (i - 1), rows[i - 1]);
      }
    }
    forall k | k in table
      ensures Snapshot(k, table[k]) in snapshots
    {
      if k == id { assert snapshots[0] == Snapshot(k, table[k]); }
      else { assert snapshots[k - first + 1] == Snapshot(k, table[k]); }
    }
    SnapshotsCover(snapshots, table);
  }

  lemma MergeSnapshots(sources: map<int, Candidate>, ids: seq<int>, id: int, merged: Candidate)
    requires AllStored(sources, ids) && (forall k :: k in sources ==> k in ids) && id !in sources
    ensures var table := sources[id := merged];
      var snapshots := [Snapshot(id, merged)] + SnapshotsOf(sources, ids);
      forall k :: Find(snapshots, k) == if k in table then Some(table[k]) else None
  {
    var table := sources[id := merged];
    var snapshots := [Snapshot(id, merged)] + SnapshotsOf(sources, ids);
    assert forall k :: 0 <= k < |ids| ==> snapshots[k + 1] == Snapshot(ids[k], sources[ids[k]]);
    forall k | k in table
      ensures Snapshot(k, table[k]) in snapshots
    {
      if k == id {
        assert snapshots[0] == Snapshot(k, table[k]);
      } else {
        var j :| 0 <= j < |ids| && ids[j] == k;
        assert snapshots[j + 1] == Snapshot(k, table[k]);
      }
    }
    SnapshotsCover(snapshots, table);
  }

  lemma SplitIsLawful(db: Db, id: int, rows: seq<Candidate>, who: Actor)
    requires id in db.candidates
    requires forall r :: r in rows ==> r.status == Pending && !r.labels.claim.Policy?
    requires SplitInto(db, id, rows, who).Ok?
    ensures Lawful(db, SplitInto(db, id, rows, who).value)
  {
    var first := NextId(db.candidates.Keys);
    RowsFromKeys(first, rows);
    SplitSnapshots(first, rows, id, SplitInto(db, id, rows, who).value.candidates[id]);
  }

  /** What a merge writes about the sources it marks. */
  lemma MarkedMoves(db: Db, ids: seq<int>, actor: string, e: CurationEvent, k: int)
    requires AllStored(db.candidates, ids) && k in SourcesAfter(db.candidates, ids, actor) && e.action == ActMerge
    ensures k in db.candidates && Moves(db.candidates[k], SourcesAfter(db.candidates, ids, actor)[k], e, k)
  {
  }

  lemma MergeIsLawful(db: Db, ids: seq<int>, merged: Candidate, who: Actor)
    requires AllStored(db.candidates, ids)
    requires merged.status == Pending && !merged.labels.claim.Policy?
    requires MergedInto(db, ids, merged, who).Ok?
    ensures Lawful(db, MergedInto(db, ids, merged, who).value)
  {
    var (c, sources) := (MergedInto(db, ids, merged, who).value, SourcesAfter(db.candidates, ids, who.name));
    MergeSnapshots(sources, ids, NextId(db.candidates.Keys), merged);
    forall k | k in c.candidates && k in db.candidates
      ensures Moves(db.candidates[k], c.candidates[k], c.events[0], k)
    {
      MarkedMoves(db, ids, who.name, c.events[0], k);
    }
  }

  /** The change touches no candidate and logs none. */
  predicate Quiet(c: Change) {
    && c.candidates == map[]
    && |c.events| <= 1
    && (|c.events| == 1 ==> c.events[0].candidate.None? && Mentions(c.events[0].after) == [])
  }

  predicate AboutProposals(r: Request) {
    r.CreateProposal? || r.RejectProposal? || r.DeferProposal?
  }

  predicate AboutEntries(r: Request) {
    r.CreateEntry? || r.UpdateEntry? || r.SupersedeEntryBySlug?
  }

  predicate AboutGraph(r: Request) {
    r.CreateNode? || r.UpdateNode? || r.AttachRef? || r.CreateEdge? || r.LinkEdge? || r.DeleteEdge? || r.UnlinkEdge?
  }

  lemma ProposalChangesAreQuiet(db: Db, r: Request)
    requires AboutProposals(r) && ChangeOf(db, r).Ok?
    ensures Quiet(ChangeOf(db, r).value)
  {
  }

  lemma EntryChangesAreQuiet(db: Db, r: Request)
    requires AboutEntries(r) && ChangeOf(db, r).Ok?
    ensures Quiet(ChangeOf(db, r).value)
  {
  }

  lemma NodeChangesAreQuiet(db: Db, r: Request)
    requires r.CreateNode? || r.UpdateNode? || r.AttachRef?
    requires ChangeOf(db, r).Ok?
    ensures Quiet(ChangeOf(db, r).value)
  {
  }

  lemma EdgeChangesAreQuiet(db: Db, r: Request)
    requires r.CreateEdge? || r.LinkEdge? || r.DeleteEdge? || r.UnlinkEdge?
    requires ChangeOf(db, r).Ok?
    ensures Quiet(ChangeOf(db, r).value)
  {
  }

  lemma GraphChangesAreQuiet(db: Db, r: Request)
    requires AboutGraph(r) && ChangeOf(db, r).Ok?
    ensures Quiet(ChangeOf(db, r).value)
  {
    if r.CreateNode? || r.UpdateNode? || r.AttachRef? {
      NodeChangesAreQuiet(db, r);
    } else {
      EdgeChangesAreQuiet(db, r);
    }
  }

  lemma QuietIsLawful(db: Db, c: Change)
    requires Quiet(c)
    ensures Lawful(db, c)
  {
  }

  lemma CandidateChangesAreLawful(db: Db, r: Request)
    requires r.PatchStatus? || r.Claim? || r.Reject? || r.Promote? || r.Relabel? || r.Rescope?
    requires ChangeOf(db, r).Ok?
    ensures Lawful(db, ChangeOf(db, r).value)
  {
    var who := Actor(OrElse(r.who.actor, "api"), OrElse(r.who.reason, "candidate status updated"));
    match r {
      case PatchStatus(id, status, _) =>
        ReviseIsLawful(db, id, StatusUpdate(if status.Val? then status else Null, who.name), PatchAction(status), who);
      case Claim(id, _) => ReviseIsLawful(db, id, StatusUpdate(Val(Claimed), who.name), ActClaim, who);
      case Reject(id, _) => ReviseIsLawful(db, id, StatusUpdate(Val(Rejected), who.name), ActReject, who);
      case Promote(id, f, _) =>
        var c := db.candidates[id];
        PromotionIsLawful(db, id, c, Some(id), PromotedEntry(c, Some(id), f, who.name), who, CandidatesBefore([Snapshot(id, c)]));
      case Relabel(id, f, _) => ReviseIsLawful(db, id, RelabelUpdate(f, who.name), ActRelabel, who);
      case Rescope(id, f, _) => ReviseIsLawful(db, id, RescopeUpdate(f, who.name), ActRescope, who);
    }
  }

  lemma ApplyIsLawful(db: Db, id: int, who: ActorFields)
    requires ApplyProposalChange(db, id, who).Ok?
    ensures Lawful(db, ApplyProposalChange(db, id, who).value)
  {
    var p := db.proposals[id];
    var actor := RequireActorReason(who).value;
    var cid := Unique(PositiveIds(p.candidateIds))[0];
    if p.kind == PromoteCandidate {
      var c := db.candidates[cid];
      AppliedIsPromoted(db, cid, ProposalPayload(p), actor);
      PromotionIsLawful(db, cid, c, Some(cid), PromotedEntry(c, Some(cid), ProposalPayload(p), actor.name), actor,
                        CandidatesBefore([Snapshot(cid, c)]));
    } else {
      ReviseIsLawful(db, cid, StatusUpdate(Val(Rejected), actor.name), ActReject, actor);
    }
  }

  lemma CreationIsLawful(db: Db, f: CandidateFields, log: LogFields, why: Field<string>)
    requires CreateCandidateChange(db, f, log, why).Ok?
    ensures Lawful(db, CreateCandidateChange(db, f, log, why).value)
  {
  }

  lemma DecisionIsLawful(db: Db, p: CapturePayload, decision: Decision, reason: string, size: int)
    requires DecisionChange(p, decision, reason, size).Ok?
    ensures Lawful(db, DecisionChange(p, decision, reason, size).value)
  {
    QuietIsLawful(db, DecisionChange(p, decision, reason, size).value);
  }

  lemma CapturedRowIsOrdinary(p: CapturePayload)
    requires EarlyDecision(p).None?
    ensures NewCandidate(CandidateOf(p)).Ok?
    ensures var row := NewCandidate(CandidateOf(p)).value; row.status == Pending && !row.labels.claim.Policy?
  {
    CapturedTextIsClean(p, None);
  }

  lemma CapturesAreLawful(db: Db, p: CapturePayload)
    requires CaptureChange(db, p).Ok?
    ensures Lawful(db, CaptureChange(db, p).value)
  {
    var early := EarlyDecision(p);
    if early.Some? {
      DecisionIsLawful(db, p, early.value.0, early.value.1, early.value.2);
    } else {
      CapturedRowIsOrdinary(p);
      CaptureIsLawful(db, p, NewCandidate(CandidateOf(p)).value);
    }
  }

  lemma SplitsAreLawful(db: Db, id: int, fragments: seq<Option<CandidateFields>>, who: ActorFields)
    requires SplitChange(db, id, fragments, who).Ok?
    ensures Lawful(db, SplitChange(db, id, fragments, who).value)
  {
    var actor := RequireActorReason(who).value;
    FragmentRowsPass(db.candidates[id], fragments, actor.name);
    SplitIsLawful(db, id, FragmentRows(db.candidates[id], fragments, actor.name).value, actor);
  }

  lemma MergesAreLawful(db: Db, ids: seq<int>, f: CandidateFields, who: ActorFields)
    requires MergeChange(db, ids, f, who).Ok?
    ensures Lawful(db, MergeChange(db, ids, f, who).value)
  {
    var actor := RequireActorReason(who).value;
    MergeIsLawful(db, ids, NewCandidate(MergedFields(RowsOf(db.candidates, ids), f, actor.name)).value, actor);
  }

  lemma ChangesAreLawful(db: Db, r: Request)
    requires ChangeOf(db, r).Ok?
    ensures Lawful(db, ChangeOf(db, r).value)
  {
    if AboutProposals(r) {
      ProposalChangesAreQuiet(db, r);
      QuietIsLawful(db, ChangeOf(db, r).value);
    } else if AboutEntries(r) {
      EntryChangesAreQuiet(db, r);
      QuietIsLawful(db, ChangeOf(db, r).value);
    } else if AboutGraph(r) {
      GraphChangesAreQuiet(db, r);
      QuietIsLawful(db, ChangeOf(db, r).value);
    } else if r.CreateCandidate? {
      CreationIsLawful(db, r.candidate, r.log, r.why);
    } else if r.ApplyProposal? {
      ApplyIsLawful(db, r.id, r.who);
    } else if r.CaptureMemory? {
      CapturesAreLawful(db, r.capture);
    } else if r.Split? {
      SplitsAreLawful(db, r.id, r.fragments, r.who);
    } else if r.Merge? {
      MergesAreLawful(db, r.ids, r.candidate, r.who);
    } else {
      CandidateChangesAreLawful(db, r);
    }
  }
}
