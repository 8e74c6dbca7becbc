/** Properties of every run of the service: what the curation log says about the candidates,
    and what it takes to reach policy strength or to be promoted twice. */
module Runs {
  import opened Base
  import opened Schema
  import opened Rows
  import opened Capture
  import opened Changes
  import opened WellFormed
  import opened History

  /** The databases of a run from the empty one, one request at a time. */
  ghost predicate IsRun(dbs: seq<Db>, requests: seq<Request>) {
    && |dbs| == |requests| + 1
    && dbs[0] == EMPTY_DB
    && forall k | 0 <= k < |requests| :: dbs[k + 1] == Step(dbs[k], requests[k])
  }

  // ---- The state invariants.

  /** Every mentioned candidate equals its last snapshot; the others are pending. */
  ghost predicate Replays(db: Db) {
    && (forall id :: LastSnapshot(db.events, id).Some? ==>
          id in db.candidates && db.candidates[id] == LastSnapshot(db.events, id).value)
    && (forall id :: id in db.candidates && LastSnapshot(db.events, id).None? ==> db.candidates[id].status == Pending)
  }

  ghost predicate Raised(events: seq<CurationEvent>, id: int) {
    exists k | 0 <= k < |events| :: Raises(events[k], id)
  }

  /** Policy strength always has a relabel or rescope event behind it. */
  ghost predicate PolicyIsBacked(db: Db) {
    forall id :: id in db.candidates && db.candidates[id].labels.claim.Policy? ==> Raised(db.events, id)
  }

  ghost predicate ReopenedBetween(events: seq<CurationEvent>, id: int, from: int, to: int) {
    exists k | 0 <= k < |events| :: from < k < to && Reopens(events[k], id)
  }

  /** A promoted candidate is open again only after a reopening event. */
  ghost predicate PromotionsClose(db: Db) {
    forall i, id :: 0 <= i < |db.events| && Promotes(db.events[i], id) ==>
      id in db.candidates && (Open(db.candidates[id].status) ==> ReopenedBetween(db.events, id, i, |db.events|))
  }

  /** Two promotions of one candidate have a reopening event between them. */
  ghost predicate PromotionsAlternate(events: seq<CurationEvent>) {
    forall i, j, id :: 0 <= i < j < |events| && Promotes(events[i], id) && Promotes(events[j], id) ==>
      ReopenedBetween(events, id, i, j)
  }

  ghost predicate LogInvariant(db: Db) {
    Replays(db) && PolicyIsBacked(db) && PromotionsClose(db) && PromotionsAlternate(db.events)
  }

  // ---- Each lawful change keeps them.

  lemma LastSnapshotAfter(db: Db, c: Change, id: int)
    requires |c.events| <= 1
    ensures LastSnapshot(Apply(db, c).events, id) ==
      if |c.events| == 1 && Find(Mentions(c.events[0].after), id).Some? then Find(Mentions(c.events[0].after), id)
      else LastSnapshot(db.events, id)
  {
    var all := db.events + c.events;
    UnlinkingKeepsSnapshots(all, c.droppedEdges, id);
    if |c.events| == 1 {
      assert all[..|all| - 1] == db.events;
    } else {
      assert all == db.events;
    }
  }

  lemma LawfulKeepsReplay(db: Db, c: Change)
    requires Replays(db) && Lawful(db, c)
    ensures Replays(Apply(db, c))
  {
    var after := Apply(db, c);
    forall id
      ensures LastSnapshot(after.events, id).Some? ==>
        id in after.candidates && after.candidates[id] == LastSnapshot(after.events, id).value
      ensures id in after.candidates && LastSnapshot(after.events, id).None? ==> after.candidates[id].status == Pending
    {
      LastSnapshotAfter(db, c, id);
    }
  }

  lemma UnlinkedKeepsTheRest(events: seq<CurationEvent>, gone: set<int>, k: int)
    requires 0 <= k < |events|
    ensures Unlinked(events, gone)[k].(edge := None) == events[k].(edge := None)
  {
  }

  /** Events keep everything but the edge ids that were deleted. */
  lemma EventsAfter(db: Db, c: Change)
    ensures |Apply(db, c).events| == |db.events| + |c.events|
    ensures forall k :: 0 <= k < |db.events| ==> Apply(db, c).events[k].(edge := None) == db.events[k].(edge := None)
    ensures forall k :: 0 <= k < |c.events| ==>
      Apply(db, c).events[|db.events| + k].(edge := None) == c.events[k].(edge := None)
  {
    var all := db.events + c.events;
    forall k | 0 <= k < |all|
      ensures Apply(db, c).events[k].(edge := None) == all[k].(edge := None)
    {
      UnlinkedKeepsTheRest(all, c.droppedEdges, k);
    }
    forall k | 0 <= k < |c.events|
      ensures Apply(db, c).events[|db.events| + k].(edge := None) == c.events[k].(edge := None)
    {
      assert all[|db.events| + k] == c.events[k];
    }
  }

  lemma SameUpToEdge(a: CurationEvent, b: CurationEvent, id: int)
    requires a.(edge := None) == b.(edge := None)
    ensures Raises(a, id) == Raises(b, id) && Reopens(a, id) == Reopens(b, id) && Promotes(a, id) == Promotes(b, id)
  {
    assert a.after == b.after && a.before == b.before && a.action == b.action && a.candidate == b.candidate;
    assert a.actor == b.actor && a.reason == b.reason;
  }

  /** The event at position k of the log after a change is an old one or the new one, for every purpose here. */
  lemma EventAt(db: Db, c: Change, k: int, id: int)
    requires 0 <= k < |Apply(db, c).events|
    ensures var e := (db.events + c.events)[k]; var a := Apply(db, c).events[k];
      Raises(a, id) == Raises(e, id) && Reopens(a, id) == Reopens(e, id) && Promotes(a, id) == Promotes(e, id)
  {
    EventsAfter(db, c);
    SameUpToEdge(Apply(db, c).events[k], (db.events + c.events)[k], id);
  }

  lemma LawfulKeepsPolicyBacked(db: Db, c: Change)
    requires PolicyIsBacked(db) && Lawful(db, c)
    ensures PolicyIsBacked(Apply(db, c))
  {
    var after := Apply(db, c);
    forall id | id in after.candidates && after.candidates[id].labels.claim.Policy?
      ensures Raised(after.events, id)
    {
      if id in db.candidates && db.candidates[id].labels.claim.Policy? {
        var k :| 0 <= k < |db.events| && Raises(db.events[k], id);
        EventAt(db, c, k, id);
        assert Raises(after.events[k], id);
      } else {
        EventAt(db, c, |db.events|, id);
        assert Raises(after.events[|db.events|], id);
      }
    }
  }

  lemma ReopenedStays(db: Db, c: Change, id: int, from: int, to: int)
    requires ReopenedBetween(db.events, id, from, to)
    ensures ReopenedBetween(Apply(db, c).events, id, from, to)
  {
    var k :| 0 <= k < |db.events| && from < k < to && Reopens(db.events[k], id);
    EventAt(db, c, k, id);
    assert Reopens(Apply(db, c).events[k], id);
  }

  lemma LawfulKeepsPromotionsClosed(db: Db, c: Change)
    requires PromotionsClose(db) && Lawful(db, c)
    ensures PromotionsClose(Apply(db, c))
  {
    var after := Apply(db, c);
    forall i, id | 0 <= i < |after.events| && Promotes(after.events[i], id)
      ensures id in after.candidates && (Open(after.candidates[id].status) ==> ReopenedBetween(after.events, id, i, |after.events|))
    {
      EventAt(db, c, i, id);
      if i < |db.events| && Open(after.candidates[id].status) {
        if Open(db.candidates[id].status) {
          ReopenedStays(db, c, id, i, |db.events|);
          var k :| 0 <= k < |after.events| && i < k < |db.events| && Reopens(after.events[k], id);
          assert i < k < |after.events|;
        } else {
          EventAt(db, c, |db.events|, id);
          assert Reopens(after.events[|db.events|], id);
        }
      }
    }
  }

  lemma LawfulKeepsAlternation(db: Db, c: Change)
    requires PromotionsAlternate(db.events) && PromotionsClose(db) && Lawful(db, c)
    ensures PromotionsAlternate(Apply(db, c).events)
  {
    var after := Apply(db, c);
    forall i, j, id | 0 <= i < j < |after.events| && Promotes(after.events[i], id) && Promotes(after.events[j], id)
      ensures ReopenedBetween(after.events, id, i, j)
    {
      EventAt(db, c, i, id);
      EventAt(db, c, j, id);
      if j < |db.events| {
        ReopenedStays(db, c, id, i, j);
      } else {
        assert Promotes(db.events[i], id);
        ReopenedStays(db, c, id, i, |db.events|);
      }
    }
  }

  lemma StepKeepsLogInvariant(db: Db, r: Request)
    requires LogInvariant(db)
    ensures LogInvariant(Step(db, r))
  {
    if ChangeOf(db, r).Ok? {
      var c := ChangeOf(db, r).value;
      ChangesAreLawful(db, r);
      LawfulKeepsReplay(db, c);
      LawfulKeepsPolicyBacked(db, c);
      LawfulKeepsPromotionsClosed(db, c);
      LawfulKeepsAlternation(db, c);
    }
  }

  // ---- Over whole runs.

  /** Every reachable database is well formed and satisfies the log invariant: promotions of one
      candidate alternate with reopenings, and policy strength is backed by an event. */
  lemma {:induction false} RunsKeepInvariants(dbs: seq<Db>, requests: seq<Request>, k: int)
    requires IsRun(dbs, requests) && 0 <= k < |dbs|
    ensures WellFormed.WellFormed(dbs[k]) && LogInvariant(dbs[k])
    decreases k
  {
    if k == 0 {
      EmptyIsWellFormed();
    } else {
      RunsKeepInvariants(dbs, requests, k - 1);
      StepKeepsWellFormed(dbs[k - 1], requests[k - 1]);
      StepKeepsLogInvariant(dbs[k - 1], requests[k - 1]);
    }
  }

  /** Each candidate's row when it first appears. */
  ghost function Births(dbs: seq<Db>): map<int, Candidate> {
    if dbs == [] then map[]
    else dbs[|dbs| - 1].candidates + Births(dbs[..|dbs| - 1])
  }

  /** Replaying the log: the last snapshot of each candidate, or its birth row if there is none. */
  ghost function Replay(births: map<int, Candidate>, events: seq<CurationEvent>): map<int, Candidate> {
    map id | id in births ::
      if LastSnapshot(events, id).Some? then LastSnapshot(events, id).value else births[id]
  }

  /** A request that logs nothing about a candidate leaves its row alone, and rows never go away. */
  lemma UnmentionedStays(db: Db, r: Request, id: int)
    requires Replays(db) && id in db.candidates
    ensures id in Step(db, r).candidates
    ensures LastSnapshot(Step(db, r).events, id).None? ==>
      LastSnapshot(db.events, id).None? && Step(db, r).candidates[id] == db.candidates[id]
  {
    if ChangeOf(db, r).Ok? {
      ChangesAreLawful(db, r);
      LastSnapshotAfter(db, ChangeOf(db, r).value, id);
    }
  }

  /** One more step: `births` explains the rows before it. */
  lemma BirthsOfStep(db: Db, r: Request, births: map<int, Candidate>)
    requires Replays(db)
    requires births.Keys == db.candidates.Keys
    requires forall id :: id in births && LastSnapshot(db.events, id).None? ==> db.candidates[id] == births[id]
    ensures var after := Step(db, r);
      && (after.candidates + births).Keys == after.candidates.Keys
      && (forall id :: id in after.candidates && LastSnapshot(after.events, id).None? ==>
            after.candidates[id] == (after.candidates + births)[id])
  {
    var after := Step(db, r);
    forall id | id in births
      ensures id in after.candidates
      ensures LastSnapshot(after.events, id).None? ==> after.candidates[id] == births[id]
    {
      UnmentionedStays(db, r, id);
    }
  }

  lemma RunReplays(dbs: seq<Db>, requests: seq<Request>, k: int)
    requires IsRun(dbs, requests) && 0 <= k < |dbs|
    ensures Replays(dbs[k])
  {
    RunsKeepInvariants(dbs, requests, k);
  }

  lemma {:induction false} BirthsOfRun(dbs: seq<Db>, requests: seq<Request>, k: int)
    requires IsRun(dbs, requests) && 0 <= k < |dbs|
    ensures Births(dbs[..k + 1]).Keys == dbs[k].candidates.Keys
    ensures forall id :: id in dbs[k].candidates && LastSnapshot(dbs[k].events, id).None? ==>
      dbs[k].candidates[id] == Births(dbs[..k + 1])[id]
    decreases k
  {
    assert dbs[..k + 1][..k] == dbs[..k];
    if k == 0 {
      assert Births(dbs[..0]) == map[];
    } else {
      BirthsOfRun(dbs, requests, k - 1);
      RunReplays(dbs, requests, k - 1);
      BirthsOfStep(dbs[k - 1], requests[k - 1], Births(dbs[..k]));
    }
  }

  /** In every reachable state, replaying the curation log over the birth rows rebuilds the
      candidate table exactly. */
  lemma ReplayRebuildsCandidates(dbs: seq<Db>, requests: seq<Request>, k: int)
    requires IsRun(dbs, requests) && 0 <= k < |dbs|
    ensures dbs[k].candidates == Replay(Births(dbs[..k + 1]), dbs[k].events)
  {
    RunReplays(dbs, requests, k);
    BirthsOfRun(dbs, requests, k);
  }

  // ---- Without the status PATCH no candidate returns to pending.

  lemma ReviseSetsStatus(db: Db, id: int, u: CandidateUpdate, action: Action, who: Actor)
    requires ReviseCandidate(db, id, u, action, who).Ok?
    ensures var c := ReviseCandidate(db, id, u, action, who).value;
      c.candidates.Keys == {id} && c.candidates[id].status == OrElse(u.status, db.candidates[id].status)
  {
  }

  lemma PromotionSetsStatus(db: Db, id: int, f: EntryFields, who: Actor)
    requires PromoteStored(db, id, f, who).Ok?
    ensures var c := PromoteStored(db, id, f, who).value; c.candidates.Keys == {id} && c.candidates[id].status == Promoted
  {
  }

  lemma ApplyDoesNotReturn(db: Db, pid: int, who: ActorFields, id: int)
    requires ApplyProposalChange(db, pid, who).Ok?
    requires id in db.candidates && db.candidates[id].status != Pending
    ensures var c := ApplyProposalChange(db, pid, who).value; id in c.candidates ==> c.candidates[id].status != Pending
  {
    var p := db.proposals[pid];
    var actor := RequireActorReason(who).value;
    var cid := Unique(PositiveIds(p.candidateIds))[0];
    if p.kind == PromoteCandidate {
      AppliedIsPromoted(db, cid, ProposalPayload(p), actor);
      PromotionSetsStatus(db, cid, ProposalPayload(p), actor);
    } else {
      ReviseSetsStatus(db, cid, StatusUpdate(Val(Rejected), actor.name), ActReject, actor);
    }
  }

  lemma RevisionDoesNotReturn(db: Db, r: Request, id: int)
    requires r.Claim? || r.Reject? || r.Promote? || r.Relabel? || r.Rescope?
    requires ChangeOf(db, r).Ok?
    requires id in db.candidates && db.candidates[id].status != Pending
    ensures var c := ChangeOf(db, r).value; id in c.candidates ==> c.candidates[id].status != Pending
  {
    var who := RequireActorReason(r.who).value;
    match r {
      case Claim(k, _) => ReviseSetsStatus(db, k, StatusUpdate(Val(Claimed), who.name), ActClaim, who);
      case Reject(k, _) => ReviseSetsStatus(db, k, StatusUpdate(Val(Rejected), who.name), ActReject, who);
      case Promote(k, f, _) => PromotionSetsStatus(db, k, f, who);
      case Relabel(k, f, _) => ReviseSetsStatus(db, k, RelabelUpdate(f, who.name), ActRelabel, who);
      case Rescope(k, f, _) => ReviseSetsStatus(db, k, RescopeUpdate(f, who.name), ActRescope, who);
    }
  }

  lemma CreationDoesNotReturn(db: Db, f: CandidateFields, log: LogFields, why: Field<string>, id: int)
    requires CreateCandidateChange(db, f, log, why).Ok? && id in db.candidates
    ensures id !in CreateCandidateChange(db, f, log, why).value.candidates
  {
  }

  lemma CaptureDoesNotReturn(db: Db, p: CapturePayload, id: int)
    requires CaptureChange(db, p).Ok? && id in db.candidates
    ensures id !in CaptureChange(db, p).value.candidates
  {
    CaptureTouchesOnly(db, p);
  }

  lemma RestructuringDoesNotReturn(db: Db, r: Request, id: int)
    requires r.Split? || r.Merge?
    requires ChangeOf(db, r).Ok?
    requires id in db.candidates && db.candidates[id].status != Pending
    ensures var c := ChangeOf(db, r).value; id in c.candidates ==> c.candidates[id].status != Pending
  {
    match r {
      case Split(k, fragments, who) =>
        RowsFromKeys(NextId(db.candidates.Keys),
                     FragmentRows(db.candidates[k], fragments, RequireActorReason(who).value.name).value);
      case Merge(_, _, _) =>
    }
  }

  /** A row of an old candidate that a change writes is not pending, unless it is a status PATCH. */
  lemma WritesNothingPending(db: Db, r: Request, id: int)
    requires !r.PatchStatus? && ChangeOf(db, r).Ok?
    requires id in db.candidates && db.candidates[id].status != Pending
    ensures var c := ChangeOf(db, r).value; id in c.candidates ==> c.candidates[id].status != Pending
  {
    if AboutProposals(r) {
      ProposalChangesAreQuiet(db, r);
    } else if AboutEntries(r) {
      EntryChangesAreQuiet(db, r);
    } else if AboutGraph(r) {
      GraphChangesAreQuiet(db, r);
    } else if r.ApplyProposal? {
      ApplyDoesNotReturn(db, r.id, r.who, id);
    } else if r.CreateCandidate? {
      CreationDoesNotReturn(db, r.candidate, r.log, r.why, id);
    } else if r.CaptureMemory? {
      CaptureDoesNotReturn(db, r.capture, id);
    } else if r.Split? || r.Merge? {
      RestructuringDoesNotReturn(db, r, id);
    } else {
      RevisionDoesNotReturn(db, r, id);
    }
  }

  lemma OnlyThePatchReturns(db: Db, r: Request, id: int)
    requires !r.PatchStatus? && ChangeOf(db, r).Ok?
    requires id in db.candidates && db.candidates[id].status != Pending
    ensures Step(db, r).candidates[id].status != Pending
  {
    WritesNothingPending(db, r, id);
  }

  /** Over any stretch of a run without a status PATCH, a candidate that is not pending stays so. */
  lemma {:induction false} NoReturnToPending(dbs: seq<Db>, requests: seq<Request>, i: int, j: int, id: int)
    requires IsRun(dbs, requests) && 0 <= i <= j < |dbs|
    requires forall k :: i <= k < j ==> !requests[k].PatchStatus?
    requires id in dbs[i].candidates && dbs[i].candidates[id].status != Pending
    ensures id in dbs[j].candidates && dbs[j].candidates[id].status != Pending
    decreases j
  {
    if i < j {
      NoReturnToPending(dbs, requests, i, j - 1, id);
      assert !requests[j - 1].PatchStatus?;
      if ChangeOf(dbs[j - 1], requests[j - 1]).Ok? {
        OnlyThePatchReturns(dbs[j - 1], requests[j - 1], id);
      }
    }
  }

  // ---- The theorems a reader asks for by name.

  /** Between any two promote events of one candidate lies a claim event for it or a status
      PATCH that put it back to pending or claimed. */
  lemma PromotedAgainOnlyAfterReopening(dbs: seq<Db>, requests: seq<Request>, k: int, i: int, j: int, id: int)
    requires IsRun(dbs, requests) && 0 <= k < |dbs|
    requires 0 <= i < j < |dbs[k].events|
    requires Promotes(dbs[k].events[i], id) && Promotes(dbs[k].events[j], id)
    ensures exists m | 0 <= m < |dbs[k].events| :: i < m < j && Reopens(dbs[k].events[m], id)
  {
    RunsKeepInvariants(dbs, requests, k);
    assert ReopenedBetween(dbs[k].events, id, i, j);
  }

  /** A candidate of policy strength was raised to it by a relabel or rescope event of a named
      actor for a stated reason. */
  lemma PolicyNeedsARaise(dbs: seq<Db>, requests: seq<Request>, k: int, id: int)
    requires IsRun(dbs, requests) && 0 <= k < |dbs|
    requires id in dbs[k].candidates && dbs[k].candidates[id].labels.claim.Policy?
    ensures exists m | 0 <= m < |dbs[k].events| :: Raises(dbs[k].events[m], id)
  {
    RunsKeepInvariants(dbs, requests, k);
    assert Raised(dbs[k].events, id);
  }
}
