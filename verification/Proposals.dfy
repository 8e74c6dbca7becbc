/** The life of a curation proposal over every run, what proposal traffic leaves alone, and the
    equality of the two ways to promote a candidate. */
module Proposals {
  import opened Base
  import opened Schema
  import opened Rows
  import opened Capture
  import opened Changes
  import opened WellFormed
  import opened History
  import opened Runs
  import Refinement

  /** Everything but the proposals: what recall and the curation handlers read. */
  function Truth(db: Db): Db {
    db.(proposals := map[])
  }

  // ---- What a single proposal row may say.

  /** The proposal was applied by event number `k` of the log, to its only candidate. */
  ghost predicate AppliedBy(db: Db, p: Proposal, k: int) {
    && |p.candidateIds| == 1
    && 1 <= k <= |db.events|
    && var e := db.events[k - 1];
    && e.candidate == Some(p.candidateIds[0])
    && (if p.kind == PromoteCandidate then
          e.action == ActPromote && p.entryId.Some? && p.entryId == e.entry && p.entryId.value in db.entries
        else
          p.kind == RejectCandidate && e.action == ActReject && p.entryId.None?)
  }

  /** A proposal waits without a trace, was decided without one, or was applied with one. */
  ghost predicate ProposalSound(db: Db, p: Proposal) {
    && p.reason != "" && Distinct(p.candidateIds)
    && (forall k :: k in p.candidateIds ==> k > 0 && k in db.candidates)
    && match p.status
       case Proposed => p.eventId.None? && p.entryId.None? && p.appliedBy.None?
       case NeedsHuman => p.eventId.None? && p.entryId.None? && p.appliedBy.None?
       case RejectedProposal => p.eventId.None? && p.entryId.None? && p.appliedBy.Some?
       case Deferred => p.eventId.None? && p.entryId.None? && p.appliedBy.Some?
       case Applied => p.eventId.Some? && p.appliedBy.Some? && AppliedBy(db, p, p.eventId.value)
       case _ => false
  }

  /** Distinct proposals are applied by distinct events and make distinct entries. */
  ghost predicate TracesDistinct(proposals: map<int, Proposal>) {
    forall i, j :: i in proposals && j in proposals && i != j ==>
      && (proposals[i].eventId.Some? ==> proposals[i].eventId != proposals[j].eventId)
      && (proposals[i].entryId.Some? ==> proposals[i].entryId != proposals[j].entryId)
  }

  ghost predicate ProposalInvariant(db: Db) {
    && (forall id :: id in db.proposals ==> ProposalSound(db, db.proposals[id]))
    && TracesDistinct(db.proposals)
  }

  // ---- What a change may do to proposals.

  /** The event that applies a proposal is the one this change appends, and its entry is new. */
  ghost predicate AppliedHere(db: Db, c: Change, p: Proposal) {
    && |c.events| == 1 && c.events[0].edge.None? && p.eventId == Some(|db.events| + 1)
    && |Unique(PositiveIds(p.candidateIds))| == 1
    && c.events[0].candidate == Some(Unique(PositiveIds(p.candidateIds))[0])
    && (if p.kind == PromoteCandidate then
          && c.events[0].action == ActPromote && p.entryId.Some? && p.entryId == c.events[0].entry
          && p.entryId.value in c.entries && p.entryId.value !in db.entries
        else
          p.kind == RejectCandidate && c.events[0].action == ActReject && p.entryId.None?)
  }

  /** At most one proposal is written: a new one that waits, or a waiting one that is decided. */
  ghost predicate Decides(db: Db, c: Change) {
    && (forall i, j :: i in c.proposals && j in c.proposals ==> i == j)
    && (forall id :: id in c.proposals ==>
          var p := c.proposals[id];
          if id in db.proposals then
            var o := db.proposals[id];
            && AwaitsDecision(o) && !AwaitsDecision(p)
            && p.kind == o.kind && p.candidateIds == o.candidateIds && p.reason != "" && p.appliedBy.Some?
            && (p.status == Applied || ((p.status == RejectedProposal || p.status == Deferred)
                                        && p.eventId == o.eventId && p.entryId == o.entryId))
            && (p.status == Applied ==> AppliedHere(db, c, p))
          else
            && AwaitsDecision(p) && p.reason != "" && p.eventId.None? && p.entryId.None? && p.appliedBy.None?
            && Distinct(p.candidateIds) && (forall k :: k in p.candidateIds ==> k > 0 && k in db.candidates))
  }

  lemma {:induction false} PositiveIdsArePositive(ids: seq<int>)
    ensures forall k :: k in PositiveIds(ids) ==> k > 0
  {
    if ids != [] {
      PositiveIdsArePositive(ids[..|ids| - 1]);
    }
  }

  lemma {:induction false} PositiveIdsOfPositive(ids: seq<int>)
    requires forall k :: k in ids ==> k > 0
    ensures PositiveIds(ids) == ids
  {
    if ids != [] {
      var rest := ids[..|ids| - 1];
      assert ids == rest + [ids[|ids| - 1]] && ids[|ids| - 1] in ids;
      forall k | k in rest
        ensures k > 0
      {
        assert k in ids;
      }
      PositiveIdsOfPositive(rest);
    }
  }

  lemma CreationDecides(db: Db, f: ProposalFields)
    requires CreateProposalChange(db, f).Ok?
    ensures Decides(db, CreateProposalChange(db, f).value)
  {
    var ids := PositiveIds([OrElse(f.candidateId, 0)] + f.candidateIds);
    PositiveIdsArePositive(ids);
    PositiveIdsArePositive([OrElse(f.candidateId, 0)] + f.candidateIds);
    UniqueKeepsMembers(ids);
    assert Text.Trim("") == "";
  }

  lemma MarkDecides(db: Db, id: int, status: ProposalStatus, who: ActorFields)
    requires status == RejectedProposal || status == Deferred
    requires MarkProposalChange(db, id, status, who).Ok?
    ensures Decides(db, MarkProposalChange(db, id, status, who).value)
  {
  }

  /** The applied proposal of an effect that appends one event for its candidate. */
  lemma AppliedDecides(db: Db, id: int, effect: Change, who: Actor)
    requires id in db.proposals && AwaitsDecision(db.proposals[id]) && db.proposals[id].reason != ""
    requires var p := db.proposals[id];
      && |Unique(PositiveIds(p.candidateIds))| == 1
      && |effect.events| == 1 && effect.events[0].edge.None?
      && effect.events[0].candidate == Some(Unique(PositiveIds(p.candidateIds))[0])
      && (p.kind == PromoteCandidate ==>
            && effect.events[0].action == ActPromote && effect.events[0].entry == Some(NextId(db.entries.Keys))
            && effect.entries.Keys == {NextId(db.entries.Keys)} && effect.entries != map[])
      && (p.kind != PromoteCandidate ==>
            p.kind == RejectCandidate && effect.events[0].action == ActReject && effect.entries == map[])
    ensures Decides(db, effect.(proposals := map[id := AppliedProposal(db, db.proposals[id], effect, who)]))
  {
    var p := db.proposals[id];
    var q := AppliedProposal(db, p, effect, who);
    var c := effect.(proposals := map[id := q]);
    if p.kind == PromoteCandidate {
      assert q.entryId == Some(NextId(db.entries.Keys));
    } else {
      assert q.entryId == None;
    }
    assert q.candidateIds == p.candidateIds && q.kind == p.kind;
    assert AppliedHere(db, c, q);
  }

  lemma PromotionTraces(db: Db, id: int, f: EntryFields, who: Actor)
    requires PromoteStored(db, id, f, who).Ok?
    ensures var c := PromoteStored(db, id, f, who).value;
      && |c.events| == 1 && c.events[0].edge.None? && c.events[0].candidate == Some(id) && c.events[0].action == ActPromote
      && c.proposals == map[] && c.events[0].entry == Some(NextId(db.entries.Keys))
      && c.entries.Keys == {NextId(db.entries.Keys)} && c.entries != map[]
  {
    assert NextId(db.entries.Keys) in PromoteStored(db, id, f, who).value.entries;
  }

  lemma RevisionTraces(db: Db, id: int, u: CandidateUpdate, action: Action, who: Actor)
    requires ReviseCandidate(db, id, u, action, who).Ok?
    ensures var c := ReviseCandidate(db, id, u, action, who).value;
      && |c.events| == 1 && c.events[0].edge.None? && c.events[0].candidate == Some(id) && c.events[0].action == action
      && c.proposals == map[] && c.entries == map[]
  {
  }

  lemma ApplyDecides(db: Db, id: int, who: ActorFields)
    requires ApplyProposalChange(db, id, who).Ok?
    requires db.proposals[id].reason != ""
    ensures Decides(db, ApplyProposalChange(db, id, who).value)
  {
    var p := db.proposals[id];
    var actor := RequireActorReason(who).value;
    var cid := Unique(PositiveIds(p.candidateIds))[0];
    if p.kind == PromoteCandidate {
      AppliedIsPromoted(db, cid, ProposalPayload(p), actor);
      PromotionTraces(db, cid, ProposalPayload(p), actor);
    } else {
      RevisionTraces(db, cid, StatusUpdate(Val(Rejected), actor.name), ActReject, actor);
    }
    AppliedDecides(db, id, ProposalEffect(db, p, actor).value, actor);
  }

  lemma EntriesWriteNoProposal(db: Db, r: Request)
    requires AboutEntries(r) && ChangeOf(db, r).Ok?
    ensures ChangeOf(db, r).value.proposals == map[]
  {
  }

  lemma GraphWritesNoProposal(db: Db, r: Request)
    requires AboutGraph(r) && ChangeOf(db, r).Ok?
    ensures ChangeOf(db, r).value.proposals == map[]
  {
  }

  lemma CaptureWritesNoProposal(db: Db, p: CapturePayload)
    requires CaptureChange(db, p).Ok?
    ensures CaptureChange(db, p).value.proposals == map[]
  {
    CaptureTouchesOnly(db, p);
  }

  lemma InsertionsWriteNoProposal(db: Db, r: Request)
    requires r.CreateCandidate? || r.Split? || r.Merge?
    requires ChangeOf(db, r).Ok?
    ensures ChangeOf(db, r).value.proposals == map[]
  {
  }

  lemma RevisionsWriteNoProposal(db: Db, r: Request)
    requires r.PatchStatus? || r.Claim? || r.Reject? || r.Relabel? || r.Rescope?
    requires ChangeOf(db, r).Ok?
    ensures ChangeOf(db, r).value.proposals == map[]
  {
  }

  /** Requests other than the proposal handlers write no proposal. */
  lemma OthersWriteNoProposal(db: Db, r: Request)
    requires !AboutProposals(r) && !r.ApplyProposal?
    requires ChangeOf(db, r).Ok?
    ensures ChangeOf(db, r).value.proposals == map[]
  {
    if AboutEntries(r) {
      EntriesWriteNoProposal(db, r);
    } else if AboutGraph(r) {
      GraphWritesNoProposal(db, r);
    } else if r.CaptureMemory? {
      CaptureWritesNoProposal(db, r.capture);
    } else if r.Promote? {
      PromotionTraces(db, r.id, r.overrides, RequireActorReason(r.who).value);
    } else if r.CreateCandidate? || r.Split? || r.Merge? {
      InsertionsWriteNoProposal(db, r);
    } else {
      RevisionsWriteNoProposal(db, r);
    }
  }

  lemma NoProposalNoDecision(db: Db, c: Change)
    requires c.proposals == map[]
    ensures Decides(db, c)
  {
  }

  lemma DecisionsDecide(db: Db, r: Request)
    requires ProposalInvariant(db)
    requires r.ApplyProposal? || r.RejectProposal? || r.DeferProposal?
    requires ChangeOf(db, r).Ok?
    ensures Decides(db, ChangeOf(db, r).value)
  {
    match r {
      case ApplyProposal(id, who) => ApplyDecides(db, id, who);
      case RejectProposal(id, who) => MarkDecides(db, id, RejectedProposal, who);
      case DeferProposal(id, who) => MarkDecides(db, id, Deferred, who);
    }
  }

  lemma ChangesDecide(db: Db, r: Request)
    requires ProposalInvariant(db)
    requires ChangeOf(db, r).Ok?
    ensures Decides(db, ChangeOf(db, r).value)
  {
    if r.CreateProposal? {
      CreationDecides(db, r.proposal);
    } else if r.ApplyProposal? || r.RejectProposal? || r.DeferProposal? {
      DecisionsDecide(db, r);
    } else {
      OthersWriteNoProposal(db, r);
      NoProposalNoDecision(db, ChangeOf(db, r).value);
    }
  }

  // ---- The invariant survives.

  lemma SameTrace(a: CurationEvent, b: CurationEvent)
    requires a.(edge := None) == b.(edge := None)
    ensures a.candidate == b.candidate && a.action == b.action && a.entry == b.entry
  {
    assert a.(edge := None).candidate == b.(edge := None).candidate;
    assert a.(edge := None).action == b.(edge := None).action;
    assert a.(edge := None).entry == b.(edge := None).entry;
  }

  /** A sound proposal stays sound while the tables grow around it. */
  lemma SoundnessGrows(db: Db, c: Change, p: Proposal)
    requires ProposalSound(db, p)
    ensures ProposalSound(Apply(db, c), p)
  {
    if p.status == Applied {
      EventsAfter(db, c);
      var k := p.eventId.value;
      assert Apply(db, c).events[k - 1].(edge := None) == db.events[k - 1].(edge := None);
      SameTrace(Apply(db, c).events[k - 1], db.events[k - 1]);
    }
  }

  lemma AppliedIsTraced(db: Db, c: Change, p: Proposal)
    requires AppliedHere(db, c, p) && Distinct(p.candidateIds) && forall k :: k in p.candidateIds ==> k > 0
    ensures AppliedBy(Apply(db, c), p, |db.events| + 1)
  {
    PositiveIdsOfPositive(p.candidateIds);
    UniqueOfDistinct(p.candidateIds);
    EventsAfter(db, c);
    SameTrace(Apply(db, c).events[|db.events|], c.events[0]);
  }

  lemma NewProposalIsSound(db: Db, c: Change, id: int)
    requires ProposalInvariant(db) && Decides(db, c) && id in c.proposals
    ensures ProposalSound(Apply(db, c), c.proposals[id])
  {
    var p := c.proposals[id];
    if id in db.proposals {
      assert ProposalSound(db, db.proposals[id]);
      if p.status == Applied {
        AppliedIsTraced(db, c, p);
      }
    }
  }

  lemma DecidingKeepsTracesDistinct(db: Db, c: Change)
    requires ProposalInvariant(db) && Decides(db, c)
    ensures TracesDistinct(db.proposals + c.proposals)
  {
    var all := db.proposals + c.proposals;
    forall i, j | i in all && j in all && i != j
      ensures all[i].eventId.Some? ==> all[i].eventId != all[j].eventId
      ensures all[i].entryId.Some? ==> all[i].entryId != all[j].entryId
    {
      if i in c.proposals {
        assert j in db.proposals && ProposalSound(db, db.proposals[j]);
      } else if j in c.proposals {
        assert i in db.proposals && ProposalSound(db, db.proposals[i]);
      }
    }
  }

  lemma DecidingKeepsInvariant(db: Db, c: Change)
    requires ProposalInvariant(db) && Decides(db, c)
    ensures ProposalInvariant(Apply(db, c))
  {
    DecidingKeepsTracesDistinct(db, c);
    forall id | id in Apply(db, c).proposals
      ensures ProposalSound(Apply(db, c), Apply(db, c).proposals[id])
    {
      if id in c.proposals {
        NewProposalIsSound(db, c, id);
      } else {
        SoundnessGrows(db, c, db.proposals[id]);
      }
    }
  }

  lemma StepKeepsProposals(db: Db, r: Request)
    requires ProposalInvariant(db)
    ensures ProposalInvariant(Step(db, r))
    ensures forall id :: id in db.proposals && !AwaitsDecision(db.proposals[id]) ==>
      id in Step(db, r).proposals && Step(db, r).proposals[id] == db.proposals[id]
    ensures forall id :: id in Step(db, r).proposals && id !in db.proposals ==> AwaitsDecision(Step(db, r).proposals[id])
    ensures forall id :: id in db.proposals ==>
      id in Step(db, r).proposals && Step(db, r).proposals[id].candidateIds == db.proposals[id].candidateIds
  {
    if ChangeOf(db, r).Ok? {
      ChangesDecide(db, r);
      DecidingKeepsInvariant(db, ChangeOf(db, r).value);
    }
  }

  /** In every reachable state every proposal waits, was decided, or was applied by exactly the
      event and entry it names. */
  lemma {:induction false} ProposalsAreSound(dbs: seq<Db>, requests: seq<Request>, k: int)
    requires IsRun(dbs, requests) && 0 <= k < |dbs|
    ensures ProposalInvariant(dbs[k])
    decreases k
  {
    if k > 0 {
      ProposalsAreSound(dbs, requests, k - 1);
      StepKeepsProposals(dbs[k - 1], requests[k - 1]);
    }
  }

  /** A proposal that no longer waits is frozen for the rest of the run. */
  lemma {:induction false} DecidedProposalsAreFrozen(dbs: seq<Db>, requests: seq<Request>, i: int, j: int, id: int)
    requires IsRun(dbs, requests) && 0 <= i <= j < |dbs|
    requires id in dbs[i].proposals && !AwaitsDecision(dbs[i].proposals[id])
    ensures id in dbs[j].proposals && dbs[j].proposals[id] == dbs[i].proposals[id]
    decreases j
  {
    if i < j {
      DecidedProposalsAreFrozen(dbs, requests, i, j - 1, id);
      ProposalsAreSound(dbs, requests, j - 1);
      StepKeepsProposals(dbs[j - 1], requests[j - 1]);
    }
  }

  /** A proposal that appears in a step waits for its decision. */
  lemma ProposalsAreBornWaiting(dbs: seq<Db>, requests: seq<Request>, k: int, id: int)
    requires IsRun(dbs, requests) && 0 <= k < |requests|
    requires id in dbs[k + 1].proposals && id !in dbs[k].proposals
    ensures AwaitsDecision(dbs[k + 1].proposals[id])
  {
    ProposalsAreSound(dbs, requests, k);
    StepKeepsProposals(dbs[k], requests[k]);
  }

  lemma DecisionsWriteKnown(db: Db, r: Request)
    requires r.RejectProposal? || r.DeferProposal?
    requires ChangeOf(db, r).Ok?
    ensures forall id :: id in ChangeOf(db, r).value.proposals ==> id in db.proposals
  {
  }

  lemma ApplyWritesKnown(db: Db, id: int, who: ActorFields)
    requires ApplyProposalChange(db, id, who).Ok?
    ensures id in db.proposals && ApplyProposalChange(db, id, who).value.proposals.Keys == {id}
  {
  }

  lemma OthersWriteKnown(db: Db, r: Request)
    requires !r.CreateProposal? && ChangeOf(db, r).Ok?
    ensures forall id :: id in ChangeOf(db, r).value.proposals ==> id in db.proposals
  {
    if r.ApplyProposal? {
      ApplyWritesKnown(db, r.id, r.who);
    } else if r.RejectProposal? || r.DeferProposal? {
      DecisionsWriteKnown(db, r);
    } else {
      OthersWriteNoProposal(db, r);
    }
  }

  lemma KnownWritesAddNothing(db: Db, c: Change)
    requires forall id :: id in c.proposals ==> id in db.proposals
    ensures Apply(db, c).proposals.Keys == db.proposals.Keys
  {
    assert forall id :: id in Apply(db, c).proposals <==> id in db.proposals;
  }

  /** Only creating a proposal adds one. */
  lemma OthersAddNoProposal(db: Db, r: Request)
    requires !r.CreateProposal?
    ensures Step(db, r).proposals.Keys == db.proposals.Keys
  {
    if ChangeOf(db, r).Ok? {
      OthersWriteKnown(db, r);
      KnownWritesAddNothing(db, ChangeOf(db, r).value);
    }
  }

  // ---- Proposal traffic is invisible to everything else.

  lemma ProposalChangesTouchNothingElse(db: Db, r: Request)
    requires AboutProposals(r) && ChangeOf(db, r).Ok?
    ensures ChangeOf(db, r).value == NOTHING.(proposals := ChangeOf(db, r).value.proposals)
  {
  }

  lemma Untouched(db: Db, c: Change)
    requires c == NOTHING.(proposals := c.proposals)
    ensures Apply(db, c) == db.(proposals := db.proposals + c.proposals)
    ensures Truth(Apply(db, c)) == Truth(db)
  {
    Refinement.ApplyFrame(db, c);
    assert Apply(db, c).refs == db.refs && Apply(db, c).captures == db.captures;
  }

  /** Creating, rejecting or deferring a proposal, successfully or not, touches only proposals. */
  lemma ProposalTrafficKeepsTruth(db: Db, r: Request)
    requires AboutProposals(r)
    ensures Truth(Step(db, r)) == Truth(db)
  {
    if ChangeOf(db, r).Ok? {
      var c := ChangeOf(db, r).value;
      ProposalChangesTouchNothingElse(db, r);
      Untouched(db, c);
    }
  }

  // ---- The two promotion paths.

  lemma ProposalsDoNotMatter(db: Db, c: Change, proposals: map<int, Proposal>)
    ensures Truth(Apply(db, c.(proposals := proposals))) == Truth(Apply(db, c))
  {
  }

  lemma EffectIsPromotion(db: Db, id: int, who: Actor, cid: int)
    requires id in db.proposals && db.proposals[id].kind == PromoteCandidate
    requires Unique(PositiveIds(db.proposals[id].candidateIds)) == [cid]
    ensures var p := db.proposals[id];
      var effect := ProposalEffect(db, p, who);
      && effect == PromoteStored(db, cid, ProposalPayload(p), who)
      && (effect.Ok? ==>
            Truth(Apply(db, effect.value.(proposals := map[id := AppliedProposal(db, p, effect.value, who)])))
            == Truth(Apply(db, effect.value)))
  {
    var p := db.proposals[id];
    var effect := ProposalEffect(db, p, who);
    AppliedIsPromoted(db, cid, ProposalPayload(p), who);
    if effect.Ok? {
      ProposalsDoNotMatter(db, effect.value, map[id := AppliedProposal(db, p, effect.value, who)]);
    }
  }

  /** Applying a waiting promote proposal for one candidate writes exactly what promoting that
      candidate directly with the merged payload writes, and fails exactly when that fails. */
  lemma ApplyIsPromote(db: Db, id: int, who: ActorFields, cid: int)
    requires id in db.proposals && AwaitsDecision(db.proposals[id]) && db.proposals[id].kind == PromoteCandidate
    requires Unique(PositiveIds(db.proposals[id].candidateIds)) == [cid]
    ensures var applied := ApplyProposalChange(db, id, who);
      var direct := PromoteChange(db, cid, ProposalPayload(db.proposals[id]), who);
      && applied.Verdict() == direct.Verdict()
      && Truth(Commit(db, applied)) == Truth(Commit(db, direct))
  {
    if RequireActorReason(who).Ok? {
      EffectIsPromotion(db, id, RequireActorReason(who).value, cid);
    }
  }

  lemma RejectPathsAgree(db: Db, pid: int, id: int, who: Actor)
    requires pid in db.proposals && db.proposals[pid].kind == RejectCandidate
    requires Unique(PositiveIds(db.proposals[pid].candidateIds)) == [id]
    ensures ProposalEffect(db, db.proposals[pid], who)
      == ReviseCandidate(db, id, StatusUpdate(Val(Rejected), who.name), ActReject, who)
  {
  }

  lemma ApplyIsEffect(db: Db, pid: int, who: ActorFields)
    requires RequireActorReason(who).Ok? && pid in db.proposals && AwaitsDecision(db.proposals[pid])
    ensures var (p, actor) := (db.proposals[pid], RequireActorReason(who).value);
      var effect := ProposalEffect(db, p, actor);
      ApplyProposalChange(db, pid, who) ==
        if effect.Err? then effect else Ok(effect.value.(proposals := map[pid := AppliedProposal(db, p, effect.value, actor)]))
  {
  }

  /** An effect and the change that also marks the proposal end with the same verdict and the same truth. */
  lemma MarkingKeepsTruth(db: Db, effect: Result<Change>, applied: Result<Change>, proposals: map<int, Proposal>)
    requires applied == if effect.Err? then effect else Ok(effect.value.(proposals := proposals))
    ensures applied.Verdict() == effect.Verdict() && Truth(Commit(db, applied)) == Truth(Commit(db, effect))
  {
    if effect.Ok? {
      ProposalsDoNotMatter(db, effect.value, proposals);
    }
  }

  /** Applying a waiting reject proposal has the verdict of a direct reject by the same actor, and
      leaves every other table as the direct one does. */
  lemma ApplyIsReject(db: Db, pid: int, id: int, who: ActorFields)
    requires pid in db.proposals && db.proposals[pid].kind == RejectCandidate && AwaitsDecision(db.proposals[pid])
    requires Unique(PositiveIds(db.proposals[pid].candidateIds)) == [id]
    ensures ApplyProposalChange(db, pid, who).Verdict() == RejectChange(db, id, who).Verdict()
    ensures Truth(Commit(db, ApplyProposalChange(db, pid, who))) == Truth(Commit(db, RejectChange(db, id, who)))
  {
    if RequireActorReason(who).Ok? {
      var actor := RequireActorReason(who).value;
      RejectPathsAgree(db, pid, id, actor);
      ApplyIsEffect(db, pid, who);
      var effect := RejectChange(db, id, who);
      var marks := if effect.Ok? then map[pid := AppliedProposal(db, db.proposals[pid], effect.value, actor)] else map[];
      MarkingKeepsTruth(db, effect, ApplyProposalChange(db, pid, who), marks);
    }
  }
}
