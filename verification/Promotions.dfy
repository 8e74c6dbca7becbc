/** When a candidate can be promoted, and how often: the exact condition for one promotion, what
    keeps a candidate from a second one, and runs in which it gets one all the same. */
module Promotions {
  import opened Base
  import opened Schema
  import opened Rows
  import opened Text
  import opened Capture
  import opened Changes
  import opened WellFormed
  import opened History
  import opened Runs
  import Refinement
  import Slugs

  // ---- One promotion.

  /** What a caller can check before asking for a promotion. */
  ghost predicate Promotable(db: Db, id: int, f: EntryFields, who: ActorFields) {
    && RequireActorReason(who).Ok?
    && id in db.candidates && Open(db.candidates[id].status)
    && var entry := PromotedEntry(db.candidates[id], Some(id), f, RequireActorReason(who).value.name);
    && CheckEntry(entry) && !SlugTaken(db.entries, entry.slug)
    && RefsPass(PromotedRefs(db.candidates[id], Some(id), NextId(db.entries.Keys), RequireActorReason(who).value))
  }

  /** A promotion succeeds if and only if the request names actor and reason, the candidate is
      stored and open, its entry passes the CHECKs under a free slug, and its references pass theirs. */
  lemma PromotionSucceeds(db: Db, id: int, f: EntryFields, who: ActorFields)
    requires ChecksPass(db.candidates)
    ensures PromoteChange(db, id, f, who).Ok? <==> Promotable(db, id, f, who)
  {
    if RequireActorReason(who).Ok? && id in db.candidates {
      Refinement.StatusUpdateSets(db.candidates[id], Promoted, RequireActorReason(who).value.name);
    }
  }

  lemma PromotionStep(db: Db, id: int, f: EntryFields, who: ActorFields)
    requires Promotable(db, id, f, who)
    ensures var (c, actor) := (db.candidates[id], RequireActorReason(who).value);
      Step(db, Promote(id, f, who)) ==
        Commit(db, PromotionTo(db, id, c, Some(id), PromotedEntry(c, Some(id), f, actor.name), actor, CandidatesBefore([Snapshot(id, c)])))
  {
  }

  lemma PromotionToLeaves(db: Db, id: int, c: Candidate, entry: Entry, who: Actor, logged: Before)
    requires CheckCandidate(c) && CheckEntry(entry) && !SlugTaken(db.entries, entry.slug)
    requires RefsPass(PromotedRefs(c, Some(id), NextId(db.entries.Keys), who))
    ensures var later := Commit(db, PromotionTo(db, id, c, Some(id), entry, who, logged));
      && later.candidates == db.candidates[id := c.(status := Promoted, updatedBy := who.name)]
      && later.entries == db.entries[NextId(db.entries.Keys) := entry]
      && |later.events| == |db.events| + 1 && later.events[..|db.events|] == db.events
      && Promotes(later.events[|db.events|], id)
  {
    Refinement.StatusUpdateSets(c, Promoted, who.name);
    Refinement.PromotionRefines(db, id, c, Some(id), entry, who, logged);
  }

  /** What a successful promotion leaves. */
  lemma PromotionLeaves(db: Db, id: int, f: EntryFields, who: ActorFields)
    requires ChecksPass(db.candidates) && Promotable(db, id, f, who)
    ensures var later := Step(db, Promote(id, f, who));
      var actor := RequireActorReason(who).value.name;
      && later.candidates == db.candidates[id := db.candidates[id].(status := Promoted, updatedBy := actor)]
      && later.entries == db.entries[NextId(db.entries.Keys) := PromotedEntry(db.candidates[id], Some(id), f, actor)]
      && |later.events| == |db.events| + 1 && later.events[..|db.events|] == db.events
      && Promotes(later.events[|db.events|], id)
  {
    var (c, actor) := (db.candidates[id], RequireActorReason(who).value);
    PromotionStep(db, id, f, who);
    PromotionToLeaves(db, id, c, PromotedEntry(c, Some(id), f, actor.name), actor, CandidatesBefore([Snapshot(id, c)]));
  }

  // ---- What each request does to slugs and references of candidates, and to closed candidates.

  /** The two requests that may open a closed candidate. */
  predicate AsksToReopen(r: Request, id: int) {
    (r.Claim? && r.id == id) || (r.PatchStatus? && r.id == id)
  }

  /** What no update of a stored candidate writes. */
  predicate SameOrigin(a: Candidate, b: Candidate) {
    a.slug == b.slug && a.refs == b.refs
  }

  /** A change keeps slug and references of candidate `id`, and reopens it only if that was asked for. */
  ghost predicate Accounts(db: Db, c: Change, id: int, asked: bool) {
    && (id in db.candidates && id in c.candidates ==> SameOrigin(c.candidates[id], db.candidates[id]))
    && (forall k :: 0 <= k < |c.events| && Reopens(c.events[k], id) ==> asked)
  }

  lemma ReviseAccounts(db: Db, k: int, u: CandidateUpdate, action: Action, who: Actor, id: int)
    requires ReviseCandidate(db, k, u, action, who).Ok?
    ensures Accounts(db, ReviseCandidate(db, k, u, action, who).value, id,
                     id == k && (action == ActClaim || (action == ActRelabel && !u.status.Absent?)))
  {
  }

  lemma PromotionAccounts(db: Db, k: int, f: EntryFields, who: Actor, id: int)
    requires PromoteStored(db, k, f, who).Ok?
    ensures Accounts(db, PromoteStored(db, k, f, who).value, id, false)
  {
  }

  lemma ApplyAccounts(db: Db, pid: int, who: ActorFields, id: int)
    requires ApplyProposalChange(db, pid, who).Ok?
    ensures Accounts(db, ApplyProposalChange(db, pid, who).value, id, false)
  {
    var p := db.proposals[pid];
    var actor := RequireActorReason(who).value;
    var cid := Unique(PositiveIds(p.candidateIds))[0];
    if p.kind == PromoteCandidate {
      AppliedIsPromoted(db, cid, ProposalPayload(p), actor);
      PromotionAccounts(db, cid, ProposalPayload(p), actor, id);
    } else {
      ReviseAccounts(db, cid, StatusUpdate(Val(Rejected), actor.name), ActReject, actor, id);
    }
  }

  lemma CreationAccounts(db: Db, f: CandidateFields, log: LogFields, why: Field<string>, id: int)
    requires CreateCandidateChange(db, f, log, why).Ok?
    ensures Accounts(db, CreateCandidateChange(db, f, log, why).value, id, false)
  {
  }

  lemma AutoPromotionAccounts(db: Db, p: CapturePayload, k: int, row: Candidate, entry: Entry, who: Actor, event: CaptureEvent, id: int)
    requires AutoPromotionTo(db, p, k, row, entry, who, event).Ok? && k !in db.candidates
    ensures Accounts(db, AutoPromotionTo(db, p, k, row, entry, who, event).value, id, false)
  {
    AutoPromotionTouchesOnly(db, p, k, row, entry, who, event);
  }

  lemma CaptureAccounts(db: Db, p: CapturePayload, id: int)
    requires CaptureChange(db, p).Ok?
    ensures Accounts(db, CaptureChange(db, p).value, id, false)
  {
    if EarlyDecision(p).None? && AutoPromotes(p) {
      var k := NextId(db.candidates.Keys);
      AutoPromotionAccounts(db, p, k, Slugs.CapturedRow(p), Slugs.WantedEntry(p), AutoPromoter(p), Slugs.CapturedLog(p, k), id);
    }
  }

  lemma SplitAccounts(db: Db, k: int, fragments: seq<Option<CandidateFields>>, who: ActorFields, id: int)
    requires SplitChange(db, k, fragments, who).Ok?
    ensures Accounts(db, SplitChange(db, k, fragments, who).value, id, false)
  {
    RowsFromKeys(NextId(db.candidates.Keys),
                 FragmentRows(db.candidates[k], fragments, RequireActorReason(who).value.name).value);
  }

  lemma MergeAccounts(db: Db, ids: seq<int>, f: CandidateFields, who: ActorFields, id: int)
    requires MergeChange(db, ids, f, who).Ok?
    ensures Accounts(db, MergeChange(db, ids, f, who).value, id, false)
  {
  }

  lemma RevisionAccounts(db: Db, r: Request, id: int)
    requires r.PatchStatus? || r.Claim? || r.Reject? || r.Promote? || r.Relabel? || r.Rescope?
    requires ChangeOf(db, r).Ok?
    ensures Accounts(db, ChangeOf(db, r).value, id, AsksToReopen(r, id))
  {
    var who := Actor(OrElse(r.who.actor, "api"), OrElse(r.who.reason, "candidate status updated"));
    match r {
      case PatchStatus(k, status, _) =>
        ReviseAccounts(db, k, StatusUpdate(if status.Val? then status else Null, who.name), PatchAction(status), who, id);
      case Claim(k, _) => ReviseAccounts(db, k, StatusUpdate(Val(Claimed), who.name), ActClaim, who, id);
      case Reject(k, _) => ReviseAccounts(db, k, StatusUpdate(Val(Rejected), who.name), ActReject, who, id);
      case Promote(k, f, _) => PromotionAccounts(db, k, f, who, id);
      case Relabel(k, f, _) => ReviseAccounts(db, k, RelabelUpdate(f, who.name), ActRelabel, who, id);
      case Rescope(k, f, _) => ReviseAccounts(db, k, RescopeUpdate(f, who.name), ActRescope, who, id);
    }
  }

  lemma QuietAccounts(db: Db, c: Change, id: int)
    requires Quiet(c)
    ensures Accounts(db, c, id, false)
  {
  }

  /** Every request keeps slugs and references of candidates, and only a claim or a status PATCH reopens a candidate. */
  lemma RequestsAccount(db: Db, r: Request, id: int)
    requires ChangeOf(db, r).Ok?
    ensures Accounts(db, ChangeOf(db, r).value, id, AsksToReopen(r, id))
  {
    if AboutProposals(r) {
      ProposalChangesAreQuiet(db, r);
      QuietAccounts(db, ChangeOf(db, r).value, id);
    } else if AboutEntries(r) {
      EntryChangesAreQuiet(db, r);
      QuietAccounts(db, ChangeOf(db, r).value, id);
    } else if AboutGraph(r) {
      GraphChangesAreQuiet(db, r);
      QuietAccounts(db, ChangeOf(db, r).value, id);
    } else if r.ApplyProposal? {
      ApplyAccounts(db, r.id, r.who, id);
    } else if r.CreateCandidate? {
      CreationAccounts(db, r.candidate, r.log, r.why, id);
    } else if r.CaptureMemory? {
      CaptureAccounts(db, r.capture, id);
    } else if r.Split? {
      SplitAccounts(db, r.id, r.fragments, r.who, id);
    } else if r.Merge? {
      MergeAccounts(db, r.ids, r.candidate, r.who, id);
    } else {
      RevisionAccounts(db, r, id);
    }
  }

  // ---- No second promotion without a reopening request.

  ghost predicate NeverReopened(events: seq<CurationEvent>, id: int) {
    forall k :: 0 <= k < |events| ==> !Reopens(events[k], id)
  }

  lemma ChangeKeepsNeverReopened(db: Db, c: Change, id: int)
    requires NeverReopened(db.events, id) && Accounts(db, c, id, false)
    ensures NeverReopened(Apply(db, c).events, id)
  {
    forall k | 0 <= k < |Apply(db, c).events|
      ensures !Reopens(Apply(db, c).events[k], id)
    {
      EventAt(db, c, k, id);
    }
  }

  lemma StepKeepsNeverReopened(db: Db, r: Request, id: int)
    requires NeverReopened(db.events, id) && !AsksToReopen(r, id)
    ensures NeverReopened(Step(db, r).events, id)
  {
    if ChangeOf(db, r).Ok? {
      var c := ChangeOf(db, r).value;
      RequestsAccount(db, r, id);
      ChangeKeepsNeverReopened(db, c, id);
    }
  }

  lemma {:induction false} NotAskedNotReopened(dbs: seq<Db>, requests: seq<Request>, k: int, id: int)
    requires IsRun(dbs, requests) && 0 <= k < |dbs|
    requires forall i :: 0 <= i < k ==> !AsksToReopen(requests[i], id)
    ensures NeverReopened(dbs[k].events, id)
    decreases k
  {
    if k > 0 {
      NotAskedNotReopened(dbs, requests, k - 1, id);
      StepKeepsNeverReopened(dbs[k - 1], requests[k - 1], id);
    }
  }

  /** A candidate that nobody claims or patches is promoted at most once. */
  lemma UnclaimedIsPromotedOnce(dbs: seq<Db>, requests: seq<Request>, k: int, id: int)
    requires IsRun(dbs, requests) && 0 <= k < |dbs|
    requires forall i :: 0 <= i < k ==> !AsksToReopen(requests[i], id)
    ensures forall i, j :: 0 <= i < j < |dbs[k].events| ==> !(Promotes(dbs[k].events[i], id) && Promotes(dbs[k].events[j], id))
  {
    NotAskedNotReopened(dbs, requests, k, id);
    forall i, j | 0 <= i < j < |dbs[k].events|
      ensures !(Promotes(dbs[k].events[i], id) && Promotes(dbs[k].events[j], id))
    {
      if Promotes(dbs[k].events[i], id) && Promotes(dbs[k].events[j], id) {
        PromotedAgainOnlyAfterReopening(dbs, requests, k, i, j, id);
        assert false;
      }
    }
  }

  // ---- What every run keeps of a candidate.

  lemma OriginStays(db: Db, r: Request, id: int)
    requires id in db.candidates
    ensures id in Step(db, r).candidates && SameOrigin(Step(db, r).candidates[id], db.candidates[id])
  {
    if ChangeOf(db, r).Ok? {
      RequestsAccount(db, r, id);
    }
  }

  /** No candidate ever disappears or changes its proposed slug or its references. */
  lemma {:induction false} OriginsArePermanent(dbs: seq<Db>, requests: seq<Request>, i: int, j: int, id: int)
    requires IsRun(dbs, requests) && 0 <= i <= j < |dbs| && id in dbs[i].candidates
    ensures id in dbs[j].candidates && SameOrigin(dbs[j].candidates[id], dbs[i].candidates[id])
    decreases j
  {
    if i < j {
      OriginsArePermanent(dbs, requests, i, j - 1, id);
      OriginStays(dbs[j - 1], requests[j - 1], id);
    }
  }

  // ---- Promotions of stored candidates, directly or through a proposal.

  /** Request r succeeds in promoting the stored candidate `id`. */
  ghost predicate PromotesStored(db: Db, r: Request, id: int) {
    ChangeOf(db, r).Ok? &&
    match r
    case Promote(k, _, _) => k == id
    case ApplyProposal(pid, _) =>
      db.proposals[pid].kind == PromoteCandidate && Unique(PositiveIds(db.proposals[pid].candidateIds)) == [id]
    case _ => false
  }

  /** What the promotion is asked to override. */
  ghost function OverridesOf(db: Db, r: Request): EntryFields {
    match r
    case Promote(_, f, _) => f
    case ApplyProposal(pid, _) => if pid in db.proposals then ProposalPayload(db.proposals[pid]) else NO_OVERRIDES
    case _ => NO_OVERRIDES
  }

  lemma AppliesAlike(db: Db, pid: int, who: ActorFields, id: int)
    requires ApplyProposalChange(db, pid, who).Ok? && db.proposals[pid].kind == PromoteCandidate
    requires Unique(PositiveIds(db.proposals[pid].candidateIds)) == [id]
    ensures var promotion := PromoteStored(db, id, ProposalPayload(db.proposals[pid]), RequireActorReason(who).value);
      promotion.Ok? && ApplyProposalChange(db, pid, who).value.(proposals := map[]) == promotion.value
  {
    AppliedIsPromoted(db, id, ProposalPayload(db.proposals[pid]), RequireActorReason(who).value);
  }

  /** Either way the same rows are written, up to the proposal. */
  lemma PromotesAlike(db: Db, r: Request, id: int) returns (who: Actor)
    requires PromotesStored(db, r, id)
    ensures var promotion := PromoteStored(db, id, OverridesOf(db, r), who);
      && promotion.Ok?
      && ChangeOf(db, r).value.(proposals := map[]) == promotion.value
    ensures OrElse(r.who.actor, "") == who.name && OrElse(r.who.reason, "") == who.reason
  {
    who := RequireActorReason(r.who).value;
    if r.ApplyProposal? {
      AppliesAlike(db, r.id, r.who, id);
    }
  }

  // ---- No second promotion without another slug.

  /** The slug a candidate is promoted under when none is given. */
  function OwnSlug(c: Candidate, id: int): string {
    PromotedSlug(c, Some(id), NO_OVERRIDES)
  }

  /** Request r auto-promotes a capture, whose candidate gets the id `id`. */
  ghost predicate PromotesCapture(db: Db, r: Request, id: int) {
    && r.CaptureMemory? && EarlyDecision(r.capture).None? && AutoPromotes(r.capture) && id == NextId(db.candidates.Keys)
    && CaptureChange(db, r.capture).Ok? && CaptureChange(db, r.capture).value.entries != map[]
  }

  /** Request r succeeds in promoting candidate `id`, newly captured or stored, without being given a
      slug for the entry. */
  ghost predicate PromotesPlainly(db: Db, r: Request, id: int) {
    || (PromotesStored(db, r, id) && OrElse(OverridesOf(db, r).slug, "") == "")
    || (PromotesCapture(db, r, id) && OrElse(r.capture.entry.slug, "") == "")
  }

  lemma PromotionTakesSlug(db: Db, id: int, f: EntryFields, who: Actor)
    requires PromoteStored(db, id, f, who).Ok? && OrElse(f.slug, "") == ""
    ensures id in db.candidates && !SlugTaken(db.entries, OwnSlug(db.candidates[id], id))
    ensures var c := PromoteStored(db, id, f, who).value;
      c.entries.Keys == {NextId(db.entries.Keys)}
      && c.entries[NextId(db.entries.Keys)].slug == OwnSlug(db.candidates[id], id)
  {
  }

  /** Promoting a stored candidate plainly needs its own slug free, and takes it. */
  lemma StoredTakesSlug(db: Db, r: Request, id: int)
    requires PromotesStored(db, r, id) && OrElse(OverridesOf(db, r).slug, "") == ""
    ensures id in db.candidates && !SlugTaken(db.entries, OwnSlug(db.candidates[id], id))
    ensures SlugTaken(Step(db, r).entries, OwnSlug(db.candidates[id], id))
  {
    var who := PromotesAlike(db, r, id);
    PromotionTakesSlug(db, id, OverridesOf(db, r), who);
    var entryId := NextId(db.entries.Keys);
    assert ChangeOf(db, r).value.entries == ChangeOf(db, r).value.(proposals := map[]).entries;
    assert entryId in Step(db, r).entries;
  }

  lemma OwnSlugIsWanted(p: CapturePayload, row: Candidate, id: int)
    requires EarlyDecision(p).None? && OrElse(p.entry.slug, "") == "" && !Slugs.GivesNoSlug(p)
    requires row.slug == Slugs.CapturedRow(p).slug
    ensures Slugs.WantedEntry(p).slug == OwnSlug(row, id)
  {
    assert Slugs.CapturedRow(p).slug == Column(p.proposedSlug);
  }

  /** What a change without dropped edges leaves of the tables a promotion reads. */
  lemma ChangeLeaves(db: Db, c: Change)
    requires c.droppedEdges == {}
    ensures var later := Apply(db, c);
      && later.candidates == db.candidates + c.candidates && later.entries == db.entries + c.entries
      && later.events == db.events + c.events && later.captures == db.captures + c.captures
  {
    Refinement.UnlinkNothing(db.events + c.events);
  }

  lemma AutoPromotionLeaves(db: Db, p: CapturePayload, c: Change, after: Db)
    requires EarlyDecision(p).None? && Slugs.AutoPromoted(db, p, c) && after == Apply(db, c)
    ensures var id := NextId(db.candidates.Keys);
      id in after.candidates && after.candidates[id].slug == Slugs.CapturedRow(p).slug
    ensures SlugTaken(after.entries, Slugs.WantedEntry(p).slug)
  {
    ChangeLeaves(db, c);
    assert NextId(db.entries.Keys) in after.entries;
  }

  /** The entry of an auto-promoted capture takes the candidate's own slug, except that a capture
      without any slug takes the fallback. */
  lemma CaptureTakesSlug(db: Db, r: Request, id: int, after: Db)
    requires PromotesCapture(db, r, id) && OrElse(r.capture.entry.slug, "") == "" && after == Step(db, r)
    ensures id in after.candidates
    ensures Slugs.GivesNoSlug(r.capture) || SlugTaken(after.entries, OwnSlug(after.candidates[id], id))
  {
    Slugs.AutoPromotionOutcome(db, r.capture);
    AutoPromotionLeaves(db, r.capture, CaptureChange(db, r.capture).value, after);
    if !Slugs.GivesNoSlug(r.capture) {
      OwnSlugIsWanted(r.capture, after.candidates[id], id);
    }
  }

  /** A slug once taken by an entry is taken for good. */
  lemma TakenForGood(dbs: seq<Db>, requests: seq<Request>, i: int, j: int, slug: string)
    requires IsRun(dbs, requests) && 0 <= i <= j < |dbs| && SlugTaken(dbs[i].entries, slug)
    ensures SlugTaken(dbs[j].entries, slug)
  {
    var entryId :| entryId in dbs[i].entries && dbs[i].entries[entryId].slug == slug;
    Slugs.EntrySlugsArePermanent(dbs, requests, i, j, entryId);
  }

  /** What a plain promotion leaves: the candidate stored, and unless it was a capture without any
      slug, its own slug taken. */
  lemma PlainPromotionLeaves(db: Db, r: Request, id: int, after: Db)
    requires PromotesPlainly(db, r, id) && after == Step(db, r)
    ensures id in after.candidates
    ensures Slugs.PromotesWithoutSlug(db, r) || SlugTaken(after.entries, OwnSlug(after.candidates[id], id))
  {
    if PromotesStored(db, r, id) {
      StoredTakesSlug(db, r, id);
      OriginStays(db, r, id);
    } else {
      CaptureTakesSlug(db, r, id, after);
    }
  }

  /** The own slug of a stored candidate, once taken, rules out its plain promotion. */
  lemma OwnSlugTaken(db: Db, r: Request, id: int)
    requires id in db.candidates && PromotesPlainly(db, r, id)
    ensures !r.CaptureMemory? && !SlugTaken(db.entries, OwnSlug(db.candidates[id], id))
  {
    if PromotesStored(db, r, id) {
      StoredTakesSlug(db, r, id);
    } else {
      assert false;
    }
  }

  /** A candidate is promoted a second time without giving a slug, claimed again or not, directly or
      through proposals, only if the first promotion was the auto-promotion of a capture with no
      slug at all: in every other case the first entry keeps the candidate's own slug for good. */
  lemma PlainlyPromotedOnce(dbs: seq<Db>, requests: seq<Request>, i: int, j: int, id: int)
    requires IsRun(dbs, requests) && 0 <= i < j < |requests|
    requires PromotesPlainly(dbs[i], requests[i], id) && PromotesPlainly(dbs[j], requests[j], id)
    ensures Slugs.PromotesWithoutSlug(dbs[i], requests[i]) && !requests[j].CaptureMemory?
  {
    PlainPromotionLeaves(dbs[i], requests[i], id, dbs[i + 1]);
    OriginsArePermanent(dbs, requests, i + 1, j, id);
    OwnSlugTaken(dbs[j], requests[j], id);
    if !Slugs.PromotesWithoutSlug(dbs[i], requests[i]) {
      TakenForGood(dbs, requests, i + 1, j, OwnSlug(dbs[i + 1].candidates[id], id));
    }
  }

  /** So no candidate is promoted three times without giving a slug. */
  lemma PlainlyPromotedTwiceAtMost(dbs: seq<Db>, requests: seq<Request>, i: int, j: int, k: int, id: int)
    requires IsRun(dbs, requests) && 0 <= i < j < k < |requests|
    requires PromotesPlainly(dbs[i], requests[i], id) && PromotesPlainly(dbs[j], requests[j], id)
    ensures !PromotesPlainly(dbs[k], requests[k], id)
  {
    PlainlyPromotedOnce(dbs, requests, i, j, id);
    if PromotesPlainly(dbs[k], requests[k], id) {
      PlainlyPromotedOnce(dbs, requests, j, k, id);
    }
  }

  // ---- Promoted twice.

  /** Whether references pass their CHECKs does not depend on the entry they will point at. */
  lemma RefsPassAnywhere(items: seq<RefItem>, a: int, b: int, actor: string, summary: string, sourceId: string)
    requires RefsPass(RefRows(items, EntryTarget, a, actor, summary, sourceId))
    ensures RefsPass(RefRows(items, EntryTarget, b, actor, summary, sourceId))
  {
    var (one, other) := (RefRows(items, EntryTarget, a, actor, summary, sourceId), RefRows(items, EntryTarget, b, actor, summary, sourceId));
    forall row | row in other
      ensures CheckRef(row)
    {
      var i :| 0 <= i < |other| && other[i] == row;
      assert one[i] in one && row == one[i].(targetId := b);
    }
  }

  function WantedSlug(db: Db, id: int, f: EntryFields): string
    requires id in db.candidates
  {
    PromotedSlug(db.candidates[id], Some(id), f)
  }

  /** A candidate that lost a slug to an entry is still promotable under another one, once it is claimed. */
  lemma StillPromotable(db: Db, later: Db, id: int, g: EntryFields, who: ActorFields, entryId: int, entry: Entry)
    requires Promotable(db, id, g, who) && WantedSlug(db, id, g) != entry.slug
    requires id in later.candidates
      && later.candidates[id] == db.candidates[id].(status := Claimed, updatedBy := RequireActorReason(who).value.name)
    requires later.entries == db.entries[entryId := entry] && entryId !in db.entries
    ensures Promotable(later, id, g, who)
  {
    var c := db.candidates[id];
    RefsPassAnywhere(RefItems(c), NextId(db.entries.Keys), NextId(later.entries.Keys), RequireActorReason(who).value.name,
                     c.summary, Decimal(id));
  }

  lemma ClaimLeaves(db: Db, id: int, who: ActorFields)
    requires WellFormed.WellFormed(db) && id in db.candidates && RequireActorReason(who).Ok?
    ensures var later := Step(db, Claim(id, who));
      && later.candidates == db.candidates[id := db.candidates[id].(status := Claimed, updatedBy := RequireActorReason(who).value.name)]
      && later.entries == db.entries
      && |later.events| == |db.events| + 1 && later.events[..|db.events|] == db.events
  {
    var actor := RequireActorReason(who).value;
    var c := db.candidates[id];
    var row := c.(status := Claimed, updatedBy := actor.name);
    Refinement.StatusUpdateSets(c, Claimed, actor.name);
    assert CheckCandidate(row);
    Refinement.ReviseRefines(db, id, row, CandidateEvent(id, ActClaim, actor, c, row));
  }

  /** Claiming a promoted candidate makes it promotable again under any other slug it was
      promotable under. */
  lemma ClaimedIsPromotableAgain(db: Db, promoted: Db, claimed: Db, id: int, f: EntryFields, g: EntryFields, who: ActorFields)
    requires WellFormed.WellFormed(db)
    requires Promotable(db, id, f, who) && Promotable(db, id, g, who) && WantedSlug(db, id, f) != WantedSlug(db, id, g)
    requires promoted == Step(db, Promote(id, f, who)) && claimed == Step(promoted, Claim(id, who))
    ensures Promotable(claimed, id, g, who) && WellFormed.WellFormed(claimed)
    ensures |claimed.events| == |db.events| + 2 && Promotes(claimed.events[|db.events|], id)
  {
    var actor := RequireActorReason(who).value.name;
    PromotionLeaves(db, id, f, who);
    StepKeepsWellFormed(db, Promote(id, f, who));
    ClaimLeaves(promoted, id, who);
    StepKeepsWellFormed(promoted, Claim(id, who));
    StillPromotable(db, claimed, id, g, who, NextId(db.entries.Keys), PromotedEntry(db.candidates[id], Some(id), f, actor));
    assert claimed.events[|db.events|] == claimed.events[..|promoted.events|][|db.events|];
  }

  /** Promote, claim, promote under another slug: two promote events for one candidate. */
  lemma PromotedTwice(db: Db, promoted: Db, claimed: Db, again: Db, id: int, f: EntryFields, g: EntryFields, who: ActorFields)
    requires WellFormed.WellFormed(db)
    requires Promotable(db, id, f, who) && Promotable(db, id, g, who) && WantedSlug(db, id, f) != WantedSlug(db, id, g)
    requires promoted == Step(db, Promote(id, f, who)) && claimed == Step(promoted, Claim(id, who))
    requires again == Step(claimed, Promote(id, g, who))
    ensures |again.events| == |db.events| + 3
    ensures Promotes(again.events[|db.events|], id) && Promotes(again.events[|db.events| + 2], id)
  {
    ClaimedIsPromotableAgain(db, promoted, claimed, id, f, g, who);
    PromotionLeaves(claimed, id, g, who);
    assert again.events[|db.events|] == again.events[..|claimed.events|][|db.events|];
  }

  const SOMEBODY := ActorFields(Val("m"), Val("r"))

  const NO_LOG := LogFields(Absent, Absent, Absent, Absent, Absent)

  const ONE_CANDIDATE := CandidateFields(
    Val("a"), Val("t"), Absent, Absent, Val("fact"), Absent, NO_LABELS, Absent, Absent, Absent, Absent, Absent, Absent)

  const OTHER_SLUG := NO_OVERRIDES.(slug := Val("b"))

  lemma ExtendRun(dbs: seq<Db>, requests: seq<Request>, r: Request, next: Db)
    requires IsRun(dbs, requests) && next == Step(dbs[|requests|], r)
    ensures IsRun(dbs + [next], requests + [r])
  {
    var (longer, more) := (dbs + [next], requests + [r]);
    forall k | 0 <= k < |more|
      ensures longer[k + 1] == Step(longer[k], more[k])
    {
      if k < |requests| {
        assert dbs[k + 1] == Step(dbs[k], requests[k]);
      }
    }
  }

  /** The run of any four requests. */
  lemma FourSteps(a: Request, b: Request, c: Request, d: Request) returns (dbs: seq<Db>)
    ensures IsRun(dbs, [a, b, c, d]) && |dbs| == 5 && dbs[0] == EMPTY_DB
    ensures dbs[1] == Step(dbs[0], a) && dbs[2] == Step(dbs[1], b) && dbs[3] == Step(dbs[2], c) && dbs[4] == Step(dbs[3], d)
  {
    var d1 := Step(EMPTY_DB, a);
    ExtendRun([EMPTY_DB], [], a, d1);
    var d2 := Step(d1, b);
    ExtendRun([EMPTY_DB, d1], [a], b, d2);
    var d3 := Step(d2, c);
    ExtendRun([EMPTY_DB, d1, d2], [a, b], c, d3);
    var d4 := Step(d3, d);
    ExtendRun([EMPTY_DB, d1, d2, d3], [a, b, c], d, d4);
    dbs := [EMPTY_DB, d1, d2, d3, d4];
  }

  lemma CreationLeaves(db: Db, f: CandidateFields, created: Db)
    requires created == Commit(db, CreateCandidateChange(db, f, NO_LOG, Absent))
    requires NewCandidate(f).Ok? && CheckCapture(CreationRow(f, NO_LOG, Absent, NextId(db.candidates.Keys)))
    ensures created.candidates == db.candidates[NextId(db.candidates.Keys) := NewCandidate(f).value]
    ensures created.entries == db.entries && created.events == db.events
  {
    var (id, row) := (NextId(db.candidates.Keys), NewCandidate(f).value);
    Refinement.CaptureRefines(db, id, row, [CreationRow(f, NO_LOG, Absent, id)]);
  }

  lemma CreationPasses()
    ensures NewCandidate(ONE_CANDIDATE).Ok? && CheckCapture(CreationRow(ONE_CANDIDATE, NO_LOG, Absent, 1))
    ensures var row := NewCandidate(ONE_CANDIDATE).value;
      row.status == Pending && row.slug == Some("a") && RefItems(row) == []
  {
  }

  /** A candidate without references is promotable when its entry passes under a free slug. */
  lemma PromotableWithoutRefs(db: Db, id: int, f: EntryFields)
    requires id in db.candidates && Open(db.candidates[id].status) && RefItems(db.candidates[id]) == []
    requires db.entries == map[] && CheckEntry(PromotedEntry(db.candidates[id], Some(id), f, "m"))
    ensures Promotable(db, id, f, SOMEBODY)
  {
    assert RefObjects([]) == [];
  }

  lemma CreatedEntriesPass()
    ensures CheckEntry(PromotedEntry(NewCandidate(ONE_CANDIDATE).value, Some(1), NO_OVERRIDES, "m"))
    ensures CheckEntry(PromotedEntry(NewCandidate(ONE_CANDIDATE).value, Some(1), OTHER_SLUG, "m"))
  {
    CreationPasses();
  }

  /** The created candidate can be promoted under its own slug and under another one. */
  lemma CreatedIsPromotable(created: Db)
    requires NewCandidate(ONE_CANDIDATE).Ok?
    requires created.candidates == map[1 := NewCandidate(ONE_CANDIDATE).value] && created.entries == map[]
    ensures Promotable(created, 1, NO_OVERRIDES, SOMEBODY) && Promotable(created, 1, OTHER_SLUG, SOMEBODY)
    ensures WantedSlug(created, 1, NO_OVERRIDES) != WantedSlug(created, 1, OTHER_SLUG)
  {
    CreationPasses();
    CreatedEntriesPass();
    PromotableWithoutRefs(created, 1, NO_OVERRIDES);
    PromotableWithoutRefs(created, 1, OTHER_SLUG);
    assert "a" != "b";
  }

  lemma CreationStep(db: Db, f: CandidateFields)
    ensures Step(db, CreateCandidate(f, NO_LOG, Absent)) == Commit(db, CreateCandidateChange(db, f, NO_LOG, Absent))
  {
  }

  lemma CreatedCandidate(created: Db)
    requires created == Step(EMPTY_DB, CreateCandidate(ONE_CANDIDATE, NO_LOG, Absent))
    ensures WellFormed.WellFormed(created) && created.events == []
    ensures Promotable(created, 1, NO_OVERRIDES, SOMEBODY) && Promotable(created, 1, OTHER_SLUG, SOMEBODY)
    ensures WantedSlug(created, 1, NO_OVERRIDES) != WantedSlug(created, 1, OTHER_SLUG)
  {
    EmptyIsWellFormed();
    StepKeepsWellFormed(EMPTY_DB, CreateCandidate(ONE_CANDIDATE, NO_LOG, Absent));
    NextIdIs(EMPTY_DB.candidates.Keys, 1);
    CreationPasses();
    CreationStep(EMPTY_DB, ONE_CANDIDATE);
    CreationLeaves(EMPTY_DB, ONE_CANDIDATE, created);
    CreatedIsPromotable(created);
  }

  lemma PromotedTwiceFrom(dbs: seq<Db>, id: int, f: EntryFields, g: EntryFields, who: ActorFields)
    requires |dbs| == 5 && WellFormed.WellFormed(dbs[1]) && dbs[1].events == []
    requires Promotable(dbs[1], id, f, who) && Promotable(dbs[1], id, g, who) && WantedSlug(dbs[1], id, f) != WantedSlug(dbs[1], id, g)
    requires dbs[2] == Step(dbs[1], Promote(id, f, who)) && dbs[3] == Step(dbs[2], Claim(id, who))
    requires dbs[4] == Step(dbs[3], Promote(id, g, who))
    ensures |dbs[4].events| == 3 && Promotes(dbs[4].events[0], id) && Promotes(dbs[4].events[2], id)
  {
    var d1, d2, d3, d4 := dbs[1], dbs[2], dbs[3], dbs[4];
    assert |d1.events| == 0;
    PromotedTwice(d1, d2, d3, d4, id, f, g, who);
  }

  const CREATE := CreateCandidate(ONE_CANDIDATE, NO_LOG, Absent)

  /** A run in which one candidate is promoted twice. */
  lemma SomeRunPromotesTwice() returns (dbs: seq<Db>, requests: seq<Request>)
    ensures IsRun(dbs, requests)
    ensures requests == [CREATE, Promote(1, NO_OVERRIDES, SOMEBODY), Claim(1, SOMEBODY), Promote(1, OTHER_SLUG, SOMEBODY)]
    ensures |dbs[4].events| == 3 && Promotes(dbs[4].events[0], 1) && Promotes(dbs[4].events[2], 1)
  {
    requests := [CREATE, Promote(1, NO_OVERRIDES, SOMEBODY), Claim(1, SOMEBODY), Promote(1, OTHER_SLUG, SOMEBODY)];
    dbs := FourSteps(CREATE, Promote(1, NO_OVERRIDES, SOMEBODY), Claim(1, SOMEBODY), Promote(1, OTHER_SLUG, SOMEBODY));
    CreatedCandidate(dbs[1]);
    PromotedTwiceFrom(dbs, 1, NO_OVERRIDES, OTHER_SLUG, SOMEBODY);
  }

  // ---- Captures without a slug.

  const SAMPLE := CapturePayload(
    Absent, false, Absent, Val("m"), Absent, Absent, NO_LOG, Absent, Absent, Absent, Absent, NO_OVERRIDES.(title := Val("t")))

  lemma ShortTextHasNoSecret(s: string)
    requires |s| <= 2
    ensures !HasSecret(s)
  {
    forall k | 0 <= k < |SECRET_MARKERS|
      ensures !Contains(Lower(s), Lower(SECRET_MARKERS[k]))
    {
      assert k == 0 || k == 1 || k == 2 || k == 3 || k == 4 || k == 5;
      assert |SECRET_MARKERS[k]| >= 3;
    }
  }

  lemma SampleText()
    ensures Trim("t" + "t" + "") == "tt" && !HasSecret("tt")
    ensures CapturedBody(SAMPLE.entry.body, SAMPLE.log) == "" && CapturedTitle(SAMPLE) == "t" && CapturedSummary(SAMPLE) == "t"
  {
    assert "t" + "t" + "" == "tt";
    assert TrimLeft("tt") == "tt" && TrimRight("tt") == "tt";
    ShortTextHasNoSecret("tt");
    assert Truncate("", 180) == "";
  }

  lemma SampleIsEligible()
    ensures AutoPromotes(SAMPLE) && Slugs.GivesNoSlug(SAMPLE) && Mode(SAMPLE) == PermissiveCandidates
  {
    assert Lower("") == "";
  }

  lemma SampleMakesACandidate()
    ensures EarlyDecision(SAMPLE).None?
    ensures CheckEntry(Slugs.WantedEntry(SAMPLE)) && RefItems(Slugs.CapturedRow(SAMPLE)) == []
    ensures Slugs.CapturedRow(SAMPLE).slug.None?
    ensures forall id :: CheckCapture(Slugs.CapturedLog(SAMPLE, id))
  {
    SampleText();
    SampleIsEligible();
    var f := CandidateOf(SAMPLE);
    assert OrElse(f.title, "") + OrElse(f.summary, "") + OrElse(f.body, "") == "t" + "t" + "";
    assert FilterReason(f).None?;
    assert NewCandidate(f).Ok?;
  }

  /** A capture without a slug that nothing but a taken slug can refuse. */
  ghost predicate Harmless(p: CapturePayload) {
    && EarlyDecision(p).None? && AutoPromotes(p) && Slugs.GivesNoSlug(p)
    && CheckEntry(Slugs.WantedEntry(p)) && RefItems(Slugs.CapturedRow(p)) == []
    && (forall id :: CheckCapture(Slugs.CapturedLog(p, id)))
  }

  lemma SampleIsHarmless()
    ensures Harmless(SAMPLE) && AutoPromoter(SAMPLE).name == "m"
    ensures Slugs.CapturedRow(SAMPLE).slug.None?
  {
    SampleIsEligible();
    SampleMakesACandidate();
  }

  lemma NoRefsFit(db: Db, p: CapturePayload)
    requires Harmless(p)
    ensures Slugs.RefsFit(db, p)
  {
    assert RefObjects([]) == [];
  }

  /** What the first capture leaves. */
  ghost predicate AfterFirst(p: CapturePayload, db: Db)
    requires EarlyDecision(p).None?
  {
    && 1 in db.candidates && (forall id :: id in db.candidates ==> id == 1)
    && db.candidates[1] == Slugs.CapturedRow(p).(status := Promoted, updatedBy := AutoPromoter(p).name)
    && db.entries == map[1 := Slugs.WantedEntry(p)] && SlugTaken(db.entries, Slugs.FallbackSlug())
    && |db.events| == 1 && Promotes(db.events[0], 1) && |db.captures| == 1
  }

  lemma NothingPlus<K, V>(m: map<K, V>)
    ensures map[] + m == m
  {
  }

  /** What an auto-promotion leaves of a database without rows. */
  lemma FirstAutoPromotion(p: CapturePayload, db: Db, c: Change, first: Db)
    requires EarlyDecision(p).None? && Slugs.AutoPromoted(db, p, c) && first == Apply(db, c)
    requires db.candidates == map[] && db.entries == map[] && db.events == [] && db.captures == []
    ensures first.candidates == map[1 := Slugs.CapturedRow(p).(status := Promoted, updatedBy := AutoPromoter(p).name)]
    ensures first.entries == map[1 := Slugs.WantedEntry(p)]
    ensures |first.events| == 1 && Promotes(first.events[0], 1) && |first.captures| == 1
  {
    ChangeLeaves(db, c);
    NothingPlus<int, Candidate>(c.candidates);
    NothingPlus<int, Entry>(c.entries);
    NextIdIs(db.candidates.Keys, 1);
    NextIdIs(db.entries.Keys, 1);
    assert first.events == c.events && first.captures == c.captures;
  }

  lemma FirstIsAutoPromoted(p: CapturePayload, db: Db)
    requires Harmless(p) && db.entries == map[]
    ensures CaptureChange(db, p).Ok? && CaptureChange(db, p).value.entries != map[]
    ensures Slugs.AutoPromoted(db, p, CaptureChange(db, p).value)
  {
    NoRefsFit(db, p);
    assert Slugs.EntryFits(db, p);
    Slugs.AutoPromotionOutcome(db, p);
  }

  lemma OneRow<V>(m: map<int, V>, v: V)
    requires m == map[1 := v]
    ensures 1 in m && m[1] == v && forall id :: id in m ==> id == 1
  {
  }

  lemma FirstRows(p: CapturePayload, first: Db)
    requires Harmless(p)
    requires first.candidates == map[1 := Slugs.CapturedRow(p).(status := Promoted, updatedBy := AutoPromoter(p).name)]
    requires first.entries == map[1 := Slugs.WantedEntry(p)]
    requires |first.events| == 1 && Promotes(first.events[0], 1) && |first.captures| == 1
    ensures AfterFirst(p, first)
  {
    OneRow(first.candidates, Slugs.CapturedRow(p).(status := Promoted, updatedBy := AutoPromoter(p).name));
    OneRow(first.entries, Slugs.WantedEntry(p));
    Slugs.WithoutASlugTheFallback(p);
  }

  /** The first such capture is promoted. */
  lemma FirstCapture(p: CapturePayload, db: Db, first: Db)
    requires Harmless(p) && first == Commit(db, CaptureChange(db, p))
    requires db.candidates == map[] && db.entries == map[] && db.events == [] && db.captures == []
    ensures CaptureChange(db, p).Ok? && CaptureChange(db, p).value.entries != map[]
    ensures AfterFirst(p, first)
  {
    FirstIsAutoPromoted(p, db);
    FirstAutoPromotion(p, db, CaptureChange(db, p).value, first);
    FirstRows(p, first);
  }

  /** After it, any other one stays pending, with a captured and an errored event. */
  lemma NextCapture(p: CapturePayload, db: Db, next: Db)
    requires Harmless(p) && next == Commit(db, CaptureChange(db, p)) && SlugTaken(db.entries, Slugs.FallbackSlug())
    ensures var id := NextId(db.candidates.Keys);
      && next.entries == db.entries && next.events == db.events
      && next.candidates == db.candidates[id := Slugs.CapturedRow(p)] && Slugs.CapturedRow(p).status == Pending
      && |next.captures| == |db.captures| + 2 && next.captures[|db.captures|].decision == Captured
      && next.captures[|db.captures| + 1].decision == Errored
  {
    Slugs.WithoutASlugTheFallback(p);
    Slugs.AutoPromotionOutcome(db, p);
    var c := CaptureChange(db, p).value;
    ChangeLeaves(db, c);
    Refinement.PlusNothing(db.entries);
    Refinement.PutIsPlus(db.candidates, NextId(db.candidates.Keys), Slugs.CapturedRow(p));
  }

  lemma SecondRow(rows: map<int, Candidate>, row: Candidate)
    requires 1 in rows && forall id :: id in rows ==> id == 1
    ensures NextId(rows.Keys) == 2 && 1 in rows[2 := row] && rows[2 := row][1] == rows[1] && rows[2 := row][2] == row
  {
    assert 2 - 1 in rows.Keys && forall id :: id in rows.Keys ==> id < 2;
    NextIdIs(rows.Keys, 2);
  }

  lemma SecondCapture(p: CapturePayload, first: Db, second: Db)
    requires Harmless(p) && second == Commit(first, CaptureChange(first, p)) && SlugTaken(first.entries, Slugs.FallbackSlug())
    requires 1 in first.candidates && forall id :: id in first.candidates ==> id == 1
    ensures second.entries == first.entries && second.events == first.events
    ensures 1 in second.candidates && second.candidates[1] == first.candidates[1]
    ensures 2 in second.candidates && second.candidates[2].status == Pending
    ensures |second.captures| == |first.captures| + 2
    ensures second.captures[|first.captures|].decision == Captured && second.captures[|first.captures| + 1].decision == Errored
  {
    SecondRow(first.candidates, Slugs.CapturedRow(p));
    NextCapture(p, first, second);
  }

  lemma {:induction false} DecimalStarts(n: int)
    ensures Decimal(n) != "" && Decimal(n)[0] in "-0123456789"
    decreases if n < 0 then 1 - n else n
  {
    if n < 0 {
      DecimalStarts(-n);
    } else if n >= 10 {
      DecimalStarts(n / 10);
    }
  }

  /** The slug made from an id is never the one made without. */
  lemma IdSlugIsNotTheFallback(id: int)
    ensures "candidate-" + Decimal(id) != Slugs.FallbackSlug()
  {
    DecimalStarts(id);
    assert ("candidate-" + Decimal(id))[10] == Decimal(id)[0];
    assert Slugs.FallbackSlug()[10] == '<';
  }

  lemma CapturedRowMakesAnEntry(p: CapturePayload)
    requires EarlyDecision(p).None?
    ensures CheckEntry(PromotedEntry(Slugs.CapturedRow(p).(status := Claimed, updatedBy := "m"), Some(1), NO_OVERRIDES, "m"))
  {
  }

  /** An auto-promoted candidate, claimed again, is promotable without a slug, because now it has an
      id to make one from. */
  lemma ClaimedCaptureIsPromotable(p: CapturePayload, claimed: Db)
    requires Harmless(p) && Slugs.CapturedRow(p).slug.None?
    requires 1 in claimed.candidates && claimed.candidates[1] == Slugs.CapturedRow(p).(status := Claimed, updatedBy := "m")
    requires claimed.entries == map[1 := Slugs.WantedEntry(p)]
    ensures Promotable(claimed, 1, NO_OVERRIDES, SOMEBODY)
  {
    var row := Slugs.CapturedRow(p);
    Slugs.WithoutASlugTheFallback(p);
    IdSlugIsNotTheFallback(1);
    assert RefObjects([]) == [];
    CapturedRowMakesAnEntry(p);
    assert OwnSlug(claimed.candidates[1], 1) == "candidate-" + Decimal(1);
  }

  lemma CaptureStep(db: Db, p: CapturePayload)
    ensures Step(db, CaptureMemory(p)) == Commit(db, CaptureChange(db, p))
  {
  }

  lemma FirstPhase(p: CapturePayload, first: Db)
    requires Harmless(p) && first == Step(EMPTY_DB, CaptureMemory(p))
    ensures WellFormed.WellFormed(first) && AfterFirst(p, first)
  {
    EmptyIsWellFormed();
    StepKeepsWellFormed(EMPTY_DB, CaptureMemory(p));
    CaptureStep(EMPTY_DB, p);
    FirstCapture(p, EMPTY_DB, first);
  }

  lemma FirstIsPromoted(p: CapturePayload)
    requires Harmless(p)
    ensures Slugs.PromotesWithoutSlug(EMPTY_DB, CaptureMemory(p)) && PromotesPlainly(EMPTY_DB, CaptureMemory(p), 1)
  {
    FirstCapture(p, EMPTY_DB, Commit(EMPTY_DB, CaptureChange(EMPTY_DB, p)));
    NextIdIs(EMPTY_DB.candidates.Keys, 1);
  }

  lemma PlainlyPromotable(db: Db, id: int, who: ActorFields)
    requires ChecksPass(db.candidates) && Promotable(db, id, NO_OVERRIDES, who)
    ensures PromotesPlainly(db, Promote(id, NO_OVERRIDES, who), id)
  {
    PromotionSucceeds(db, id, NO_OVERRIDES, who);
  }

  lemma SecondPhase(p: CapturePayload, first: Db, second: Db)
    requires Harmless(p) && WellFormed.WellFormed(first) && AfterFirst(p, first) && second == Step(first, CaptureMemory(p))
    ensures WellFormed.WellFormed(second) && second.entries == first.entries && second.events == first.events
    ensures 1 in second.candidates && second.candidates[1] == first.candidates[1]
    ensures 2 in second.candidates && second.candidates[2].status == Pending
    ensures |second.captures| == 3 && second.captures[1].decision == Captured && second.captures[2].decision == Errored
  {
    StepKeepsWellFormed(first, CaptureMemory(p));
    CaptureStep(first, p);
    SecondCapture(p, first, second);
  }

  lemma ThirdPhase(p: CapturePayload, second: Db, claimed: Db, again: Db)
    requires Harmless(p) && Slugs.CapturedRow(p).slug.None? && WellFormed.WellFormed(second)
    requires 1 in second.candidates && second.candidates[1] == Slugs.CapturedRow(p).(status := Promoted, updatedBy := "m")
    requires second.entries == map[1 := Slugs.WantedEntry(p)] && |second.events| == 1 && Promotes(second.events[0], 1)
    requires claimed == Step(second, Claim(1, SOMEBODY)) && again == Step(claimed, Promote(1, NO_OVERRIDES, SOMEBODY))
    ensures |again.events| == 3 && Promotes(again.events[0], 1) && Promotes(again.events[2], 1)
    ensures PromotesPlainly(claimed, Promote(1, NO_OVERRIDES, SOMEBODY), 1)
  {
    ClaimLeaves(second, 1, SOMEBODY);
    StepKeepsWellFormed(second, Claim(1, SOMEBODY));
    ClaimedCaptureIsPromotable(p, claimed);
    PlainlyPromotable(claimed, 1, SOMEBODY);
    PromotionLeaves(claimed, 1, NO_OVERRIDES, SOMEBODY);
    assert claimed.events[0] == claimed.events[..1][0];
    assert again.events[0] == again.events[..2][0];
  }

  /** Two captures of one payload, a claim of the first candidate and its second promotion. */
  lemma CapturedTwice(p: CapturePayload, d1: Db, d2: Db, d3: Db, d4: Db)
    requires Harmless(p) && AutoPromoter(p).name == "m" && Slugs.CapturedRow(p).slug.None?
    requires d1 == Step(EMPTY_DB, CaptureMemory(p)) && d2 == Step(d1, CaptureMemory(p))
    requires d3 == Step(d2, Claim(1, SOMEBODY)) && d4 == Step(d3, Promote(1, NO_OVERRIDES, SOMEBODY))
    ensures PromotesPlainly(d3, Promote(1, NO_OVERRIDES, SOMEBODY), 1)
    ensures 2 in d2.candidates && d2.candidates[2].status == Pending && d2.entries == d1.entries
    ensures |d2.captures| == 3 && d2.captures[1].decision == Captured && d2.captures[2].decision == Errored
    ensures |d4.events| == 3 && Promotes(d4.events[0], 1) && Promotes(d4.events[2], 1)
  {
    FirstPhase(p, d1);
    SecondPhase(p, d1, d2);
    ThirdPhase(p, d2, d3, d4);
  }

  /** A run with two captures that give no slug: the first is promoted, the second is left pending,
      and the first, once claimed, is promoted a second time without giving a slug. */
  lemma SomeRunLeavesACapturePending() returns (dbs: seq<Db>, requests: seq<Request>)
    ensures IsRun(dbs, requests)
    ensures requests == [CaptureMemory(SAMPLE), CaptureMemory(SAMPLE), Claim(1, SOMEBODY), Promote(1, NO_OVERRIDES, SOMEBODY)]
    ensures Slugs.PromotesWithoutSlug(dbs[0], requests[0])
    ensures PromotesPlainly(dbs[0], requests[0], 1) && PromotesPlainly(dbs[3], requests[3], 1)
    ensures 2 in dbs[2].candidates && dbs[2].candidates[2].status == Pending && dbs[2].entries == dbs[1].entries
    ensures |dbs[2].captures| == 3 && dbs[2].captures[1].decision == Captured && dbs[2].captures[2].decision == Errored
    ensures |dbs[4].events| == 3 && Promotes(dbs[4].events[0], 1) && Promotes(dbs[4].events[2], 1)
  {
    SampleIsHarmless();
    requests := [CaptureMemory(SAMPLE), CaptureMemory(SAMPLE), Claim(1, SOMEBODY), Promote(1, NO_OVERRIDES, SOMEBODY)];
    dbs := FourSteps(CaptureMemory(SAMPLE), CaptureMemory(SAMPLE), Claim(1, SOMEBODY), Promote(1, NO_OVERRIDES, SOMEBODY));
    FirstIsPromoted(SAMPLE);
    CapturedTwice(SAMPLE, dbs[1], dbs[2], dbs[3], dbs[4]);
  }
}
