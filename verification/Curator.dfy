/** The proposal-only curator: the queue it reads, the proposals it makes, and what repeated,
    possibly failing, passes can and cannot do. */
module Curator {
  import opened Base
  import opened Schema
  import opened Rows
  import opened Text
  import opened Changes
  import opened WellFormed
  import opened History
  import opened Proposals
  import Service

  // ---- The curation queue.

  lemma {:induction false} HasSmallest(ids: set<int>)
    requires ids != {}
    ensures exists k :: k in ids && forall j :: j in ids ==> k <= j
    decreases |ids|
  {
    HasMember(ids);
    var x :| x in ids;
    var rest := ids - {x};
    if rest == {} {
      assert ids == {x};
    } else {
      HasSmallest(rest);
      var k :| k in rest && forall j :: j in rest ==> k <= j;
      var least := if k <= x then k else x;
      assert least in ids;
      forall j | j in ids
        ensures least <= j
      {
        assert j == x || j in rest;
      }
    }
  }

  ghost function Least(ids: set<int>): (k: int)
    requires ids != {}
    ensures k in ids && forall j :: j in ids ==> k <= j
  {
    HasSmallest(ids);
    var k :| k in ids && forall j :: j in ids ==> k <= j;
    k
  }

  /** A set of ids in ascending order. */
  ghost function Ascending(ids: set<int>): (r: seq<int>)
    ensures forall k :: k in r <==> k in ids
    ensures forall i, j :: 0 <= i < j < |r| ==> r[i] < r[j]
    decreases |ids|
  {
    if ids == {} then [] else [Least(ids)] + Ascending(ids - {Least(ids)})
  }

  lemma PrefixMembers(ids: seq<int>, n: int)
    requires 0 <= n <= |ids|
    ensures forall k :: k in ids[..n] ==> k in ids
  {
    forall k | k in ids[..n]
      ensures k in ids
    {
      var i :| 0 <= i < n && ids[..n][i] == k;
      assert ids[i] == k;
    }
  }

  function WaitingIds(candidates: map<int, Candidate>): set<int> {
    set id | id in candidates && Open(candidates[id].status)
  }

  /** The candidates the queue lists: pending and claimed ones by id, cut to the limit. */
  ghost function QueueIds(db: Db, limit: nat): (r: seq<int>)
    ensures forall k :: k in r ==> k in db.candidates && Open(db.candidates[k].status)
    ensures Distinct(r)
  {
    var all := Ascending(WaitingIds(db.candidates));
    PrefixMembers(all, if limit < |all| then limit else |all|);
    if limit < |all| then all[..limit] else all
  }

  /** The proposals about a candidate that still wait for a decision. */
  function Active(proposals: map<int, Proposal>, cid: int): set<int> {
    set id | id in proposals && AwaitsDecision(proposals[id]) && cid in proposals[id].candidateIds
  }

  datatype QueueState = ClaimedState | NeedsDecision | NeedsProposal

  function QueueStateOf(db: Db, cid: int): QueueState
    requires cid in db.candidates
  {
    if db.candidates[cid].status == Claimed then QueueState.ClaimedState
    else if Active(db.proposals, cid) != {} then NeedsDecision
    else NeedsProposal
  }

  // ---- Deterministic proposals.

  datatype CuratorAction = ToPromote | ToReject | ToDefer | OtherAction(text: string)

  datatype Config = Config(
    action: CuratorAction, wanted: seq<int>, limit: int, identity: string, kind: Option<ProposerKind>, reason: string,
    dryRun: bool)

  function EffectiveLimit(cfg: Config): nat {
    if cfg.limit <= 0 then 50 else cfg.limit
  }

  /** Ids that are not positive are ignored; no ids at all means every candidate. */
  predicate Wants(cfg: Config, id: int) {
    (forall k :: k in cfg.wanted ==> k <= 0) || id in cfg.wanted
  }

  /** The entry a promote proposal spells out; only an empty kind is not copied as it is. */
  function ProposedEntry(c: Candidate, id: int): EntryFields {
    NO_OVERRIDES.(
      slug := Val(if c.slug.Some? && c.slug.value != "" then c.slug.value else "candidate-" + Decimal(id)),
      title := Val(c.title), summary := Val(c.summary), body := Val(c.body),
      kind := Val(if c.kind == "" then "fact" else c.kind),
      labels := LabelsAsFields(c.labels), confidence := Val(SourceBacked), stability := Val(Evolving))
  }

  const DEFAULT_REASON := "deterministic curator proposal"

  const DEFAULT_IDENTITY := "den-memory-curator"

  function FilledText(text: string, fallback: string): string {
    if Trim(text) == "" then fallback else Trim(text)
  }

  function ProposalFor(c: Candidate, id: int, cfg: Config): ProposalFields {
    var kind := if cfg.kind.Some? then cfg.kind.value else DeterministicCli;
    var base := ProposalFields(
      Absent, Absent, Val(FilledText(cfg.identity, DEFAULT_IDENTITY)), Val(kind), Val(Unverified),
      Val(FilledText(cfg.reason, DEFAULT_REASON)), Absent, [id], Absent, Absent, Absent);
    match cfg.action
    case ToPromote =>
      base.(kind := Val(PromoteCandidate), confidence := Val(SourceBacked),
            entry := Val(ProposedEntry(c, id)), action := Val(Some(ProposedEntry(c, id))))
    case ToReject => base.(kind := Val(RejectCandidate), action := Val(Some(NO_OVERRIDES)))
    case ToDefer => base.(kind := Val(Defer), status := Val(NeedsHuman), action := Val(Some(NO_OVERRIDES)))
    case OtherAction(_) => base
  }

  // ---- One pass.

  /** The queue members a pass proposes for. */
  ghost function SelectedFrom(db: Db, cfg: Config, ids: seq<int>): seq<int>
    requires forall k :: k in ids ==> k in db.candidates
  {
    if ids == [] then []
    else
      var last := ids[|ids| - 1];
      SelectedFrom(db, cfg, ids[..|ids| - 1])
      + (if QueueStateOf(db, last) == NeedsProposal && Wants(cfg, last) then [last] else [])
  }

  ghost function Selected(db: Db, cfg: Config): seq<int> {
    SelectedFrom(db, cfg, QueueIds(db, EffectiveLimit(cfg)))
  }

  /** One proposal posted. */
  ghost function PostTo(db: Db, f: ProposalFields): Db {
    Commit(db, CreateProposalChange(db, f))
  }

  lemma PostIsAStep(db: Db, f: ProposalFields)
    ensures PostTo(db, f) == Step(db, CreateProposal(f))
  {
  }

  /** The database after proposals for `ids`, made from the rows `rows`, were posted in order. */
  ghost function Posted(db: Db, rows: map<int, Candidate>, ids: seq<int>, cfg: Config): Db
    requires forall k :: k in ids ==> k in rows
  {
    if ids == [] then db
    else
      var last := ids[|ids| - 1];
      PostTo(Posted(db, rows, ids[..|ids| - 1], cfg), ProposalFor(rows[last], last, cfg))
  }

  /** A connection may fail before a request reaches the service or after it was served. */
  datatype Fault = NoFault | RequestLost(at: nat) | ResponseLost(at: nat)

  /** `posted` requests reached the service; `ok` says the pass reported success. */
  datatype PassResult = PassResult(selected: seq<int>, created: seq<int>, posted: nat, ok: bool)

  datatype QueueItem = QueueItem(id: int, row: Candidate, state: QueueState)

  // ---- Facts about the definitions.

  lemma {:induction false} SelectedAreQueued(db: Db, cfg: Config, ids: seq<int>)
    requires forall k :: k in ids ==> k in db.candidates
    ensures forall k :: k in SelectedFrom(db, cfg, ids) <==>
      k in ids && QueueStateOf(db, k) == NeedsProposal && Wants(cfg, k)
    ensures Distinct(ids) ==> Distinct(SelectedFrom(db, cfg, ids))
  {
    if ids != [] {
      var rest, last := ids[..|ids| - 1], ids[|ids| - 1];
      assert ids == rest + [last];
      assert forall k :: k in rest ==> k in ids;
      SelectedAreQueued(db, cfg, rest);
    }
  }

  /** The ids below k. */
  ghost function Below(ids: set<int>, k: int): set<int> {
    set j | j in ids && j < k
  }

  lemma NothingBetween(list: seq<int>, ids: set<int>, i: nat)
    requires 0 < i < |list| && (forall m, n :: 0 <= m < n < |list| ==> list[m] < list[n])
    requires forall k :: k in ids <==> k in list
    ensures Below(ids, list[i]) == Below(ids, list[i - 1]) + {list[i - 1]}
  {
    forall k | k in Below(ids, list[i])
      ensures k in Below(ids, list[i - 1]) + {list[i - 1]}
    {
      var m :| 0 <= m < |list| && list[m] == k;
      assert m < i;
    }
  }

  /** The i-th of ascending ids has i of them below it. */
  lemma {:induction false} PlaceCounts(list: seq<int>, ids: set<int>, i: nat)
    requires i < |list| && (forall m, n :: 0 <= m < n < |list| ==> list[m] < list[n])
    requires forall k :: k in ids <==> k in list
    ensures |Below(ids, list[i])| == i
    decreases i
  {
    if i == 0 {
      assert Below(ids, list[0]) == {};
    } else {
      PlaceCounts(list, ids, i - 1);
      assert list[i - 1] in ids && list[i - 1] !in Below(ids, list[i - 1]);
      NothingBetween(list, ids, i);
    }
  }

  /** A candidate is queued when it is open and fewer than `limit` open ones have a lower id. */
  lemma QueuedAre(db: Db, limit: nat, k: int)
    ensures k in QueueIds(db, limit) <==>
      k in db.candidates && Open(db.candidates[k].status) && |Below(WaitingIds(db.candidates), k)| < limit
  {
    var all := Ascending(WaitingIds(db.candidates));
    if k in all {
      var i :| 0 <= i < |all| && all[i] == k;
      PlaceCounts(all, WaitingIds(db.candidates), i);
      if limit < |all| && i < limit {
        assert all[..limit][i] == k;
      }
    }
  }

  /** Some proposal about the candidate still waits for a decision. */
  ghost predicate Awaited(db: Db, k: int) {
    exists p :: p in db.proposals && k in db.proposals[p].candidateIds
      && (db.proposals[p].status == Proposed || db.proposals[p].status == NeedsHuman)
  }

  /** The open candidates with a lower id. */
  ghost function Earlier(db: Db, k: int): set<int> {
    set j | j in db.candidates && (db.candidates[j].status == Pending || db.candidates[j].status == Claimed) && j < k
  }

  /** A pass selects a candidate exactly when it is pending, no proposal about it waits, it is wanted,
      or nothing is, and it is among the first open ones up to the limit. */
  lemma SelectionIs(db: Db, cfg: Config, k: int)
    ensures k in Selected(db, cfg) <==>
      && k in db.candidates && db.candidates[k].status == Pending && !Awaited(db, k)
      && (k in cfg.wanted || forall j :: j in cfg.wanted ==> j <= 0)
      && |Earlier(db, k)| < if cfg.limit <= 0 then 50 else cfg.limit
  {
    assert Earlier(db, k) == Below(WaitingIds(db.candidates), k);
    QueuedAre(db, EffectiveLimit(cfg), k);
    SelectedAreQueued(db, cfg, QueueIds(db, EffectiveLimit(cfg)));
    if Awaited(db, k) {
      var p :| p in db.proposals && k in db.proposals[p].candidateIds
        && (db.proposals[p].status == Proposed || db.proposals[p].status == NeedsHuman);
      assert p in Active(db.proposals, k);
    } else {
      HasMember(Active(db.proposals, k));
    }
  }

  lemma {:induction false} TrimRightOfTrimmed(s: string)
    requires s != "" && !IsSpace(s[0])
    ensures TrimRight(s) != "" && TrimRight(s)[0] == s[0] && TrimLeft(TrimRight(s)) == TrimRight(s)
    ensures TrimRight(TrimRight(s)) == TrimRight(s)
  {
    if IsSpace(s[|s| - 1]) {
      TrimRightOfTrimmed(s[..|s| - 1]);
    }
  }

  lemma {:induction false} TrimLeftStarts(s: string)
    ensures TrimLeft(s) != "" ==> !IsSpace(TrimLeft(s)[0])
  {
    if s != "" && IsSpace(s[0]) {
      TrimLeftStarts(s[1..]);
    }
  }

  lemma TrimTwice(s: string)
    ensures Trim(Trim(s)) == Trim(s)
  {
    TrimLeftStarts(s);
    if TrimLeft(s) != "" {
      TrimRightOfTrimmed(TrimLeft(s));
    }
  }

  lemma FilledTextIsFilled(text: string, fallback: string)
    requires fallback != "" && !IsSpace(fallback[0]) && !IsSpace(fallback[|fallback| - 1])
    ensures FilledText(text, fallback) != "" && Trim(FilledText(text, fallback)) != ""
  {
    TrimTwice(text);
  }

  /** What every deterministic proposal with a supported action looks like. */
  predicate Deterministic(f: ProposalFields, id: int, cfg: Config) {
    && f.candidateId.Absent? && f.candidateIds == [id] && f.targetEntry.Absent?
    && (f.kind == Val(PromoteCandidate) || f.kind == Val(RejectCandidate) || f.kind == Val(Defer))
    && (f.status.Absent? || f.status == Val(NeedsHuman))
    && (f.confidence == Val(Unverified) || f.confidence == Val(SourceBacked))
    && OrElse(f.proposer, "") != "" && Trim(OrElse(f.reason, "")) != ""
    && (f.proposerKind == if cfg.kind.Some? then Val(cfg.kind.value) else Val(DeterministicCli))
  }

  lemma ProposalsAreDeterministic(c: Candidate, id: int, cfg: Config)
    requires !cfg.action.OtherAction?
    ensures Deterministic(ProposalFor(c, id, cfg), id, cfg)
  {
    FilledTextIsFilled(cfg.reason, DEFAULT_REASON);
    FilledTextIsFilled(cfg.identity, DEFAULT_IDENTITY);
  }

  lemma IdsOfOne(id: int)
    requires id > 0
    ensures Unique(PositiveIds([0] + [id])) == [id]
  {
    assert ([0] + [id])[..1] == [0];
    assert PositiveIds([0]) == [] by { assert [0][..0] == []; }
    assert Unique([id]) == [id] by { assert [id][..0] == []; }
  }

  lemma NamesOne(f: ProposalFields, id: int)
    requires f.candidateId.Absent? && f.candidateIds == [id] && id > 0
    ensures NewProposal(f).candidateIds == [id]
  {
    IdsOfOne(id);
  }

  lemma DeterministicPasses(db: Db, f: ProposalFields, id: int, cfg: Config)
    requires Deterministic(f, id, cfg) && id in db.candidates && id > 0
    requires cfg.kind.Some? ==> !cfg.kind.value.OtherProposer?
    ensures ProposalVerdict(db.candidates, db.entries, f) == None
  {
    NamesOne(f, id);
    var p := NewProposal(f);
    assert AllStored(db.candidates, p.candidateIds);
    assert p.candidateIds != [];
    assert AwaitsDecision(p) && p.targetEntry.None?;
    assert CheckProposal(p);
  }

  /** The service accepts every deterministic proposal with a supported action and a known proposer kind. */
  lemma DeterministicIsAccepted(db: Db, c: Candidate, id: int, cfg: Config)
    requires id in db.candidates && id > 0
    requires !cfg.action.OtherAction? && (cfg.kind.Some? ==> !cfg.kind.value.OtherProposer?)
    ensures ProposalVerdict(db.candidates, db.entries, ProposalFor(c, id, cfg)) == None
  {
    ProposalsAreDeterministic(c, id, cfg);
    DeterministicPasses(db, ProposalFor(c, id, cfg), id, cfg);
  }

  lemma AcceptedPost(db: Db, f: ProposalFields)
    requires ProposalVerdict(db.candidates, db.entries, f).None?
    ensures CreateProposalChange(db, f) == Ok(NOTHING.(proposals := map[NextId(db.proposals.Keys) := NewProposal(f)]))
    ensures AwaitsDecision(NewProposal(f))
  {
  }

  /** Storing a proposal adds one row and nothing else. */
  lemma PostStores(db: Db, f: ProposalFields)
    ensures var after := PostTo(db, f);
      && Truth(after) == Truth(db)
      && (if ProposalVerdict(db.candidates, db.entries, f).None? then
            after.proposals == db.proposals[NextId(db.proposals.Keys) := NewProposal(f)] && AwaitsDecision(NewProposal(f))
          else after == db)
  {
    if ProposalVerdict(db.candidates, db.entries, f).None? {
      var row := map[NextId(db.proposals.Keys) := NewProposal(f)];
      AcceptedPost(db, f);
      Untouched(db, NOTHING.(proposals := row));
      assert db.proposals + row == db.proposals[NextId(db.proposals.Keys) := NewProposal(f)];
    }
  }

  /** A proposal of the curator names its candidate alone. */
  lemma PostNamesOne(c: Candidate, id: int, cfg: Config)
    requires id > 0
    ensures NewProposal(ProposalFor(c, id, cfg)).candidateIds == [id]
  {
    var f := ProposalFor(c, id, cfg);
    assert f.candidateId.Absent? && f.candidateIds == [id];
    NamesOne(f, id);
  }

  lemma ActiveAfterPost(proposals: map<int, Proposal>, pid: int, p: Proposal, id: int, cid: int)
    requires pid !in proposals && p.candidateIds == [id] && AwaitsDecision(p)
    ensures Active(proposals[pid := p], cid) == if cid == id then Active(proposals, cid) + {pid} else Active(proposals, cid)
  {
  }

  lemma PostAddsAtMostOne(db: Db, row: Candidate, id: int, cfg: Config, cid: int)
    requires id > 0
    ensures var after := PostTo(db, ProposalFor(row, id, cfg));
      && Truth(after) == Truth(db)
      && (cid != id ==> Active(after.proposals, cid) == Active(db.proposals, cid))
      && |Active(after.proposals, cid)| <= |Active(db.proposals, cid)| + 1
      && Active(db.proposals, cid) <= Active(after.proposals, cid)
  {
    var f := ProposalFor(row, id, cfg);
    PostStores(db, f);
    PostNamesOne(row, id, cfg);
    if ProposalVerdict(db.candidates, db.entries, f).None? {
      ActiveAfterPost(db.proposals, NextId(db.proposals.Keys), NewProposal(f), id, cid);
    }
  }

  /** What a row of posts leaves: the truth, and at most one more active proposal for each
      posted candidate; exactly one if every post is accepted. */
  lemma {:induction false} PostsAddAtMostOne(db: Db, rows: map<int, Candidate>, ids: seq<int>, cfg: Config, cid: int)
    requires forall k :: k in ids ==> k in rows && k > 0
    requires Distinct(ids)
    ensures var after := Posted(db, rows, ids, cfg);
      && Truth(after) == Truth(db)
      && (cid !in ids ==> Active(after.proposals, cid) == Active(db.proposals, cid))
      && |Active(after.proposals, cid)| <= |Active(db.proposals, cid)| + 1
      && Active(db.proposals, cid) <= Active(after.proposals, cid)
  {
    if ids != [] {
      var rest, last := ids[..|ids| - 1], ids[|ids| - 1];
      assert ids == rest + [last];
      assert forall k :: k in rest ==> k in ids;
      assert last in ids && last !in rest;
      PostsAddAtMostOne(db, rows, rest, cfg, cid);
      PostAddsAtMostOne(Posted(db, rows, rest, cfg), rows[last], last, cfg, cid);
    }
  }

  lemma SelectedNeed(db: Db, cfg: Config)
    requires WellFormed.WellFormed(db)
    ensures var ids := Selected(db, cfg);
      && Distinct(ids)
      && (forall k :: k in ids ==> k in db.candidates && k > 0 && Active(db.proposals, k) == {})
  {
    SelectedAreQueued(db, cfg, QueueIds(db, EffectiveLimit(cfg)));
  }

  // ---- Passes among other clients: whatever fails, no candidate collects proposals.

  ghost function Arrived(db: Db, cfg: Config, posted: nat): (r: seq<int>)
    ensures forall k :: k in r ==> k in Selected(db, cfg) && k in db.candidates
  {
    var ids := Selected(db, cfg);
    SelectedAreQueued(db, cfg, QueueIds(db, EffectiveLimit(cfg)));
    PrefixMembers(ids, if posted < |ids| then posted else |ids|);
    if posted < |ids| then ids[..posted] else ids
  }

  /** What a pass leaves of which `posted` posts arrived and nobody else interfered with. */
  ghost function AfterPass(db: Db, cfg: Config, posted: nat): Db {
    if cfg.dryRun then db else Posted(db, db.candidates, Arrived(db, cfg, posted), cfg)
  }

  /** The pass in progress: what it saw when it read the queue, and how many posts have arrived. */
  datatype Running = Running(cfg: Config, seen: Db, sent: nat)

  /** The service, the pass in progress, and the ids of the proposals made by passes so far. */
  datatype World = World(db: Db, pass: Option<Running>, made: set<int>)

  /** One request to the service: a pass reads the queue, giving up the pass before it; the pass in
      progress posts its next proposal; or somebody else asks for something. */
  datatype Turn = Queue(cfg: Config) | Post | Other(request: Request)

  /** The candidates the pass in progress has yet to propose for. */
  ghost function Remaining(w: World): (ids: seq<int>) {
    if w.pass.None? || w.pass.value.cfg.dryRun then []
    else
      var ids := Selected(w.pass.value.seen, w.pass.value.cfg);
      if w.pass.value.sent < |ids| then ids[w.pass.value.sent..] else []
  }

  lemma RemainingAreSelected(w: World)
    ensures Distinct(Remaining(w))
    ensures forall k :: k in Remaining(w) ==>
      k in Selected(w.pass.value.seen, w.pass.value.cfg) && k in w.pass.value.seen.candidates
  {
    if Remaining(w) != [] {
      var run := w.pass.value;
      SelectedAreQueued(run.seen, run.cfg, QueueIds(run.seen, EffectiveLimit(run.cfg)));
    }
  }

  ghost function AfterPost(w: World): World {
    if Remaining(w) == [] then w
    else
      RemainingAreSelected(w);
      var (run, id) := (w.pass.value, Remaining(w)[0]);
      var db := PostTo(w.db, ProposalFor(run.seen.candidates[id], id, run.cfg));
      World(db, Some(run.(sent := run.sent + 1)), w.made + (db.proposals.Keys - w.db.proposals.Keys))
  }

  ghost function AfterTurn(w: World, t: Turn): World {
    match t
    case Queue(cfg) => w.(pass := Some(Running(cfg, w.db, 0)))
    case Post => AfterPost(w)
    case Other(r) => w.(db := Step(w.db, r))
  }

  ghost function AfterPosts(w: World, n: nat): World {
    if n == 0 then w else AfterPost(AfterPosts(w, n - 1))
  }

  lemma PostedSnoc(db: Db, rows: map<int, Candidate>, ids: seq<int>, id: int, cfg: Config)
    requires forall k :: k in ids + [id] ==> k in rows
    requires forall k :: k in ids ==> k in rows
    ensures id in rows
    ensures Posted(db, rows, ids + [id], cfg) == PostTo(Posted(db, rows, ids, cfg), ProposalFor(rows[id], id, cfg))
  {
    assert (ids + [id])[..|ids|] == ids && (ids + [id])[|ids|] == id;
  }

  /** The next post of a pass: for the candidate at the position it has come to, as it saw that candidate. */
  lemma PostIsNext(w: World)
    requires Remaining(w) != []
    ensures var run := w.pass.value; var ids := Selected(run.seen, run.cfg);
      && run.sent < |ids| && Remaining(w) == ids[run.sent..] && ids[run.sent] in run.seen.candidates
      && AfterPost(w).db == PostTo(w.db, ProposalFor(run.seen.candidates[ids[run.sent]], ids[run.sent], run.cfg))
      && AfterPost(w).pass == Some(run.(sent := run.sent + 1))
  {
    RemainingAreSelected(w);
    var ids := Selected(w.pass.value.seen, w.pass.value.cfg);
    assert Remaining(w)[0] == ids[w.pass.value.sent];
  }

  lemma SomeRemain(w: World)
    requires w.pass.Some? && !w.pass.value.cfg.dryRun
    requires w.pass.value.sent < |Selected(w.pass.value.seen, w.pass.value.cfg)|
    ensures Remaining(w) != []
  {
  }

  lemma OneMoreArrives(db: Db, cfg: Config, n: nat)
    requires n < |Selected(db, cfg)| && !cfg.dryRun
    ensures var id := Selected(db, cfg)[n];
      && id in db.candidates
      && AfterPass(db, cfg, n + 1) == PostTo(AfterPass(db, cfg, n), ProposalFor(db.candidates[id], id, cfg))
  {
    var (ids, some) := (Selected(db, cfg), Arrived(db, cfg, n));
    assert Arrived(db, cfg, n + 1) == some + [ids[n]];
    PostedSnoc(db, db.candidates, some, ids[n], cfg);
  }

  /** The pass in progress has sent n posts, and nobody interrupted it. */
  ghost predicate Uninterrupted(w: World, seen: Db, cfg: Config, n: nat) {
    w.db == AfterPass(seen, cfg, n) && w.pass == Some(Running(cfg, seen, n))
  }

  lemma PostContinues(w: World, seen: Db, cfg: Config, n: nat)
    requires Uninterrupted(w, seen, cfg, n) && n < |Selected(seen, cfg)| && !cfg.dryRun
    ensures Uninterrupted(AfterPost(w), seen, cfg, n + 1)
  {
    SomeRemain(w);
    PostIsNext(w);
    OneMoreArrives(seen, cfg, n);
  }

  lemma PassBegins(w: World, cfg: Config)
    ensures Uninterrupted(AfterTurn(w, Queue(cfg)), w.db, cfg, 0)
  {
    assert Arrived(w.db, cfg, 0) == [];
  }

  lemma {:induction false} PostsContinue(start: World, seen: Db, cfg: Config, n: nat)
    requires Uninterrupted(start, seen, cfg, 0) && n <= |Selected(seen, cfg)| && !cfg.dryRun
    ensures Uninterrupted(AfterPosts(start, n), seen, cfg, n)
  {
    if n > 0 {
      PostsContinue(start, seen, cfg, n - 1);
      var before := AfterPosts(start, n - 1);
      PostContinues(before, seen, cfg, n - 1);
      assert AfterPosts(start, n) == AfterPost(before);
    }
  }

  /** A pass that nobody interrupts leaves what its turns leave. */
  lemma UninterruptedPass(w: World, cfg: Config, n: nat)
    requires n <= |Selected(w.db, cfg)| && (cfg.dryRun ==> n == 0)
    ensures AfterPosts(AfterTurn(w, Queue(cfg)), n).db == AfterPass(w.db, cfg, n)
  {
    var start := AfterTurn(w, Queue(cfg));
    PassBegins(w, cfg);
    if !cfg.dryRun {
      PostsContinue(start, w.db, cfg, n);
    }
  }

  ghost predicate Sane(w: World) {
    && WellFormed.WellFormed(w.db) && ProposalInvariant(w.db)
    && (w.pass.Some? ==> WellFormed.WellFormed(w.pass.value.seen))
  }

  lemma StepKeepsInvariants(db: Db, r: Request)
    requires WellFormed.WellFormed(db) && ProposalInvariant(db)
    ensures WellFormed.WellFormed(Step(db, r)) && ProposalInvariant(Step(db, r))
  {
    StepKeepsWellFormed(db, r);
    StepKeepsProposals(db, r);
  }

  lemma TurnKeepsSane(w: World, t: Turn)
    requires Sane(w)
    ensures Sane(AfterTurn(w, t))
  {
    match t {
      case Queue(_) =>
      case Other(r) => StepKeepsInvariants(w.db, r);
      case Post =>
        if Remaining(w) != [] {
          RemainingAreSelected(w);
          var (run, id) := (w.pass.value, Remaining(w)[0]);
          var f := ProposalFor(run.seen.candidates[id], id, run.cfg);
          PostIsAStep(w.db, f);
          StepKeepsInvariants(w.db, CreateProposal(f));
        }
    }
  }

  /** A run of turns from a sound database, with no pass in progress. */
  ghost predicate Turns(ws: seq<World>, turns: seq<Turn>) {
    && |ws| == |turns| + 1
    && Sane(ws[0]) && ws[0].pass.None? && ws[0].made == {}
    && (forall k {:trigger turns[k]} | 0 <= k < |turns| :: ws[k + 1] == AfterTurn(ws[k], turns[k]))
  }

  lemma {:induction false} TurnsKeepSane(ws: seq<World>, turns: seq<Turn>, k: nat)
    requires Turns(ws, turns) && k < |ws|
    ensures Sane(ws[k])
  {
    if k > 0 {
      TurnsKeepSane(ws, turns, k - 1);
      TurnKeepsSane(ws[k - 1], turns[k - 1]);
    }
  }

  lemma SmallerSet(a: set<int>, b: set<int>)
    requires a <= b
    ensures |a| <= |b|
  {
    assert b == a + (b - a);
  }

  lemma ProposalStays(db: Db, r: Request, id: int)
    requires ProposalInvariant(db) && id in db.proposals
    ensures id in Step(db, r).proposals
    ensures Step(db, r).proposals[id].candidateIds == db.proposals[id].candidateIds
    ensures !AwaitsDecision(db.proposals[id]) ==> Step(db, r).proposals[id] == db.proposals[id]
  {
    StepKeepsProposals(db, r);
  }

  /** When a pass reads the queue, nothing is active for what it selects. */
  lemma QueuedNeed(w: World, cfg: Config)
    requires Sane(w)
    ensures forall k :: k in Remaining(AfterTurn(w, Queue(cfg))) ==> Active(w.db.proposals, k) == {}
  {
    SelectedNeed(w.db, cfg);
  }

  lemma RestIsDistinct(ids: seq<int>, n: nat)
    requires n < |ids| && Distinct(ids)
    ensures ids[n] !in ids[n + 1..] && (if n + 1 < |ids| then ids[n + 1..] else []) == ids[n..][1..]
  {
  }

  /** After a post its candidate is no longer waiting for one. */
  lemma NextPost(w: World) returns (id: int, row: Candidate)
    requires Sane(w) && Remaining(w) != []
    ensures id > 0 && id == Remaining(w)[0] && Remaining(AfterPost(w)) == Remaining(w)[1..] && id !in Remaining(w)[1..]
    ensures AfterPost(w).db == PostTo(w.db, ProposalFor(row, id, w.pass.value.cfg))
  {
    var run := w.pass.value;
    PostIsNext(w);
    SelectedNeed(run.seen, run.cfg);
    RestIsDistinct(Selected(run.seen, run.cfg), run.sent);
    id := Remaining(w)[0];
    row := run.seen.candidates[id];
    assert id in Selected(run.seen, run.cfg);
  }

  // ---- Nobody else proposes.

  /** At most n active proposals for the candidate, and none while a pass is about to propose for it. */
  ghost predicate AtMost(w: World, cid: int, n: nat) {
    |Active(w.db.proposals, cid)| <= n && (cid in Remaining(w) ==> Active(w.db.proposals, cid) == {})
  }

  lemma OthersActivateNothing(db: Db, r: Request, cid: int)
    requires ProposalInvariant(db) && !r.CreateProposal?
    ensures Active(Step(db, r).proposals, cid) <= Active(db.proposals, cid)
  {
    OthersAddNoProposal(db, r);
    var after := Step(db, r).proposals;
    forall id | id in Active(after, cid)
      ensures id in Active(db.proposals, cid)
    {
      ProposalStays(db, r, id);
    }
  }

  lemma TurnKeepsAtMost(w: World, t: Turn, cid: int, n: nat)
    requires Sane(w) && AtMost(w, cid, n) && n > 0
    requires t.Other? ==> !t.request.CreateProposal?
    ensures AtMost(AfterTurn(w, t), cid, n)
  {
    match t {
      case Queue(cfg) => QueuedNeed(w, cfg);
      case Other(r) =>
        OthersActivateNothing(w.db, r, cid);
        SmallerSet(Active(Step(w.db, r).proposals, cid), Active(w.db.proposals, cid));
      case Post =>
        if Remaining(w) != [] {
          var id, row := NextPost(w);
          PostAddsAtMostOne(w.db, row, id, w.pass.value.cfg, cid);
        }
    }
  }

  /** Over any sequence of passes, complete or cut short anywhere, with any requests of others that
      create no proposals before, after and in the midst of them, each candidate has at most one
      active proposal unless it had more to begin with. */
  lemma {:induction false} AtMostOneActiveProposal(ws: seq<World>, turns: seq<Turn>, k: nat, cid: int)
    requires Turns(ws, turns) && k < |ws|
    requires forall t :: t in turns && t.Other? ==> !t.request.CreateProposal?
    ensures var before := |Active(ws[0].db.proposals, cid)|; AtMost(ws[k], cid, if before == 0 then 1 else before)
  {
    if k > 0 {
      AtMostOneActiveProposal(ws, turns, k - 1, cid);
      assert turns[k - 1] in turns;
      TurnsKeepSane(ws, turns, k - 1);
      var before := |Active(ws[0].db.proposals, cid)|;
      TurnKeepsAtMost(ws[k - 1], turns[k - 1], cid, if before == 0 then 1 else before);
    }
  }

  // ---- With other proposers around: what the passes themselves add.

  /** Of the proposals made by passes at most one is active for the candidate, and none while a
      pass is about to propose for it. */
  ghost predicate OneActive(w: World, cid: int) {
    && w.made <= w.db.proposals.Keys
    && |Active(w.db.proposals, cid) * w.made| <= 1
    && (cid in Remaining(w) ==> Active(w.db.proposals, cid) * w.made == {})
  }

  /** A request of others activates none of the proposals made by passes. */
  lemma OtherKeepsMade(db: Db, r: Request, made: set<int>, cid: int)
    requires ProposalInvariant(db) && made <= db.proposals.Keys
    ensures made <= Step(db, r).proposals.Keys
    ensures Active(Step(db, r).proposals, cid) * made <= Active(db.proposals, cid) * made
  {
    forall id | id in made
      ensures id in Step(db, r).proposals
      ensures id in Active(Step(db, r).proposals, cid) ==> id in Active(db.proposals, cid)
    {
      ProposalStays(db, r, id);
    }
  }

  lemma OneMoreMade(active: set<int>, made: set<int>, known: set<int>, pid: int)
    requires active <= known && made <= known && pid !in known
    ensures active * (made + {pid}) == active * made
    ensures (active + {pid}) * (made + {pid}) == active * made + {pid}
    ensures (known + {pid}) - known == {pid}
  {
  }

  /** What one more active proposal for candidate `id`, made by a pass, does to candidate `cid`. */
  lemma AcceptedMakesOne(proposals: map<int, Proposal>, p: Proposal, id: int, made: set<int>, cid: int)
    requires made <= proposals.Keys && p.candidateIds == [id] && AwaitsDecision(p)
    ensures var pid := NextId(proposals.Keys);
      var all := made + (proposals[pid := p].Keys - proposals.Keys);
      && all <= proposals[pid := p].Keys
      && (cid != id ==> Active(proposals[pid := p], cid) * all == Active(proposals, cid) * made)
      && |Active(proposals[pid := p], cid) * all| <= |Active(proposals, cid) * made| + 1
  {
    var pid := NextId(proposals.Keys);
    ActiveAfterPost(proposals, pid, p, id, cid);
    OneMoreMade(Active(proposals, cid), made, proposals.Keys, pid);
    assert proposals[pid := p].Keys == proposals.Keys + {pid};
  }

  /** A post makes at most one proposal, and what it makes is active for its candidate. */
  lemma PostMakesOne(db: Db, row: Candidate, id: int, cfg: Config, made: set<int>, cid: int)
    requires id > 0 && made <= db.proposals.Keys
    ensures var after := PostTo(db, ProposalFor(row, id, cfg)).proposals;
      var all := made + (after.Keys - db.proposals.Keys);
      && all <= after.Keys
      && (cid != id ==> Active(after, cid) * all == Active(db.proposals, cid) * made)
      && |Active(after, cid) * all| <= |Active(db.proposals, cid) * made| + 1
  {
    var f := ProposalFor(row, id, cfg);
    PostStores(db, f);
    PostNamesOne(row, id, cfg);
    if ProposalVerdict(db.candidates, db.entries, f).None? {
      AcceptedMakesOne(db.proposals, NewProposal(f), id, made, cid);
    } else {
      assert made + {} == made;
    }
  }

  lemma TurnKeepsOneActive(w: World, t: Turn, cid: int)
    requires Sane(w) && OneActive(w, cid)
    ensures OneActive(AfterTurn(w, t), cid)
  {
    match t {
      case Queue(cfg) => QueuedNeed(w, cfg);
      case Other(r) =>
        OtherKeepsMade(w.db, r, w.made, cid);
        SmallerSet(Active(Step(w.db, r).proposals, cid) * w.made, Active(w.db.proposals, cid) * w.made);
      case Post =>
        if Remaining(w) != [] {
          var id, row := NextPost(w);
          PostMakesOne(w.db, row, id, w.pass.value.cfg, w.made, cid);
        }
    }
  }

  lemma {:induction false} TurnsKeepOneActive(ws: seq<World>, turns: seq<Turn>, k: nat, cid: int)
    requires Turns(ws, turns) && k < |ws|
    ensures OneActive(ws[k], cid)
  {
    if k > 0 {
      TurnsKeepOneActive(ws, turns, k - 1, cid);
      TurnsKeepSane(ws, turns, k - 1);
      TurnKeepsOneActive(ws[k - 1], turns[k - 1], cid);
    }
  }

  /** Whatever others do between the requests of the passes, creating proposals of their own
      included, at most one active proposal for a candidate was made by passes. */
  lemma PassesKeepOneActive(ws: seq<World>, turns: seq<Turn>, k: nat, cid: int)
    requires Turns(ws, turns) && k < |ws|
    ensures |Active(ws[k].db.proposals, cid) * ws[k].made| <= 1
  {
    TurnsKeepOneActive(ws, turns, k, cid);
  }

  // ---- A promote proposal of the curator, applied, against a direct promotion.

  /** Applying the curator's entry gives the entry of a promotion without overrides, except that
      an empty kind becomes "fact". */
  lemma ProposedEntryIsPromotedEntry(c: Candidate, id: int, actor: string)
    ensures PromotedEntry(c, Some(id), ProposedEntry(c, id), actor)
            == PromotedEntry(c, Some(id), NO_OVERRIDES, actor).(kind := if c.kind == "" then "fact" else c.kind)
  {
  }

  /** The kind of an entry decides nothing but itself. */
  lemma KindDecidesNothing(db: Db, id: int, c: Candidate, entry: Entry, kind: string, who: Actor, before: Before)
    ensures var a := PromotionTo(db, id, c, Some(id), entry, who, before);
      var b := PromotionTo(db, id, c, Some(id), entry.(kind := kind), who, before);
      && a.Verdict() == b.Verdict()
      && (a.Ok? && kind != entry.kind ==> Truth(Apply(db, a.value)) != Truth(Apply(db, b.value)))
  {
    var a := PromotionTo(db, id, c, Some(id), entry, who, before);
    var b := PromotionTo(db, id, c, Some(id), entry.(kind := kind), who, before);
    assert EntryVerdict(db.entries, entry) == EntryVerdict(db.entries, entry.(kind := kind));
    if a.Ok? {
      var eid := NextId(db.entries.Keys);
      assert Truth(Apply(db, a.value)).entries[eid] == entry;
      assert Truth(Apply(db, b.value)).entries[eid] == entry.(kind := kind);
    }
  }

  lemma OverlaySelf(e: EntryFields)
    ensures OverlayEntryFields(e, e) == e
  {
  }

  lemma PayloadOfDeterministic(c: Candidate, id: int, cfg: Config)
    requires cfg.action == ToPromote
    ensures var p := NewProposal(ProposalFor(c, id, cfg));
      p.kind == PromoteCandidate && AwaitsDecision(p) && ProposalPayload(p) == ProposedEntry(c, id)
  {
    var f := ProposalFor(c, id, cfg);
    assert f.entry == Val(ProposedEntry(c, id)) && f.action == Val(Some(ProposedEntry(c, id)));
    OverlaySelf(ProposedEntry(c, id));
  }

  lemma CandidateOfDeterministic(c: Candidate, id: int, cfg: Config)
    requires id > 0
    ensures Unique(PositiveIds(NewProposal(ProposalFor(c, id, cfg)).candidateIds)) == [id]
  {
    PostNamesOne(c, id, cfg);
    PositiveIdsOfPositive([id]);
    UniqueOfDistinct([id]);
  }

  lemma PromotePathsAgree(db: Db, id: int, who: Actor)
    requires id in db.candidates
    ensures var c := db.candidates[id];
      var curated := PromoteStored(db, id, ProposedEntry(c, id), who);
      var direct := PromoteStored(db, id, NO_OVERRIDES, who);
      && curated.Verdict() == direct.Verdict()
      && (direct.Ok? ==> (Truth(Apply(db, curated.value)) == Truth(Apply(db, direct.value)) <==> c.kind != ""))
  {
    var c := db.candidates[id];
    var entry := PromotedEntry(c, Some(id), NO_OVERRIDES, who.name);
    ProposedEntryIsPromotedEntry(c, id, who.name);
    KindDecidesNothing(db, id, c, entry, if c.kind == "" then "fact" else c.kind, who, CandidatesBefore([Snapshot(id, c)]));
    assert entry.kind == c.kind;
  }

  /** If the candidate still has the row the curator saw, applying the curator's promote proposal
      fails exactly when a direct promotion without overrides fails, and otherwise writes the same
      candidate, entry, references, event and indexes if and only if the candidate's kind is not empty. */
  lemma CuratedPromotionIsDirect(db: Db, pid: int, id: int, cfg: Config, who: ActorFields)
    requires cfg.action == ToPromote && id > 0 && id in db.candidates
    requires pid in db.proposals && db.proposals[pid] == NewProposal(ProposalFor(db.candidates[id], id, cfg))
    ensures var applied := ApplyProposalChange(db, pid, who);
      var direct := PromoteChange(db, id, NO_OVERRIDES, who);
      && applied.Verdict() == direct.Verdict()
      && (Truth(Commit(db, applied)) == Truth(Commit(db, direct)) <==> (direct.Err? || db.candidates[id].kind != ""))
  {
    PayloadOfDeterministic(db.candidates[id], id, cfg);
    CandidateOfDeterministic(db.candidates[id], id, cfg);
    ApplyIsPromote(db, pid, who, id);
    if RequireActorReason(who).Ok? {
      PromotePathsAgree(db, id, RequireActorReason(who).value);
    }
  }

  // ---- A reject or defer proposal of the curator, applied.

  /** The columns of every proposal a pass stores. */
  predicate ProposedBy(p: Proposal, id: int, cfg: Config) {
    && p.candidateIds == [id] && p.targetEntry == None && p.appliedBy == None && p.eventId == None && p.entryId == None
    && p.proposer == (if Trim(cfg.identity) == "" then "den-memory-curator" else Trim(cfg.identity))
    && p.reason == (if Trim(cfg.reason) == "" then "deterministic curator proposal" else Trim(cfg.reason))
    && p.proposerKind == (if cfg.kind.Some? then cfg.kind.value else DeterministicCli)
    && match cfg.action
       case ToPromote => p.kind == PromoteCandidate && p.status == Proposed && p.confidence == SourceBacked
       case ToReject => p.kind == RejectCandidate && p.status == Proposed && p.confidence == Unverified
       case ToDefer => p.kind == Defer && p.status == NeedsHuman && p.confidence == Unverified
       case OtherAction(_) => true
  }

  lemma PassesPropose(c: Candidate, id: int, cfg: Config)
    requires id > 0
    ensures ProposedBy(NewProposal(ProposalFor(c, id, cfg)), id, cfg)
  {
    PostNamesOne(c, id, cfg);
  }

  ghost predicate StoredAs(db: Db, cfg: Config, proposals: map<int, Proposal>, id: int, pid: int) {
    id in db.candidates && pid in proposals && proposals[pid] == NewProposal(ProposalFor(db.candidates[id], id, cfg))
  }

  /** The proposals a pass reports as created are stored, one for each selected candidate. */
  ghost predicate Stored(db: Db, cfg: Config, proposals: map<int, Proposal>, selected: seq<int>, created: seq<int>) {
    && |created| == |selected|
    && forall i :: 0 <= i < |selected| ==> StoredAs(db, cfg, proposals, selected[i], created[i])
  }

  /** A pass result tells the truth about the tables it left. */
  ghost predicate Reports(db: Db, cfg: Config, now: Db, r: PassResult) {
    && now == AfterPass(db, cfg, r.posted)
    && r.posted <= |Selected(db, cfg)| && (cfg.dryRun ==> r.posted == 0)
    && (r.ok ==> r.selected == Selected(db, cfg))
    && (r.ok && !cfg.dryRun ==> r.posted == |r.selected| && Stored(db, cfg, now.proposals, r.selected, r.created))
  }

  /** Everything a successful pass stored has the columns its configuration asks for, one proposal for
      each selected candidate. */
  lemma PassStores(db: Db, cfg: Config, now: Db, r: PassResult, i: nat)
    requires WellFormed.WellFormed(db) && Reports(db, cfg, now, r) && r.ok && !cfg.dryRun && i < |r.selected|
    ensures |r.created| == |r.selected| && r.created[i] in now.proposals
    ensures r.selected[i] > 0 && ProposedBy(now.proposals[r.created[i]], r.selected[i], cfg)
  {
    SelectedNeed(db, cfg);
    assert StoredAs(db, cfg, now.proposals, r.selected[i], r.created[i]);
    assert r.selected[i] in Selected(db, cfg);
    PassesPropose(db.candidates[r.selected[i]], r.selected[i], cfg);
  }

  lemma OneIsUnique(id: int)
    requires id > 0
    ensures Unique(PositiveIds([id])) == [id]
  {
    PositiveIdsOfPositive([id]);
    UniqueOfDistinct([id]);
  }

  /** Applying a waiting proposal of a reject pass fails exactly when rejecting the candidate directly
      fails, and otherwise rejects it: the same row, the same event, the same index. */
  lemma CuratedRejectionIsDirect(db: Db, pid: int, id: int, cfg: Config, who: ActorFields)
    requires cfg.action == ToReject && id > 0 && pid in db.proposals && ProposedBy(db.proposals[pid], id, cfg)
    ensures ApplyProposalChange(db, pid, who).Verdict() == RejectChange(db, id, who).Verdict()
    ensures Truth(Commit(db, ApplyProposalChange(db, pid, who))) == Truth(Commit(db, RejectChange(db, id, who)))
  {
    OneIsUnique(id);
    ApplyIsReject(db, pid, id, who);
  }

  /** A proposal of a defer pass needs a human, and no apply of it succeeds or changes anything. */
  lemma DeferredNeedsAHuman(db: Db, pid: int, id: int, cfg: Config, who: ActorFields)
    requires cfg.action == ToDefer && pid in db.proposals && ProposedBy(db.proposals[pid], id, cfg)
    ensures db.proposals[pid].status == NeedsHuman
    ensures ChangeOf(db, ApplyProposal(pid, who)).Err? && Step(db, ApplyProposal(pid, who)) == db
  {
  }

  // ---- The pass itself, against a live service.

  method QueueStateForCandidate(h: Service.Handler, cid: int) returns (state: QueueState)
    requires cid in h.candidates
    ensures state == QueueStateOf(h.Tables(), cid)
  {
    if h.candidates[cid].status == Claimed { return QueueState.ClaimedState; }
    var active := 0;
    var rest := h.proposals.Keys;
    while rest != {}
      invariant rest <= h.proposals.Keys
      invariant active >= 0
      invariant active == 0 <==> Active(h.proposals, cid) <= rest
      decreases |rest|
    {
      HasMember(rest);
      var id :| id in rest;
      var p := h.proposals[id];
      if cid in p.candidateIds && (p.status == Proposed || p.status == NeedsHuman) {
        assert id in Active(h.proposals, cid);
        active := active + 1;
      }
      rest := rest - {id};
    }
    state := if active > 0 then NeedsDecision else NeedsProposal;
  }

  method Smallest(ids: set<int>) returns (k: int)
    requires ids != {}
    ensures k in ids && forall j :: j in ids ==> k <= j
  {
    HasMember(ids);
    k :| k in ids;
    var rest, seen := ids - {k}, {k};
    while rest != {}
      invariant rest + seen == ids && k in seen
      invariant forall j :: j in seen ==> k <= j
      decreases |rest|
    {
      HasMember(rest);
      var x :| x in rest;
      if x < k { k := x; }
      rest, seen := rest - {x}, seen + {x};
    }
  }

  lemma AscendingSnoc(done: seq<int>, ids: set<int>, k: int)
    requires k in ids && forall j :: j in ids ==> k <= j
    ensures done + Ascending(ids) == done + [k] + Ascending(ids - {k})
  {
    var first := Ascending(ids)[0];
    assert first in ids;
  }

  /** The queue items for the first candidates of a queue. */
  ghost predicate Lists(db: Db, ids: seq<int>, items: seq<QueueItem>) {
    && |items| == |ids|
    && forall i :: 0 <= i < |ids| ==>
         ids[i] in db.candidates && items[i] == QueueItem(ids[i], db.candidates[ids[i]], QueueStateOf(db, ids[i]))
  }

  lemma QueueCut(db: Db, done: seq<int>, rest: set<int>, limit: nat)
    requires Ascending(WaitingIds(db.candidates)) == done + Ascending(rest)
    requires |done| <= limit && (rest == {} || |done| == limit)
    ensures done == QueueIds(db, limit)
  {
    if rest == {} {
      assert done + [] == done;
    } else {
      assert (done + Ascending(rest))[..limit] == done;
    }
  }

  lemma ListsSnoc(db: Db, ids: seq<int>, items: seq<QueueItem>, k: int)
    requires Lists(db, ids, items) && k in db.candidates
    ensures Lists(db, ids + [k], items + [QueueItem(k, db.candidates[k], QueueStateOf(db, k))])
  {
  }

  /** The queue request: waiting candidates by id, cut to the limit, each with its state. */
  method CurationQueue(h: Service.Handler, limit: nat) returns (items: seq<QueueItem>)
    ensures Lists(h.Tables(), QueueIds(h.Tables(), limit), items)
  {
    items := [];
    var rest := WaitingIds(h.candidates);
    ghost var db := h.Tables();
    ghost var all, done := Ascending(rest), [];
    assert done + Ascending(rest) == all;
    while rest != {} && |items| < limit
      invariant rest <= WaitingIds(db.candidates)
      invariant all == done + Ascending(rest)
      invariant Lists(db, done, items) && |items| <= limit
      decreases rest
    {
      var k := Smallest(rest);
      var state := QueueStateForCandidate(h, k);
      AscendingSnoc(done, rest, k);
      ListsSnoc(db, done, items, k);
      items := items + [QueueItem(k, h.candidates[k], state)];
      rest := rest - {k};
      done := done + [k];
    }
    QueueCut(db, done, rest, limit);
  }

  lemma {:induction false} SelectedPrefix(db: Db, cfg: Config, ids: seq<int>, n: int)
    requires 0 <= n <= |ids| && forall k :: k in ids ==> k in db.candidates
    ensures (PrefixMembers(ids, n); SelectedFrom(db, cfg, ids[..n]) <= SelectedFrom(db, cfg, ids))
    decreases |ids| - n
  {
    PrefixMembers(ids, n);
    if n < |ids| {
      PrefixMembers(ids, n + 1);
      assert ids[..n + 1][..n] == ids[..n];
      SelectedPrefix(db, cfg, ids, n + 1);
    } else {
      assert ids[..n] == ids;
    }
  }

  /** What arrived when the first posts of a longer selection did. */
  lemma ArrivedIsPrefix(db: Db, cfg: Config, some: seq<int>)
    requires some <= Selected(db, cfg)
    ensures Arrived(db, cfg, |some|) == some
  {
  }

  /** Post one proposal, unless the connection fails. */
  method PostOne(h: Service.Handler, f: ProposalFields, fault: Fault, at: nat) returns (arrived: bool, created: Option<int>)
    modifies h`proposals
    ensures h.Tables() == if arrived then PostTo(old(h.Tables()), f) else old(h.Tables())
    ensures created.Some? ==> arrived && created.value in h.proposals && h.proposals[created.value] == NewProposal(f)
    ensures old(h.proposals).Keys <= h.proposals.Keys && forall k :: k in old(h.proposals) ==> h.proposals[k] == old(h.proposals)[k]
    ensures fault == NoFault && ProposalVerdict(h.candidates, h.entries, f).None? ==> created.Some?
  {
    PostStores(h.Tables(), f);
    if fault == RequestLost(at) { return false, None; }
    var id := h.CreateCurationProposal(f);
    arrived := true;
    created := if id.Err? || fault == ResponseLost(at) then None else Some(id.value);
  }

  lemma StoredGrows(db: Db, cfg: Config, before: map<int, Proposal>, after: map<int, Proposal>, selected: seq<int>, created: seq<int>,
                    id: int, pid: int)
    requires Stored(db, cfg, before, selected, created)
    requires before.Keys <= after.Keys && forall k :: k in before ==> after[k] == before[k]
    requires StoredAs(db, cfg, after, id, pid)
    ensures Stored(db, cfg, after, selected + [id], created + [pid])
  {
    var (all, pids) := (selected + [id], created + [pid]);
    forall i | 0 <= i < |all|
      ensures StoredAs(db, cfg, after, all[i], pids[i])
    {
      if i < |selected| {
        assert StoredAs(db, cfg, before, selected[i], created[i]);
      }
    }
  }

  /** The first i queue items were looked at; `selected` of them were posted unless this is a dry run. */
  ghost predicate Midpass(db: Db, cfg: Config, i: nat, selected: seq<int>, now: Db) {
    var ids := QueueIds(db, EffectiveLimit(cfg));
    && i <= |ids|
    && (forall k :: k in ids[..i] ==> k in db.candidates)
    && selected == SelectedFrom(db, cfg, ids[..i])
    && (forall k :: k in selected ==> k in db.candidates)
    && now == if cfg.dryRun then db else Posted(db, db.candidates, selected, cfg)
  }

  function PostedSoFar(cfg: Config, selected: seq<int>): nat {
    if cfg.dryRun then 0 else |selected|
  }

  lemma PassStarts(db: Db, cfg: Config)
    ensures Midpass(db, cfg, 0, [], db)
  {
  }

  /** Stopping anywhere leaves what a cut-short pass leaves. */
  lemma StopHere(db: Db, cfg: Config, i: nat, selected: seq<int>, now: Db)
    requires Midpass(db, cfg, i, selected, now)
    ensures PostedSoFar(cfg, selected) <= |Selected(db, cfg)|
    ensures now == AfterPass(db, cfg, PostedSoFar(cfg, selected))
    ensures i == |QueueIds(db, EffectiveLimit(cfg))| ==> selected == Selected(db, cfg)
  {
    var ids := QueueIds(db, EffectiveLimit(cfg));
    SelectedPrefix(db, cfg, ids, i);
    ArrivedIsPrefix(db, cfg, selected);
    assert ids[..|ids|] == ids;
  }

  predicate Chosen(state: QueueState, cfg: Config, id: int) {
    state == NeedsProposal && Wants(cfg, id)
  }

  /** One more queue item, looked at. */
  lemma SelectedSnoc(db: Db, cfg: Config, ids: seq<int>, i: nat)
    requires i < |ids| && forall k :: k in ids ==> k in db.candidates
    ensures (forall k :: k in ids[..i] ==> k in db.candidates) && (forall k :: k in ids[..i + 1] ==> k in db.candidates)
    ensures SelectedFrom(db, cfg, ids[..i + 1])
      == SelectedFrom(db, cfg, ids[..i]) + (if Chosen(QueueStateOf(db, ids[i]), cfg, ids[i]) then [ids[i]] else [])
  {
    PrefixMembers(ids, i);
    PrefixMembers(ids, i + 1);
    assert ids[..i + 1][..i] == ids[..i];
  }

  lemma SkipItem(db: Db, cfg: Config, i: nat, selected: seq<int>, now: Db)
    requires Midpass(db, cfg, i, selected, now) && i < |QueueIds(db, EffectiveLimit(cfg))|
    requires var id := QueueIds(db, EffectiveLimit(cfg))[i]; !Chosen(QueueStateOf(db, id), cfg, id)
    ensures Midpass(db, cfg, i + 1, selected, now)
  {
    SelectedSnoc(db, cfg, QueueIds(db, EffectiveLimit(cfg)), i);
  }

  lemma TakeItem(db: Db, cfg: Config, i: nat, selected: seq<int>, now: Db, id: int)
    requires Midpass(db, cfg, i, selected, now) && i < |QueueIds(db, EffectiveLimit(cfg))|
    requires id == QueueIds(db, EffectiveLimit(cfg))[i] && id in db.candidates && Chosen(QueueStateOf(db, id), cfg, id)
    ensures Midpass(db, cfg, i + 1, selected + [id], if cfg.dryRun then db else PostTo(now, ProposalFor(db.candidates[id], id, cfg)))
  {
    SelectedSnoc(db, cfg, QueueIds(db, EffectiveLimit(cfg)), i);
    if !cfg.dryRun {
      PostedSnoc(db, db.candidates, selected, id, cfg);
    }
  }

  lemma StoppedReport(db: Db, cfg: Config, i: nat, some: seq<int>, now: Db, r: PassResult)
    requires Midpass(db, cfg, i, some, now) && !r.ok && r.posted == PostedSoFar(cfg, some)
    ensures Reports(db, cfg, now, r)
  {
    StopHere(db, cfg, i, some, now);
  }

  lemma FinishedReport(db: Db, cfg: Config, now: Db, r: PassResult)
    requires Midpass(db, cfg, |QueueIds(db, EffectiveLimit(cfg))|, r.selected, now)
    requires r.posted == PostedSoFar(cfg, r.selected) && (!cfg.dryRun ==> Stored(db, cfg, now.proposals, r.selected, r.created))
    ensures Reports(db, cfg, now, r)
  {
    StopHere(db, cfg, |QueueIds(db, EffectiveLimit(cfg))|, r.selected, now);
  }

  /** A configuration whose proposals the service accepts. */
  predicate Supported(cfg: Config) {
    !cfg.action.OtherAction? && (cfg.kind.Some? ==> !cfg.kind.value.OtherProposer?)
  }

  /** Propose for one selected item and post the proposal. */
  method ProposeAndPost(h: Service.Handler, cfg: Config, fault: Fault, item: QueueItem, selected: seq<int>, ghost db: Db, ghost i: nat)
    returns (arrived: bool, id: Option<int>)
    requires !cfg.dryRun && i < |QueueIds(db, EffectiveLimit(cfg))| && item.id == QueueIds(db, EffectiveLimit(cfg))[i]
    requires item.id in db.candidates && item.row == db.candidates[item.id] && Chosen(QueueStateOf(db, item.id), cfg, item.id)
    requires Midpass(db, cfg, i, selected, h.Tables())
    modifies h`proposals
    ensures if arrived then Midpass(db, cfg, i + 1, selected + [item.id], h.Tables()) else Midpass(db, cfg, i, selected, h.Tables())
    ensures id.Some? ==> arrived && StoredAs(db, cfg, h.proposals, item.id, id.value)
    ensures old(h.proposals).Keys <= h.proposals.Keys && forall k :: k in old(h.proposals) ==> h.proposals[k] == old(h.proposals)[k]
    ensures Supported(cfg) && fault == NoFault && item.id in h.candidates && item.id > 0 ==> id.Some?
  {
    TakeItem(db, cfg, i, selected, h.Tables(), item.id);
    if Supported(cfg) && item.id in h.candidates && item.id > 0 {
      DeterministicIsAccepted(h.Tables(), item.row, item.id, cfg);
    }
    arrived, id := PostOne(h, ProposalFor(item.row, item.id, cfg), fault, |selected|);
  }

  /** One selected item; a lost request or response ends the pass. */
  method PostItem(h: Service.Handler, cfg: Config, fault: Fault, item: QueueItem, selected: seq<int>, created: seq<int>,
                  ghost db: Db, ghost i: nat)
    returns (id: Option<int>, stopped: PassResult)
    requires !cfg.dryRun && i < |QueueIds(db, EffectiveLimit(cfg))| && item.id == QueueIds(db, EffectiveLimit(cfg))[i]
    requires item.id in db.candidates && item.row == db.candidates[item.id] && Chosen(QueueStateOf(db, item.id), cfg, item.id)
    requires Midpass(db, cfg, i, selected, h.Tables()) && Stored(db, cfg, h.proposals, selected, created)
    modifies h`proposals
    ensures id.Some? ==> Midpass(db, cfg, i + 1, selected + [item.id], h.Tables())
    ensures id.Some? ==> Stored(db, cfg, h.proposals, selected + [item.id], created + [id.value])
    ensures id.None? ==> !stopped.ok && Reports(db, cfg, h.Tables(), stopped)
    ensures Supported(cfg) && fault == NoFault && item.id in h.candidates && item.id > 0 ==> id.Some?
  {
    ghost var before := h.proposals;
    var arrived;
    arrived, id := ProposeAndPost(h, cfg, fault, item, selected, db, i);
    stopped := PassResult(selected + [item.id], created, if arrived then |selected| + 1 else |selected|, false);
    if id.Some? {
      StoredGrows(db, cfg, before, h.proposals, selected, created, item.id, id.value);
    } else {
      StoppedReport(db, cfg, if arrived then i + 1 else i, if arrived then selected + [item.id] else selected, h.Tables(), stopped);
    }
  }

  /** One pass over the queue. Whatever happens, the service is left as if a prefix of the
      selected candidates had been proposed for; success means that a proposal is stored for each
      of them, and a supported configuration succeeds unless the connection fails. */
  method RunPass(h: Service.Handler, cfg: Config, fault: Fault) returns (r: PassResult)
    modifies h`proposals
    ensures Reports(old(h.Tables()), cfg, h.Tables(), r)
    ensures Supported(cfg) && fault == NoFault && PositiveKeys(h.candidates.Keys) ==> r.ok
  {
    ghost var db := h.Tables();
    var items := CurationQueue(h, EffectiveLimit(cfg));
    var selected, created := [], [];
    PassStarts(db, cfg);
    for i := 0 to |items|
      invariant Midpass(db, cfg, i, selected, h.Tables())
      invariant !cfg.dryRun ==> Stored(db, cfg, h.proposals, selected, created)
    {
      var item := items[i];
      if item.state == NeedsProposal && Wants(cfg, item.id) {
        if cfg.action.OtherAction? {
          r := PassResult(selected, created, PostedSoFar(cfg, selected), false);
          StoppedReport(db, cfg, i, selected, h.Tables(), r);
          return;
        }
        if cfg.dryRun {
          TakeItem(db, cfg, i, selected, db, item.id);
        } else {
          var id, stopped := PostItem(h, cfg, fault, item, selected, created, db, i);
          if id.None? { return stopped; }
          created := created + [id.value];
        }
        selected := selected + [item.id];
      } else {
        SkipItem(db, cfg, i, selected, h.Tables());
      }
    }
    r := PassResult(selected, created, PostedSoFar(cfg, selected), true);
    FinishedReport(db, cfg, h.Tables(), r);
  }

  // ---- Passes are idempotent.

  lemma NewProposalAwaits(c: Candidate, id: int, cfg: Config)
    ensures AwaitsDecision(NewProposal(ProposalFor(c, id, cfg)))
  {
  }

  lemma SelectedIsActive(db: Db, cfg: Config, now: Db, r: PassResult, k: int)
    requires Stored(db, cfg, now.proposals, r.selected, r.created) && k in r.selected && k > 0
    ensures Active(now.proposals, k) != {}
  {
    var i :| 0 <= i < |r.selected| && r.selected[i] == k;
    assert StoredAs(db, cfg, now.proposals, k, r.created[i]);
    PostNamesOne(db.candidates[k], k, cfg);
    NewProposalAwaits(db.candidates[k], k, cfg);
    assert r.created[i] in Active(now.proposals, k);
  }

  lemma PassKeepsCandidates(db: Db, cfg: Config, posted: nat)
    requires WellFormed.WellFormed(db)
    ensures AfterPass(db, cfg, posted).candidates == db.candidates
  {
    SelectedNeed(db, cfg);
    if !cfg.dryRun {
      PostsAddAtMostOne(db, db.candidates, Arrived(db, cfg, posted), cfg, 0);
      assert Truth(AfterPass(db, cfg, posted)).candidates == Truth(db).candidates;
    }
  }

  lemma PassKeepsQueue(db: Db, cfg: Config, now: Db, r: PassResult, limit: nat)
    requires WellFormed.WellFormed(db) && Reports(db, cfg, now, r)
    ensures QueueIds(now, limit) == QueueIds(db, limit) && now.candidates == db.candidates
  {
    PassKeepsCandidates(db, cfg, r.posted);
  }

  /** What a pass could select after a successful one, that one selected. */
  lemma SelectedBefore(db: Db, cfg: Config, now: Db, again: Config, ids: seq<int>, k: int)
    requires now.candidates == db.candidates && again.wanted == cfg.wanted
    requires forall j :: j in ids ==> j in db.candidates
    requires Active(db.proposals, k) <= Active(now.proposals, k)
    requires k in SelectedFrom(now, again, ids)
    ensures k in SelectedFrom(db, cfg, ids) && Active(now.proposals, k) == {}
  {
    SelectedAreQueued(db, cfg, ids);
    SelectedAreQueued(now, again, ids);
  }

  /** After a successful pass that was not a dry run, the same pass, or any other over the same
      limit and ids, selects nothing. */
  lemma SecondPassSelectsNothing(db: Db, cfg: Config, now: Db, r: PassResult, again: Config)
    requires WellFormed.WellFormed(db)
    requires Reports(db, cfg, now, r) && r.ok && !cfg.dryRun
    requires EffectiveLimit(again) == EffectiveLimit(cfg) && again.wanted == cfg.wanted
    ensures Selected(now, again) == []
  {
    PassKeepsQueue(db, cfg, now, r, EffectiveLimit(cfg));
    if Selected(now, again) != [] {
      var k := Selected(now, again)[0];
      SelectedNeed(db, cfg);
      PostsAddAtMostOne(db, db.candidates, Arrived(db, cfg, r.posted), cfg, k);
      SelectedBefore(db, cfg, now, again, QueueIds(db, EffectiveLimit(cfg)), k);
      SelectedIsActive(db, cfg, now, r, k);
    }
  }

  /** A pass among other clients is the pass that RunPass makes, one request at a time. */
  lemma PassesAreTurns(w: World, cfg: Config, now: Db, r: PassResult)
    requires Reports(w.db, cfg, now, r)
    ensures AfterPosts(AfterTurn(w, Queue(cfg)), r.posted).db == now
  {
    UninterruptedPass(w, cfg, r.posted);
  }
}
