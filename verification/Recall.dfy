/** Guided recall: from full-text hits and an optional topic view to a budgeted packet. */
module Recall {
  import opened Base
  import opened Schema
  import opened Scoring
  import opened Traversal
  import opened Packet
  import opened Changes
  import opened History
  import Proposals

  datatype View = View(
    rootNode: int, included: set<Relation>, excluded: set<Relation>, maxDepth: int, budgetHint: int, ordering: Ordering)

  datatype RecallRequest = RecallRequest(
    context: Context, viewSlug: string, limit: Field<int>,
    included: Field<set<Relation>>, excluded: Field<set<Relation>>, maxDepth: Field<int>, ordering: Field<Ordering>,
    tokenBudget: int, budgetTokens: int)

  /** The rows full-text search matches, best first. */
  datatype Hits = Hits(entries: seq<int>, nodes: seq<int>)

  datatype MatchKind = AuthoritativeHit | DiscoverableHit | FtsOnlyHit

  datatype RootMatch = RootMatch(kind: ItemKind, slug: string, how: MatchKind, score: real)

  datatype IncludedEdge = IncludedEdge(slug: string, relation: Relation, depth: nat)

  /** The lists the handler appends to. A warning is the slug of a discovered entry. */
  datatype Gathered = Gathered(
    nodes: seq<Included>, matches: seq<RootMatch>, edges: seq<IncludedEdge>, skipped: seq<Skip>,
    warnings: seq<string>, provenance: seq<SourceRef>)

  const NOTHING_GATHERED := Gathered([], [], [], [], [], [])

  datatype Outcome =
    | Delivered(packet: Gathered)
    | NoSuchView
    | Crash   // slicing by a negative limit

  // ---- Defaults.

  function Limit(r: RecallRequest): int {
    OrElse(r.limit, 10)
  }

  /** The payload wins over the view, and the view over the default. */
  function WalkOf(r: RecallRequest, view: Option<View>): Walk {
    if view.Some? then
      Walk(OrElse(r.included, view.value.included), OrElse(r.excluded, view.value.excluded),
           OrElse(r.maxDepth, view.value.maxDepth), OrElse(r.ordering, view.value.ordering))
    else
      Walk(OrElse(r.included, {}), OrElse(r.excluded, {}), OrElse(r.maxDepth, 1), OrElse(r.ordering, CoreFirstThenRisks))
  }

  function OrderingOf(r: RecallRequest, view: Option<View>): Ordering {
    OrElse(r.ordering, if view.Some? then view.value.ordering else ScoreDesc)
  }

  function BudgetOf(r: RecallRequest, view: Option<View>): int {
    RequestedTokenBudget(r.tokenBudget, r.budgetTokens, if view.Some? then Some(view.value.budgetHint) else None)
  }

  function GraphOf(db: Db): Graph {
    Graph(db.nodes, db.edges)
  }

  // ---- Roots.

  /** The join of a match list with its table: ids of existing rows, in order. */
  function Rows(hits: seq<int>, ids: set<int>): seq<int> {
    if hits == [] then []
    else
      var (front, last) := (Rows(hits[..|hits| - 1], ids), hits[|hits| - 1]);
      if last in ids then front + [last] else front
  }

  /** LIMIT; a negative one means no limit. */
  function Limited(ids: seq<int>, limit: int): seq<int> {
    if 0 <= limit < |ids| then ids[..limit] else ids
  }

  function RootEntries(db: Db, hits: Hits, limit: int): seq<int> {
    Limited(Rows(hits.entries, db.entries.Keys), limit)
  }

  /** The matched nodes, behind the root of the view if that is not among them. */
  function RootNodes(db: Db, hits: Hits, limit: int, view: Option<View>): seq<int> {
    var roots := Limited(Rows(hits.nodes, db.nodes.Keys), limit);
    if view.Some? && view.value.rootNode !in roots && view.value.rootNode in db.nodes then [view.value.rootNode] + roots
    else roots
  }

  /** A topic node to consider: a root, or a node found over an edge. */
  datatype Reached = Reached(id: int, relation: Option<Relation>, depth: nat)

  function Considered(roots: seq<int>, found: seq<Found>): (all: seq<Reached>)
    ensures |all| == |roots| + |found|
    ensures forall p :: 0 <= p < |all| ==> all[p].id == IdAt(roots, found, p) && all[p].depth == DepthAt(roots, found, p)
    ensures forall p :: 0 <= p < |all| ==> (all[p].relation.None? <==> p < |roots|)
  {
    seq(|roots| + |found|, p requires 0 <= p < |roots| + |found| =>
      if p < |roots| then Reached(roots[p], None, 0)
      else Reached(found[p - |roots|].id, Some(found[p - |roots|].relation), found[p - |roots|].depth))
  }

  // ---- Selection and scoring.

  predicate ExcludedStatus(status: EntryStatus) {
    status == SupersededEntry || status == Deprecated || status == Archived
  }

  function MatchKindOf(verdict: Label): MatchKind {
    match verdict
    case Authoritative => AuthoritativeHit
    case DiscoveredEvidence => DiscoverableHit
    case OutOfScope => FtsOnlyHit
  }

  /** The source references of an entry, in id order. */
  function SourcesOf(refs: seq<SourceRef>, entry: int): seq<SourceRef> {
    if refs == [] then []
    else
      var (front, last) := (SourcesOf(refs[..|refs| - 1], entry), refs[|refs| - 1]);
      if last.targetKind == EntryTarget && last.targetId == entry then front + [last] else front
  }

  function Validations(sources: seq<SourceRef>): seq<Validation> {
    seq(|sources|, i requires 0 <= i < |sources| => sources[i].verification)
  }

  function ScoredEntry(e: Entry): Scored {
    Scored(e.labels, e.status, e.confidence)
  }

  function EntryItem(id: int, e: Entry, score: real, verdict: Label): Included {
    Included(MemoryEntry, id, e.slug, e.title, e.summary, score, verdict, e.labels, None, 0)
  }

  function TopicItem(t: Reached, n: Node, score: real, verdict: Label): Included {
    Included(TopicNode, t.id, n.slug, n.title, n.summary, score, verdict, n.labels, t.relation, t.depth)
  }

  function WithSkip(d: Gathered, slug: string, reason: SkipReason): Gathered {
    d.(skipped := d.skipped + [Skip(slug, reason)])
  }

  function WithEntry(d: Gathered, item: Included, sources: seq<SourceRef>): Gathered {
    d.(nodes := d.nodes + [item],
       matches := d.matches + [RootMatch(MemoryEntry, item.slug, MatchKindOf(item.interpretation), item.score)],
       warnings := if item.interpretation == DiscoveredEvidence then d.warnings + [item.slug] else d.warnings,
       provenance := d.provenance + sources)
  }

  function WithTopic(d: Gathered, item: Included): Gathered {
    if item.relation.None? then
      d.(nodes := d.nodes + [item],
         matches := d.matches + [RootMatch(TopicNode, item.slug, MatchKindOf(item.interpretation), item.score)])
    else
      d.(nodes := d.nodes + [item], edges := d.edges + [IncludedEdge(item.slug, item.relation.value, item.depth)])
  }

  function AddEntry(db: Db, w: Weights, ctx: Context, d: Gathered, id: int): Gathered
    requires id in db.entries
  {
    var e := db.entries[id];
    var sources := SourcesOf(db.refs, id);
    var (score, verdict) := Score(w, ScoredEntry(e), ctx, Validations(sources), 0, None);
    if ExcludedStatus(e.status) then WithSkip(d, e.slug, StatusExcluded(e.status))
    else if verdict == OutOfScope then WithSkip(d, e.slug, ScopeExcluded)
    else WithEntry(d, EntryItem(id, e, score, verdict), sources)
  }

  function AddTopic(db: Db, w: Weights, ctx: Context, d: Gathered, t: Reached): Gathered
    requires t.id in db.nodes
  {
    var n := db.nodes[t.id];
    var (score, verdict) := Score(w, NodeItem(n.labels), ctx, [], t.depth, t.relation);
    if verdict == OutOfScope then WithSkip(d, n.slug, ScopeExcluded) else WithTopic(d, TopicItem(t, n, score, verdict))
  }

  predicate EntriesExist(db: Db, ids: seq<int>) {
    forall i :: 0 <= i < |ids| ==> ids[i] in db.entries
  }

  predicate TopicsExist(db: Db, all: seq<Reached>) {
    forall i :: 0 <= i < |all| ==> all[i].id in db.nodes
  }

  function GatherEntries(db: Db, w: Weights, ctx: Context, ids: seq<int>): Gathered
    requires EntriesExist(db, ids)
  {
    if ids == [] then NOTHING_GATHERED
    else AddEntry(db, w, ctx, GatherEntries(db, w, ctx, ids[..|ids| - 1]), ids[|ids| - 1])
  }

  function GatherTopics(db: Db, w: Weights, ctx: Context, d: Gathered, all: seq<Reached>): Gathered
    requires TopicsExist(db, all)
  {
    if all == [] then d
    else AddTopic(db, w, ctx, GatherTopics(db, w, ctx, d, all[..|all| - 1]), all[|all| - 1])
  }

  // ---- The outcome of a recall.

  function ViewFor(views: map<string, View>, slug: string): Option<View> {
    if slug != "" && slug in views then Some(views[slug]) else None
  }

  /** The view, the limits and the traversal fit together. */
  ghost predicate Finds(db: Db, view: Option<View>, r: RecallRequest, hits: Hits, found: seq<Found>) {
    var roots := RootNodes(db, hits, Limit(r), view);
    && Explores(GraphOf(db), WalkOf(r, view), roots, found)
    && EntriesExist(db, RootEntries(db, hits, Limit(r))) && TopicsExist(db, Considered(roots, found))
  }

  /** Everything gathered before ordering, limit and budget. */
  ghost function Pool(db: Db, view: Option<View>, w: Weights, r: RecallRequest, hits: Hits, found: seq<Found>): Gathered
    requires Finds(db, view, r, hits, found)
  {
    GatherTopics(db, w, r.context, GatherEntries(db, w, r.context, RootEntries(db, hits, Limit(r))),
                 Considered(RootNodes(db, hits, Limit(r), view), found))
  }

  ghost predicate Packed(pool: Gathered, ordering: Ordering, limit: int, budget: int, packet: Gathered) {
    var taken := Take(StableSort(ordering, pool.nodes), limit);
    && taken.Some?
    && Budgeted(taken.value, pool.skipped, budget, packet.nodes, packet.skipped)
    && packet == pool.(nodes := packet.nodes, skipped := packet.skipped)
  }

  ghost predicate Packs(db: Db, view: Option<View>, w: Weights, r: RecallRequest, hits: Hits, found: seq<Found>, packet: Gathered) {
    && Finds(db, view, r, hits, found)
    && Packed(Pool(db, view, w, r, hits, found), OrderingOf(r, view), Limit(r), BudgetOf(r, view), packet)
  }

  ghost predicate Recalls(db: Db, views: map<string, View>, w: Weights, r: RecallRequest, hits: Hits, outcome: Outcome) {
    if r.viewSlug != "" && r.viewSlug !in views then outcome == NoSuchView
    else if Limit(r) < 0 then outcome == Crash
    else outcome.Delivered? && exists found :: Packs(db, ViewFor(views, r.viewSlug), w, r, hits, found, outcome.packet)
  }

  // ---- The handler.

  lemma {:induction false} RowsExist(hits: seq<int>, ids: set<int>)
    ensures forall i :: 0 <= i < |Rows(hits, ids)| ==> Rows(hits, ids)[i] in ids && Rows(hits, ids)[i] in hits
    ensures Distinct(hits) ==> Distinct(Rows(hits, ids))
  {
    if hits != [] {
      RowsExist(hits[..|hits| - 1], ids);
    }
  }

  /** Roots and traversed nodes are rows of the node table. */
  lemma ConsideredExist(db: Db, view: Option<View>, r: RecallRequest, hits: Hits, found: seq<Found>)
    requires Explores(GraphOf(db), WalkOf(r, view), RootNodes(db, hits, Limit(r), view), found)
    ensures Finds(db, view, r, hits, found)
  {
    RowsExist(hits.entries, db.entries.Keys);
    RowsExist(hits.nodes, db.nodes.Keys);
    TraversalIsExact(GraphOf(db), WalkOf(r, view), RootNodes(db, hits, Limit(r), view), found);
  }

  method GatherEntry(db: Db, w: Weights, ctx: Context, d: Gathered, id: int) returns (r: Gathered)
    requires id in db.entries
    ensures r == AddEntry(db, w, ctx, d, id)
  {
    var e := db.entries[id];
    if e.status == SupersededEntry || e.status == Deprecated || e.status == Archived {
      return d.(skipped := d.skipped + [Skip(e.slug, StatusExcluded(e.status))]);
    }
    var sources := SourcesOf(db.refs, id);
    var score, verdict := ScoreItem(w, ScoredEntry(e), ctx, Validations(sources), 0, None);
    if verdict == OutOfScope {
      return d.(skipped := d.skipped + [Skip(e.slug, ScopeExcluded)]);
    }
    r := d;
    if verdict == DiscoveredEvidence {
      r := r.(warnings := r.warnings + [e.slug]);
    }
    r := r.(provenance := r.provenance + sources);
    r := r.(matches := r.matches + [RootMatch(MemoryEntry, e.slug, MatchKindOf(verdict), score)]);
    r := r.(nodes := r.nodes + [EntryItem(id, e, score, verdict)]);
  }

  method GatherTopic(db: Db, w: Weights, ctx: Context, d: Gathered, t: Reached) returns (r: Gathered)
    requires t.id in db.nodes
    ensures r == AddTopic(db, w, ctx, d, t)
  {
    var n := db.nodes[t.id];
    var score, verdict := ScoreItem(w, NodeItem(n.labels), ctx, [], t.depth, t.relation);
    if verdict == OutOfScope {
      return d.(skipped := d.skipped + [Skip(n.slug, ScopeExcluded)]);
    }
    r := d;
    if t.relation.None? {
      r := r.(matches := r.matches + [RootMatch(TopicNode, n.slug, MatchKindOf(verdict), score)]);
    } else {
      r := r.(edges := r.edges + [IncludedEdge(n.slug, t.relation.value, t.depth)]);
    }
    r := r.(nodes := r.nodes + [TopicItem(t, n, score, verdict)]);
  }

  /** Filter and score the matched entries, then the roots and the traversed nodes. */
  method Gather(db: Db, w: Weights, ctx: Context, entries: seq<int>, all: seq<Reached>) returns (d: Gathered)
    requires EntriesExist(db, entries) && TopicsExist(db, all)
    ensures d == GatherTopics(db, w, ctx, GatherEntries(db, w, ctx, entries), all)
  {
    d := NOTHING_GATHERED;
    for i := 0 to |entries|
      invariant d == GatherEntries(db, w, ctx, entries[..i])
    {
      assert entries[..i + 1][..i] == entries[..i];
      d := GatherEntry(db, w, ctx, d, entries[i]);
    }
    assert entries[..|entries|] == entries;
    ghost var first := d;
    for i := 0 to |all|
      invariant d == GatherTopics(db, w, ctx, first, all[..i])
    {
      assert all[..i + 1][..i] == all[..i];
      d := GatherTopic(db, w, ctx, d, all[i]);
    }
    assert all[..|all|] == all;
  }

  /** Order, limit and budget what was gathered. */
  method Pack(d: Gathered, ordering: Ordering, limit: int, budget: int) returns (packet: Gathered)
    requires limit >= 0
    ensures Packed(d, ordering, limit, budget, packet)
  {
    var nodes := new Included[|d.nodes|](i requires 0 <= i < |d.nodes| => d.nodes[i]);
    assert nodes[..] == d.nodes;
    ApplyNodeOrdering(nodes, ordering);
    var taken := nodes[..];
    if limit < |taken| {
      taken := taken[..limit];
    }
    var kept, skipped := ApplyPacketBudget(taken, d.skipped, budget);
    packet := d.(nodes := kept, skipped := skipped);
  }

  /** POST recall, up to the log row. */
  method HandleRecall(db: Db, views: map<string, View>, w: Weights, r: RecallRequest, hits: Hits) returns (outcome: Outcome)
    ensures Recalls(db, views, w, r, hits, outcome)
  {
    var view: Option<View> := None;
    if r.viewSlug != "" {
      if r.viewSlug !in views {
        return NoSuchView;
      }
      view := Some(views[r.viewSlug]);
    }
    var limit := Limit(r);
    var entries := Limited(Rows(hits.entries, db.entries.Keys), limit);
    var roots := Limited(Rows(hits.nodes, db.nodes.Keys), limit);
    if view.Some? && view.value.rootNode !in roots && view.value.rootNode in db.nodes {
      roots := [view.value.rootNode] + roots;
    }
    var found := Traverse(GraphOf(db), WalkOf(r, view), roots);
    ConsideredExist(db, view, r, hits, found);
    var d := Gather(db, w, r.context, entries, Considered(roots, found));
    if limit < 0 {
      return Crash;
    }
    var packet := Pack(d, OrderingOf(r, view), limit, BudgetOf(r, view));
    outcome := Delivered(packet);
    assert view == ViewFor(views, r.viewSlug);
    assert Packs(db, view, w, r, hits, found, outcome.packet);
  }

  // ---- One request has one outcome.

  lemma PackingIsDetermined(db: Db, view: Option<View>, w: Weights, r: RecallRequest, hits: Hits, found: seq<Found>,
                            a: Gathered, b: Gathered)
    requires Packs(db, view, w, r, hits, found, a) && Packs(db, view, w, r, hits, found, b)
    ensures a == b
  {
    var pool := Pool(db, view, w, r, hits, found);
    var taken := Take(StableSort(OrderingOf(r, view), pool.nodes), Limit(r)).value;
    BudgetIsDetermined(taken, pool.skipped, BudgetOf(r, view), a.nodes, a.skipped, b.nodes, b.skipped);
  }

  lemma RecallIsDetermined(db: Db, views: map<string, View>, w: Weights, r: RecallRequest, hits: Hits, a: Outcome, b: Outcome)
    requires Recalls(db, views, w, r, hits, a) && Recalls(db, views, w, r, hits, b)
    ensures a == b
  {
    var view := ViewFor(views, r.viewSlug);
    if a.Delivered? && b.Delivered? {
      var found :| Packs(db, view, w, r, hits, found, a.packet);
      var other :| Packs(db, view, w, r, hits, other, b.packet);
      TraversalIsDetermined(GraphOf(db), WalkOf(r, view), RootNodes(db, hits, Limit(r), view), found, other);
      PackingIsDetermined(db, view, w, r, hits, found, a.packet, b.packet);
    }
  }

  // ---- Recall does not see proposals.

  lemma {:induction false} SameEntries(db: Db, other: Db, w: Weights, ctx: Context, ids: seq<int>)
    requires Proposals.Truth(db) == Proposals.Truth(other) && EntriesExist(db, ids)
    ensures GatherEntries(db, w, ctx, ids) == GatherEntries(other, w, ctx, ids)
  {
    if ids != [] {
      SameEntries(db, other, w, ctx, ids[..|ids| - 1]);
    }
  }

  lemma {:induction false} SameTopics(db: Db, other: Db, w: Weights, ctx: Context, d: Gathered, all: seq<Reached>)
    requires Proposals.Truth(db) == Proposals.Truth(other) && TopicsExist(db, all)
    ensures GatherTopics(db, w, ctx, d, all) == GatherTopics(other, w, ctx, d, all)
  {
    if all != [] {
      SameTopics(db, other, w, ctx, d, all[..|all| - 1]);
    }
  }

  lemma SamePacking(db: Db, other: Db, view: Option<View>, w: Weights, r: RecallRequest, hits: Hits, found: seq<Found>, packet: Gathered)
    requires Proposals.Truth(db) == Proposals.Truth(other) && Packs(db, view, w, r, hits, found, packet)
    ensures Packs(other, view, w, r, hits, found, packet)
  {
    var entries, roots := RootEntries(db, hits, Limit(r)), RootNodes(db, hits, Limit(r), view);
    SameEntries(db, other, w, r.context, entries);
    SameTopics(db, other, w, r.context, GatherEntries(db, w, r.context, entries), Considered(roots, found));
  }

  /** A recall does not read proposals. */
  lemma SameRecall(db: Db, other: Db, views: map<string, View>, w: Weights, r: RecallRequest, hits: Hits, outcome: Outcome)
    requires Proposals.Truth(db) == Proposals.Truth(other) && Recalls(db, views, w, r, hits, outcome)
    ensures Recalls(other, views, w, r, hits, outcome)
  {
    if outcome.Delivered? {
      var view := ViewFor(views, r.viewSlug);
      var found :| Packs(db, view, w, r, hits, found, outcome.packet);
      SamePacking(db, other, view, w, r, hits, found, outcome.packet);
    }
  }

  /** Whatever is done to proposals short of a successful apply, and whatever is refused, every
      recall request has the same outcome before and after. */
  lemma ProposalTrafficKeepsRecall(db: Db, request: Request, views: map<string, View>, w: Weights, r: RecallRequest, hits: Hits,
                                   before: Outcome, after: Outcome)
    requires AboutProposals(request) || ChangeOf(db, request).Err?
    requires Recalls(db, views, w, r, hits, before) && Recalls(Step(db, request), views, w, r, hits, after)
    ensures before == after
  {
    if AboutProposals(request) {
      Proposals.ProposalTrafficKeepsTruth(db, request);
    }
    SameRecall(db, Step(db, request), views, w, r, hits, before);
    RecallIsDetermined(Step(db, request), views, w, r, hits, before, after);
  }

  // ---- What the packet holds.

  /** An entry or a root is explained by a root match, a traversed node by an included edge. */
  predicate Explained(d: Gathered, x: Included) {
    if x.relation.None? then RootMatch(x.kind, x.slug, MatchKindOf(x.interpretation), x.score) in d.matches
    else IncludedEdge(x.slug, x.relation.value, x.depth) in d.edges
  }

  /** The item is an existing row in scope, of no excluded status. */
  predicate Admissible(db: Db, ctx: Context, x: Included) {
    && x.interpretation == AuthorityLabel(x.labels, ctx) && x.interpretation != OutOfScope
    && match x.kind
       case MemoryEntry =>
         x.id in db.entries
         && var e := db.entries[x.id];
         e.slug == x.slug && e.title == x.title && e.summary == x.summary && e.labels == x.labels && !ExcludedStatus(e.status)
       case TopicNode =>
         x.id in db.nodes
         && var n := db.nodes[x.id];
         n.slug == x.slug && n.title == x.title && n.summary == x.summary && n.labels == x.labels
  }

  ghost predicate Sound(db: Db, ctx: Context, d: Gathered) {
    forall x :: x in d.nodes ==> Admissible(db, ctx, x) && Explained(d, x)
  }

  lemma EntryKeepsSound(db: Db, w: Weights, ctx: Context, d: Gathered, id: int)
    requires id in db.entries && Sound(db, ctx, d)
    ensures Sound(db, ctx, AddEntry(db, w, ctx, d, id))
  {
    var later := AddEntry(db, w, ctx, d, id);
    forall x | x in later.nodes
      ensures Admissible(db, ctx, x) && Explained(later, x)
    {
      assert x in d.nodes ==> Explained(d, x);
    }
  }

  lemma TopicKeepsSound(db: Db, w: Weights, ctx: Context, d: Gathered, t: Reached)
    requires t.id in db.nodes && Sound(db, ctx, d)
    ensures Sound(db, ctx, AddTopic(db, w, ctx, d, t))
  {
    var later := AddTopic(db, w, ctx, d, t);
    forall x | x in later.nodes
      ensures Admissible(db, ctx, x) && Explained(later, x)
    {
      assert x in d.nodes ==> Explained(d, x);
    }
  }

  lemma {:induction false} EntriesAreSound(db: Db, w: Weights, ctx: Context, ids: seq<int>)
    requires EntriesExist(db, ids)
    ensures Sound(db, ctx, GatherEntries(db, w, ctx, ids))
    ensures forall x :: x in GatherEntries(db, w, ctx, ids).nodes ==> x.kind == MemoryEntry && x.depth == 0
  {
    if ids != [] {
      EntriesAreSound(db, w, ctx, ids[..|ids| - 1]);
      EntryKeepsSound(db, w, ctx, GatherEntries(db, w, ctx, ids[..|ids| - 1]), ids[|ids| - 1]);
    }
  }

  lemma {:induction false} TopicsAreSound(db: Db, w: Weights, ctx: Context, d: Gathered, all: seq<Reached>)
    requires TopicsExist(db, all) && Sound(db, ctx, d)
    ensures Sound(db, ctx, GatherTopics(db, w, ctx, d, all))
  {
    if all != [] {
      TopicsAreSound(db, w, ctx, d, all[..|all| - 1]);
      TopicKeepsSound(db, w, ctx, GatherTopics(db, w, ctx, d, all[..|all| - 1]), all[|all| - 1]);
    }
  }

  /** The item a considered node becomes when it is in scope. */
  function TopicFor(db: Db, w: Weights, ctx: Context, t: Reached): Included
    requires t.id in db.nodes
  {
    var n := db.nodes[t.id];
    var (score, verdict) := Score(w, NodeItem(n.labels), ctx, [], t.depth, t.relation);
    TopicItem(t, n, score, verdict)
  }

  function EntryFor(db: Db, w: Weights, ctx: Context, id: int): Included
    requires id in db.entries
  {
    var e := db.entries[id];
    var (score, verdict) := Score(w, ScoredEntry(e), ctx, Validations(SourcesOf(db.refs, id)), 0, None);
    EntryItem(id, e, score, verdict)
  }

  /** The skip record of a considered node, if it is out of scope. */
  function TopicSkip(db: Db, ctx: Context, t: Reached): Option<Skip>
    requires t.id in db.nodes
  {
    var n := db.nodes[t.id];
    if AuthorityLabel(n.labels, ctx) == OutOfScope then Some(Skip(n.slug, ScopeExcluded)) else None
  }

  ghost predicate TopicHandled(db: Db, w: Weights, ctx: Context, d: Gathered, t: Reached)
    requires t.id in db.nodes
  {
    var skip := TopicSkip(db, ctx, t);
    if skip.Some? then skip.value in d.skipped else TopicFor(db, w, ctx, t) in d.nodes
  }

  lemma AddTopicIs(db: Db, w: Weights, ctx: Context, d: Gathered, t: Reached)
    requires t.id in db.nodes
    ensures var skip := TopicSkip(db, ctx, t);
      var later := AddTopic(db, w, ctx, d, t);
      if skip.Some? then later.nodes == d.nodes && later.skipped == d.skipped + [skip.value]
      else later.nodes == d.nodes + [TopicFor(db, w, ctx, t)] && later.skipped == d.skipped
  {
  }

  /** Each considered node is gathered when in scope, with a skip record when not, and neither
      list holds anything else. */
  lemma {:induction false} TopicsAreGathered(db: Db, w: Weights, ctx: Context, d: Gathered, all: seq<Reached>)
    requires TopicsExist(db, all)
    ensures var later := GatherTopics(db, w, ctx, d, all);
      && (forall p :: 0 <= p < |all| ==> TopicHandled(db, w, ctx, later, all[p]))
      && (forall x :: x in later.nodes ==>
            x in d.nodes || exists p :: 0 <= p < |all| && TopicSkip(db, ctx, all[p]).None? && x == TopicFor(db, w, ctx, all[p]))
      && (forall s :: s in later.skipped ==> s in d.skipped || exists p :: 0 <= p < |all| && TopicSkip(db, ctx, all[p]) == Some(s))
      && (forall x :: x in d.nodes ==> x in later.nodes) && (forall s :: s in d.skipped ==> s in later.skipped)
  {
    if all != [] {
      var (front, t) := (all[..|all| - 1], all[|all| - 1]);
      TopicsAreGathered(db, w, ctx, d, front);
      var before, later := GatherTopics(db, w, ctx, d, front), GatherTopics(db, w, ctx, d, all);
      AddTopicIs(db, w, ctx, before, t);
      forall p | 0 <= p < |all|
        ensures TopicHandled(db, w, ctx, later, all[p])
      {
        if p < |front| {
          assert all[p] == front[p] && TopicHandled(db, w, ctx, before, front[p]);
        }
      }
      forall x | x in later.nodes && x !in d.nodes
        ensures exists p :: 0 <= p < |all| && TopicSkip(db, ctx, all[p]).None? && x == TopicFor(db, w, ctx, all[p])
      {
        if x in before.nodes {
          var p :| 0 <= p < |front| && TopicSkip(db, ctx, front[p]).None? && x == TopicFor(db, w, ctx, front[p]);
          assert all[p] == front[p];
        } else {
          assert x == TopicFor(db, w, ctx, all[|all| - 1]);
        }
      }
      forall s | s in later.skipped && s !in d.skipped
        ensures exists p :: 0 <= p < |all| && TopicSkip(db, ctx, all[p]) == Some(s)
      {
        if s in before.skipped {
          var p :| 0 <= p < |front| && TopicSkip(db, ctx, front[p]) == Some(s);
          assert all[p] == front[p];
        } else {
          assert TopicSkip(db, ctx, all[|all| - 1]) == Some(s);
        }
      }
    }
  }

  /** The skip record of a matched entry, if its status or its scope excludes it. */
  function EntrySkip(db: Db, ctx: Context, id: int): Option<Skip>
    requires id in db.entries
  {
    var e := db.entries[id];
    if ExcludedStatus(e.status) then Some(Skip(e.slug, StatusExcluded(e.status)))
    else if AuthorityLabel(e.labels, ctx) == OutOfScope then Some(Skip(e.slug, ScopeExcluded))
    else None
  }

  ghost predicate EntryHandled(db: Db, w: Weights, ctx: Context, d: Gathered, id: int)
    requires id in db.entries
  {
    var skip := EntrySkip(db, ctx, id);
    if skip.Some? then skip.value in d.skipped else EntryFor(db, w, ctx, id) in d.nodes
  }

  /** One matched entry adds its skip record or its item. */
  lemma AddEntryIs(db: Db, w: Weights, ctx: Context, d: Gathered, id: int)
    requires id in db.entries
    ensures var skip := EntrySkip(db, ctx, id);
      var later := AddEntry(db, w, ctx, d, id);
      if skip.Some? then later.nodes == d.nodes && later.skipped == d.skipped + [skip.value]
      else later.nodes == d.nodes + [EntryFor(db, w, ctx, id)] && later.skipped == d.skipped
  {
  }

  /** Each matched entry is gathered, or skipped for its status or its scope, and neither list holds
      anything else. */
  lemma {:induction false} EntriesAreGathered(db: Db, w: Weights, ctx: Context, ids: seq<int>)
    requires EntriesExist(db, ids)
    ensures var d := GatherEntries(db, w, ctx, ids);
      && (forall p :: 0 <= p < |ids| ==> EntryHandled(db, w, ctx, d, ids[p]))
      && (forall x :: x in d.nodes ==>
            exists p :: 0 <= p < |ids| && EntrySkip(db, ctx, ids[p]).None? && x == EntryFor(db, w, ctx, ids[p]))
      && (forall s :: s in d.skipped ==> exists p :: 0 <= p < |ids| && EntrySkip(db, ctx, ids[p]) == Some(s))
  {
    if ids != [] {
      var (front, id) := (ids[..|ids| - 1], ids[|ids| - 1]);
      EntriesAreGathered(db, w, ctx, front);
      var before, d := GatherEntries(db, w, ctx, front), GatherEntries(db, w, ctx, ids);
      AddEntryIs(db, w, ctx, before, id);
      forall p | 0 <= p < |ids|
        ensures EntryHandled(db, w, ctx, d, ids[p])
      {
        if p < |front| {
          assert ids[p] == front[p] && EntryHandled(db, w, ctx, before, front[p]);
        }
      }
      forall x | x in d.nodes
        ensures exists p :: 0 <= p < |ids| && EntrySkip(db, ctx, ids[p]).None? && x == EntryFor(db, w, ctx, ids[p])
      {
        if x in before.nodes {
          var p :| 0 <= p < |front| && EntrySkip(db, ctx, front[p]).None? && x == EntryFor(db, w, ctx, front[p]);
          assert ids[p] == front[p];
        } else {
          assert x == EntryFor(db, w, ctx, ids[|ids| - 1]);
        }
      }
      forall s | s in d.skipped
        ensures exists p :: 0 <= p < |ids| && EntrySkip(db, ctx, ids[p]) == Some(s)
      {
        if s in before.skipped {
          var p :| 0 <= p < |front| && EntrySkip(db, ctx, front[p]) == Some(s);
          assert ids[p] == front[p];
        } else {
          assert EntrySkip(db, ctx, ids[|ids| - 1]) == Some(s);
        }
      }
    }
  }

  lemma {:induction false} SourcesAreOfEntry(refs: seq<SourceRef>, entry: int)
    ensures forall s :: s in SourcesOf(refs, entry) <==> s in refs && s.targetKind == EntryTarget && s.targetId == entry
  {
    if refs != [] {
      SourcesAreOfEntry(refs[..|refs| - 1], entry);
      assert refs == refs[..|refs| - 1] + [refs[|refs| - 1]];
    }
  }

  /** The slug of each gathered discovered entry is warned about, and no other. */
  ghost predicate Warned(d: Gathered) {
    forall slug :: slug in d.warnings <==>
      exists x :: x in d.nodes && x.kind == MemoryEntry && x.interpretation == DiscoveredEvidence && x.slug == slug
  }

  /** The provenance is the references of the gathered entries, and no others. */
  ghost predicate Sourced(refs: seq<SourceRef>, d: Gathered) {
    forall s :: s in d.provenance <==>
      s in refs && s.targetKind == EntryTarget && exists x :: x in d.nodes && x.kind == MemoryEntry && x.id == s.targetId
  }

  lemma EntryKeepsWarned(d: Gathered, item: Included, sources: seq<SourceRef>)
    requires Warned(d) && item.kind == MemoryEntry
    ensures Warned(WithEntry(d, item, sources))
  {
    var later := WithEntry(d, item, sources);
    assert forall x :: x in later.nodes <==> x in d.nodes || x == item;
  }

  lemma EntryKeepsSourced(refs: seq<SourceRef>, d: Gathered, item: Included)
    requires Sourced(refs, d) && item.kind == MemoryEntry
    ensures Sourced(refs, WithEntry(d, item, SourcesOf(refs, item.id)))
  {
    SourcesAreOfEntry(refs, item.id);
    var later := WithEntry(d, item, SourcesOf(refs, item.id));
    assert forall x :: x in later.nodes <==> x in d.nodes || x == item;
  }

  /** Among the entries, exactly the discovered ones are warned about, and exactly the references
      of the gathered ones are given as provenance. */
  lemma {:induction false} WarningsAndProvenance(db: Db, w: Weights, ctx: Context, ids: seq<int>)
    requires EntriesExist(db, ids)
    ensures Warned(GatherEntries(db, w, ctx, ids)) && Sourced(db.refs, GatherEntries(db, w, ctx, ids))
  {
    if ids != [] {
      var (front, id) := (ids[..|ids| - 1], ids[|ids| - 1]);
      WarningsAndProvenance(db, w, ctx, front);
      var before := GatherEntries(db, w, ctx, front);
      EntryKeepsWarned(before, EntryFor(db, w, ctx, id), SourcesOf(db.refs, id));
      EntryKeepsSourced(db.refs, before, EntryFor(db, w, ctx, id));
    }
  }

  /** The considered nodes are the nodes within the depth bound, each at its distance. */
  lemma PositionsAreDistances(db: Db, view: Option<View>, r: RecallRequest, hits: Hits, found: seq<Found>, id: int, n: nat)
    requires Finds(db, view, r, hits, found)
    ensures var (walk, roots) := (WalkOf(r, view), RootNodes(db, hits, Limit(r), view));
      (exists p :: 0 <= p < |Considered(roots, found)| && Considered(roots, found)[p].id == id && Considered(roots, found)[p].depth == n)
      <==> (n == 0 || n <= walk.maxDepth) && Distance(GraphOf(db), walk, roots, id, n)
  {
    var (walk, roots) := (WalkOf(r, view), RootNodes(db, hits, Limit(r), view));
    var all := Considered(roots, found);
    TraversalIsExact(GraphOf(db), walk, roots, found);
    if p :| 0 <= p < |all| && all[p].id == id && all[p].depth == n {
      if p < |roots| {
        assert roots[p] in roots;
        assert Distance(GraphOf(db), walk, roots, id, 0);
      } else {
        assert found[p - |roots|].id == id && found[p - |roots|].depth == n;
        assert Distance(GraphOf(db), walk, roots, id, n);
      }
    }
    if (n == 0 || n <= walk.maxDepth) && Distance(GraphOf(db), walk, roots, id, n) {
      if n == 0 {
        var p :| 0 <= p < |roots| && roots[p] == id;
        assert all[p].id == id && all[p].depth == 0;
      } else {
        var k :| 0 <= k < |found| && found[k].id == id && found[k].depth == n;
        assert all[|roots| + k].id == id && all[|roots| + k].depth == n;
      }
    }
  }

  /** Which topic nodes recall gathers, at which depth: exactly those in scope whose distance from
      the roots is 0, or at most the depth bound. Each carries the score of that depth. */
  lemma PoolIsExact(db: Db, view: Option<View>, w: Weights, r: RecallRequest, hits: Hits, found: seq<Found>, id: int, n: nat)
    requires Finds(db, view, r, hits, found) && id in db.nodes
    ensures var (g, walk, roots) := (GraphOf(db), WalkOf(r, view), RootNodes(db, hits, Limit(r), view));
      (exists x :: x in Pool(db, view, w, r, hits, found).nodes && x.kind == TopicNode && x.id == id && x.depth == n)
      <==> AuthorityLabel(db.nodes[id].labels, r.context) != OutOfScope && (n == 0 || n <= walk.maxDepth) && Distance(g, walk, roots, id, n)
    ensures forall x :: x in Pool(db, view, w, r, hits, found).nodes && x.kind == TopicNode && x.id == id ==>
      (x.score, x.interpretation) == Score(w, NodeItem(db.nodes[id].labels), r.context, [], x.depth, x.relation)
  {
    var (g, walk, roots) := (GraphOf(db), WalkOf(r, view), RootNodes(db, hits, Limit(r), view));
    var all := Considered(roots, found);
    var entries := RootEntries(db, hits, Limit(r));
    var d := GatherEntries(db, w, r.context, entries);
    EntriesAreSound(db, w, r.context, entries);
    TopicsAreGathered(db, w, r.context, d, all);
    TopicsAreSound(db, w, r.context, d, all);
    TraversalIsExact(g, walk, roots, found);
    var pool := Pool(db, view, w, r, hits, found);
    forall x | x in pool.nodes && x.kind == TopicNode
      ensures exists p :: 0 <= p < |all| && x == TopicFor(db, w, r.context, all[p])
    {
      assert x !in d.nodes;
    }
    PositionsAreDistances(db, view, r, hits, found, id, n);
    if p: nat :| p < |all| && all[p].id == id && all[p].depth == n && AuthorityLabel(db.nodes[id].labels, r.context) != OutOfScope {
      assert TopicFor(db, w, r.context, all[p]) in pool.nodes;
    }
  }

  // ---- No topic node twice.

  ghost predicate NoTopicTwice(items: seq<Included>) {
    forall i, j :: 0 <= i < j < |items| && items[i].kind == TopicNode && items[j].kind == TopicNode ==> items[i].id != items[j].id
  }

  lemma RootsAreDistinct(db: Db, hits: Hits, limit: int, view: Option<View>)
    requires Distinct(hits.nodes)
    ensures Distinct(RootNodes(db, hits, limit, view))
  {
    RowsExist(hits.nodes, db.nodes.Keys);
  }

  lemma {:induction false} TopicsGatheredOnce(db: Db, w: Weights, ctx: Context, d: Gathered, all: seq<Reached>)
    requires TopicsExist(db, all) && (forall x :: x in d.nodes ==> x.kind == MemoryEntry)
    requires forall p, q :: 0 <= p < q < |all| ==> all[p].id != all[q].id
    ensures NoTopicTwice(GatherTopics(db, w, ctx, d, all).nodes)
    ensures forall x :: x in GatherTopics(db, w, ctx, d, all).nodes && x.kind == TopicNode ==> exists p :: 0 <= p < |all| && all[p].id == x.id
  {
    if all != [] {
      var front := all[..|all| - 1];
      TopicsGatheredOnce(db, w, ctx, d, front);
      var before, later := GatherTopics(db, w, ctx, d, front).nodes, GatherTopics(db, w, ctx, d, all).nodes;
      forall x | x in later && x.kind == TopicNode
        ensures exists p :: 0 <= p < |all| && all[p].id == x.id
      {
        if x in before {
          var p :| 0 <= p < |front| && front[p].id == x.id;
          assert all[p].id == x.id;
        } else {
          assert all[|all| - 1].id == x.id;
        }
      }
      forall i, j | 0 <= i < j < |later| && later[i].kind == TopicNode && later[j].kind == TopicNode
        ensures later[i].id != later[j].id
      {
        assert later[i] in before;
        var p :| 0 <= p < |front| && front[p].id == later[i].id;
        assert all[p] == front[p];
      }
    }
  }

  lemma {:induction false} TwiceCounts<T>(items: seq<T>, i: nat, j: nat)
    requires i < j < |items| && items[i] == items[j]
    ensures multiset(items)[items[i]] >= 2
  {
    assert items == items[..j] + [items[j]] + items[j + 1..];
    assert items[..j][i] == items[i];
    assert items[i] in multiset(items[..j]);
  }

  lemma {:induction false} CountsTwice<T>(items: seq<T>, x: T) returns (i: nat, j: nat)
    requires multiset(items)[x] >= 2
    ensures i < j < |items| && items[i] == x && items[j] == x
  {
    assert x in multiset(items);
    i :| 0 <= i < |items| && items[i] == x;
    assert items == items[..i] + [x] + items[i + 1..];
    if x in multiset(items[..i]) {
      j := i;
      i :| 0 <= i < |items[..j]| && items[..j][i] == x;
    } else {
      assert x in multiset(items[i + 1..]);
      var k :| 0 <= k < |items[i + 1..]| && items[i + 1..][k] == x;
      j := i + 1 + k;
    }
  }

  /** Whatever part of a list is kept, in whatever order, no topic node appears twice in it. */
  lemma PartKeepsTopicsOnce(all: seq<Included>, part: seq<Included>)
    requires NoTopicTwice(all) && multiset(part) <= multiset(all)
    ensures NoTopicTwice(part)
  {
    forall i, j | 0 <= i < j < |part| && part[i].kind == TopicNode && part[j].kind == TopicNode
      ensures part[i].id != part[j].id
    {
      if part[i] == part[j] {
        TwiceCounts(part, i, j);
        var k, l := CountsTwice(all, part[i]);
        assert false;
      }
      assert part[i] in multiset(part) && part[j] in multiset(part);
      assert part[i] in all && part[j] in all;
    }
  }

  lemma PrefixIsPart<T>(items: seq<T>, n: nat)
    requires n <= |items|
    ensures multiset(items[..n]) <= multiset(items)
  {
    assert items == items[..n] + items[n..];
  }

  lemma TakeIsPart(items: seq<Included>, limit: int)
    requires Take(items, limit).Some?
    ensures multiset(Take(items, limit).value) <= multiset(items) && |Take(items, limit).value| <= limit
  {
    if limit < |items| {
      PrefixIsPart(items, limit);
    }
  }

  lemma PartIsShorter<T>(part: seq<T>, rest: seq<T>, all: seq<T>)
    requires multiset(part) + multiset(rest) == multiset(all)
    ensures |part| <= |all| && multiset(part) <= multiset(all)
  {
    assert |multiset(part) + multiset(rest)| == |part| + |rest|;
    assert |multiset(all)| == |all|;
  }

  lemma BudgetOnlyDrops(items: seq<Included>, before: seq<Skip>, budget: int, kept: seq<Included>, skipped: seq<Skip>)
    requires budget > 0 && Budgeted(items, before, budget, kept, skipped)
    ensures |kept| <= |items| && multiset(kept) <= multiset(items)
    ensures Total(kept, Estimate) <= if budget > OVERHEAD then budget - OVERHEAD else 0
  {
    var choice, cut := BudgetIsExact(items, before, budget, kept, skipped);
    PartIsShorter(kept, cut, items);
  }

  /** Ordering, limit and budget only drop items. */
  lemma PackingOnlyDrops(pool: Gathered, ordering: Ordering, limit: int, budget: int, packet: Gathered)
    requires Packed(pool, ordering, limit, budget, packet) && budget > 0
    ensures multiset(packet.nodes) <= multiset(pool.nodes)
    ensures |packet.nodes| <= limit
    ensures Total(packet.nodes, Estimate) <= if budget > OVERHEAD then budget - OVERHEAD else 0
  {
    var sorted := StableSort(ordering, pool.nodes);
    StableSortSorts(ordering, pool.nodes);
    var taken := Take(sorted, limit).value;
    TakeIsPart(sorted, limit);
    BudgetOnlyDrops(taken, pool.skipped, budget, packet.nodes, packet.skipped);
  }

  lemma PoolItemsAreSound(db: Db, view: Option<View>, w: Weights, r: RecallRequest, hits: Hits, found: seq<Found>)
    requires Finds(db, view, r, hits, found)
    ensures Sound(db, r.context, Pool(db, view, w, r, hits, found))
  {
    var entries := RootEntries(db, hits, Limit(r));
    EntriesAreSound(db, w, r.context, entries);
    TopicsAreSound(db, w, r.context, GatherEntries(db, w, r.context, entries), Considered(RootNodes(db, hits, Limit(r), view), found));
  }

  lemma PoolIsSound(db: Db, view: Option<View>, w: Weights, r: RecallRequest, hits: Hits, found: seq<Found>)
    requires Finds(db, view, r, hits, found) && Distinct(hits.nodes)
    ensures Sound(db, r.context, Pool(db, view, w, r, hits, found))
    ensures NoTopicTwice(Pool(db, view, w, r, hits, found).nodes)
  {
    var roots := RootNodes(db, hits, Limit(r), view);
    var entries := RootEntries(db, hits, Limit(r));
    PoolItemsAreSound(db, view, w, r, hits, found);
    EntriesAreSound(db, w, r.context, entries);
    RootsAreDistinct(db, hits, Limit(r), view);
    TraversalIsExact(GraphOf(db), WalkOf(r, view), roots, found);
    TopicsGatheredOnce(db, w, r.context, GatherEntries(db, w, r.context, entries), Considered(roots, found));
  }

  /** Every packet: no topic node twice; every item an existing row, told by its slug, title, summary
      and labels, in scope and of no excluded status, explained by a root match or an included edge; within the limit and the budget. */
  lemma PacketsAreSound(db: Db, views: map<string, View>, w: Weights, r: RecallRequest, hits: Hits, packet: Gathered)
    requires Recalls(db, views, w, r, hits, Delivered(packet)) && Distinct(hits.nodes)
    ensures NoTopicTwice(packet.nodes)
    ensures Sound(db, r.context, packet)
    ensures |packet.nodes| <= Limit(r)
    ensures var budget := BudgetOf(r, ViewFor(views, r.viewSlug));
      Total(packet.nodes, Estimate) <= if budget > OVERHEAD then budget - OVERHEAD else 0
  {
    var view := ViewFor(views, r.viewSlug);
    var found :| Packs(db, view, w, r, hits, found, packet);
    var pool := Pool(db, view, w, r, hits, found);
    PackingOnlyDrops(pool, OrderingOf(r, view), Limit(r), BudgetOf(r, view), packet);
    PoolIsSound(db, view, w, r, hits, found);
    PartKeepsTopicsOnce(pool.nodes, packet.nodes);
    forall x | x in packet.nodes
      ensures Admissible(db, r.context, x) && Explained(packet, x)
    {
      assert x in multiset(packet.nodes) && x in multiset(pool.nodes);
      assert x in pool.nodes && Explained(pool, x);
    }
  }

  // ---- Under roots_then_edges the pool is in order already.

  lemma TopicAddsAtMostItself(db: Db, w: Weights, ctx: Context, d: Gathered, t: Reached)
    requires t.id in db.nodes
    ensures var later := AddTopic(db, w, ctx, d, t).nodes;
      later == d.nodes || later == d.nodes + [TopicFor(db, w, ctx, t)]
    ensures TopicFor(db, w, ctx, t).depth == t.depth
  {
  }

  lemma SortedGrows(items: seq<Included>, item: Included)
    requires Sorted(RootsThenEdges, items) && forall x :: x in items ==> x.depth <= item.depth
    ensures Sorted(RootsThenEdges, items + [item])
  {
    forall i | 0 <= i < |items|
      ensures SortKey(RootsThenEdges, items[i]) <= SortKey(RootsThenEdges, item)
    {
      assert items[i] in items;
    }
  }

  lemma {:induction false} TopicsKeepDepthOrder(db: Db, w: Weights, ctx: Context, d: Gathered, all: seq<Reached>)
    requires TopicsExist(db, all) && (forall x :: x in d.nodes ==> x.depth == 0)
    requires forall p, q :: 0 <= p <= q < |all| ==> all[p].depth <= all[q].depth
    ensures Sorted(RootsThenEdges, GatherTopics(db, w, ctx, d, all).nodes)
    ensures forall x :: x in GatherTopics(db, w, ctx, d, all).nodes ==> x.depth == 0 || (all != [] && x.depth <= all[|all| - 1].depth)
  {
    if all != [] {
      TopicsKeepDepthOrder(db, w, ctx, d, all[..|all| - 1]);
      var before := GatherTopics(db, w, ctx, d, all[..|all| - 1]);
      TopicAddsAtMostItself(db, w, ctx, before, all[|all| - 1]);
      SortedGrows(before.nodes, TopicFor(db, w, ctx, all[|all| - 1]));
    }
  }

  /** Traversal emits level by level, so the final sort by depth changes nothing. */
  lemma DepthOrderingChangesNothing(db: Db, view: Option<View>, w: Weights, r: RecallRequest, hits: Hits, found: seq<Found>)
    requires Finds(db, view, r, hits, found) && OrderingOf(r, view) == RootsThenEdges
    ensures var pool := Pool(db, view, w, r, hits, found);
      StableSort(OrderingOf(r, view), pool.nodes) == pool.nodes
  {
    var roots := RootNodes(db, hits, Limit(r), view);
    var entries := RootEntries(db, hits, Limit(r));
    EntriesAreSound(db, w, r.context, entries);
    TraversalOrder(GraphOf(db), WalkOf(r, view), roots, found);
    TopicsKeepDepthOrder(db, w, r.context, GatherEntries(db, w, r.context, entries), Considered(roots, found));
    SortingSortedChangesNothing(RootsThenEdges, Pool(db, view, w, r, hits, found).nodes);
  }
}
