/** What a delivered packet means in the columns of the tables: which scopes see which rows, what
    every hit becomes, which paths of edges lead to a topic node, and how many bytes the budget buys. */
module Delivery {
  import opened Base
  import opened Schema
  import opened Scoring
  import opened Traversal
  import opened Packet
  import opened Recall

  // ---- Who sees a row.

  /** The columns name the scope of the request; a missing id counts as an empty one. */
  predicate OfScope(kind: ScopeKind, id: Option<string>, ctx: Context) {
    kind == ctx.scopeKind && ctx.scopeId == (if id.Some? then id.value else "")
  }

  /** The request speaks with the row's authority, or everybody does. */
  predicate Owned(l: Labels, ctx: Context) {
    OfScope(l.authorityKind, l.authorityId, ctx) || (l.authorityKind == Global && (l.authorityId == None || l.authorityId == Some("")))
  }

  /** The discovery column shares the row with the scope of the request. */
  predicate Shared(l: Labels, ctx: Context) {
    match l.discovery
    case GlobalDiscoverable => true
    case SameProject => ctx.scopeKind == Project && OfScope(l.scopeKind, l.scopeId, ctx)
    case LinkedProjects => ctx.scopeKind == Project
    case ExplicitOnly => false
    case OtherDiscovery(_) => false
  }

  predicate Visible(l: Labels, ctx: Context) {
    Owned(l, ctx) || Shared(l, ctx)
  }

  /** The verdict a visible row is delivered under. */
  function Standing(l: Labels, ctx: Context): Label {
    if Owned(l, ctx) then Authoritative else DiscoveredEvidence
  }

  lemma LabelTellsVisibility(l: Labels, ctx: Context)
    ensures AuthorityLabel(l, ctx) == if Visible(l, ctx) then Standing(l, ctx) else OutOfScope
  {
  }

  /** A delivered item is a stored row that the scope of the request sees, with the row's slug,
      title and summary; an entry was hit and is neither superseded, deprecated nor archived. */
  ghost predicate SeenAs(db: Db, hits: Hits, ctx: Context, x: Included) {
    match x.kind
    case MemoryEntry =>
      && x.id in hits.entries && x.id in db.entries
      && var e := db.entries[x.id];
      && e.status != SupersededEntry && e.status != Deprecated && e.status != Archived
      && x.slug == e.slug && x.title == e.title && x.summary == e.summary
      && Visible(e.labels, ctx) && x.interpretation == Standing(e.labels, ctx)
    case TopicNode =>
      && x.id in db.nodes
      && var n := db.nodes[x.id];
      && x.slug == n.slug && x.title == n.title && x.summary == n.summary
      && Visible(n.labels, ctx) && x.interpretation == Standing(n.labels, ctx)
  }

  lemma PackedIsPooled(pool: Gathered, ordering: Ordering, limit: int, budget: int, packet: Gathered, x: Included)
    requires Packed(pool, ordering, limit, budget, packet) && budget > 0 && x in packet.nodes
    ensures x in pool.nodes
  {
    PackingOnlyDrops(pool, ordering, limit, budget, packet);
    assert x in multiset(packet.nodes) && x in multiset(pool.nodes);
  }

  lemma EntriesWereHit(db: Db, hits: Hits, limit: int, id: int)
    requires id in RootEntries(db, hits, limit)
    ensures id in hits.entries
  {
    RowsExist(hits.entries, db.entries.Keys);
  }

  /** An entry in the pool is a matched one. */
  lemma PooledEntryWasHit(db: Db, view: Option<View>, w: Weights, r: RecallRequest, hits: Hits, found: seq<Found>, x: Included)
    requires Finds(db, view, r, hits, found) && x in Pool(db, view, w, r, hits, found).nodes && x.kind == MemoryEntry
    ensures x.id in hits.entries
    ensures x.id in db.entries && x == EntryFor(db, w, r.context, x.id)
  {
    var entries := RootEntries(db, hits, Limit(r));
    var d := GatherEntries(db, w, r.context, entries);
    TopicsAreGathered(db, w, r.context, d, Considered(RootNodes(db, hits, Limit(r), view), found));
    EntriesAreGathered(db, w, r.context, entries);
    assert x in d.nodes;
    var p :| 0 <= p < |entries| && EntrySkip(db, r.context, entries[p]).None? && x == EntryFor(db, w, r.context, entries[p]);
    EntriesWereHit(db, hits, Limit(r), entries[p]);
  }

  /** Nothing is delivered that the request may not see. */
  lemma DeliveredIsSeen(db: Db, views: map<string, View>, w: Weights, r: RecallRequest, hits: Hits, packet: Gathered, x: Included)
    requires Recalls(db, views, w, r, hits, Delivered(packet)) && x in packet.nodes
    ensures SeenAs(db, hits, r.context, x)
  {
    var view := ViewFor(views, r.viewSlug);
    var found :| Packs(db, view, w, r, hits, found, packet);
    PackedIsPooled(Pool(db, view, w, r, hits, found), OrderingOf(r, view), Limit(r), BudgetOf(r, view), packet, x);
    PoolItemsAreSound(db, view, w, r, hits, found);
    assert Admissible(db, r.context, x);
    LabelTellsVisibility(x.labels, r.context);
    if x.kind == MemoryEntry {
      PooledEntryWasHit(db, view, w, r, hits, found, x);
    }
  }

  // ---- What becomes of every hit.

  lemma {:induction false} RowsOfPrefix(hits: seq<int>, ids: set<int>, n: nat)
    requires n <= |hits|
    ensures Rows(hits[..n], ids) <= Rows(hits, ids) && |Rows(hits, ids)| <= |hits|
    decreases |hits|
  {
    if n < |hits| {
      RowsOfPrefix(hits[..|hits| - 1], ids, n);
      assert hits[..|hits| - 1][..n] == hits[..n];
    } else {
      assert hits[..n] == hits;
      if hits != [] {
        RowsOfPrefix(hits[..|hits| - 1], ids, 0);
      }
    }
  }

  /** `some` are the members of `all` that are wanted, in order: those at the places `at`. */
  ghost predicate Picks<T>(all: seq<T>, at: seq<int>, some: seq<T>, wanted: T -> bool) {
    && |at| == |some| && (forall i :: 0 <= i < |at| ==> 0 <= at[i] < |all| && some[i] == all[at[i]])
    && (forall i, j :: 0 <= i < j < |at| ==> at[i] < at[j])
    && (forall k :: 0 <= k < |all| ==> (k in at <==> wanted(all[k])))
  }

  lemma PicksMore<T>(all: seq<T>, at: seq<int>, some: seq<T>, wanted: T -> bool, last: T)
    requires Picks(all, at, some, wanted)
    ensures if wanted(last) then Picks(all + [last], at + [|all|], some + [last], wanted) else Picks(all + [last], at, some, wanted)
  {
    assert |all| !in at;
    assert forall k :: k in at + [|all|] <==> k in at || k == |all|;
  }

  /** The rows of a match list are its members that are stored, in order. */
  lemma {:induction false} RowsArePicked(hits: seq<int>, ids: set<int>) returns (at: seq<int>)
    ensures Picks(hits, at, Rows(hits, ids), k => k in ids)
    decreases |hits|
  {
    at := [];
    if hits != [] {
      var (front, last) := (hits[..|hits| - 1], hits[|hits| - 1]);
      at := RowsArePicked(front, ids);
      PicksMore(front, at, Rows(front, ids), k => k in ids, last);
      assert hits == front + [last];
      if last in ids {
        at := at + [|front|];
      }
    }
  }

  /** What a recall starts from: the stored matches in order, up to the limit, and before the topic
      nodes the root of the view, if it is stored and not among them. */
  lemma RootsAreInOrder(db: Db, r: RecallRequest, hits: Hits, view: Option<View>)
    returns (entries: seq<int>, nodes: seq<int>, at: seq<int>, places: seq<int>)
    requires Limit(r) >= 0
    ensures Picks(hits.entries, at, entries, k => k in db.entries.Keys)
    ensures Picks(hits.nodes, places, nodes, k => k in db.nodes.Keys)
    ensures RootEntries(db, hits, Limit(r)) == entries[..if Limit(r) < |entries| then Limit(r) else |entries|]
    ensures var matched := nodes[..if Limit(r) < |nodes| then Limit(r) else |nodes|];
      RootNodes(db, hits, Limit(r), view)
      == if view.Some? && view.value.rootNode in db.nodes && view.value.rootNode !in matched then [view.value.rootNode] + matched
         else matched
  {
    entries, nodes := Rows(hits.entries, db.entries.Keys), Rows(hits.nodes, db.nodes.Keys);
    at := RowsArePicked(hits.entries, db.entries.Keys);
    places := RowsArePicked(hits.nodes, db.nodes.Keys);
  }

  /** A stored row among the first `limit` hits is among the rows the limit leaves. */
  lemma EarlyHitIsTaken(hits: seq<int>, ids: set<int>, limit: int, p: nat)
    requires p < |hits| && p < limit && hits[p] in ids
    ensures hits[p] in Limited(Rows(hits, ids), limit)
  {
    var some := Rows(hits[..p + 1], ids);
    assert hits[..p + 1][..p] == hits[..p];
    RowsOfPrefix(hits, ids, p + 1);
    RowsOfPrefix(hits[..p], ids, 0);
    assert some == Rows(hits[..p], ids) + [hits[p]];
    var k := |some| - 1;
    assert some[k] == hits[p] && Rows(hits, ids)[k] == hits[p] && k < limit;
    assert Limited(Rows(hits, ids), limit)[k] == hits[p];
  }

  /** What was gathered is delivered, cut by the budget with a skip record, or was beyond the limit. */
  ghost predicate Placed(pool: Gathered, limit: int, packet: Gathered, x: Included) {
    || x in packet.nodes
    || Skip(x.slug, BudgetTruncated) in packet.skipped
    || |pool.nodes| > limit
  }

  lemma {:induction false} TruncationsTell(items: seq<Included>, x: Included)
    requires x in items
    ensures Skip(x.slug, BudgetTruncated) in Truncations(items)
    decreases |items|
  {
    var (front, last) := (items[..|items| - 1], items[|items| - 1]);
    if x == last {
      assert Truncations(items)[|Truncations(items)| - 1] == Truncation(last);
    } else {
      assert x in front;
      TruncationsTell(front, x);
    }
  }

  lemma SameMembers<T>(a: multiset<T>, b: multiset<T>, c: multiset<T>, x: T)
    requires a + b == c && x in c
    ensures x in a || x in b
  {
  }

  lemma BudgetPlaces(items: seq<Included>, before: seq<Skip>, budget: int, kept: seq<Included>, skipped: seq<Skip>, x: Included)
    requires budget > 0 && Budgeted(items, before, budget, kept, skipped) && x in items
    ensures x in kept || Skip(x.slug, BudgetTruncated) in skipped
  {
    var choice, cut := BudgetIsExact(items, before, budget, kept, skipped);
    SameMembers(multiset(kept), multiset(cut), multiset(items), x);
    if x in cut {
      TruncationsTell(cut, x);
    }
  }

  lemma PackingPlaces(pool: Gathered, ordering: Ordering, limit: int, budget: int, packet: Gathered, x: Included)
    requires Packed(pool, ordering, limit, budget, packet) && budget > 0 && x in pool.nodes
    ensures Placed(pool, limit, packet, x)
  {
    var sorted := StableSort(ordering, pool.nodes);
    StableSortSorts(ordering, pool.nodes);
    if |pool.nodes| <= limit {
      assert Take(sorted, limit).value == sorted;
      assert x in multiset(pool.nodes) && x in multiset(sorted);
      BudgetPlaces(sorted, pool.skipped, budget, packet.nodes, packet.skipped, x);
    }
  }

  /** Packing keeps matches, edges and the skip records made before it. */
  lemma PackingKeeps(pool: Gathered, ordering: Ordering, limit: int, budget: int, packet: Gathered)
    requires Packed(pool, ordering, limit, budget, packet) && budget > 0
    ensures packet.matches == pool.matches && packet.edges == pool.edges
    ensures pool.skipped <= packet.skipped
  {
    var taken := Take(StableSort(ordering, pool.nodes), limit).value;
    var choice, cut := BudgetIsExact(taken, pool.skipped, budget, packet.nodes, packet.skipped);
  }

  lemma {:induction false} EntriesCount(db: Db, w: Weights, ctx: Context, ids: seq<int>)
    requires EntriesExist(db, ids)
    ensures var d := GatherEntries(db, w, ctx, ids); |d.nodes| == |d.matches| && d.edges == []
    decreases |ids|
  {
    if ids != [] {
      EntriesCount(db, w, ctx, ids[..|ids| - 1]);
    }
  }

  lemma {:induction false} TopicsCount(db: Db, w: Weights, ctx: Context, d: Gathered, all: seq<Reached>)
    requires TopicsExist(db, all) && |d.nodes| == |d.matches| + |d.edges|
    ensures var later := GatherTopics(db, w, ctx, d, all); |later.nodes| == |later.matches| + |later.edges|
    decreases |all|
  {
    if all != [] {
      TopicsCount(db, w, ctx, d, all[..|all| - 1]);
    }
  }

  /** Everything gathered is explained by one match or one edge. */
  lemma PoolCount(db: Db, view: Option<View>, w: Weights, r: RecallRequest, hits: Hits, found: seq<Found>)
    requires Finds(db, view, r, hits, found)
    ensures var pool := Pool(db, view, w, r, hits, found); |pool.nodes| == |pool.matches| + |pool.edges|
  {
    EntriesCount(db, w, r.context, RootEntries(db, hits, Limit(r)));
    TopicsCount(db, w, r.context, GatherEntries(db, w, r.context, RootEntries(db, hits, Limit(r))),
                Considered(RootNodes(db, hits, Limit(r), view), found));
  }

  function HitKind(l: Labels, ctx: Context): MatchKind {
    if Owned(l, ctx) then AuthoritativeHit else DiscoverableHit
  }

  /** A gathered row: a root match of its slug, and unless more was gathered than the limit admits,
      an item of the packet or a truncation record. */
  ghost predicate Matched(r: RecallRequest, packet: Gathered, kind: ItemKind, id: int, slug: string, how: MatchKind) {
    && (exists score :: RootMatch(kind, slug, how, score) in packet.matches)
    && (|packet.matches| + |packet.edges| <= Limit(r) ==>
          || (exists x :: x in packet.nodes && x.kind == kind && x.id == id && x.depth == 0)
          || Skip(slug, BudgetTruncated) in packet.skipped)
  }

  ghost predicate NotDelivered(packet: Gathered, kind: ItemKind, id: int) {
    forall x :: x in packet.nodes ==> x.kind != kind || x.id != id
  }

  /** What becomes of a matched entry. */
  ghost predicate EntryDecided(db: Db, r: RecallRequest, packet: Gathered, id: int)
    requires id in db.entries
  {
    var e := db.entries[id];
    if e.status == SupersededEntry || e.status == Deprecated || e.status == Archived then
      Skip(e.slug, StatusExcluded(e.status)) in packet.skipped && NotDelivered(packet, MemoryEntry, id)
    else if !Visible(e.labels, r.context) then
      Skip(e.slug, ScopeExcluded) in packet.skipped && NotDelivered(packet, MemoryEntry, id)
    else
      Matched(r, packet, MemoryEntry, id, e.slug, HitKind(e.labels, r.context))
  }

  /** A pool item leaves its match and its place in the packet. */
  lemma PooledIsMatched(db: Db, view: Option<View>, w: Weights, r: RecallRequest, hits: Hits, found: seq<Found>, packet: Gathered,
                        x: Included)
    requires Packs(db, view, w, r, hits, found, packet)
    requires x in Pool(db, view, w, r, hits, found).nodes && x.relation.None? && x.depth == 0
    ensures Matched(r, packet, x.kind, x.id, x.slug, MatchKindOf(x.interpretation))
  {
    var pool := Pool(db, view, w, r, hits, found);
    PoolItemsAreSound(db, view, w, r, hits, found);
    PackingKeeps(pool, OrderingOf(r, view), Limit(r), BudgetOf(r, view), packet);
    PackingPlaces(pool, OrderingOf(r, view), Limit(r), BudgetOf(r, view), packet, x);
    PoolCount(db, view, w, r, hits, found);
    assert Explained(pool, x);
    assert RootMatch(x.kind, x.slug, MatchKindOf(x.interpretation), x.score) in packet.matches;
  }

  lemma RootEntryIsPooled(db: Db, view: Option<View>, w: Weights, r: RecallRequest, hits: Hits, found: seq<Found>, id: int)
    requires Finds(db, view, r, hits, found) && id in RootEntries(db, hits, Limit(r)) && id in db.entries
    ensures var (pool, skip) := (Pool(db, view, w, r, hits, found), EntrySkip(db, r.context, id));
      if skip.Some? then skip.value in pool.skipped else EntryFor(db, w, r.context, id) in pool.nodes
  {
    var entries := RootEntries(db, hits, Limit(r));
    var d := GatherEntries(db, w, r.context, entries);
    EntriesAreGathered(db, w, r.context, entries);
    TopicsAreGathered(db, w, r.context, d, Considered(RootNodes(db, hits, Limit(r), view), found));
    var p :| 0 <= p < |entries| && entries[p] == id;
    assert EntryHandled(db, w, r.context, d, entries[p]);
  }

  /** The lists of b begin with those of a. */
  ghost predicate Continues(a: Gathered, b: Gathered) {
    && a.nodes <= b.nodes && a.matches <= b.matches && a.edges <= b.edges
    && a.skipped <= b.skipped && a.warnings <= b.warnings && a.provenance <= b.provenance
  }

  /** Entries are gathered in order: each only adds to the end of the lists. */
  lemma {:induction false} EntriesContinue(db: Db, w: Weights, ctx: Context, ids: seq<int>, n: nat)
    requires EntriesExist(db, ids) && n <= |ids|
    ensures Continues(GatherEntries(db, w, ctx, ids[..n]), GatherEntries(db, w, ctx, ids))
    decreases |ids|
  {
    if n < |ids| {
      var front := ids[..|ids| - 1];
      EntriesContinue(db, w, ctx, front, n);
      assert front[..n] == ids[..n];
    } else {
      assert ids[..n] == ids;
    }
  }

  /** Topic nodes are gathered behind the entries, and in order. */
  lemma {:induction false} TopicsContinue(db: Db, w: Weights, ctx: Context, d: Gathered, all: seq<Reached>, n: nat)
    requires TopicsExist(db, all) && n <= |all|
    ensures Continues(GatherTopics(db, w, ctx, d, all[..n]), GatherTopics(db, w, ctx, d, all))
    ensures Continues(d, GatherTopics(db, w, ctx, d, all))
    decreases |all|
  {
    if n < |all| {
      var front := all[..|all| - 1];
      TopicsContinue(db, w, ctx, d, front, n);
      assert front[..n] == all[..n];
    } else {
      assert all[..n] == all;
      if all != [] {
        TopicsContinue(db, w, ctx, d, all[..|all| - 1], 0);
      }
    }
  }

  /** What the columns exclude is not delivered. */
  lemma ExcludedIsNotDelivered(db: Db, views: map<string, View>, w: Weights, r: RecallRequest, hits: Hits, packet: Gathered, id: int)
    requires Recalls(db, views, w, r, hits, Delivered(packet)) && id in db.entries
    requires var e := db.entries[id];
      e.status == SupersededEntry || e.status == Deprecated || e.status == Archived || !Visible(e.labels, r.context)
    ensures NotDelivered(packet, MemoryEntry, id)
  {
    forall x | x in packet.nodes && x.kind == MemoryEntry && x.id == id
      ensures false
    {
      DeliveredIsSeen(db, views, w, r, hits, packet, x);
    }
  }

  /** Every stored entry among the first hits is skipped for its status, skipped for its scope, or
      gathered under the standing its columns give it; what is skipped is not delivered. */
  lemma EntryHitsAreDecided(db: Db, views: map<string, View>, w: Weights, r: RecallRequest, hits: Hits, packet: Gathered, p: nat)
    requires Recalls(db, views, w, r, hits, Delivered(packet))
    requires p < |hits.entries| && p < Limit(r) && hits.entries[p] in db.entries
    ensures EntryDecided(db, r, packet, hits.entries[p])
  {
    var (view, id) := (ViewFor(views, r.viewSlug), hits.entries[p]);
    var found :| Packs(db, view, w, r, hits, found, packet);
    EarlyHitIsTaken(hits.entries, db.entries.Keys, Limit(r), p);
    RootEntryIsPooled(db, view, w, r, hits, found, id);
    PackingKeeps(Pool(db, view, w, r, hits, found), OrderingOf(r, view), Limit(r), BudgetOf(r, view), packet);
    var e := db.entries[id];
    LabelTellsVisibility(e.labels, r.context);
    if EntrySkip(db, r.context, id).None? {
      PooledIsMatched(db, view, w, r, hits, found, packet, EntryFor(db, w, r.context, id));
    } else {
      ExcludedIsNotDelivered(db, views, w, r, hits, packet, id);
    }
  }

  // ---- Which paths lead to a topic node.

  /** The edges `via` lead from a root to node `to`: each is active, of an admitted relation, ends
      at a stored node and starts where the one before it ends. */
  ghost predicate PathTo(db: Db, roots: seq<int>, included: set<Relation>, excluded: set<Relation>, via: seq<int>, to: int)
    decreases |via|
  {
    if via == [] then to in roots
    else
      var e := via[|via| - 1];
      && e in db.edges && db.edges[e].status == ActiveEdge && db.edges[e].target == to && to in db.nodes
      && (included == {} || db.edges[e].relation in included) && db.edges[e].relation !in excluded
      && PathTo(db, roots, included, excluded, via[..|via| - 1], db.edges[e].source)
  }

  lemma {:induction false} PathReaches(db: Db, w: Walk, roots: seq<int>, via: seq<int>, to: int)
    requires PathTo(db, roots, w.included, w.excluded, via, to)
    ensures Reach(GraphOf(db), w, roots, to, |via|)
    decreases |via|
  {
    if via != [] {
      var e := via[|via| - 1];
      PathReaches(db, w, roots, via[..|via| - 1], db.edges[e].source);
      assert Leads(GraphOf(db), w, db.edges[e].source, e, to);
    }
  }

  lemma PathGrows(db: Db, w: Walk, roots: seq<int>, via: seq<int>, from: int, e: int, to: int)
    requires PathTo(db, roots, w.included, w.excluded, via, from) && Leads(GraphOf(db), w, from, e, to)
    ensures PathTo(db, roots, w.included, w.excluded, via + [e], to)
  {
    assert (via + [e])[..|via|] == via;
  }

  lemma {:induction false} ReachHasPath(db: Db, w: Walk, roots: seq<int>, to: int, n: nat) returns (via: seq<int>)
    requires Reach(GraphOf(db), w, roots, to, n)
    ensures |via| == n && PathTo(db, roots, w.included, w.excluded, via, to)
    decreases n
  {
    if n == 0 {
      via := [];
    } else {
      var e, from :| Leads(GraphOf(db), w, from, e, to) && Reach(GraphOf(db), w, roots, from, n - 1);
      var front := ReachHasPath(db, w, roots, from, n - 1);
      PathGrows(db, w, roots, front, from, e, to);
      via := front + [e];
    }
  }

  /** A found node ends a path as long as its depth, over an edge of its recorded relation. */
  lemma FoundHasPath(db: Db, w: Walk, roots: seq<int>, found: seq<Found>, k: nat) returns (via: seq<int>)
    requires Explores(GraphOf(db), w, roots, found) && k < |found|
    ensures |via| == found[k].depth && PathTo(db, roots, w.included, w.excluded, via, found[k].id)
    ensures via != [] && via[|via| - 1] in db.edges && db.edges[via[|via| - 1]].relation == found[k].relation
  {
    var g := GraphOf(db);
    var trail :| Traversal.Canonical(g, w, roots, found, trail);
    var h := trail[k];
    assert Justified(g, w, roots, found, k, h);
    DepthIsAWalk(g, w, roots, found, trail, h.parent);
    var front := ReachHasPath(db, w, roots, IdAt(roots, found, h.parent), DepthAt(roots, found, h.parent));
    PathGrows(db, w, roots, front, IdAt(roots, found, h.parent), h.via, found[k].id);
    via := front + [h.via];
  }

  /** The roots a recall starts from: matched nodes, and the root of the view. */
  lemma RootsAreHits(db: Db, r: RecallRequest, hits: Hits, view: Option<View>)
    ensures forall id :: id in RootNodes(db, hits, Limit(r), view) ==>
      id in db.nodes && (id in hits.nodes || (view.Some? && id == view.value.rootNode))
    ensures view.Some? && view.value.rootNode in db.nodes ==> view.value.rootNode in RootNodes(db, hits, Limit(r), view)
    ensures forall p :: 0 <= p < |hits.nodes| && p < Limit(r) && hits.nodes[p] in db.nodes ==>
      hits.nodes[p] in RootNodes(db, hits, Limit(r), view)
  {
    RowsExist(hits.nodes, db.nodes.Keys);
    forall p | 0 <= p < |hits.nodes| && p < Limit(r) && hits.nodes[p] in db.nodes
      ensures hits.nodes[p] in RootNodes(db, hits, Limit(r), view)
    {
      EarlyHitIsTaken(hits.nodes, db.nodes.Keys, Limit(r), p);
    }
  }

  /** The item a considered node becomes, back from the pool. */
  lemma PooledTopicWasConsidered(db: Db, view: Option<View>, w: Weights, r: RecallRequest, hits: Hits, found: seq<Found>, x: Included)
    returns (p: nat)
    requires Finds(db, view, r, hits, found) && x in Pool(db, view, w, r, hits, found).nodes && x.kind == TopicNode
    ensures var all := Considered(RootNodes(db, hits, Limit(r), view), found);
      p < |all| && all[p].id in db.nodes && x == TopicFor(db, w, r.context, all[p])
  {
    var entries := RootEntries(db, hits, Limit(r));
    var d := GatherEntries(db, w, r.context, entries);
    var all := Considered(RootNodes(db, hits, Limit(r), view), found);
    EntriesAreSound(db, w, r.context, entries);
    TopicsAreGathered(db, w, r.context, d, all);
    assert x !in d.nodes;
    p :| 0 <= p < |all| && TopicSkip(db, r.context, all[p]).None? && x == TopicFor(db, w, r.context, all[p]);
  }

  /** No path to the node has fewer than n edges. */
  ghost predicate Shortest(db: Db, roots: seq<int>, walk: Walk, to: int, n: nat) {
    forall via :: PathTo(db, roots, walk.included, walk.excluded, via, to) ==> |via| >= n
  }

  /** The path `via` ends at node `to` over an edge of the relation, if any, and no path there is shorter. */
  ghost predicate EndsAt(db: Db, roots: seq<int>, walk: Walk, via: seq<int>, to: int, relation: Option<Relation>) {
    && PathTo(db, roots, walk.included, walk.excluded, via, to)
    && (via == [] || |via| <= walk.maxDepth)
    && (relation.Some? <==> via != []) && (via != [] ==> db.edges[via[|via| - 1]].relation == relation.value)
    && Shortest(db, roots, walk, to, |via|)
  }

  lemma NoShorterPath(db: Db, walk: Walk, roots: seq<int>, to: int, n: nat)
    requires Distance(GraphOf(db), walk, roots, to, n)
    ensures Shortest(db, roots, walk, to, n)
  {
    forall other | PathTo(db, roots, walk.included, walk.excluded, other, to)
      ensures |other| >= n
    {
      PathReaches(db, walk, roots, other, to);
    }
  }

  lemma FoundHasDistance(g: Graph, walk: Walk, roots: seq<int>, found: seq<Found>, k: nat)
    requires Explores(g, walk, roots, found) && k < |found|
    ensures 1 <= found[k].depth <= walk.maxDepth && Distance(g, walk, roots, found[k].id, found[k].depth)
  {
    var trail :| Traversal.Canonical(g, walk, roots, found, trail);
    FoundAtDistance(g, walk, roots, found, trail, k);
  }

  lemma RootEndsPath(db: Db, walk: Walk, roots: seq<int>, t: Reached)
    requires t.id in roots && t.depth == 0 && t.relation == None
    ensures EndsAt(db, roots, walk, [], t.id, t.relation)
  {
  }

  lemma FoundEndsPath(db: Db, walk: Walk, roots: seq<int>, found: seq<Found>, k: nat, t: Reached) returns (via: seq<int>)
    requires Explores(GraphOf(db), walk, roots, found) && k < |found|
    requires t == Reached(found[k].id, Some(found[k].relation), found[k].depth)
    ensures |via| == t.depth && EndsAt(db, roots, walk, via, t.id, t.relation)
  {
    FoundHasDistance(GraphOf(db), walk, roots, found, k);
    NoShorterPath(db, walk, roots, t.id, t.depth);
    via := FoundHasPath(db, walk, roots, found, k);
  }

  lemma ConsideredAt(roots: seq<int>, found: seq<Found>, p: nat)
    requires p < |roots| + |found|
    ensures Considered(roots, found)[p] ==
      if p < |roots| then Reached(roots[p], None, 0)
      else var f := found[p - |roots|]; Reached(f.id, Some(f.relation), f.depth)
  {
  }

  lemma ConsideredEndsPath(db: Db, walk: Walk, roots: seq<int>, found: seq<Found>, p: nat)
    requires Explores(GraphOf(db), walk, roots, found) && p < |roots| + |found|
    ensures var t := Considered(roots, found)[p];
      exists via :: |via| == t.depth && EndsAt(db, roots, walk, via, t.id, t.relation)
  {
    var t := Considered(roots, found)[p];
    ConsideredAt(roots, found, p);
    if p < |roots| {
      RootEndsPath(db, walk, roots, t);
    } else {
      var via := FoundEndsPath(db, walk, roots, found, p - |roots|, t);
    }
  }

  /** Every delivered topic node is a root, or ends a path of active edges of admitted relations from
      a root, as long as its depth and within the bound, whose last edge has its relation; and no
      such path to it is shorter. */
  lemma TopicsEndPaths(db: Db, views: map<string, View>, w: Weights, r: RecallRequest, hits: Hits, packet: Gathered, x: Included)
    requires Recalls(db, views, w, r, hits, Delivered(packet)) && x in packet.nodes && x.kind == TopicNode
    ensures var view := ViewFor(views, r.viewSlug);
      exists via :: |via| == x.depth && EndsAt(db, RootNodes(db, hits, Limit(r), view), WalkOf(r, view), via, x.id, x.relation)
  {
    var view := ViewFor(views, r.viewSlug);
    var found :| Packs(db, view, w, r, hits, found, packet);
    PackedIsPooled(Pool(db, view, w, r, hits, found), OrderingOf(r, view), Limit(r), BudgetOf(r, view), packet, x);
    var p := PooledTopicWasConsidered(db, view, w, r, hits, found, x);
    ConsideredEndsPath(db, WalkOf(r, view), RootNodes(db, hits, Limit(r), view), found, p);
  }

  /** A topic node is explained by a root match, or by an edge no deeper than n. */
  ghost predicate TopicTold(packet: Gathered, slug: string, how: MatchKind, n: nat) {
    || (exists score :: RootMatch(TopicNode, slug, how, score) in packet.matches)
    || (exists relation, depth: nat :: depth <= n && IncludedEdge(slug, relation, depth) in packet.edges)
  }

  lemma WalksEndConsidered(db: Db, view: Option<View>, r: RecallRequest, hits: Hits, found: seq<Found>, to: int, n: nat) returns (p: nat)
    requires Finds(db, view, r, hits, found)
    requires var (walk, roots) := (WalkOf(r, view), RootNodes(db, hits, Limit(r), view));
      Reach(GraphOf(db), walk, roots, to, n) && (n == 0 || n <= walk.maxDepth)
    ensures var all := Considered(RootNodes(db, hits, Limit(r), view), found);
      p < |all| && all[p].id == to && all[p].depth <= n
  {
    var (walk, roots) := (WalkOf(r, view), RootNodes(db, hits, Limit(r), view));
    var trail :| Traversal.Canonical(GraphOf(db), walk, roots, found, trail);
    p := WalksAreFound(GraphOf(db), walk, roots, found, trail, to, n);
  }

  lemma ConsideredIsHandled(db: Db, view: Option<View>, w: Weights, r: RecallRequest, hits: Hits, found: seq<Found>, p: nat)
    requires Finds(db, view, r, hits, found) && p < |Considered(RootNodes(db, hits, Limit(r), view), found)|
    ensures var t := Considered(RootNodes(db, hits, Limit(r), view), found)[p];
      t.id in db.nodes && TopicHandled(db, w, r.context, Pool(db, view, w, r, hits, found), t)
  {
    TopicsAreGathered(db, w, r.context, GatherEntries(db, w, r.context, RootEntries(db, hits, Limit(r))),
                      Considered(RootNodes(db, hits, Limit(r), view), found));
  }

  /** A considered node leaves its match or edge, or its skip record, in the packet. */
  lemma ConsideredIsTold(db: Db, view: Option<View>, w: Weights, r: RecallRequest, hits: Hits, found: seq<Found>, packet: Gathered,
                         t: Reached, p: nat)
    requires Packs(db, view, w, r, hits, found, packet) && p < |Considered(RootNodes(db, hits, Limit(r), view), found)|
    requires t == Considered(RootNodes(db, hits, Limit(r), view), found)[p] && t.id in db.nodes
    ensures var n := db.nodes[t.id];
      if Visible(n.labels, r.context) then TopicTold(packet, n.slug, HitKind(n.labels, r.context), t.depth)
      else Skip(n.slug, ScopeExcluded) in packet.skipped
  {
    var pool := Pool(db, view, w, r, hits, found);
    ConsideredIsHandled(db, view, w, r, hits, found, p);
    PackingKeeps(pool, OrderingOf(r, view), Limit(r), BudgetOf(r, view), packet);
    LabelTellsVisibility(db.nodes[t.id].labels, r.context);
    if Visible(db.nodes[t.id].labels, r.context) {
      PoolItemsAreSound(db, view, w, r, hits, found);
      assert Explained(pool, TopicFor(db, w, r.context, t));
    }
  }

  lemma UnseenIsNotDelivered(db: Db, views: map<string, View>, w: Weights, r: RecallRequest, hits: Hits, packet: Gathered, id: int)
    requires Recalls(db, views, w, r, hits, Delivered(packet))
    requires id in db.nodes && !Visible(db.nodes[id].labels, r.context)
    ensures NotDelivered(packet, TopicNode, id)
  {
    forall x | x in packet.nodes && x.kind == TopicNode && x.id == id
      ensures false
    {
      DeliveredIsSeen(db, views, w, r, hits, packet, x);
    }
  }

  /** Every stored topic node at the end of a path of active edges of admitted relations, from a root
      and within the bound, is gathered when the request may see it and skipped for its scope when not. */
  lemma PathsAreFollowed(db: Db, views: map<string, View>, w: Weights, r: RecallRequest, hits: Hits, packet: Gathered,
                         via: seq<int>, to: int)
    requires Recalls(db, views, w, r, hits, Delivered(packet)) && to in db.nodes
    requires var view := ViewFor(views, r.viewSlug);
      var (roots, walk) := (RootNodes(db, hits, Limit(r), view), WalkOf(r, view));
      PathTo(db, roots, walk.included, walk.excluded, via, to) && (via == [] || |via| <= walk.maxDepth)
    ensures var n := db.nodes[to];
      if Visible(n.labels, r.context) then TopicTold(packet, n.slug, HitKind(n.labels, r.context), |via|)
      else Skip(n.slug, ScopeExcluded) in packet.skipped && NotDelivered(packet, TopicNode, to)
  {
    var view := ViewFor(views, r.viewSlug);
    var roots := RootNodes(db, hits, Limit(r), view);
    var found :| Packs(db, view, w, r, hits, found, packet);
    PathReaches(db, WalkOf(r, view), roots, via, to);
    var p := WalksEndConsidered(db, view, r, hits, found, to, |via|);
    ConsideredIsTold(db, view, w, r, hits, found, packet, Considered(roots, found)[p], p);
    if !Visible(db.nodes[to].labels, r.context) {
      UnseenIsNotDelivered(db, views, w, r, hits, packet, to);
    }
  }

  // ---- What the budget buys, in bytes.

  /** The bytes of title, slug and summary with a blank between them. */
  function Bytes(x: Included): nat {
    |x.title| + |x.slug| + |x.summary| + 2
  }

  function TotalBytes(items: seq<Included>): nat {
    if items == [] then 0 else TotalBytes(items[..|items| - 1]) + Bytes(items[|items| - 1])
  }

  /** Four bytes cost one token, and a part of four costs one as well. */
  function TokensOf(items: seq<Included>): nat {
    if items == [] then 0 else TokensOf(items[..|items| - 1]) + (Bytes(items[|items| - 1]) + 3) / 4
  }

  lemma EstimateCountsBytes(x: Included)
    ensures Estimate(x) == (Bytes(x) + 3) / 4
  {
    assert |x.title + " " + x.slug + " " + x.summary| == Bytes(x);
  }

  lemma {:induction false} TotalsCountBytes(items: seq<Included>)
    ensures Total(items, Estimate) == TokensOf(items)
    ensures TotalBytes(items) <= 4 * TokensOf(items)
    decreases |items|
  {
    if items != [] {
      TotalsCountBytes(items[..|items| - 1]);
      EstimateCountsBytes(items[|items| - 1]);
    }
  }

  /** The budget a request ends up with: the first key that is not zero, then the view's hint, then
      3000; and 3000 in place of a budget that is not positive. */
  lemma BudgetIsAsked(r: RecallRequest, view: Option<View>)
    ensures var asked :=
        if r.tokenBudget != 0 then r.tokenBudget else if r.budgetTokens != 0 then r.budgetTokens
        else if view.Some? then view.value.budgetHint else 3000;
      BudgetOf(r, view) == if asked > 0 then asked else 3000
  {
  }

  /** The items a packet left out for the budget, by their skip records. */
  ghost predicate CutFrom(before: seq<Skip>, after: seq<Skip>, cut: seq<Included>) {
    && |after| == |before| + |cut| && before <= after
    && forall i :: 0 <= i < |cut| ==> after[|before| + i] == Skip(cut[i].slug, BudgetTruncated)
  }

  lemma {:induction false} TruncationsAt(items: seq<Included>)
    ensures |Truncations(items)| == |items|
    ensures forall i :: 0 <= i < |items| ==> Truncations(items)[i] == Skip(items[i].slug, BudgetTruncated)
    decreases |items|
  {
    if items != [] {
      TruncationsAt(items[..|items| - 1]);
    }
  }

  /** Packing in bytes. */
  lemma PackingInBytes(pool: Gathered, ordering: Ordering, limit: int, budget: int, packet: Gathered)
    returns (taken: seq<Included>, cut: seq<Included>)
    requires Packed(pool, ordering, limit, budget, packet) && budget > 0
    ensures Take(StableSort(ordering, pool.nodes), limit) == Some(taken)
    ensures multiset(packet.nodes) + multiset(cut) == multiset(taken) && CutFrom(pool.skipped, packet.skipped, cut)
    ensures TotalBytes(packet.nodes) <= 4 * (if budget > 24 then budget - 24 else 0)
    ensures forall x :: x in cut ==> Bytes(x) > 4 * (budget - 24 - TokensOf(packet.nodes))
  {
    taken := Take(StableSort(ordering, pool.nodes), limit).value;
    var choice;
    choice, cut := BudgetIsExact(taken, pool.skipped, budget, packet.nodes, packet.skipped);
    TruncationsAt(cut);
    TotalsCountBytes(packet.nodes);
    forall x | x in cut
      ensures Bytes(x) > 4 * (budget - 24 - TokensOf(packet.nodes))
    {
      EstimateCountsBytes(x);
    }
  }

  lemma PoolSkipsForScopeOrStatus(db: Db, view: Option<View>, w: Weights, r: RecallRequest, hits: Hits, found: seq<Found>)
    requires Finds(db, view, r, hits, found)
    ensures forall s :: s in Pool(db, view, w, r, hits, found).skipped ==> !s.reason.BudgetTruncated?
  {
    var entries := RootEntries(db, hits, Limit(r));
    EntriesAreGathered(db, w, r.context, entries);
    TopicsAreGathered(db, w, r.context, GatherEntries(db, w, r.context, entries),
                      Considered(RootNodes(db, hits, Limit(r), view), found));
  }

  /** In any delivered packet the text of the items fits, at four bytes a token, what the budget
      leaves after 24 tokens; each item left out for the budget is larger than what the kept ones
      leave of it; and each has its skip record. */
  lemma PacketsFitInBytes(db: Db, views: map<string, View>, w: Weights, r: RecallRequest, hits: Hits, packet: Gathered)
    returns (before: seq<Skip>, cut: seq<Included>)
    requires Recalls(db, views, w, r, hits, Delivered(packet))
    ensures var budget := BudgetOf(r, ViewFor(views, r.viewSlug));
      && TotalBytes(packet.nodes) <= 4 * (if budget > 24 then budget - 24 else 0)
      && (forall x :: x in cut ==> Bytes(x) > 4 * (budget - 24 - TokensOf(packet.nodes)))
    ensures CutFrom(before, packet.skipped, cut) && forall s :: s in before ==> !s.reason.BudgetTruncated?
  {
    var view := ViewFor(views, r.viewSlug);
    var found :| Packs(db, view, w, r, hits, found, packet);
    var pool := Pool(db, view, w, r, hits, found);
    before := pool.skipped;
    var taken;
    taken, cut := PackingInBytes(pool, OrderingOf(r, view), Limit(r), BudgetOf(r, view), packet);
    PoolSkipsForScopeOrStatus(db, view, w, r, hits, found);
  }

  // ---- What the score of a delivered item is made of.

  /** The references a score counts and a provenance lists are exactly those of the entry, in order. */
  lemma {:induction false} SourcesAre(refs: seq<SourceRef>, id: int) returns (at: seq<int>)
    ensures Picks(refs, at, SourcesOf(refs, id), (x: SourceRef) => x.targetKind == EntryTarget && x.targetId == id)
    decreases |refs|
  {
    at := [];
    if refs != [] {
      var (front, last) := (refs[..|refs| - 1], refs[|refs| - 1]);
      var wanted := (x: SourceRef) => x.targetKind == EntryTarget && x.targetId == id;
      at := SourcesAre(front, id);
      PicksMore(front, at, SourcesOf(front, id), wanted, last);
      assert refs == front + [last];
      if wanted(last) {
        at := at + [|front|];
      }
    }
  }

  /** An entry scores by its own columns and the verification of its references, a topic node as an
      active source-backed item at the depth and over the relation it was reached by. */
  lemma DeliveredScores(db: Db, views: map<string, View>, w: Weights, r: RecallRequest, hits: Hits, packet: Gathered, x: Included)
    requires Recalls(db, views, w, r, hits, Delivered(packet)) && x in packet.nodes
    ensures match x.kind
      case MemoryEntry =>
        x.id in db.entries && var e := db.entries[x.id];
        x.score == Score(w, Scored(e.labels, e.status, e.confidence), r.context, Validations(SourcesOf(db.refs, x.id)), 0, None).0
      case TopicNode =>
        x.id in db.nodes
        && x.score == Score(w, Scored(db.nodes[x.id].labels, Active, SourceBacked), r.context, [], x.depth, x.relation).0
  {
    var view := ViewFor(views, r.viewSlug);
    var found :| Packs(db, view, w, r, hits, found, packet);
    PackedIsPooled(Pool(db, view, w, r, hits, found), OrderingOf(r, view), Limit(r), BudgetOf(r, view), packet, x);
    if x.kind == MemoryEntry {
      PooledEntryWasHit(db, view, w, r, hits, found, x);
    } else {
      var p := PooledTopicWasConsidered(db, view, w, r, hits, found, x);
    }
  }

  // ---- The request, the view and the defaults.

  /** The request gives every key a view could give. */
  predicate GivesAll(r: RecallRequest) {
    r.included.Val? && r.excluded.Val? && r.maxDepth.Val? && r.ordering.Val? && r.tokenBudget != 0
  }

  lemma KeysDecide(db: Db, r: RecallRequest, hits: Hits, view: View, other: View)
    requires GivesAll(r) && view.rootNode == other.rootNode
    ensures WalkOf(r, Some(view)) == WalkOf(r, Some(other)) && OrderingOf(r, Some(view)) == OrderingOf(r, Some(other))
    ensures BudgetOf(r, Some(view)) == BudgetOf(r, Some(other))
    ensures RootNodes(db, hits, Limit(r), Some(view)) == RootNodes(db, hits, Limit(r), Some(other))
  {
  }

  lemma PacksAlike(db: Db, w: Weights, r: RecallRequest, hits: Hits, view: View, other: View, found: seq<Found>, packet: Gathered)
    requires GivesAll(r) && view.rootNode == other.rootNode && Packs(db, Some(view), w, r, hits, found, packet)
    ensures Packs(db, Some(other), w, r, hits, found, packet)
  {
    KeysDecide(db, r, hits, view, other);
  }

  /** Nothing but the root of the view matters when the request gives every key. */
  lemma KeysBeatTheView(db: Db, views: map<string, View>, others: map<string, View>, w: Weights, r: RecallRequest, hits: Hits,
                        a: Outcome, b: Outcome)
    requires GivesAll(r) && r.viewSlug in views && r.viewSlug in others
    requires views[r.viewSlug].rootNode == others[r.viewSlug].rootNode
    requires Recalls(db, views, w, r, hits, a) && Recalls(db, others, w, r, hits, b)
    ensures a == b
  {
    if a.Delivered? && r.viewSlug != "" {
      var found :| Packs(db, ViewFor(views, r.viewSlug), w, r, hits, found, a.packet);
      PacksAlike(db, w, r, hits, views[r.viewSlug], others[r.viewSlug], found, a.packet);
    }
    RecallIsDetermined(db, others, w, r, hits, a, b);
  }

  /** Without a key the view decides, and without a view the defaults do: ten rows, one edge deep, no
      relation excluded; the traversal prefers core relations while the items are sorted by score. */
  lemma DefaultsAre(r: RecallRequest, v: View)
    requires !r.limit.Val? && !r.included.Val? && !r.excluded.Val? && !r.maxDepth.Val? && !r.ordering.Val?
    ensures Limit(r) == 10
    ensures WalkOf(r, Some(v)) == Walk(v.included, v.excluded, v.maxDepth, v.ordering) && OrderingOf(r, Some(v)) == v.ordering
    ensures WalkOf(r, None) == Walk({}, {}, 1, CoreFirstThenRisks) && OrderingOf(r, None) == ScoreDesc
  {
  }
}
