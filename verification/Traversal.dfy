/** Breadth-first traversal of topic edges: which nodes a recall reaches from its roots, at which
    depth, over which relation and in which order. */
module Traversal {
  import opened Base
  import opened Schema

  datatype Ordering =
    | CoreFirstThenRisks | ScoreDesc | RootsThenEdges | ReviewRiskFirst | OpsRunbookFirst | OtherOrdering(text: string)

  datatype Graph = Graph(nodes: map<int, Node>, edges: map<int, Edge>)

  /** What bounds a traversal. An empty include list admits every relation. */
  datatype Walk = Walk(included: set<Relation>, excluded: set<Relation>, maxDepth: int, ordering: Ordering)

  /** A node reached over an edge. */
  datatype Found = Found(id: int, relation: Relation, depth: nat)

  // ---- The edges a traversal may take, and their order.

  predicate Passes(w: Walk, relation: Relation) {
    (w.included == {} || relation in w.included) && relation !in w.excluded
  }

  /** Edge e is a row of the edge query for node `from`: active, with both ends in place. */
  predicate Selected(g: Graph, from: int, e: int) {
    && e in g.edges && g.edges[e].source == from && g.edges[e].status == ActiveEdge
    && g.edges[e].target in g.nodes
  }

  /** Edge e leads a traversal from node `from` to node `to`. */
  predicate Leads(g: Graph, w: Walk, from: int, e: int, to: int) {
    Selected(g, from, e) && Passes(w, g.edges[e].relation) && g.edges[e].target == to
  }

  function Rank(ordering: Ordering, relation: Relation): nat {
    match ordering
    case ReviewRiskFirst =>
      if relation == ReviewRisk then 0 else if relation == Warning then 1 else if relation == FailureMode then 2 else 9
    case OpsRunbookFirst =>
      if relation == OperationalRunbook then 0 else if relation == Prerequisite then 1 else 9
    case RootsThenEdges => 0
    case ScoreDesc => 0
    case _ =>
      if relation == Prerequisite then 0 else if relation == ImplementationDetail then 1
      else if relation == FailureMode then 2 else if relation == Warning then 3 else 9
  }

  /** The order of the edge query: rank, then priority descending, then id. */
  predicate Before(g: Graph, ordering: Ordering, e: int, f: int) {
    e in g.edges && f in g.edges &&
    var (re, rf) := (Rank(ordering, g.edges[e].relation), Rank(ordering, g.edges[f].relation));
    var (pe, pf) := (g.edges[e].priority, g.edges[f].priority);
    re < rf || (re == rf && (pe > pf || (pe == pf && e < f)))
  }

  /** The relations an ordering policy puts first, in their order. */
  function Preferred(ordering: Ordering): seq<Relation> {
    match ordering
    case ReviewRiskFirst => [ReviewRisk, Warning, FailureMode]
    case OpsRunbookFirst => [OperationalRunbook, Prerequisite]
    case RootsThenEdges => []
    case ScoreDesc => []
    case CoreFirstThenRisks => [Prerequisite, ImplementationDetail, FailureMode, Warning]
    case OtherOrdering(_) => [Prerequisite, ImplementationDetail, FailureMode, Warning]
  }

  /** The position of a relation in the list, or the end of it. */
  function Place(list: seq<Relation>, relation: Relation): (k: nat)
    ensures k <= |list|
    ensures k < |list| ==> list[k] == relation
    ensures forall i :: 0 <= i < k ==> list[i] != relation
  {
    if list == [] || list[0] == relation then 0 else 1 + Place(list[1..], relation)
  }

  lemma PlaceOf(first: Relation, rest: seq<Relation>, relation: Relation)
    ensures Place([first] + rest, relation) == if relation == first then 0 else 1 + Place(rest, relation)
  {
    assert ([first] + rest)[1..] == rest;
  }

  lemma PlaceOfOne(a: Relation, relation: Relation)
    ensures Place([a], relation) == if relation == a then 0 else 1
  {
    assert [a][1..] == [];
  }

  lemma PlaceOfTwo(a: Relation, b: Relation, relation: Relation)
    ensures Place([a, b], relation) == if relation == a then 0 else if relation == b then 1 else 2
  {
    PlaceOfOne(b, relation);
    PlaceOf(a, [b], relation);
    assert [a, b] == [a] + [b];
  }

  lemma PlaceOfThree(a: Relation, b: Relation, c: Relation, relation: Relation)
    ensures Place([a, b, c], relation) == if relation == a then 0 else if relation == b then 1 else if relation == c then 2 else 3
  {
    PlaceOfTwo(b, c, relation);
    PlaceOf(a, [b, c], relation);
    assert [a, b, c] == [a] + [b, c];
  }

  lemma PlaceOfFour(a: Relation, b: Relation, c: Relation, d: Relation, relation: Relation)
    ensures Place([a, b, c, d], relation) ==
      if relation == a then 0 else if relation == b then 1 else if relation == c then 2 else if relation == d then 3 else 4
  {
    PlaceOfThree(b, c, d, relation);
    PlaceOf(a, [b, c, d], relation);
    assert [a, b, c, d] == [a] + [b, c, d];
  }

  lemma RankIsPlace(ordering: Ordering, relation: Relation)
    ensures var (list, k) := (Preferred(ordering), Place(Preferred(ordering), relation));
      Rank(ordering, relation) == if list != [] && k == |list| then 9 else k
  {
    match ordering {
      case ReviewRiskFirst => PlaceOfThree(ReviewRisk, Warning, FailureMode, relation);
      case OpsRunbookFirst => PlaceOfTwo(OperationalRunbook, Prerequisite, relation);
      case RootsThenEdges =>
      case ScoreDesc =>
      case _ => PlaceOfFour(Prerequisite, ImplementationDetail, FailureMode, Warning, relation);
    }
  }

  /** Preferred relations come first, in their order; equal ones go by priority and then by id. */
  lemma QueryOrder(g: Graph, ordering: Ordering, e: int, f: int)
    requires e in g.edges && f in g.edges
    ensures var (list, a, b) := (Preferred(ordering), g.edges[e], g.edges[f]);
      var (i, j) := (Place(list, a.relation), Place(list, b.relation));
      Before(g, ordering, e, f) <==>
        i < j || (i == j && (a.priority > b.priority || (a.priority == b.priority && e < f)))
  {
    RankIsPlace(ordering, g.edges[e].relation);
    RankIsPlace(ordering, g.edges[f].relation);
  }

  lemma {:induction false} HasFirst(g: Graph, ordering: Ordering, edges: set<int>)
    requires edges != {} && edges <= g.edges.Keys
    ensures exists e :: e in edges && forall f :: f in edges && f != e ==> Before(g, ordering, e, f)
    decreases |edges|
  {
    HasMember(edges);
    var x :| x in edges;
    var rest := edges - {x};
    if rest == {} {
      assert edges == {x};
    } else {
      HasFirst(g, ordering, rest);
      var e :| e in rest && forall f :: f in rest && f != e ==> Before(g, ordering, e, f);
      var first := if Before(g, ordering, x, e) then x else e;
      assert first in edges;
      forall f | f in edges && f != first
        ensures Before(g, ordering, first, f)
      {
        assert f == x || f in rest;
      }
    }
  }

  /** The rows of the edge query, in its order. */
  method QueryEdges(g: Graph, ordering: Ordering, from: int) returns (rows: seq<int>)
    ensures forall e :: e in rows <==> Selected(g, from, e)
    ensures forall i, j :: 0 <= i < j < |rows| ==> Before(g, ordering, rows[i], rows[j])
  {
    rows := [];
    var rest := set e | e in g.edges && Selected(g, from, e);
    while rest != {}
      invariant rest <= g.edges.Keys
      invariant forall e :: Selected(g, from, e) <==> e in rows || e in rest
      invariant forall i, j :: 0 <= i < j < |rows| ==> Before(g, ordering, rows[i], rows[j])
      invariant forall i, f :: 0 <= i < |rows| && f in rest ==> Before(g, ordering, rows[i], f)
      decreases |rest|
    {
      HasFirst(g, ordering, rest);
      var e :| e in rest && forall f :: f in rest && f != e ==> Before(g, ordering, e, f);
      rows := rows + [e];
      rest := rest - {e};
    }
  }

  // ---- What a traversal returns.

  /** A step of the traversal: the position it expands and the edge it takes. Positions number the
      roots first and then the found nodes in order of emission. */
  datatype Hop = Hop(parent: nat, via: int)

  function IdAt(roots: seq<int>, found: seq<Found>, p: nat): int
    requires p < |roots| + |found|
  {
    if p < |roots| then roots[p] else found[p - |roots|].id
  }

  function DepthAt(roots: seq<int>, found: seq<Found>, p: nat): nat
    requires p < |roots| + |found|
  {
    if p < |roots| then 0 else found[p - |roots|].depth
  }

  predicate HopBefore(g: Graph, ordering: Ordering, h: Hop, k: Hop) {
    h.parent < k.parent || (h.parent == k.parent && Before(g, ordering, h.via, k.via))
  }

  /** Found node k was reached by hop h from an earlier position that the depth bound lets expand. */
  ghost predicate Justified(g: Graph, w: Walk, roots: seq<int>, found: seq<Found>, k: nat, h: Hop)
    requires k < |found|
  {
    && h.parent < |roots| + k
    && DepthAt(roots, found, h.parent) < w.maxDepth
    && Leads(g, w, IdAt(roots, found, h.parent), h.via, found[k].id)
    && found[k].relation == g.edges[h.via].relation
    && found[k].depth == DepthAt(roots, found, h.parent) + 1
  }

  /** A hop that expands position p over edge e is available to the traversal. */
  ghost predicate Available(g: Graph, w: Walk, roots: seq<int>, found: seq<Found>, p: nat, e: int) {
    && p < |roots| + |found| && DepthAt(roots, found, p) < w.maxDepth
    && e in g.edges && Leads(g, w, IdAt(roots, found, p), e, g.edges[e].target)
  }

  /** The target of hop h is a root or was found no later than by h. */
  ghost predicate Covered(g: Graph, w: Walk, roots: seq<int>, found: seq<Found>, trail: seq<Hop>, h: Hop)
    requires |trail| == |found|
  {
    h.via in g.edges &&
    (|| g.edges[h.via].target in roots
     || exists k :: 0 <= k < |found| && found[k].id == g.edges[h.via].target && !HopBefore(g, w.ordering, h, trail[k]))
  }

  ghost predicate AllNew(roots: seq<int>, found: seq<Found>) {
    && (forall k :: 0 <= k < |found| ==> found[k].id !in roots)
    && (forall j, k :: 0 <= j < k < |found| ==> found[j].id != found[k].id)
  }

  /** The emission order: by position of the parent, then by the order of the edge query. */
  ghost predicate InOrder(g: Graph, w: Walk, trail: seq<Hop>) {
    forall j, k :: 0 <= j < k < |trail| ==> HopBefore(g, w.ordering, trail[j], trail[k])
  }

  ghost predicate AllJustified(g: Graph, w: Walk, roots: seq<int>, found: seq<Found>, trail: seq<Hop>) {
    && |trail| == |found|
    && forall k :: 0 <= k < |found| ==> Justified(g, w, roots, found, k, trail[k])
  }

  ghost predicate AllCovered(g: Graph, w: Walk, roots: seq<int>, found: seq<Found>, trail: seq<Hop>)
    requires |trail| == |found|
  {
    forall p: nat, e :: Available(g, w, roots, found, p, e) ==> Covered(g, w, roots, found, trail, Hop(p, e))
  }

  ghost predicate Canonical(g: Graph, w: Walk, roots: seq<int>, found: seq<Found>, trail: seq<Hop>) {
    && AllNew(roots, found)
    && AllJustified(g, w, roots, found, trail)
    && InOrder(g, w, trail)
    && AllCovered(g, w, roots, found, trail)
  }

  ghost predicate Explores(g: Graph, w: Walk, roots: seq<int>, found: seq<Found>) {
    exists trail :: Canonical(g, w, roots, found, trail)
  }

  // ---- The traversal.

  datatype Item = Item(id: int, depth: nat)

  /** Every available hop that expands a position before p is covered. */
  ghost predicate CoveredBelow(g: Graph, w: Walk, roots: seq<int>, found: seq<Found>, trail: seq<Hop>, p: nat)
    requires |trail| == |found|
  {
    forall q: nat, e :: q < p && Available(g, w, roots, found, q, e) ==> Covered(g, w, roots, found, trail, Hop(q, e))
  }

  /** The part of the result a traversal has built once it has expanded the positions before p. */
  ghost predicate Built(g: Graph, w: Walk, roots: seq<int>, found: seq<Found>, trail: seq<Hop>, p: nat) {
    && p <= |roots| + |found|
    && AllNew(roots, found)
    && AllJustified(g, w, roots, found, trail)
    && InOrder(g, w, trail)
    && CoveredBelow(g, w, roots, found, trail, p)
  }

  ghost predicate Waiting(roots: seq<int>, found: seq<Found>, frontier: seq<Item>, p: nat)
    requires p <= |roots| + |found|
  {
    && |frontier| == |roots| + |found| - p
    && forall i :: 0 <= i < |frontier| ==> frontier[i] == Item(IdAt(roots, found, p + i), DepthAt(roots, found, p + i))
  }

  ghost predicate Seen(roots: seq<int>, found: seq<Found>, visited: set<int>) {
    forall n :: n in visited <==> n in roots || exists k :: 0 <= k < |found| && found[k].id == n
  }

  /** Appending a node leaves every earlier position as it was. */
  lemma PositionsStay(roots: seq<int>, found: seq<Found>, next: Found, p: nat)
    requires p < |roots| + |found|
    ensures IdAt(roots, found + [next], p) == IdAt(roots, found, p)
    ensures DepthAt(roots, found + [next], p) == DepthAt(roots, found, p)
  {
  }

  lemma JustifiedStays(g: Graph, w: Walk, roots: seq<int>, found: seq<Found>, trail: seq<Hop>, h: Hop, next: Found)
    requires AllJustified(g, w, roots, found, trail)
    requires Available(g, w, roots, found, h.parent, h.via)
    requires next == Found(g.edges[h.via].target, g.edges[h.via].relation, DepthAt(roots, found, h.parent) + 1)
    ensures AllJustified(g, w, roots, found + [next], trail + [h])
  {
    var (later, longer) := (found + [next], trail + [h]);
    forall k | 0 <= k < |later|
      ensures Justified(g, w, roots, later, k, longer[k])
    {
      PositionsStay(roots, found, next, longer[k].parent);
      if k < |found| {
        assert Justified(g, w, roots, found, k, trail[k]);
        assert later[k] == found[k] && longer[k] == trail[k];
      }
    }
  }

  lemma CoveredStays(g: Graph, w: Walk, roots: seq<int>, found: seq<Found>, trail: seq<Hop>, h: Hop, next: Found, k: Hop)
    requires |trail| == |found| && Covered(g, w, roots, found, trail, k)
    ensures Covered(g, w, roots, found + [next], trail + [h], k)
  {
    if g.edges[k.via].target !in roots {
      var j :| 0 <= j < |found| && found[j].id == g.edges[k.via].target && !HopBefore(g, w.ordering, k, trail[j]);
      assert (found + [next])[j] == found[j] && (trail + [h])[j] == trail[j];
    }
  }

  lemma CoveredBelowStays(g: Graph, w: Walk, roots: seq<int>, found: seq<Found>, trail: seq<Hop>, h: Hop, next: Found, p: nat)
    requires |trail| == |found| && CoveredBelow(g, w, roots, found, trail, p) && p <= |roots| + |found|
    ensures CoveredBelow(g, w, roots, found + [next], trail + [h], p)
  {
    forall q: nat, e | q < p && Available(g, w, roots, found + [next], q, e)
      ensures Covered(g, w, roots, found + [next], trail + [h], Hop(q, e))
    {
      PositionsStay(roots, found, next, q);
      assert Available(g, w, roots, found, q, e);
      CoveredStays(g, w, roots, found, trail, h, next, Hop(q, e));
    }
  }

  /** A hop covers its own target once it has emitted it. */
  lemma CoversItself(g: Graph, w: Walk, roots: seq<int>, found: seq<Found>, trail: seq<Hop>, h: Hop, next: Found)
    requires |trail| == |found| && h.via in g.edges && next.id == g.edges[h.via].target
    ensures Covered(g, w, roots, found + [next], trail + [h], h)
  {
    var k := |found|;
    assert (found + [next])[k] == next && (trail + [h])[k] == h;
  }

  /** Emitting a new node over hop h keeps what was built. */
  lemma Emit(g: Graph, w: Walk, roots: seq<int>, found: seq<Found>, trail: seq<Hop>, h: Hop, next: Found)
    requires Built(g, w, roots, found, trail, h.parent)
    requires Available(g, w, roots, found, h.parent, h.via)
    requires next == Found(g.edges[h.via].target, g.edges[h.via].relation, DepthAt(roots, found, h.parent) + 1)
    requires next.id !in roots && forall k :: 0 <= k < |found| ==> found[k].id != next.id
    requires forall k :: 0 <= k < |trail| ==> HopBefore(g, w.ordering, trail[k], h)
    ensures Built(g, w, roots, found + [next], trail + [h], h.parent)
  {
    JustifiedStays(g, w, roots, found, trail, h, next);
    CoveredBelowStays(g, w, roots, found, trail, h, next, h.parent);
  }

  lemma SeenGrows(roots: seq<int>, found: seq<Found>, visited: set<int>, next: Found)
    requires Seen(roots, found, visited)
    ensures Seen(roots, found + [next], visited + {next.id})
  {
    var later := found + [next];
    assert later[|found|] == next;
    forall n | n in visited
      ensures n in roots || exists k :: 0 <= k < |later| && later[k].id == n
    {
      if n !in roots {
        var k :| 0 <= k < |found| && found[k].id == n;
        assert later[k].id == n;
      }
    }
  }

  /** The state of the traversal: what is found so far, how, what waits and what is visited. */
  ghost predicate Steady(g: Graph, w: Walk, roots: seq<int>, found: seq<Found>, trail: seq<Hop>, p: nat,
                         frontier: seq<Item>, visited: set<int>) {
    && Built(g, w, roots, found, trail, p)
    && (forall k :: 0 <= k < |trail| ==> trail[k].parent < p)
    && Waiting(roots, found, frontier, p)
    && Seen(roots, found, visited)
  }

  /** Position p is being expanded, and its first i rows are done. */
  ghost predicate Midway(g: Graph, w: Walk, roots: seq<int>, found: seq<Found>, trail: seq<Hop>, p: nat,
                         rows: seq<int>, i: nat, frontier: seq<Item>, visited: set<int>)
  {
    && p < |roots| + |found| && i <= |rows|
    && Built(g, w, roots, found, trail, p)
    && (forall k :: 0 <= k < |trail| ==> trail[k].parent < p || (trail[k].parent == p && trail[k].via in rows[..i]))
    && (forall j :: 0 <= j < i && Available(g, w, roots, found, p, rows[j]) ==>
          Covered(g, w, roots, found, trail, Hop(p, rows[j])))
    && Waiting(roots, found, frontier, p + 1)
    && Seen(roots, found, visited)
  }

  ghost predicate RowsOf(g: Graph, w: Walk, from: int, rows: seq<int>) {
    && (forall e :: e in rows <==> Selected(g, from, e))
    && (forall i, j :: 0 <= i < j < |rows| ==> Before(g, w.ordering, rows[i], rows[j]))
  }

  /** Everything emitted so far comes before the next row. */
  lemma TrailBeforeRow(g: Graph, w: Walk, roots: seq<int>, found: seq<Found>, trail: seq<Hop>, p: nat,
                       rows: seq<int>, i: nat, frontier: seq<Item>, visited: set<int>)
    requires Midway(g, w, roots, found, trail, p, rows, i, frontier, visited) && i < |rows|
    requires RowsOf(g, w, IdAt(roots, found, p), rows)
    ensures forall k :: 0 <= k < |trail| ==> HopBefore(g, w.ordering, trail[k], Hop(p, rows[i]))
    ensures forall k :: 0 <= k < |trail| ==> !HopBefore(g, w.ordering, Hop(p, rows[i]), trail[k])
  {
    forall k | 0 <= k < |trail|
      ensures HopBefore(g, w.ordering, trail[k], Hop(p, rows[i])) && !HopBefore(g, w.ordering, Hop(p, rows[i]), trail[k])
    {
      if trail[k].parent == p {
        var j :| 0 <= j < i && rows[j] == trail[k].via;
        assert Before(g, w.ordering, rows[j], rows[i]);
      }
    }
  }

  /** A row that does not pass, or whose target was visited, needs no work. */
  lemma SkipRow(g: Graph, w: Walk, roots: seq<int>, found: seq<Found>, trail: seq<Hop>, p: nat,
                rows: seq<int>, i: nat, frontier: seq<Item>, visited: set<int>)
    requires Midway(g, w, roots, found, trail, p, rows, i, frontier, visited) && i < |rows|
    requires RowsOf(g, w, IdAt(roots, found, p), rows)
    requires Available(g, w, roots, found, p, rows[i]) ==> g.edges[rows[i]].target in visited
    ensures Midway(g, w, roots, found, trail, p, rows, i + 1, frontier, visited)
  {
    TrailBeforeRow(g, w, roots, found, trail, p, rows, i, frontier, visited);
    assert forall v :: v in rows[..i] ==> v in rows[..i + 1] by {
      assert rows[..i + 1] == rows[..i] + [rows[i]];
    }
    if Available(g, w, roots, found, p, rows[i]) {
      assert Covered(g, w, roots, found, trail, Hop(p, rows[i]));
    }
  }

  /** A row that leads to a new node emits it. */
  lemma EmitRow(g: Graph, w: Walk, roots: seq<int>, found: seq<Found>, trail: seq<Hop>, p: nat,
                rows: seq<int>, i: nat, frontier: seq<Item>, visited: set<int>, next: Found)
    requires Midway(g, w, roots, found, trail, p, rows, i, frontier, visited) && i < |rows|
    requires RowsOf(g, w, IdAt(roots, found, p), rows)
    requires Available(g, w, roots, found, p, rows[i]) && g.edges[rows[i]].target !in visited
    requires next == Found(g.edges[rows[i]].target, g.edges[rows[i]].relation, DepthAt(roots, found, p) + 1)
    ensures Midway(g, w, roots, found + [next], trail + [Hop(p, rows[i])], p, rows, i + 1,
                   frontier + [Item(next.id, next.depth)], visited + {next.id})
  {
    var h := Hop(p, rows[i]);
    TrailBeforeRow(g, w, roots, found, trail, p, rows, i, frontier, visited);
    Emit(g, w, roots, found, trail, h, next);
    SeenGrows(roots, found, visited, next);
    CoversItself(g, w, roots, found, trail, h, next);
    assert rows[..i + 1] == rows[..i] + [rows[i]];
    forall j | 0 <= j < i + 1 && Available(g, w, roots, found + [next], p, rows[j])
      ensures Covered(g, w, roots, found + [next], trail + [h], Hop(p, rows[j]))
    {
      if j < i {
        PositionsStay(roots, found, next, p);
        assert Available(g, w, roots, found, p, rows[j]);
        CoveredStays(g, w, roots, found, trail, h, next, Hop(p, rows[j]));
      }
    }
  }

  /** Once every row is done, position p is expanded. */
  lemma RowsDone(g: Graph, w: Walk, roots: seq<int>, found: seq<Found>, trail: seq<Hop>, p: nat,
                 rows: seq<int>, frontier: seq<Item>, visited: set<int>)
    requires Midway(g, w, roots, found, trail, p, rows, |rows|, frontier, visited)
    requires RowsOf(g, w, IdAt(roots, found, p), rows)
    ensures Steady(g, w, roots, found, trail, p + 1, frontier, visited)
  {
    forall q: nat, e | q < p + 1 && Available(g, w, roots, found, q, e)
      ensures Covered(g, w, roots, found, trail, Hop(q, e))
    {
      if q == p {
        assert e in rows;
      }
    }
  }

  /** Expand one frontier item: walk its edges in order and emit each target not seen before. */
  method Expand(g: Graph, w: Walk, ghost roots: seq<int>, item: Item, ghost p: nat,
                found0: seq<Found>, ghost trail0: seq<Hop>, frontier0: seq<Item>, visited0: set<int>)
    returns (found: seq<Found>, ghost trail: seq<Hop>, frontier: seq<Item>, visited: set<int>)
    requires Steady(g, w, roots, found0, trail0, p, [item] + frontier0, visited0)
    requires item.depth < w.maxDepth
    ensures Steady(g, w, roots, found, trail, p + 1, frontier, visited)
    ensures g.nodes.Keys - visited < g.nodes.Keys - visited0 || (visited == visited0 && frontier == frontier0)
  {
    found, trail, frontier, visited := found0, trail0, frontier0, visited0;
    assert item == ([item] + frontier0)[0];
    assert forall i :: 0 <= i < |frontier0| ==> frontier0[i] == ([item] + frontier0)[i + 1];
    var rows := QueryEdges(g, w.ordering, item.id);
    for i := 0 to |rows|
      invariant Midway(g, w, roots, found, trail, p, rows, i, frontier, visited)
      invariant item == Item(IdAt(roots, found, p), DepthAt(roots, found, p))
      invariant g.nodes.Keys - visited < g.nodes.Keys - visited0 || (visited == visited0 && frontier == frontier0)
    {
      assert rows[i] in rows;
      var edge := g.edges[rows[i]];
      if !Passes(w, edge.relation) || edge.target in visited {
        SkipRow(g, w, roots, found, trail, p, rows, i, frontier, visited);
      } else {
        var next := Found(edge.target, edge.relation, item.depth + 1);
        EmitRow(g, w, roots, found, trail, p, rows, i, frontier, visited, next);
        PositionsStay(roots, found, next, p);
        assert edge.target in g.nodes.Keys - visited;
        found, trail := found + [next], trail + [Hop(p, rows[i])];
        frontier, visited := frontier + [Item(next.id, next.depth)], visited + {next.id};
      }
    }
    RowsDone(g, w, roots, found, trail, p, rows, frontier, visited);
  }

  lemma Starts(g: Graph, w: Walk, roots: seq<int>, frontier: seq<Item>, visited: set<int>)
    requires |frontier| == |roots| && forall j :: 0 <= j < |roots| ==> frontier[j] == Item(roots[j], 0)
    requires visited == set n | n in roots
    ensures Steady(g, w, roots, [], [], 0, frontier, visited)
  {
  }

  /** A frontier item at the depth bound is expanded by dropping it. */
  lemma TooDeep(g: Graph, w: Walk, roots: seq<int>, found: seq<Found>, trail: seq<Hop>, p: nat, item: Item,
                rest: seq<Item>, visited: set<int>)
    requires Steady(g, w, roots, found, trail, p, [item] + rest, visited) && item.depth >= w.maxDepth
    ensures Steady(g, w, roots, found, trail, p + 1, rest, visited)
  {
    assert item == ([item] + rest)[0];
    assert forall i :: 0 <= i < |rest| ==> rest[i] == ([item] + rest)[i + 1];
  }

  /** With nothing waiting, everything is expanded. */
  lemma Finishes(g: Graph, w: Walk, roots: seq<int>, found: seq<Found>, trail: seq<Hop>, p: nat, visited: set<int>)
    requires Steady(g, w, roots, found, trail, p, [], visited)
    ensures Explores(g, w, roots, found)
  {
    assert Canonical(g, w, roots, found, trail);
  }

  lemma NoDepthNoNodes(g: Graph, w: Walk, roots: seq<int>)
    requires w.maxDepth <= 0
    ensures Explores(g, w, roots, [])
  {
    assert Canonical(g, w, roots, [], []);
  }

  /** Breadth-first traversal from the roots. */
  method Traverse(g: Graph, w: Walk, roots: seq<int>) returns (found: seq<Found>)
    ensures Explores(g, w, roots, found)
  {
    found := [];
    if w.maxDepth <= 0 {
      NoDepthNoNodes(g, w, roots);
      return;
    }
    var visited, frontier := {}, [];
    for i := 0 to |roots|
      invariant visited == set n | n in roots[..i]
      invariant |frontier| == i && forall j :: 0 <= j < i ==> frontier[j] == Item(roots[j], 0)
    {
      assert roots[..i + 1] == roots[..i] + [roots[i]];
      visited := visited + {roots[i]};
      frontier := frontier + [Item(roots[i], 0)];
    }
    assert roots[..|roots|] == roots;
    Starts(g, w, roots, frontier, visited);
    ghost var p: nat, trail: seq<Hop> := 0, [];
    while frontier != []
      invariant Steady(g, w, roots, found, trail, p, frontier, visited)
      decreases g.nodes.Keys - visited, |frontier|
    {
      var item, rest := frontier[0], frontier[1..];
      assert frontier == [item] + rest;
      if item.depth < w.maxDepth {
        found, trail, frontier, visited := Expand(g, w, roots, item, p, found, trail, rest, visited);
      } else {
        TooDeep(g, w, roots, found, trail, p, item, rest, visited);
        frontier := rest;
      }
      p := p + 1;
    }
    Finishes(g, w, roots, found, trail, p, visited);
  }

  // ---- Distances.

  /** Node `to` can be reached from a root by a walk of exactly n edges the traversal may take. */
  ghost predicate Reach(g: Graph, w: Walk, roots: seq<int>, to: int, n: nat)
    decreases n
  {
    if n == 0 then to in roots
    else exists e, from :: Leads(g, w, from, e, to) && Reach(g, w, roots, from, n - 1)
  }

  /** The length of a shortest such walk. */
  ghost predicate Distance(g: Graph, w: Walk, roots: seq<int>, to: int, n: nat) {
    Reach(g, w, roots, to, n) && forall m: nat :: m < n ==> !Reach(g, w, roots, to, m)
  }

  /** Nodes are emitted level by level. */
  lemma {:induction false} DepthsAscend(g: Graph, w: Walk, roots: seq<int>, found: seq<Found>, trail: seq<Hop>, p: nat, q: nat)
    requires AllJustified(g, w, roots, found, trail) && InOrder(g, w, trail) && p <= q < |roots| + |found|
    ensures DepthAt(roots, found, p) <= DepthAt(roots, found, q)
    decreases q
  {
    if |roots| <= p < q {
      var (j, k) := (p - |roots|, q - |roots|);
      assert Justified(g, w, roots, found, j, trail[j]);
      assert Justified(g, w, roots, found, k, trail[k]);
      assert trail[j].parent <= trail[k].parent;
      DepthsAscend(g, w, roots, found, trail, trail[j].parent, trail[k].parent);
    }
  }

  lemma OneMoreEdge(g: Graph, w: Walk, roots: seq<int>, from: int, e: int, to: int, n: nat)
    requires Reach(g, w, roots, from, n) && Leads(g, w, from, e, to)
    ensures Reach(g, w, roots, to, n + 1)
  {
  }

  /** Every position is reached by a walk as long as its depth. */
  lemma {:induction false} DepthIsAWalk(g: Graph, w: Walk, roots: seq<int>, found: seq<Found>, trail: seq<Hop>, p: nat)
    requires AllJustified(g, w, roots, found, trail) && p < |roots| + |found|
    ensures Reach(g, w, roots, IdAt(roots, found, p), DepthAt(roots, found, p))
    ensures p >= |roots| ==> 1 <= DepthAt(roots, found, p) <= w.maxDepth
    decreases p
  {
    if p >= |roots| {
      var k := p - |roots|;
      var h := trail[k];
      assert Justified(g, w, roots, found, k, h);
      DepthIsAWalk(g, w, roots, found, trail, h.parent);
      OneMoreEdge(g, w, roots, IdAt(roots, found, h.parent), h.via, found[k].id, DepthAt(roots, found, h.parent));
    }
  }

  /** The target of an available hop is a root or was found no deeper than one below the hop. */
  lemma TargetIsFound(g: Graph, w: Walk, roots: seq<int>, found: seq<Found>, trail: seq<Hop>, q: nat, e: int) returns (k: nat)
    requires Canonical(g, w, roots, found, trail) && Available(g, w, roots, found, q, e)
    requires g.edges[e].target !in roots
    ensures k < |found| && found[k].id == g.edges[e].target && found[k].depth <= DepthAt(roots, found, q) + 1
  {
    assert Covered(g, w, roots, found, trail, Hop(q, e));
    k :| 0 <= k < |found| && found[k].id == g.edges[e].target && !HopBefore(g, w.ordering, Hop(q, e), trail[k]);
    assert Justified(g, w, roots, found, k, trail[k]);
    DepthsAscend(g, w, roots, found, trail, trail[k].parent, q);
  }

  /** Every walk within the depth bound ends at a position no deeper than it is long. */
  lemma {:induction false} WalksAreFound(g: Graph, w: Walk, roots: seq<int>, found: seq<Found>, trail: seq<Hop>, to: int, n: nat)
    returns (p: nat)
    requires Canonical(g, w, roots, found, trail)
    requires Reach(g, w, roots, to, n) && (n == 0 || n <= w.maxDepth)
    ensures p < |roots| + |found| && IdAt(roots, found, p) == to && DepthAt(roots, found, p) <= n
    decreases n
  {
    if to in roots {
      p :| 0 <= p < |roots| && roots[p] == to;
    } else {
      var e, from :| Leads(g, w, from, e, to) && Reach(g, w, roots, from, n - 1);
      var q := WalksAreFound(g, w, roots, found, trail, from, n - 1);
      var k := TargetIsFound(g, w, roots, found, trail, q, e);
      p := |roots| + k;
    }
  }

  lemma FoundAtDistance(g: Graph, w: Walk, roots: seq<int>, found: seq<Found>, trail: seq<Hop>, k: nat)
    requires Canonical(g, w, roots, found, trail) && k < |found|
    ensures 1 <= found[k].depth <= w.maxDepth && Distance(g, w, roots, found[k].id, found[k].depth)
  {
    DepthIsAWalk(g, w, roots, found, trail, |roots| + k);
    forall m: nat | m < found[k].depth
      ensures !Reach(g, w, roots, found[k].id, m)
    {
      if Reach(g, w, roots, found[k].id, m) {
        var p := WalksAreFound(g, w, roots, found, trail, found[k].id, m);
        assert false;
      }
    }
  }

  /** The traversal returns exactly the non-root nodes at distance 1 to maxDepth, each with its
      distance as its depth, and each once. */
  lemma TraversalIsExact(g: Graph, w: Walk, roots: seq<int>, found: seq<Found>)
    requires Explores(g, w, roots, found)
    ensures forall id: int, d: nat ::
      (exists k :: 0 <= k < |found| && found[k].id == id && found[k].depth == d)
      <==> 1 <= d <= w.maxDepth && Distance(g, w, roots, id, d)
    ensures forall j, k :: 0 <= j < k < |found| ==> found[j].id != found[k].id
    ensures forall k :: 0 <= k < |found| ==> found[k].id !in roots && found[k].id in g.nodes
  {
    var trail :| Canonical(g, w, roots, found, trail);
    forall k | 0 <= k < |found|
      ensures found[k].id in g.nodes && 1 <= found[k].depth <= w.maxDepth && Distance(g, w, roots, found[k].id, found[k].depth)
    {
      assert Justified(g, w, roots, found, k, trail[k]);
      FoundAtDistance(g, w, roots, found, trail, k);
    }
    forall id: int, d: nat | 1 <= d <= w.maxDepth && Distance(g, w, roots, id, d)
      ensures exists k :: 0 <= k < |found| && found[k].id == id && found[k].depth == d
    {
      var p := WalksAreFound(g, w, roots, found, trail, id, d);
      DepthIsAWalk(g, w, roots, found, trail, p);
      assert found[p - |roots|].depth == d;
    }
  }

  /** Hop h is the first, in the order of positions and then of the edge query, that leads to
      found node k, whose recorded relation is the one of h. */
  ghost predicate FirstHop(g: Graph, w: Walk, roots: seq<int>, found: seq<Found>, k: nat, h: Hop)
    requires k < |found|
  {
    && Available(g, w, roots, found, h.parent, h.via)
    && g.edges[h.via].target == found[k].id && g.edges[h.via].relation == found[k].relation
    && forall p: nat, e :: Available(g, w, roots, found, p, e) && g.edges[e].target == found[k].id ==>
         !HopBefore(g, w.ordering, Hop(p, e), h)
  }

  ghost predicate EmissionOrder(g: Graph, w: Walk, roots: seq<int>, found: seq<Found>, trail: seq<Hop>) {
    && |trail| == |found| && InOrder(g, w, trail)
    && forall k :: 0 <= k < |found| ==> FirstHop(g, w, roots, found, k, trail[k])
  }

  lemma TrailIsFirst(g: Graph, w: Walk, roots: seq<int>, found: seq<Found>, trail: seq<Hop>, k: nat)
    requires Canonical(g, w, roots, found, trail) && k < |found|
    ensures FirstHop(g, w, roots, found, k, trail[k])
  {
    assert Justified(g, w, roots, found, k, trail[k]);
    forall p: nat, e | Available(g, w, roots, found, p, e) && g.edges[e].target == found[k].id
      ensures !HopBefore(g, w.ordering, Hop(p, e), trail[k])
    {
      assert Covered(g, w, roots, found, trail, Hop(p, e));
    }
  }

  /** Nodes are emitted level by level, and within that in the order of their first hops. */
  lemma TraversalOrder(g: Graph, w: Walk, roots: seq<int>, found: seq<Found>)
    requires Explores(g, w, roots, found)
    ensures forall j, k :: 0 <= j <= k < |found| ==> found[j].depth <= found[k].depth
    ensures exists trail :: EmissionOrder(g, w, roots, found, trail)
  {
    var trail :| Canonical(g, w, roots, found, trail);
    forall j, k | 0 <= j <= k < |found|
      ensures found[j].depth <= found[k].depth
    {
      DepthsAscend(g, w, roots, found, trail, |roots| + j, |roots| + k);
    }
    forall k | 0 <= k < |found|
      ensures FirstHop(g, w, roots, found, k, trail[k])
    {
      TrailIsFirst(g, w, roots, found, trail, k);
    }
    assert EmissionOrder(g, w, roots, found, trail);
  }

  // ---- The result is determined by the graph, the bounds and the roots.

  lemma Prefixes(roots: seq<int>, found: seq<Found>, other: seq<Found>, n: nat, p: nat)
    requires n <= |found| && n <= |other| && found[..n] == other[..n] && p < |roots| + n
    ensures IdAt(roots, found, p) == IdAt(roots, other, p) && DepthAt(roots, found, p) == DepthAt(roots, other, p)
  {
    if p >= |roots| {
      assert found[..n][p - |roots|] == other[..n][p - |roots|];
    }
  }

  lemma NewToThePrefix(roots: seq<int>, found: seq<Found>, other: seq<Found>, n: nat)
    requires n <= |found| && n < |other| && found[..n] == other[..n] && AllNew(roots, other)
    ensures forall j :: 0 <= j < n ==> found[j].id != other[n].id
  {
    forall j | 0 <= j < n
      ensures found[j].id != other[n].id
    {
      assert found[j] == found[..n][j] && other[j] == other[..n][j];
    }
  }

  lemma HopsAreTransitive(g: Graph, ordering: Ordering, h: Hop, a: Hop, b: Hop)
    requires HopBefore(g, ordering, a, b) && !HopBefore(g, ordering, h, b)
    ensures !HopBefore(g, ordering, h, a)
  {
  }

  /** With n nodes in common, the next node of one run was not emitted later by the other. */
  lemma NextIsNotLater(g: Graph, w: Walk, roots: seq<int>, found: seq<Found>, trail: seq<Hop>,
                       other: seq<Found>, others: seq<Hop>, n: nat)
    requires Canonical(g, w, roots, found, trail) && Canonical(g, w, roots, other, others)
    requires n <= |found| && n < |other| && found[..n] == other[..n]
    ensures n < |found| && !HopBefore(g, w.ordering, others[n], trail[n])
  {
    var h := others[n];
    NewToThePrefix(roots, found, other, n);
    assert Justified(g, w, roots, other, n, h);
    Prefixes(roots, found, other, n, h.parent);
    assert Available(g, w, roots, found, h.parent, h.via);
    assert Covered(g, w, roots, found, trail, h);
    var j :| 0 <= j < |found| && found[j].id == other[n].id && !HopBefore(g, w.ordering, h, trail[j]);
    if n < j {
      HopsAreTransitive(g, w.ordering, h, trail[n], trail[j]);
    }
  }

  /** With n nodes in common, the next nodes are the same. */
  lemma NextAgrees(g: Graph, w: Walk, roots: seq<int>, found: seq<Found>, trail: seq<Hop>,
                   other: seq<Found>, others: seq<Hop>, n: nat)
    requires Canonical(g, w, roots, found, trail) && Canonical(g, w, roots, other, others)
    requires n < |found| && n < |other| && found[..n] == other[..n]
    ensures found[n] == other[n]
  {
    NextIsNotLater(g, w, roots, found, trail, other, others, n);
    NextIsNotLater(g, w, roots, other, others, found, trail, n);
    assert Justified(g, w, roots, found, n, trail[n]);
    assert Justified(g, w, roots, other, n, others[n]);
    assert trail[n] == others[n];
    Prefixes(roots, found, other, n, trail[n].parent);
  }

  lemma OneMoreEqual<T>(a: seq<T>, b: seq<T>, n: nat)
    requires n < |a| && n < |b| && a[..n] == b[..n] && a[n] == b[n]
    ensures a[..n + 1] == b[..n + 1]
  {
    assert a[..n + 1] == a[..n] + [a[n]] && b[..n + 1] == b[..n] + [b[n]];
  }

  lemma {:induction false} RunsAgree(g: Graph, w: Walk, roots: seq<int>, found: seq<Found>, trail: seq<Hop>,
                                     other: seq<Found>, others: seq<Hop>, n: nat)
    requires Canonical(g, w, roots, found, trail) && Canonical(g, w, roots, other, others)
    requires n <= |found| && n <= |other|
    ensures found[..n] == other[..n]
  {
    if n > 0 {
      RunsAgree(g, w, roots, found, trail, other, others, n - 1);
      NextAgrees(g, w, roots, found, trail, other, others, n - 1);
      OneMoreEqual(found, other, n - 1);
    }
  }

  /** Whatever order a traversal is carried out in, its result is the same. */
  lemma TraversalIsDetermined(g: Graph, w: Walk, roots: seq<int>, found: seq<Found>, other: seq<Found>)
    requires Explores(g, w, roots, found) && Explores(g, w, roots, other)
    ensures found == other
  {
    var trail :| Canonical(g, w, roots, found, trail);
    var others :| Canonical(g, w, roots, other, others);
    var n := if |found| <= |other| then |found| else |other|;
    RunsAgree(g, w, roots, found, trail, other, others, n);
    if |found| < |other| {
      NextIsNotLater(g, w, roots, found, trail, other, others, n);
    } else if |other| < |found| {
      assert other[..n] == found[..n];
      NextIsNotLater(g, w, roots, other, others, found, trail, n);
    }
    assert found == found[..n] && other == other[..n];
  }
}
