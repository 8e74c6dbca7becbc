/** From included items to a packet: stable ordering in place, the limit, and the token budget. */
module Packet {
  import opened Base
  import opened Schema
  import opened Scoring
  import opened Traversal

  datatype ItemKind = MemoryEntry | TopicNode

  /** An item of the packet. Topic nodes reached over an edge carry its relation. */
  datatype Included = Included(
    kind: ItemKind, id: int, slug: string, title: string, summary: string, score: real, interpretation: Label,
    labels: Labels, relation: Option<Relation>, depth: nat)

  // ---- Stable ordering.

  /** What the ordering compares, ascending: the depth, or else the negated score. */
  function SortKey(ordering: Ordering, item: Included): real {
    if ordering == RootsThenEdges then item.depth as real else -item.score
  }

  predicate Sorted(ordering: Ordering, items: seq<Included>) {
    forall i, j :: 0 <= i < j < |items| ==> SortKey(ordering, items[i]) <= SortKey(ordering, items[j])
  }

  /** The items whose key is v, in order. */
  function WithKey(ordering: Ordering, items: seq<Included>, v: real): seq<Included> {
    if items == [] then []
    else
      var (front, last) := (items[..|items| - 1], items[|items| - 1]);
      WithKey(ordering, front, v) + (if SortKey(ordering, last) == v then [last] else [])
  }

  /** A reordering is stable when it keeps the items of each key in order. */
  ghost predicate KeepsTies(ordering: Ordering, items: seq<Included>, other: seq<Included>) {
    forall v: real :: WithKey(ordering, items, v) == WithKey(ordering, other, v)
  }

  /** Put an item behind everything that does not compare greater. */
  function Insert(ordering: Ordering, sorted: seq<Included>, item: Included): (r: seq<Included>)
    ensures |r| == |sorted| + 1
  {
    if sorted == [] || SortKey(ordering, sorted[|sorted| - 1]) <= SortKey(ordering, item) then sorted + [item]
    else Insert(ordering, sorted[..|sorted| - 1], item) + [sorted[|sorted| - 1]]
  }

  function StableSort(ordering: Ordering, items: seq<Included>): (r: seq<Included>)
    ensures |r| == |items|
  {
    if items == [] then []
    else Insert(ordering, StableSort(ordering, items[..|items| - 1]), items[|items| - 1])
  }

  lemma SpliceBeforeLast<T>(items: seq<T>, j: nat, x: T)
    requires j < |items|
    ensures var front := items[..|items| - 1];
      front[..j] + [x] + front[j..] + [items[|items| - 1]] == items[..j] + [x] + items[j..]
  {
  }

  /** Where an item goes: behind everything that does not compare greater. */
  lemma {:induction false} InsertAt(ordering: Ordering, sorted: seq<Included>, item: Included, j: nat)
    requires j <= |sorted| && forall m :: j <= m < |sorted| ==> SortKey(ordering, item) < SortKey(ordering, sorted[m])
    requires j > 0 ==> SortKey(ordering, sorted[j - 1]) <= SortKey(ordering, item)
    ensures Insert(ordering, sorted, item) == sorted[..j] + [item] + sorted[j..]
    decreases |sorted|
  {
    if j < |sorted| {
      var last := sorted[|sorted| - 1];
      assert SortKey(ordering, item) < SortKey(ordering, last);
      InsertAt(ordering, sorted[..|sorted| - 1], item, j);
      SpliceBeforeLast(sorted, j, item);
    } else {
      assert sorted[..j] == sorted && sorted[j..] == [];
    }
  }

  /** The place of an item in a sorted list. */
  lemma {:induction false} HasPlace(ordering: Ordering, sorted: seq<Included>, item: Included) returns (j: nat)
    requires Sorted(ordering, sorted)
    ensures j <= |sorted|
    ensures forall m :: j <= m < |sorted| ==> SortKey(ordering, item) < SortKey(ordering, sorted[m])
    ensures forall m :: 0 <= m < j ==> SortKey(ordering, sorted[m]) <= SortKey(ordering, item)
    decreases |sorted|
  {
    j := |sorted|;
    while j > 0 && SortKey(ordering, item) < SortKey(ordering, sorted[j - 1])
      invariant 0 <= j <= |sorted|
      invariant forall m :: j <= m < |sorted| ==> SortKey(ordering, item) < SortKey(ordering, sorted[m])
    {
      j := j - 1;
    }
  }

  lemma StaysSorted(ordering: Ordering, sorted: seq<Included>, r: seq<Included>, item: Included, j: nat)
    requires Sorted(ordering, sorted) && j <= |sorted| && |r| == |sorted| + 1 && r[j] == item
    requires forall m :: 0 <= m < j ==> r[m] == sorted[m] && SortKey(ordering, sorted[m]) <= SortKey(ordering, item)
    requires forall m :: j < m < |r| ==> r[m] == sorted[m - 1] && SortKey(ordering, item) < SortKey(ordering, sorted[m - 1])
    ensures Sorted(ordering, r)
  {
    forall a, b | 0 <= a < b < |r|
      ensures SortKey(ordering, r[a]) <= SortKey(ordering, r[b])
    {
      assert a < j || a == j || r[a] == sorted[a - 1];
      assert b < j || b == j || r[b] == sorted[b - 1];
    }
  }

  lemma InsertSorts(ordering: Ordering, sorted: seq<Included>, item: Included)
    requires Sorted(ordering, sorted)
    ensures Sorted(ordering, Insert(ordering, sorted, item))
  {
    var j := HasPlace(ordering, sorted, item);
    InsertAt(ordering, sorted, item, j);
    StaysSorted(ordering, sorted, sorted[..j] + [item] + sorted[j..], item, j);
  }

  lemma OneMore<T>(items: seq<T>, x: T, j: nat)
    requires j <= |items|
    ensures multiset(items[..j] + [x] + items[j..]) == multiset(items) + multiset{x}
  {
    assert items == items[..j] + items[j..];
  }

  lemma InsertPermutes(ordering: Ordering, sorted: seq<Included>, item: Included)
    requires Sorted(ordering, sorted)
    ensures multiset(Insert(ordering, sorted, item)) == multiset(sorted) + multiset{item}
  {
    var j := HasPlace(ordering, sorted, item);
    InsertAt(ordering, sorted, item, j);
    OneMore(sorted, item, j);
  }

  function Tie(ordering: Ordering, item: Included, v: real): seq<Included> {
    if SortKey(ordering, item) == v then [item] else []
  }

  lemma WithKeyOfLast(ordering: Ordering, items: seq<Included>, item: Included, v: real)
    ensures WithKey(ordering, items + [item], v) == WithKey(ordering, items, v) + Tie(ordering, item, v)
  {
    assert (items + [item])[..|items|] == items;
  }

  lemma OneIsEmpty<T>(a: seq<T>, b: seq<T>, c: seq<T>)
    requires b == [] || c == []
    ensures a + b + c == a + c + b
  {
  }

  lemma InsertBeforeKeepsTies(ordering: Ordering, front: seq<Included>, longer: seq<Included>, last: Included, item: Included, v: real)
    requires WithKey(ordering, longer, v) == WithKey(ordering, front, v) + Tie(ordering, item, v)
    requires SortKey(ordering, item) < SortKey(ordering, last)
    ensures WithKey(ordering, longer + [last], v) == WithKey(ordering, front + [last], v) + Tie(ordering, item, v)
  {
    WithKeyOfLast(ordering, longer, last, v);
    WithKeyOfLast(ordering, front, last, v);
    OneIsEmpty(WithKey(ordering, front, v), Tie(ordering, item, v), Tie(ordering, last, v));
  }

  lemma {:induction false} InsertKeepsTies(ordering: Ordering, sorted: seq<Included>, item: Included, v: real)
    ensures WithKey(ordering, Insert(ordering, sorted, item), v) == WithKey(ordering, sorted, v) + Tie(ordering, item, v)
    decreases |sorted|
  {
    if sorted == [] || SortKey(ordering, sorted[|sorted| - 1]) <= SortKey(ordering, item) {
      WithKeyOfLast(ordering, sorted, item, v);
    } else {
      var (front, last) := (sorted[..|sorted| - 1], sorted[|sorted| - 1]);
      InsertKeepsTies(ordering, front, item, v);
      assert sorted == front + [last];
      InsertBeforeKeepsTies(ordering, front, Insert(ordering, front, item), last, item, v);
    }
  }

  /** The result is sorted, stable and a permutation. */
  lemma {:induction false} StableSortSorts(ordering: Ordering, items: seq<Included>)
    ensures Sorted(ordering, StableSort(ordering, items))
    ensures KeepsTies(ordering, items, StableSort(ordering, items))
    ensures multiset(StableSort(ordering, items)) == multiset(items)
    decreases |items|
  {
    if items != [] {
      var (front, last) := (items[..|items| - 1], items[|items| - 1]);
      assert items == front + [last];
      StableSortSorts(ordering, front);
      var sorted := StableSort(ordering, front);
      InsertSorts(ordering, sorted, last);
      InsertPermutes(ordering, sorted, last);
      forall v: real
        ensures WithKey(ordering, items, v) == WithKey(ordering, StableSort(ordering, items), v)
      {
        InsertKeepsTies(ordering, sorted, last, v);
        WithKeyOfLast(ordering, front, last, v);
      }
    }
  }

  lemma {:induction false} WithKeyMembers(ordering: Ordering, items: seq<Included>, v: real)
    ensures WithKey(ordering, items, v) == [] <==> forall i :: 0 <= i < |items| ==> SortKey(ordering, items[i]) != v
    decreases |items|
  {
    if items != [] {
      var (front, last) := (items[..|items| - 1], items[|items| - 1]);
      WithKeyMembers(ordering, front, v);
      assert items == front + [last];
      WithKeyOfLast(ordering, front, last, v);
    }
  }

  /** Nothing in a list that keeps the ties of a sorted one compares above the last of it. */
  lemma LastIsGreatest(ordering: Ordering, items: seq<Included>, other: seq<Included>)
    requires Sorted(ordering, other) && KeepsTies(ordering, items, other) && items != []
    ensures other != [] && SortKey(ordering, items[|items| - 1]) <= SortKey(ordering, other[|other| - 1])
  {
    var v := SortKey(ordering, items[|items| - 1]);
    WithKeyMembers(ordering, items, v);
    WithKeyMembers(ordering, other, v);
    assert WithKey(ordering, items, v) == WithKey(ordering, other, v);
  }

  lemma SplitTail<T>(a: seq<T>, x: seq<T>, b: seq<T>, y: seq<T>)
    requires a + x == b + y && |x| == |y|
    ensures a == b && x == y
  {
    assert a == (a + x)[..|a|] && b == (b + y)[..|b|];
    assert x == (a + x)[|a|..] && y == (b + y)[|b|..];
  }

  /** Sorted lists that keep each other's ties are equal: there is one stable sort. */
  lemma {:induction false} SortedIsUnique(ordering: Ordering, items: seq<Included>, other: seq<Included>)
    requires Sorted(ordering, items) && Sorted(ordering, other) && KeepsTies(ordering, items, other)
    ensures items == other
    decreases |items|
  {
    if items != [] {
      LastIsGreatest(ordering, items, other);
      LastIsGreatest(ordering, other, items);
      var (a, x) := (items[..|items| - 1], items[|items| - 1]);
      var (b, y) := (other[..|other| - 1], other[|other| - 1]);
      assert items == a + [x] && other == b + [y];
      forall u: real
        ensures WithKey(ordering, a, u) == WithKey(ordering, b, u) && Tie(ordering, x, u) == Tie(ordering, y, u)
      {
        WithKeyOfLast(ordering, a, x, u);
        WithKeyOfLast(ordering, b, y, u);
        assert WithKey(ordering, items, u) == WithKey(ordering, other, u);
        SplitTail(WithKey(ordering, a, u), Tie(ordering, x, u), WithKey(ordering, b, u), Tie(ordering, y, u));
      }
      assert Tie(ordering, x, SortKey(ordering, x)) == [x];
      SortedIsUnique(ordering, a, b);
    } else if other != [] {
      LastIsGreatest(ordering, other, items);
    }
  }

  /** Stable sorting leaves a sorted list as it is. */
  lemma SortingSortedChangesNothing(ordering: Ordering, items: seq<Included>)
    requires Sorted(ordering, items)
    ensures StableSort(ordering, items) == items
  {
    StableSortSorts(ordering, items);
    SortedIsUnique(ordering, items, StableSort(ordering, items));
  }

  lemma Spliced<T>(items: seq<T>, rest: seq<T>, x: T, j: nat)
    requires j < |items| == |rest| + 1 && items[j] == x
    requires forall m :: 0 <= m < j ==> items[m] == rest[m]
    requires forall m :: j < m < |items| ==> items[m] == rest[m - 1]
    ensures items == rest[..j] + [x] + rest[j..]
  {
  }

  /** Move the items before position i that belong behind its item one place up. */
  method MakeRoom(nodes: array<Included>, i: nat, ordering: Ordering) returns (j: nat)
    requires i < nodes.Length
    modifies nodes
    ensures j <= i && nodes[i + 1..] == old(nodes[i + 1..])
    ensures forall m :: 0 <= m < j ==> nodes[m] == old(nodes[m])
    ensures forall m :: j < m <= i ==> nodes[m] == old(nodes[m - 1])
    ensures forall m :: j <= m < i ==> SortKey(ordering, old(nodes[i])) < SortKey(ordering, old(nodes[m]))
    ensures j > 0 ==> SortKey(ordering, old(nodes[j - 1])) <= SortKey(ordering, old(nodes[i]))
  {
    ghost var was := nodes[..];
    var item := nodes[i];
    j := i;
    while j > 0 && SortKey(ordering, item) < SortKey(ordering, nodes[j - 1])
      invariant 0 <= j <= i
      invariant forall m :: 0 <= m < j ==> nodes[m] == was[m]
      invariant forall m :: j < m <= i ==> nodes[m] == was[m - 1]
      invariant forall m :: j <= m < i ==> SortKey(ordering, item) < SortKey(ordering, was[m])
      invariant nodes[i + 1..] == was[i + 1..]
    {
      nodes[j] := nodes[j - 1];
      j := j - 1;
    }
  }

  /** Slide item i of the array down to its place among the items before it. */
  method InsertInPlace(nodes: array<Included>, i: nat, ordering: Ordering)
    requires i < nodes.Length
    modifies nodes
    ensures nodes[..i + 1] == Insert(ordering, old(nodes[..i]), old(nodes[i]))
    ensures nodes[i + 1..] == old(nodes[i + 1..])
  {
    ghost var sorted := nodes[..i];
    var item := nodes[i];
    var j := MakeRoom(nodes, i, ordering);
    nodes[j] := item;
    InsertAt(ordering, sorted, item, j);
    Spliced(nodes[..i + 1], sorted, item, j);
  }

  lemma SortOneMore(ordering: Ordering, items: seq<Included>, i: nat)
    requires i < |items|
    ensures StableSort(ordering, items[..i + 1]) == Insert(ordering, StableSort(ordering, items[..i]), items[i])
  {
    assert items[..i + 1][..i] == items[..i];
  }

  lemma SuffixOneLess<T>(items: seq<T>, was: seq<T>, i: nat)
    requires i < |items| == |was| && items[i..] == was[i..]
    ensures items[i] == was[i] && items[i + 1..] == was[i + 1..]
  {
    assert items[i..][0] == was[i..][0] && items[i..][1..] == was[i..][1..];
  }

  /** Sort in place, stably. */
  method ApplyNodeOrdering(nodes: array<Included>, ordering: Ordering)
    modifies nodes
    ensures nodes[..] == StableSort(ordering, old(nodes[..]))
  {
    ghost var was := nodes[..];
    for i := 0 to nodes.Length
      invariant nodes[..i] == StableSort(ordering, was[..i])
      invariant nodes[..][i..] == was[i..]
    {
      SuffixOneLess(nodes[..], was, i);
      SortOneMore(ordering, was, i);
      InsertInPlace(nodes, i, ordering);
    }
    assert was[..nodes.Length] == was && nodes[..nodes.Length] == nodes[..];
  }

  // ---- The limit.

  /** The first `limit` items; a negative limit makes the source panic. */
  function Take(items: seq<Included>, limit: int): Option<seq<Included>> {
    if limit < 0 then None else if limit < |items| then Some(items[..limit]) else Some(items)
  }

  /** Under score ordering an item cut by the limit scores no higher than any item taken. */
  lemma LimitCutsTheLowest(ordering: Ordering, items: seq<Included>, limit: nat, i: nat, j: nat)
    requires ordering != RootsThenEdges
    requires i < limit <= j < |items|
    ensures var sorted := StableSort(ordering, items);
      Take(sorted, limit) == Some(sorted[..limit]) && sorted[j].score <= sorted[i].score
  {
    StableSortSorts(ordering, items);
  }

  // ---- The token budget.

  /** Four bytes a token, rounded up. */
  function EstimatedTokens(text: string): nat {
    if text == "" then 0 else (|text| + 3) / 4
  }

  function Estimate(item: Included): nat {
    EstimatedTokens(item.title + " " + item.slug + " " + item.summary)
  }

  /** Zero counts as not given; whatever is given in the end, the budget is positive. */
  function RequestedTokenBudget(tokenBudget: int, budgetTokens: int, hint: Option<int>): (budget: int)
    ensures budget > 0
    ensures tokenBudget != 0 ==> budget == if tokenBudget > 0 then tokenBudget else 3000
    ensures tokenBudget == 0 && budgetTokens != 0 ==> budget == if budgetTokens > 0 then budgetTokens else 3000
    ensures tokenBudget == 0 && budgetTokens == 0 && hint.Some? && hint.value > 0 ==> budget == hint.value
    ensures tokenBudget == 0 && budgetTokens == 0 && (hint.None? || hint.value <= 0) ==> budget == 3000
  {
    var first := if tokenBudget != 0 then tokenBudget else budgetTokens;
    var budget := if first != 0 then first else if hint.Some? then hint.value else 3000;
    if budget <= 0 then 3000 else budget
  }

  /** What packet headings, skip records and audit data are taken to cost. */
  const OVERHEAD := 24

  function Total<T>(items: seq<T>, cost: T -> nat): nat {
    if items == [] then 0 else Total(items[..|items| - 1], cost) + cost(items[|items| - 1])
  }

  /** The chosen items, in order. */
  function Chosen<T>(items: seq<T>, choice: seq<bool>, want: bool): seq<T>
    requires |choice| == |items|
  {
    if items == [] then []
    else
      var n := |items| - 1;
      var front := Chosen(items[..n], choice[..n], want);
      if choice[n] == want then front + [items[n]] else front
  }

  /** Item by item, an item is kept exactly when it fits what the items kept before it leave. */
  ghost predicate Greedy<T>(items: seq<T>, cost: T -> nat, room: int, choice: seq<bool>) {
    && |choice| == |items|
    && forall i :: 0 <= i < |items| ==>
         (choice[i] <==> cost(items[i]) <= room - Total(Chosen(items[..i], choice[..i], true), cost))
  }

  lemma ChosenOfLast<T>(items: seq<T>, choice: seq<bool>, item: T, keep: bool, want: bool)
    requires |choice| == |items|
    ensures Chosen(items + [item], choice + [keep], want) ==
      if keep == want then Chosen(items, choice, want) + [item] else Chosen(items, choice, want)
  {
    assert (items + [item])[..|items|] == items && (choice + [keep])[..|items|] == choice;
  }

  lemma TotalOfLast<T>(items: seq<T>, cost: T -> nat, item: T)
    ensures Total(items + [item], cost) == Total(items, cost) + cost(item)
  {
    assert (items + [item])[..|items|] == items;
  }

  lemma GreedyGrows<T>(items: seq<T>, cost: T -> nat, room: int, choice: seq<bool>, item: T)
    requires Greedy(items, cost, room, choice)
    ensures Greedy(items + [item], cost, room, choice + [cost(item) <= room - Total(Chosen(items, choice, true), cost)])
  {
    var keep := cost(item) <= room - Total(Chosen(items, choice, true), cost);
    var (longer, choices) := (items + [item], choice + [keep]);
    forall i | 0 <= i < |longer|
      ensures choices[i] <==> cost(longer[i]) <= room - Total(Chosen(longer[..i], choices[..i], true), cost)
    {
      if i < |items| {
        assert longer[..i] == items[..i] && choices[..i] == choice[..i];
      } else {
        assert longer[..i] == items && choices[..i] == choice;
      }
    }
  }

  lemma GreedyPrefix<T>(items: seq<T>, cost: T -> nat, room: int, choice: seq<bool>, n: nat)
    requires Greedy(items, cost, room, choice) && n <= |items|
    ensures Greedy(items[..n], cost, room, choice[..n])
  {
    forall i | 0 <= i < n
      ensures choice[..n][i] <==> cost(items[..n][i]) <= room - Total(Chosen(items[..n][..i], choice[..n][..i], true), cost)
    {
      assert items[..n][..i] == items[..i] && choice[..n][..i] == choice[..i];
    }
  }

  /** Kept and cut items together are the items. */
  lemma {:induction false} ChoiceSplits<T>(items: seq<T>, choice: seq<bool>)
    requires |choice| == |items|
    ensures multiset(Chosen(items, choice, true)) + multiset(Chosen(items, choice, false)) == multiset(items)
    decreases |items|
  {
    if items != [] {
      var n := |items| - 1;
      ChoiceSplits(items[..n], choice[..n]);
      assert items == items[..n] + [items[n]];
    }
  }

  lemma {:induction false} ChosenMembers<T>(items: seq<T>, choice: seq<bool>, want: bool, x: T)
    requires |choice| == |items| && x in Chosen(items, choice, want)
    ensures exists i :: 0 <= i < |items| && items[i] == x && choice[i] == want
    decreases |items|
  {
    var n := |items| - 1;
    if x in Chosen(items[..n], choice[..n], want) {
      ChosenMembers(items[..n], choice[..n], want, x);
      var i :| 0 <= i < n && items[..n][i] == x && choice[..n][i] == want;
      assert items[i] == x && choice[i] == want;
    }
  }

  /** One more item, kept or cut, after a choice that fits. */
  lemma FitsWithLast(total: nat, kept: nat, last: nat, room: int, taken: bool)
    requires (total == 0 || total <= room) && (taken <==> last <= room - total)
    requires kept == if taken then total + last else total
    ensures (kept == 0 || kept <= room) && total <= kept && (!taken ==> last > room - kept)
  {
  }

  lemma TotalOfChosen<T>(items: seq<T>, cost: T -> nat, choice: seq<bool>, n: nat)
    requires |items| == |choice| == n + 1
    ensures Total(Chosen(items, choice, true), cost)
      == Total(Chosen(items[..n], choice[..n], true), cost) + (if choice[n] then cost(items[n]) else 0)
  {
    TotalOfLast(Chosen(items[..n], choice[..n], true), cost, items[n]);
  }

  /** A greedy choice stays within the room, and nothing it left out fits what it leaves. */
  lemma {:induction false} GreedyFits<T>(items: seq<T>, cost: T -> nat, room: int, choice: seq<bool>)
    requires Greedy(items, cost, room, choice)
    ensures var kept := Total(Chosen(items, choice, true), cost);
      && (kept == 0 || kept <= room)
      && forall i :: 0 <= i < |items| && !choice[i] ==> cost(items[i]) > room - kept
    decreases |items|
  {
    if items != [] {
      var n := |items| - 1;
      GreedyPrefix(items, cost, room, choice, n);
      GreedyFits(items[..n], cost, room, choice[..n]);
      TotalOfChosen(items, cost, choice, n);
      var (total, kept) := (Total(Chosen(items[..n], choice[..n], true), cost), Total(Chosen(items, choice, true), cost));
      FitsWithLast(total, kept, cost(items[n]), room, choice[n]);
      forall i | 0 <= i < |items| && !choice[i]
        ensures cost(items[i]) > room - kept
      {
        if i < n {
          assert !choice[..n][i] && items[..n][i] == items[i];
        }
      }
    }
  }

  lemma {:induction false} GreedyIsUnique<T>(items: seq<T>, cost: T -> nat, room: int, choice: seq<bool>, other: seq<bool>, n: nat)
    requires Greedy(items, cost, room, choice) && Greedy(items, cost, room, other) && n <= |items|
    ensures choice[..n] == other[..n]
    decreases n
  {
    if n > 0 {
      GreedyIsUnique(items, cost, room, choice, other, n - 1);
      ghost var left := room - Total(Chosen(items[..n - 1], choice[..n - 1], true), cost);
      assert choice[n - 1] <==> cost(items[n - 1]) <= left;
      assert other[n - 1] <==> cost(items[n - 1]) <= left;
      assert choice[..n] == choice[..n - 1] + [choice[n - 1]] && other[..n] == other[..n - 1] + [other[n - 1]];
    }
  }

  /** Why an item is not in the packet: "status:" and its status, "out_of_scope", or
      "token_budget_truncated". */
  datatype SkipReason = StatusExcluded(status: EntryStatus) | ScopeExcluded | BudgetTruncated

  datatype Skip = Skip(slug: string, reason: SkipReason)

  function Truncation(item: Included): Skip {
    Skip(item.slug, BudgetTruncated)
  }

  function Truncations(items: seq<Included>): seq<Skip> {
    if items == [] then []
    else Truncations(items[..|items| - 1]) + [Truncation(items[|items| - 1])]
  }

  /** A greedy choice of what to keep, with a skip record for each item left out, in order. */
  ghost predicate Filled(items: seq<Included>, before: seq<Skip>, cost: Included -> nat, room: int,
                         kept: seq<Included>, skipped: seq<Skip>, choice: seq<bool>) {
    && Greedy(items, cost, room, choice)
    && kept == Chosen(items, choice, true)
    && skipped == before + Truncations(Chosen(items, choice, false))
  }

  ghost predicate Fills(items: seq<Included>, before: seq<Skip>, room: int, kept: seq<Included>, skipped: seq<Skip>) {
    exists choice :: Filled(items, before, Estimate, room, kept, skipped, choice)
  }

  /** The outcome of filling a budget: everything when there is none, a greedy choice otherwise. */
  ghost predicate Budgeted(items: seq<Included>, before: seq<Skip>, budget: int, kept: seq<Included>, skipped: seq<Skip>) {
    if budget <= 0 then kept == items && skipped == before
    else Fills(items, before, budget - OVERHEAD, kept, skipped)
  }

  lemma EstimateIsPositive(item: Included)
    ensures Estimate(item) >= 1
  {
    assert |item.title + " " + item.slug + " " + item.summary| >= 2;
  }

  lemma KeepStep(items: seq<Included>, before: seq<Skip>, cost: Included -> nat, room: int, kept: seq<Included>,
                 skipped: seq<Skip>, choice: seq<bool>, item: Included)
    requires Filled(items, before, cost, room, kept, skipped, choice) && cost(item) <= room - Total(kept, cost)
    ensures Filled(items + [item], before, cost, room, kept + [item], skipped, choice + [true])
  {
    GreedyGrows(items, cost, room, choice, item);
    assert (cost(item) <= room - Total(Chosen(items, choice, true), cost)) == true;
    ChosenOfLast(items, choice, item, true, true);
    ChosenOfLast(items, choice, item, true, false);
  }

  lemma AppendAssociates<T>(a: seq<T>, b: seq<T>, x: T)
    ensures (a + b) + [x] == a + (b + [x])
  {
  }

  lemma TruncationsOfLast(items: seq<Included>, item: Included)
    ensures Truncations(items + [item]) == Truncations(items) + [Truncation(item)]
  {
    assert (items + [item])[..|items|] == items;
  }

  lemma CutStep(items: seq<Included>, before: seq<Skip>, cost: Included -> nat, room: int, kept: seq<Included>,
                skipped: seq<Skip>, choice: seq<bool>, item: Included)
    requires Filled(items, before, cost, room, kept, skipped, choice) && cost(item) > room - Total(kept, cost)
    ensures Filled(items + [item], before, cost, room, kept, skipped + [Truncation(item)], choice + [false])
  {
    GreedyGrows(items, cost, room, choice, item);
    assert (cost(item) <= room - Total(Chosen(items, choice, true), cost)) == false;
    ChosenOfLast(items, choice, item, false, true);
    ChosenOfLast(items, choice, item, false, false);
    TruncationsOfLast(Chosen(items, choice, false), item);
    AppendAssociates(before, Truncations(Chosen(items, choice, false)), Truncation(item));
  }

  /** The first i items are filled. */
  ghost predicate Progress(items: seq<Included>, i: nat, before: seq<Skip>, cost: Included -> nat, room: int,
                           kept: seq<Included>, skipped: seq<Skip>, choice: seq<bool>, remaining: int) {
    i <= |items| && Filled(items[..i], before, cost, room, kept, skipped, choice) && remaining == room - Total(kept, cost)
  }

  lemma NothingFilled(items: seq<Included>, before: seq<Skip>, cost: Included -> nat, room: int)
    ensures Progress(items, 0, before, cost, room, [], before, [], room)
  {
    assert items[..0] == [];
    assert before + [] == before;
  }

  lemma KeepNext(items: seq<Included>, i: nat, before: seq<Skip>, cost: Included -> nat, room: int,
                 kept: seq<Included>, skipped: seq<Skip>, choice: seq<bool>, remaining: int)
    requires i < |items| && Progress(items, i, before, cost, room, kept, skipped, choice, remaining)
    requires cost(items[i]) <= remaining
    ensures Progress(items, i + 1, before, cost, room, kept + [items[i]], skipped, choice + [true], remaining - cost(items[i]))
  {
    KeepStep(items[..i], before, cost, room, kept, skipped, choice, items[i]);
    TotalOfLast(kept, cost, items[i]);
    assert items[..i + 1] == items[..i] + [items[i]];
  }

  lemma CutNext(items: seq<Included>, i: nat, before: seq<Skip>, cost: Included -> nat, room: int,
                kept: seq<Included>, skipped: seq<Skip>, choice: seq<bool>, remaining: int)
    requires i < |items| && Progress(items, i, before, cost, room, kept, skipped, choice, remaining)
    requires cost(items[i]) > remaining
    ensures Progress(items, i + 1, before, cost, room, kept, skipped + [Truncation(items[i])], choice + [false], remaining)
  {
    CutStep(items[..i], before, cost, room, kept, skipped, choice, items[i]);
    assert items[..i + 1] == items[..i] + [items[i]];
  }

  lemma AllFilled(items: seq<Included>, before: seq<Skip>, room: int, kept: seq<Included>, skipped: seq<Skip>,
                  choice: seq<bool>, remaining: int)
    requires Progress(items, |items|, before, Estimate, room, kept, skipped, choice, remaining)
    ensures Fills(items, before, room, kept, skipped)
  {
    assert items[..|items|] == items;
  }

  /** Without room for anything every item is truncated, as item-by-item filling would do. */
  method TruncateAll(items: seq<Included>, before: seq<Skip>, ghost room: int) returns (skipped: seq<Skip>)
    requires room <= 0
    ensures Fills(items, before, room, [], skipped)
  {
    skipped := before;
    ghost var choice: seq<bool> := [];
    NothingFilled(items, before, Estimate, room);
    for i := 0 to |items|
      invariant Progress(items, i, before, Estimate, room, [], skipped, choice, room)
    {
      EstimateIsPositive(items[i]);
      CutNext(items, i, before, Estimate, room, [], skipped, choice, room);
      skipped := skipped + [Truncation(items[i])];
      choice := choice + [false];
    }
    AllFilled(items, before, room, [], skipped, choice, room);
  }

  /** Fill the budget item by item. */
  method ApplyPacketBudget(items: seq<Included>, before: seq<Skip>, budget: int) returns (kept: seq<Included>, skipped: seq<Skip>)
    ensures Budgeted(items, before, budget, kept, skipped)
  {
    kept, skipped := [], before;
    if budget <= 0 {
      return items, before;
    }
    var remaining := budget - OVERHEAD;
    if remaining <= 0 {
      skipped := TruncateAll(items, before, remaining);
      return;
    }
    ghost var room, choice := remaining, [];
    NothingFilled(items, before, Estimate, room);
    for i := 0 to |items|
      invariant Progress(items, i, before, Estimate, room, kept, skipped, choice, remaining)
    {
      var estimate := Estimate(items[i]);
      if estimate > remaining {
        CutNext(items, i, before, Estimate, room, kept, skipped, choice, remaining);
        skipped := skipped + [Truncation(items[i])];
        choice := choice + [false];
      } else {
        KeepNext(items, i, before, Estimate, room, kept, skipped, choice, remaining);
        remaining := remaining - estimate;
        kept := kept + [items[i]];
        choice := choice + [true];
      }
    }
    AllFilled(items, before, room, kept, skipped, choice, remaining);
  }

  /** The budget is filled exactly: what is kept and what is cut partition the items in order, the
      kept estimates stay within the budget less its overhead, and no cut item would still fit. */
  lemma BudgetIsExact(items: seq<Included>, before: seq<Skip>, budget: int, kept: seq<Included>, skipped: seq<Skip>)
    returns (choice: seq<bool>, cut: seq<Included>)
    requires budget > 0 && Budgeted(items, before, budget, kept, skipped)
    ensures |choice| == |items| && kept == Chosen(items, choice, true) && cut == Chosen(items, choice, false)
    ensures multiset(kept) + multiset(cut) == multiset(items)
    ensures skipped == before + Truncations(cut)
    ensures Total(kept, Estimate) <= if budget > OVERHEAD then budget - OVERHEAD else 0
    ensures forall x :: x in cut ==> Estimate(x) > budget - OVERHEAD - Total(kept, Estimate)
  {
    choice :| Filled(items, before, Estimate, budget - OVERHEAD, kept, skipped, choice);
    cut := Chosen(items, choice, false);
    ChoiceSplits(items, choice);
    GreedyFits(items, Estimate, budget - OVERHEAD, choice);
    forall x | x in cut
      ensures Estimate(x) > budget - OVERHEAD - Total(kept, Estimate)
    {
      ChosenMembers(items, choice, false, x);
    }
  }

  /** The budget leaves no freedom. */
  lemma BudgetIsDetermined(items: seq<Included>, before: seq<Skip>, budget: int,
                           kept: seq<Included>, skipped: seq<Skip>, kept': seq<Included>, skipped': seq<Skip>)
    requires Budgeted(items, before, budget, kept, skipped) && Budgeted(items, before, budget, kept', skipped')
    ensures kept == kept' && skipped == skipped'
  {
    if budget > 0 {
      var choice :| Filled(items, before, Estimate, budget - OVERHEAD, kept, skipped, choice);
      var other :| Filled(items, before, Estimate, budget - OVERHEAD, kept', skipped', other);
      GreedyIsUnique(items, Estimate, budget - OVERHEAD, choice, other, |items|);
      assert choice == choice[..|items|] && other == other[..|items|];
    }
  }
}
