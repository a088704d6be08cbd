/** Ordering named items by their declared dependencies. */
module DependencySort {
  import opened Prelude
  import opened DependencyGraph

  datatype Dependency = Dependency(name: string, required: bool)

  datatype DependencyError = NameRequired | Duplicate | Missing | Cycle | ProviderNotFound

  datatype Item<T> = Item(name: string, value: T, dependencies: seq<Dependency>)

  // ------------------------------------------------- the graph behind a list

  /** The last item with this name, or -1: later items overwrite earlier ones in the name index. */
  ghost function IndexOf<T>(items: seq<Item<T>>, name: string): (i: int)
    ensures -1 <= i < |items|
    ensures i >= 0 ==> items[i].name == name
    ensures forall j :: i < j < |items| ==> items[j].name != name
  {
    if items == [] then -1
    else if items[|items| - 1].name == name then |items| - 1
    else IndexOf(items[..|items| - 1], name)
  }

  /** The items a dependency list refers to, in list order; absent names are skipped. */
  ghost function Targets<T>(items: seq<Item<T>>, deps: seq<Dependency>): (ts: seq<nat>)
    ensures forall t :: t in ts ==> t < |items|
  {
    if deps == [] then []
    else
      var t := IndexOf(items, deps[|deps| - 1].name);
      Targets(items, deps[..|deps| - 1]) + if t >= 0 then [t] else []
  }

  ghost function GraphOf<T>(items: seq<Item<T>>): (g: Graph)
    ensures |g| == |items|
    ensures forall i :: 0 <= i < |items| ==> g[i] == Targets(items, items[i].dependencies)
  {
    seq(|items|, i requires 0 <= i < |items| => Targets(items, items[i].dependencies))
  }

  ghost function Values<T>(items: seq<Item<T>>, order: seq<nat>): (out: seq<T>)
    requires forall k :: 0 <= k < |order| ==> order[k] < |items|
    ensures |out| == |order|
  {
    seq(|order|, k requires 0 <= k < |order| => items[order[k]].value)
  }

  // ------------------------------------------------------------- bookkeeping

  /** How many entries of `ps` are outside `done`. */
  ghost function Pending(ps: seq<nat>, done: set<nat>): (n: nat)
    ensures n == 0 <==> forall p :: p in ps ==> p in done
  {
    if ps == [] then 0
    else
      assert forall p :: p in ps <==> p in ps[..|ps| - 1] || p == ps[|ps| - 1];
      Pending(ps[..|ps| - 1], done) + if ps[|ps| - 1] in done then 0 else 1
  }

  ghost function Count(ps: seq<nat>, x: nat): (n: nat)
    ensures n > 0 <==> x in ps
  {
    if ps == [] then 0
    else
      assert x in ps <==> x in ps[..|ps| - 1] || x == ps[|ps| - 1];
      Count(ps[..|ps| - 1], x) + if ps[|ps| - 1] == x then 1 else 0
  }

  lemma {:induction false} PendingNone(ps: seq<nat>)
    ensures Pending(ps, {}) == |ps|
  {
    if ps != [] { PendingNone(ps[..|ps| - 1]); }
  }

  lemma {:induction false} PendingAdd(ps: seq<nat>, done: set<nat>, c: nat)
    requires c !in done
    ensures Pending(ps, done + {c}) == Pending(ps, done) - Count(ps, c)
  {
    if ps != [] { PendingAdd(ps[..|ps| - 1], done, c); }
  }

  lemma {:induction false} CountPrefix(ps: seq<nat>, k: nat, x: nat)
    requires k <= |ps|
    ensures Count(ps[..k], x) <= Count(ps, x)
    ensures k < |ps| ==> Count(ps[..k + 1], x) == Count(ps[..k], x) + if ps[k] == x then 1 else 0
    decreases |ps| - k
  {
    if k < |ps| {
      assert ps[..k + 1][..k] == ps[..k];
      CountPrefix(ps, k + 1, x);
    } else {
      assert ps[..k] == ps;
    }
  }

  lemma CountAppend(ps: seq<nat>, y: nat, x: nat)
    ensures Count(ps + [y], x) == Count(ps, x) + if y == x then 1 else 0
  {
    assert (ps + [y])[..|ps|] == ps;
  }

  ghost predicate Ascending(s: seq<nat>) {
    forall a, b :: 0 <= a < b < |s| ==> s[a] <= s[b]
  }

  // ---------------------------------------------------------------- the sort

  /** The edge lists: `edges[j]` names every item once per dependency on `j`, in item order. */
  ghost predicate EdgesOf(g: Graph, edges: seq<seq<nat>>) {
    && |edges| == |g|
    && (forall j, x :: 0 <= j < |g| && x in edges[j] ==> x < |g|)
    && (forall j :: 0 <= j < |g| ==> Ascending(edges[j]))
    && (forall j, i :: 0 <= j < |g| && 0 <= i < |g| ==> Count(edges[j], i) == Count(g[i], j))
  }

  method BuildIndex<T>(items: seq<Item<T>>) returns (indexByName: map<string, nat>)
    ensures forall name :: name in indexByName <==> IndexOf(items, name) >= 0
    ensures forall name :: name in indexByName ==> indexByName[name] == IndexOf(items, name)
  {
    indexByName := map[];
    for i := 0 to |items|
      invariant forall name :: name in indexByName <==> IndexOf(items[..i], name) >= 0
      invariant forall name :: name in indexByName ==> indexByName[name] == IndexOf(items[..i], name)
    {
      assert items[..i + 1][..i] == items[..i];
      indexByName := indexByName[items[i].name := i];
    }
    assert items[..|items|] == items;
  }

  /** Edges of the first `i` items, and of the first `ps` dependencies of item `i`. */
  ghost predicate EdgesUpTo(g: Graph, edges: seq<seq<nat>>, i: nat, ps: seq<nat>) {
    && |edges| == |g|
    && (forall j, x :: 0 <= j < |g| && x in edges[j] ==> x <= i && x < |g|)
    && (forall j :: 0 <= j < |g| ==> Ascending(edges[j]))
    && (forall j, x {:trigger Count(edges[j], x)} :: 0 <= j < |g| && 0 <= x < |g| ==>
          Count(edges[j], x) == if x < i then Count(g[x], j) else if x == i then Count(ps, j) else 0)
  }

  lemma {:induction false} EdgeStep(g: Graph, edges: seq<seq<nat>>, i: nat, ps: seq<nat>, d: nat)
    requires EdgesUpTo(g, edges, i, ps) && d < |g| && i < |g|
    ensures EdgesUpTo(g, edges[d := edges[d] + [i]], i, ps + [d])
  {
    var after := edges[d := edges[d] + [i]];
    forall j | 0 <= j < |g| ensures Ascending(after[j]) {
      forall a | 0 <= a < |edges[d]| ensures edges[d][a] <= i {
        assert edges[d][a] in edges[d];
      }
      assert after[j] == if j == d then edges[d] + [i] else edges[j];
    }
    forall j, x | 0 <= j < |g| && x in after[j] ensures x <= i && x < |g| {
      assert after[j] == if j == d then edges[d] + [i] else edges[j];
      assert x in edges[j] || x == i;
    }
    forall j, x {:trigger Count(after[j], x)} | 0 <= j < |g| && 0 <= x < |g| ensures
      Count(after[j], x) == if x < i then Count(g[x], j) else if x == i then Count(ps + [d], j) else 0
    {
      CountAppend(edges[d], i, x);
      CountAppend(ps, d, j);
      assert after[j] == if j == d then edges[d] + [i] else edges[j];
    }
  }

  lemma {:induction false} EdgesNext(g: Graph, edges: seq<seq<nat>>, i: nat)
    requires i < |g| && EdgesUpTo(g, edges, i, g[i])
    ensures EdgesUpTo(g, edges, i + 1, [])
  {
    forall j, x | 0 <= j < |g| && 0 <= x < |g|
      ensures Count(edges[j], x) == if x < i + 1 then Count(g[x], j) else 0
    {
    }
  }

  lemma {:induction false} EdgesStart(g: Graph, edges: seq<seq<nat>>)
    requires |edges| == |g| && forall j :: 0 <= j < |g| ==> edges[j] == []
    ensures EdgesUpTo(g, edges, 0, [])
  {
  }

  lemma {:induction false} EdgesEnd(g: Graph, edges: seq<seq<nat>>)
    requires EdgesUpTo(g, edges, |g|, [])
    ensures EdgesOf(g, edges)
  {
    forall j, i | 0 <= j < |g| && 0 <= i < |g| ensures Count(edges[j], i) == Count(g[i], j) {
    }
  }

  lemma TargetsEmpty<T>(items: seq<Item<T>>, deps: seq<Dependency>)
    ensures Targets(items, deps[..0]) == []
  {
  }

  lemma TargetsStep<T>(items: seq<Item<T>>, deps: seq<Dependency>, k: nat)
    requires k < |deps|
    ensures var t := IndexOf(items, deps[k].name);
      Targets(items, deps[..k + 1]) == if t >= 0 then Targets(items, deps[..k]) + [t] else Targets(items, deps[..k])
  {
    assert deps[..k + 1][..k] == deps[..k];
  }

  method BuildEdges<T>(items: seq<Item<T>>, inDegree: array<int>, edges: array<seq<nat>>)
    requires inDegree.Length == edges.Length == |items|
    requires forall i :: 0 <= i < |items| ==> inDegree[i] == 0 && edges[i] == []
    modifies inDegree, edges
    ensures EdgesOf(GraphOf(items), edges[..])
    ensures forall i :: 0 <= i < |items| ==> inDegree[i] == |GraphOf(items)[i]|
  {
    hide EdgesUpTo, EdgesOf, Targets, IndexOf;
    ghost var g := GraphOf(items);
    var indexByName := BuildIndex(items);
    EdgesStart(g, edges[..]);
    for i := 0 to |items|
      invariant EdgesUpTo(g, edges[..], i, [])
      invariant forall x :: 0 <= x < |g| ==> inDegree[x] == if x < i then |g[x]| else 0
    {
      var deps := items[i].dependencies;
      TargetsEmpty(items, deps);
      for k := 0 to |deps|
        invariant EdgesUpTo(g, edges[..], i, Targets(items, deps[..k]))
        invariant forall x :: 0 <= x < |g| && x != i ==> inDegree[x] == if x < i then |g[x]| else 0
        invariant inDegree[i] == |Targets(items, deps[..k])|
      {
        TargetsStep(items, deps, k);
        if deps[k].name in indexByName {
          var d := indexByName[deps[k].name];
          EdgeStep(g, edges[..], i, Targets(items, deps[..k]), d);
          ghost var after := edges[..][d := edges[d] + [i]];
          edges[d] := edges[d] + [i];
          assert edges[..] == after;
          inDegree[i] := inDegree[i] + 1;
        }
      }
      assert deps[..|deps|] == deps;
      EdgesNext(g, edges[..], i);
    }
    EdgesEnd(g, edges[..]);
  }

  // ------------------------------------------------------------ the worklist

  /** What the worklist knows after emitting `order`: the queue holds exactly the other nodes whose
      dependencies are all emitted, in the order in which they became ready. */
  ghost predicate Progress(g: Graph, order: seq<nat>, queue: seq<nat>) {
    && Distinct(order + queue)
    && (forall k :: 0 <= k < |order + queue| ==> (order + queue)[k] < |g|)
    && Topological(g, order)
    && Fifo(g, order + queue)
    && (forall i :: 0 <= i < |g| ==> (i in order + queue <==> Pending(g[i], Elements(order)) == 0))
  }

  /** In every state of the worklist the emitted nodes and then the queued ones are served in order. */
  lemma {:induction false} ProgressServes(g: Graph, order: seq<nat>, queue: seq<nat>)
    requires Progress(g, order, queue)
    ensures Served(g, order + queue)
    ensures forall k, p :: 0 <= k < |queue| && queue[k] < |g| && p in g[queue[k]] ==> p in order
  {
    hide Fifo, Distinct;
    var all := order + queue;
    forall a, p | 0 <= a < |all| && p in g[all[a]] ensures Position(all, p) < a && p in order {
      assert all[a] in all;
      assert Pending(g[all[a]], Elements(order)) == 0;
      assert p in order;
      PositionInFront(order, queue, p);
      if a < |order| {
        assert order[a] == all[a];
      }
    }
    forall k, p | 0 <= k < |queue| && queue[k] < |g| && p in g[queue[k]] ensures p in order {
      assert all[|order| + k] == queue[k];
    }
  }

  lemma {:induction false} PositionInFront(order: seq<nat>, queue: seq<nat>, p: nat)
    requires p in order
    ensures Position(order + queue, p) == Position(order, p)
  {
    if order[0] != p {
      assert (order + queue)[1..] == order[1..] + queue;
      PositionInFront(order[1..], queue, p);
    }
  }

  /** In every state of the worklist, also one that ends in a cycle, the queue is sorted by level and spans at
      most two adjacent levels; no emitted node lies above the queue's head. */
  lemma {:induction false} QueueSpansTwoLevels(
    g: Graph, order: seq<nat>, queue: seq<nat>, a: nat, b: nat, levelA: nat, levelB: nat)
    requires Progress(g, order, queue) && a <= b < |queue|
    requires LongestChain(g, queue[a], levelA) && LongestChain(g, queue[b], levelB)
    ensures levelA <= levelB <= levelA + 1
    ensures forall e: nat, level: nat :: e in order && LongestChain(g, e, level) ==> level <= levelA
  {
    hide Progress, Served, LongestChain;
    ProgressServes(g, order, queue);
    var all, n := order + queue, |order|;
    assert all[n + a] == queue[a] && all[n + b] == queue[b];
    LevelsAscend(g, all, n + a, n + b, levelA, levelB);
    forall e: nat, level: nat | e in order && LongestChain(g, e, level) ensures level <= levelA {
      var k :| 0 <= k < n && order[k] == e;
      assert all[k] == e;
      LevelsAscend(g, all, k, n + a, level, levelA);
    }
    if levelB > levelA + 1 {
      NeedReachesHead(g, order, queue, a, b, levelA, levelB);
    }
  }

  /** What a queued node needs was emitted, so its chains are carried by everything queued. */
  lemma {:induction false} NeedReachesHead(
    g: Graph, order: seq<nat>, queue: seq<nat>, a: nat, b: nat, levelA: nat, levelB: nat)
    requires Progress(g, order, queue) && a <= b < |queue|
    requires LongestChain(g, queue[a], levelA) && LongestChain(g, queue[b], levelB)
    ensures levelB <= levelA + 1
  {
    hide Progress, Served;
    ProgressServes(g, order, queue);
    var all := order + queue;
    if levelB > levelA + 1 {
      var p := ChainStep(g, queue[b], levelB - 1);
      PositionInFront(order, queue, p);
      assert all[Position(all, p)] == p && all[|order| + a] == queue[a];
      ChainsAscend(g, all, Position(all, p), |order| + a, levelB - 1);
      ChainPrefix(g, queue[a], levelB - 1, levelA + 1);
      assert false;
    }
  }

  /** The same while `c` is being processed and the dependents in `seen` have been told. */
  ghost predicate Releasing(g: Graph, emitted: seq<nat>, c: nat, queue: seq<nat>, seen: seq<nat>) {
    && c in emitted
    && Distinct(emitted + queue)
    && (forall k :: 0 <= k < |emitted + queue| ==> (emitted + queue)[k] < |g|)
    && Topological(g, emitted)
    && Fifo(g, emitted + queue)
    && (forall i, p :: i in emitted + queue && i < |g| && p in g[i] ==> p in emitted)
    && (forall i :: i in emitted + queue && i < |g| && c in g[i] ==> i in seen)
  }

  lemma {:induction false} ReleaseStart(g: Graph, order: seq<nat>, c: nat, queue: seq<nat>)
    requires Progress(g, order, [c] + queue)
    ensures Releasing(g, order + [c], c, queue, [])
  {
    var s := order + ([c] + queue);
    assert order + [c] + queue == s;
    assert s[|order|] == c;
    assert c !in order by {
      forall k | 0 <= k < |order| ensures order[k] != c { assert s[k] == order[k]; }
    }
    forall i, p | i in s && i < |g| && p in g[i] ensures p in order && p != c {
      assert p in Elements(order);
    }
    forall a, p | 0 <= a < |order + [c]| && (order + [c])[a] < |g| && p in g[(order + [c])[a]]
      ensures Position(order + [c], p) < a
    {
      assert (order + [c])[a] == s[a];
      PositionAppend(order, c, p);
    }
  }

  /** Nodes whose needs lie in `emitted` became ready by now, and just now if they need the last one. */
  lemma {:induction false} ReadyTime(emitted: seq<nat>, queue: seq<nat>, ps: seq<nat>, c: nat)
    requires emitted != [] && c == emitted[|emitted| - 1]
    requires Distinct(emitted + queue)
    requires forall p :: p in ps ==> p in emitted
    ensures ReadyAt(ps, emitted + queue) <= |emitted|
    ensures c in ps <==> ReadyAt(ps, emitted + queue) == |emitted|
  {
    hide Distinct, Position;
    var s, n := emitted + queue, |emitted|;
    forall k | 0 <= k < n ensures Position(s, emitted[k]) == k {
      assert s[k] == emitted[k];
      PositionUnique(s, k);
    }
    forall p | p in ps ensures Position(s, p) < n && (Position(s, p) == n - 1 ==> p == c) {
      var k :| 0 <= k < n && emitted[k] == p;
    }
  }

  /** An old entry still precedes another old entry when `x` is appended. */
  lemma {:induction false} KeepsPlace(g: Graph, s: seq<nat>, x: nat, i: nat, j: nat)
    requires i < |g| && j < |g| && FifoBefore(g, s, i, j)
    requires forall p :: p in g[i] ==> p in s
    requires forall p :: p in g[j] ==> p in s
    ensures FifoBefore(g, s + [x], i, j)
  {
    ReadyAtAppend(g[i], s, x);
    ReadyAtAppend(g[j], s, x);
  }

  /** An old entry precedes the new one: it was ready earlier, or is a smaller dependent of `c`. */
  lemma {:induction false} PushedLast(g: Graph, emitted: seq<nat>, c: nat, queue: seq<nat>, x: nat, i: nat)
    requires emitted != [] && c == emitted[|emitted| - 1] && Distinct(emitted + queue)
    requires i < |g| && x < |g|
    requires c in g[x] && forall p :: p in g[x] ==> p in emitted
    requires forall p :: p in g[i] ==> p in emitted
    requires c in g[i] ==> i < x
    ensures FifoBefore(g, emitted + queue + [x], i, x)
  {
    ReadyTime(emitted, queue, g[i], c);
    ReadyTime(emitted, queue, g[x], c);
    ReadyAtAppend(g[i], emitted + queue, x);
    ReadyAtAppend(g[x], emitted + queue, x);
  }

  lemma {:induction false} ReleasePush(g: Graph, emitted: seq<nat>, c: nat, queue: seq<nat>, seen: seq<nat>, x: nat)
    requires emitted != [] && c == emitted[|emitted| - 1]
    requires Releasing(g, emitted, c, queue, seen)
    requires x < |g| && x !in emitted + queue
    requires c in g[x] && forall p :: p in g[x] ==> p in emitted
    requires Ascending(seen + [x])
    ensures Releasing(g, emitted, c, queue + [x], seen + [x])
  {
    var s := emitted + queue;
    assert emitted + (queue + [x]) == s + [x];
    assert Fifo(g, s + [x]) by {
      forall a, b | 0 <= a < b < |s + [x]|
        ensures FifoBefore(g, s + [x], (s + [x])[a], (s + [x])[b])
      {
        var i := s[a];
        assert i in s && i != x;
        if b < |s| {
          assert s[b] in s;
          assert FifoBefore(g, s, i, s[b]);
          KeepsPlace(g, s, x, i, s[b]);
        } else {
          if c in g[i] {
            var m :| 0 <= m < |seen| && seen[m] == i;
            assert (seen + [x])[m] <= (seen + [x])[|seen|];
          }
          PushedLast(g, emitted, c, queue, x, i);
        }
      }
    }
  }

  lemma {:induction false} OrderWithinGraph(order: seq<nat>, n: nat)
    requires Distinct(order) && forall k :: 0 <= k < |order| ==> order[k] < n
    ensures |order| <= n
  {
    if |order| > n { Pigeonhole(order, n); }
  }

  lemma {:induction false} Unfinished(order: seq<nat>, n: nat) returns (start: nat)
    requires Distinct(order) && |order| < n
    ensures start < n && start !in order
  {
    if forall i :: 0 <= i < n ==> i in Elements(order) {
      DistinctSize(order);
      FullSetSize(Elements(order), n);
      assert false;
    }
    start :| start < n && start !in Elements(order);
  }

  lemma {:induction false} RestIsStuck(g: Graph, order: seq<nat>)
    requires forall i :: 0 <= i < |g| ==> (i in order <==> Pending(g[i], Elements(order)) == 0)
    ensures AllStuck(g, Elements(order))
  {
  }

  /** With an empty queue, either everything was emitted or the rest contains a cycle. */
  lemma {:induction false} WorklistVerdict(g: Graph, order: seq<nat>)
    requires Progress(g, order, [])
    ensures |order| <= |g|
    ensures |order| == |g| ==> KahnOrder(g, order) && Acyclic(g)
    ensures |order| < |g| ==> !Acyclic(g)
  {
    hide Acyclic, AllStuck, Elements;
    assert order + [] == order;
    OrderWithinGraph(order, |g|);
    if |order| == |g| {
      TopologicalAcyclic(g, order);
    } else {
      var start := Unfinished(order, |g|);
      RestIsStuck(g, order);
      StuckFromOrder(g, order, start);
    }
  }

  lemma {:induction false} StuckFromOrder(g: Graph, order: seq<nat>, start: nat)
    requires AllStuck(g, Elements(order)) && start < |g| && start !in order
    ensures !Acyclic(g)
  {
    hide Acyclic, AllStuck;
    StuckHasCycle(g, Elements(order), start);
  }

  lemma {:induction false} FullSetSize(s: set<nat>, n: nat)
    requires forall i :: 0 <= i < n ==> i in s
    ensures |s| >= n
  {
    if n > 0 {
      FullSetSize(s - {n - 1}, n - 1);
    }
  }

  lemma {:induction false} HeadFits(g: Graph, order: seq<nat>, queue: seq<nat>)
    requires Progress(g, order, queue) && queue != []
    ensures queue[0] < |g| && |order| < |g|
  {
    assert (order + queue)[|order|] == queue[0];
    forall k | 0 <= k < |order + [queue[0]]| ensures (order + [queue[0]])[k] == (order + queue)[k] {
    }
    OrderWithinGraph(order + [queue[0]], |g|);
  }

  lemma {:induction false} InitialProgress(g: Graph, queue: seq<nat>)
    requires forall k :: 0 <= k < |queue| ==> queue[k] < |g| && g[queue[k]] == []
    requires forall a, b :: 0 <= a < b < |queue| ==> queue[a] < queue[b]
    requires forall j :: 0 <= j < |g| && g[j] == [] ==> j in queue
    ensures Progress(g, [], queue)
    ensures forall i :: 0 <= i < |g| ==> Pending(g[i], Elements([])) == |g[i]|
  {
    assert [] + queue == queue && Elements([]) == {};
    forall i | 0 <= i < |g| ensures Pending(g[i], Elements([])) == |g[i]| {
      PendingNone(g[i]);
    }
    forall a, b | 0 <= a < b < |queue| ensures FifoBefore(g, queue, queue[a], queue[b]) {
    }
  }

  method InitialQueue(ghost g: Graph, inDegree: array<int>) returns (queue: seq<nat>)
    requires inDegree.Length == |g|
    requires forall i :: 0 <= i < |g| ==> inDegree[i] == |g[i]|
    ensures Progress(g, [], queue)
    ensures forall i :: 0 <= i < |g| ==> inDegree[i] == Pending(g[i], Elements([]))
  {
    hide Progress;
    queue := [];
    for i := 0 to inDegree.Length
      invariant forall k :: 0 <= k < |queue| ==> queue[k] < i && g[queue[k]] == []
      invariant forall a, b :: 0 <= a < b < |queue| ==> queue[a] < queue[b]
      invariant forall j :: 0 <= j < i && g[j] == [] ==> j in queue
    {
      if inDegree[i] == 0 {
        queue := queue + [i];
      }
    }
    InitialProgress(g, queue);
  }

  lemma {:induction false} ReleaseSeen(g: Graph, emitted: seq<nat>, c: nat, queue: seq<nat>, seen: seq<nat>, x: nat)
    requires Releasing(g, emitted, c, queue, seen)
    ensures Releasing(g, emitted, c, queue, seen + [x])
  {
  }

  /** `targets` names every dependent of `c`, once per dependency, in item order. */
  ghost predicate Dependents(g: Graph, c: nat, targets: seq<nat>) {
    && Ascending(targets)
    && (forall x :: x in targets ==> x < |g|)
    && (forall i :: 0 <= i < |g| ==> Count(targets, i) == Count(g[i], c))
  }

  ghost predicate Told(g: Graph, order: seq<nat>, c: nat, rest: seq<nat>, seen: seq<nat>, degree: seq<int>) {
    && |degree| == |g|
    && Releasing(g, order + [c], c, rest, seen)
    && (forall i :: 0 <= i < |g| ==> degree[i] == Pending(g[i], Elements(order)) - Count(seen, i))
    && (forall i :: 0 <= i < |g| ==> (i in order + [c] + rest <==> degree[i] == 0))
  }

  lemma {:induction false} PendingAfter(g: Graph, order: seq<nat>, c: nat, targets: seq<nat>, i: nat)
    requires Dependents(g, c, targets) && c !in order && i < |g|
    ensures Pending(g[i], Elements(order + [c])) == Pending(g[i], Elements(order)) - Count(targets, i)
  {
    assert Elements(order + [c]) == Elements(order) + {c};
    PendingAdd(g[i], Elements(order), c);
  }

  lemma {:induction false} TellStart(g: Graph, order: seq<nat>, c: nat, rest: seq<nat>, degree: seq<int>)
    requires Progress(g, order, [c] + rest)
    requires |degree| == |g| && forall i :: 0 <= i < |g| ==> degree[i] == Pending(g[i], Elements(order))
    ensures Told(g, order, c, rest, [], degree)
    ensures c !in order
  {
    ReleaseStart(g, order, c, rest);
    assert order + ([c] + rest) == order + [c] + rest;
    forall k | 0 <= k < |order| ensures order[k] != c {
      assert (order + ([c] + rest))[k] == order[k] && (order + ([c] + rest))[|order|] == c;
    }
  }

  /** What telling the `k`-th dependent does to the counts. */
  lemma {:induction false} TellCounts(g: Graph, order: seq<nat>, c: nat, rest: seq<nat>, targets: seq<nat>, k: nat,
    degree: seq<int>)
    requires Dependents(g, c, targets) && k < |targets| && c !in order
    requires Told(g, order, c, rest, targets[..k], degree)
    ensures targets[k] < |degree| && degree[targets[k]] >= 1 && c in g[targets[k]]
    ensures degree[targets[k]] == 1 ==> forall p :: p in g[targets[k]] ==> p in order + [c]
    ensures forall i :: 0 <= i < |g| ==>
      Count(targets[..k + 1], i) == Count(targets[..k], i) + if targets[k] == i then 1 else 0
  {
    var next := targets[k];
    assert next in targets;
    forall i | 0 <= i < |g| ensures
      Count(targets[..k + 1], i) == Count(targets[..k], i) + if next == i then 1 else 0
    {
      CountPrefix(targets, k, i);
    }
    PendingAfter(g, order, c, targets, next);
    CountPrefix(targets, k + 1, next);
    assert Count(g[next], c) > 0;
    if degree[next] == 1 {
      assert forall p :: p in g[next] ==> p in Elements(order + [c]);
    }
  }

  lemma AscendingPrefix(s: seq<nat>, n: nat)
    requires Ascending(s) && n <= |s|
    ensures Ascending(s[..n])
  {
  }

  lemma {:induction false} TellStep(g: Graph, order: seq<nat>, c: nat, rest: seq<nat>, targets: seq<nat>, k: nat,
    degree: seq<int>)
    returns (rest': seq<nat>)
    requires Dependents(g, c, targets) && k < |targets| && c !in order
    requires Told(g, order, c, rest, targets[..k], degree)
    ensures targets[k] < |degree|
    ensures rest' == if degree[targets[k]] == 1 then rest + [targets[k]] else rest
    ensures Told(g, order, c, rest', targets[..k + 1], degree[targets[k] := degree[targets[k]] - 1])
  {
    hide Releasing, Pending, Count, Elements, Ascending;
    var next := targets[k];
    TellCounts(g, order, c, rest, targets, k, degree);
    AscendingPrefix(targets, k + 1);
    assert targets[..k + 1] == targets[..k] + [next];
    if degree[next] == 1 {
      rest' := rest + [next];
      ReleasePush(g, order + [c], c, rest, targets[..k], next);
      assert order + [c] + rest' == order + [c] + rest + [next];
    } else {
      rest' := rest;
      ReleaseSeen(g, order + [c], c, rest, targets[..k], next);
    }
  }

  lemma {:induction false} TellEnd(g: Graph, order: seq<nat>, c: nat, queue: seq<nat>, seen: seq<nat>, degree: seq<int>)
    requires Dependents(g, c, seen) && c !in order
    requires Told(g, order, c, queue, seen, degree)
    ensures Progress(g, order + [c], queue)
    ensures forall i :: 0 <= i < |g| ==> degree[i] == Pending(g[i], Elements(order + [c]))
  {
    forall i | 0 <= i < |g| ensures degree[i] == Pending(g[i], Elements(order + [c])) {
      PendingAfter(g, order, c, seen, i);
    }
  }

  /** Emits the head of the queue: tells its dependents and queues those that became ready. */
  method Release(ghost g: Graph, inDegree: array<int>, targets: seq<nat>, ghost order: seq<nat>, queue: seq<nat>)
    returns (rest: seq<nat>)
    requires inDegree.Length == |g| && queue != []
    requires Progress(g, order, queue) && Dependents(g, queue[0], targets)
    requires forall i :: 0 <= i < |g| ==> inDegree[i] == Pending(g[i], Elements(order))
    modifies inDegree
    ensures Progress(g, order + [queue[0]], rest)
    ensures forall i :: 0 <= i < |g| ==> inDegree[i] == Pending(g[i], Elements(order + [queue[0]]))
  {
    hide Told, Progress, Releasing, Dependents;
    ghost var c := queue[0];
    rest := queue[1..];
    assert queue == [c] + rest;
    TellStart(g, order, c, rest, inDegree[..]);
    assert targets[..0] == [];
    for k := 0 to |targets|
      invariant Told(g, order, c, rest, targets[..k], inDegree[..])
    {
      var next := targets[k];
      ghost var rest' := TellStep(g, order, c, rest, targets, k, inDegree[..]);
      ghost var degree := inDegree[..][next := inDegree[next] - 1];
      inDegree[next] := inDegree[next] - 1;
      assert inDegree[..] == degree;
      if inDegree[next] == 0 {
        rest := rest + [next];
      }
    }
    assert targets[..|targets|] == targets;
    TellEnd(g, order, c, rest, targets, inDegree[..]);
    forall i | 0 <= i < |g| ensures inDegree[i] == Pending(g[i], Elements(order + [c])) {
      assert inDegree[..][i] == inDegree[i];
    }
  }

  lemma {:induction false} EdgeRow(g: Graph, edges: seq<seq<nat>>, j: nat)
    requires EdgesOf(g, edges) && j < |g|
    ensures Dependents(g, j, edges[j])
  {
  }

  method RunWorklist<T>(items: seq<Item<T>>, inDegree: array<int>, edges: seq<seq<nat>>)
    returns (out: seq<T>)
    requires inDegree.Length == |items|
    requires |edges| == |items| && EdgesOf(GraphOf(items), edges)
    requires forall i :: 0 <= i < |items| ==> inDegree[i] == |GraphOf(items)[i]|
    modifies inDegree
    ensures |out| == |items| <==> Acyclic(GraphOf(items))
    ensures |out| == |items| ==> exists order :: KahnOrder(GraphOf(items), order) && out == Values(items, order)
  {
    hide Progress, EdgesOf, Dependents, KahnOrder, Acyclic, Pending, Elements, GraphOf;
    ghost var g := GraphOf(items);
    ghost var order: seq<nat> := [];
    var queue := InitialQueue(g, inDegree);
    out := [];
    while |queue| > 0
      invariant Progress(g, order, queue)
      invariant |order| <= |g| && forall k :: 0 <= k < |order| ==> order[k] < |items|
      invariant out == Values(items, order)
      invariant forall i :: 0 <= i < |g| ==> inDegree[i] == Pending(g[i], Elements(order))
      decreases |g| - |order|
    {
      var current := queue[0];
      HeadFits(g, order, queue);
      EdgeRow(g, edges, current);
      out := out + [items[current].value];
      queue := Release(g, inDegree, edges[current], order, queue);
      order := order + [current];
    }
    assert queue == [];
    WorklistVerdict(g, order);
  }

  /** Dependencies first; fails exactly when the present dependencies form a cycle. */
  method SortDependencyItems<T>(items: seq<Item<T>>) returns (r: Result<seq<T>, DependencyError>)
    ensures r.Ok? <==> Acyclic(GraphOf(items))
    ensures r.Err? ==> r.error == Cycle
    ensures r.Ok? ==> exists order :: KahnOrder(GraphOf(items), order) && r.value == Values(items, order)
  {
    if |items| == 0 {
      assert KahnOrder(GraphOf(items), []) && Values(items, []) == [];
      TopologicalAcyclic(GraphOf(items), []);
      return Ok([]);
    }
    var inDegree := new int[|items|](_ => 0);
    var edges := new seq<nat>[|items|](_ => []);
    BuildEdges(items, inDegree, edges);
    var out := RunWorklist(items, inDegree, edges[..]);
    if |out| != |items| {
      return Err(Cycle);
    }
    return Ok(out);
  }
}
