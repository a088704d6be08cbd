/** Finite directed graphs given by predecessor lists, and the order in which a FIFO
    worklist (Kahn's algorithm) emits their nodes. Node `i` depends on the nodes in `g[i]`. */
module DependencyGraph {
  type Graph = g: seq<seq<nat>> | forall i, p :: 0 <= i < |g| && p in g[i] ==> p < |g|

  /** Each node of `p` depends on the next one. */
  ghost predicate IsPath(g: Graph, p: seq<nat>) {
    && p != []
    && (forall k :: 0 <= k < |p| ==> p[k] < |g|)
    && (forall j, k :: 0 <= j < |p| - 1 && k == j + 1 ==> p[k] in g[p[j]])
  }

  ghost predicate IsCycle(g: Graph, p: seq<nat>) {
    IsPath(g, p) && |p| >= 2 && p[0] == p[|p| - 1]
  }

  ghost predicate Acyclic(g: Graph) {
    !exists p :: IsCycle(g, p)
  }

  /** A chain of `len` dependencies starts at `i`. */
  ghost predicate HasChain(g: Graph, i: nat, len: nat) {
    exists p :: IsPath(g, p) && p[0] == i && |p| == len + 1
  }

  ghost predicate LongestChain(g: Graph, i: nat, len: nat) {
    HasChain(g, i, len) && !HasChain(g, i, len + 1)
  }

  ghost predicate Distinct<T>(s: seq<T>) {
    forall a, b :: 0 <= a < b < |s| ==> s[a] != s[b]
  }

  ghost predicate IsPermutation(order: seq<nat>, n: nat) {
    |order| == n && Distinct(order) && forall k :: 0 <= k < n ==> order[k] < n
  }

  /** Everything a node depends on comes before it. */
  ghost predicate Topological(g: Graph, order: seq<nat>) {
    forall a, p :: 0 <= a < |order| && order[a] < |g| && p in g[order[a]] ==> Position(order, p) < a
  }

  /** The position of `x`, or `|order|` when it is absent. */
  ghost function Position<T>(order: seq<T>, x: T): (k: nat)
    ensures k <= |order|
    ensures k < |order| <==> x in order
    ensures k < |order| ==> order[k] == x
    ensures forall j :: 0 <= j < k ==> order[j] != x
  {
    if order == [] then 0 else if order[0] == x then 0 else 1 + Position(order[1..], x)
  }

  /** How many nodes had been emitted when the last of `ps` was. */
  ghost function ReadyAt(ps: seq<nat>, order: seq<nat>): (t: nat)
    ensures ps == [] ==> t == 0
    ensures forall p :: p in ps ==> Position(order, p) < t
    ensures t > 0 ==> exists p :: p in ps && Position(order, p) == t - 1
  {
    if ps == [] then 0
    else
      var t := ReadyAt(ps[1..], order);
      if Position(order, ps[0]) + 1 > t then Position(order, ps[0]) + 1 else t
  }

  /** A FIFO worklist serves nodes by the moment they became ready, ties by index. */
  ghost predicate FifoBefore(g: Graph, order: seq<nat>, i: nat, j: nat)
    requires i < |g| && j < |g|
  {
    var s, t := ReadyAt(g[i], order), ReadyAt(g[j], order);
    s < t || (s == t && i < j)
  }

  ghost predicate Fifo(g: Graph, order: seq<nat>)
    requires forall k :: 0 <= k < |order| ==> order[k] < |g|
  {
    forall a, b {:trigger FifoBefore(g, order, order[a], order[b])} ::
      0 <= a < b < |order| ==> FifoBefore(g, order, order[a], order[b])
  }

  /** The complete description of the worklist's output. */
  ghost predicate KahnOrder(g: Graph, order: seq<nat>) {
    IsPermutation(order, |g|) && Topological(g, order) && Fifo(g, order)
  }

  /** What a worklist has served so far, whether or not it will ever serve everything. */
  ghost predicate Served(g: Graph, order: seq<nat>) {
    && Distinct(order)
    && (forall k :: 0 <= k < |order| ==> order[k] < |g|)
    && Topological(g, order)
    && Fifo(g, order)
  }

  // ---------------------------------------------------------------- positions

  lemma {:induction false} PositionUnique(order: seq<nat>, k: nat)
    requires k < |order| && Distinct(order)
    ensures Position(order, order[k]) == k
  {
    var j := Position(order, order[k]);
    assert order[j] == order[k];
  }

  lemma {:induction false} PositionAppend(order: seq<nat>, c: nat, x: nat)
    requires x in order
    ensures Position(order + [c], x) == Position(order, x)
  {
    if order[0] != x {
      assert x in order[1..];
      assert (order + [c])[1..] == order[1..] + [c];
      PositionAppend(order[1..], c, x);
    }
  }

  lemma {:induction false} ReadyAtAppend(ps: seq<nat>, order: seq<nat>, c: nat)
    requires forall p :: p in ps ==> p in order
    ensures ReadyAt(ps, order + [c]) == ReadyAt(ps, order) <= |order|
  {
    if ps != [] {
      PositionAppend(order, c, ps[0]);
      ReadyAtAppend(ps[1..], order, c);
    }
  }

  // ------------------------------------------------------- cycles and pigeons

  lemma {:induction false} RangeSize(s: set<nat>, n: nat)
    requires forall x :: x in s ==> x < n
    ensures |s| <= n
  {
    if n == 0 {
      assert s == {};
    } else {
      RangeSize(s - {n - 1}, n - 1);
    }
  }

  ghost function Elements(p: seq<nat>): set<nat> {
    set x | x in p
  }

  lemma {:induction false} DistinctSize(p: seq<nat>)
    requires Distinct(p)
    ensures |Elements(p)| == |p|
  {
    if p != [] {
      var q, last := p[..|p| - 1], p[|p| - 1];
      DistinctSize(q);
      assert Elements(p) == Elements(q) + {last};
      assert last !in Elements(q);
    }
  }

  lemma {:induction false} Pigeonhole(p: seq<nat>, n: nat)
    requires |p| > n && forall k :: 0 <= k < |p| ==> p[k] < n
    ensures !Distinct(p)
  {
    if Distinct(p) {
      DistinctSize(p);
      RangeSize(Elements(p), n);
    }
  }

  /** A full-length list of distinct nodes contains every node. */
  lemma {:induction false} PermutationCovers(order: seq<nat>, n: nat, x: nat)
    requires IsPermutation(order, n) && x < n
    ensures x in order
  {
    if x !in order {
      Pigeonhole(order + [x], n);
    }
  }

  lemma {:induction false} LongPathHasCycle(g: Graph, p: seq<nat>)
    requires IsPath(g, p) && |p| > |g|
    ensures !Acyclic(g)
  {
    Pigeonhole(p, |g|);
    var a, b :| 0 <= a < b < |p| && p[a] == p[b];
    var c := p[a..b + 1];
    assert IsPath(g, c) by {
      forall j, k | 0 <= j < |c| - 1 && k == j + 1 ensures c[k] in g[c[j]] {
        assert p[a + k] in g[p[a + j]];
      }
    }
    assert IsCycle(g, c);
  }

  /** Every node outside `done` depends on a node outside `done`. */
  ghost predicate AllStuck(g: Graph, done: set<nat>) {
    forall i {:trigger g[i]} :: 0 <= i < |g| && i !in done ==> exists q :: q in g[i] && q !in done
  }

  /** Nodes that each keep an unfinished predecessor carry walks of every length. */
  lemma {:induction false} StuckWalk(g: Graph, done: set<nat>, start: nat, len: nat) returns (p: seq<nat>)
    requires start < |g| && start !in done
    requires AllStuck(g, done)
    ensures IsPath(g, p) && |p| == len + 1 && p[len] !in done
    decreases len
  {
    if len == 0 {
      p := [start];
    } else {
      var q := StuckWalk(g, done, start, len - 1);
      var next :| next in g[q[len - 1]] && next !in done;
      p := q + [next];
    }
  }

  lemma {:induction false} StuckHasCycle(g: Graph, done: set<nat>, start: nat)
    requires start < |g| && start !in done
    requires AllStuck(g, done)
    ensures !Acyclic(g)
  {
    var p := StuckWalk(g, done, start, |g|);
    LongPathHasCycle(g, p);
  }

  /** A rank that falls along every dependency rules out cycles. */
  lemma {:induction false} RankedAcyclic(g: Graph, rank: seq<nat>)
    requires |rank| == |g|
    requires forall i, p :: 0 <= i < |g| && p in g[i] ==> rank[p] < rank[i]
    ensures Acyclic(g)
  {
    if c :| IsCycle(g, c) {
      RankFalls(g, rank, c, |c| - 1);
      assert false;
    }
  }

  lemma {:induction false} RankFalls(g: Graph, rank: seq<nat>, p: seq<nat>, k: nat)
    requires |rank| == |g|
    requires forall i, q :: 0 <= i < |g| && q in g[i] ==> rank[q] < rank[i]
    requires IsPath(g, p) && k < |p|
    ensures rank[p[k]] + k <= rank[p[0]]
  {
    if k > 0 {
      RankFalls(g, rank, p, k - 1);
      assert p[k] in g[p[k - 1]];
    }
  }

  lemma {:induction false} TopologicalAcyclic(g: Graph, order: seq<nat>)
    requires IsPermutation(order, |g|) && Topological(g, order)
    ensures Acyclic(g)
  {
    var rank := seq(|g|, i => Position(order, i));
    forall i, p | 0 <= i < |g| && p in g[i] ensures rank[p] < rank[i] {
      PermutationCovers(order, |g|, i);
      var a := Position(order, i);
      assert order[a] == i && p in g[order[a]];
      assert rank[p] == Position(order, p) && rank[i] == a;
    }
    RankedAcyclic(g, rank);
  }

  // ------------------------------------------------------------------- levels

  lemma {:induction false} ChainStep(g: Graph, i: nat, len: nat) returns (p: nat)
    requires i < |g| && HasChain(g, i, len + 1)
    ensures p in g[i] && HasChain(g, p, len)
  {
    var c :| IsPath(g, c) && c[0] == i && |c| == len + 2;
    p := c[1];
    var d := c[1..];
    assert IsPath(g, d) by {
      forall j, k | 0 <= j < |d| - 1 && k == j + 1 ensures d[k] in g[d[j]] {
        assert c[k + 1] in g[c[k]];
      }
    }
    assert d[0] == p;
  }

  lemma {:induction false} ChainExtend(g: Graph, i: nat, p: nat, len: nat)
    requires i < |g| && p in g[i] && HasChain(g, p, len)
    ensures HasChain(g, i, len + 1)
  {
    var d :| IsPath(g, d) && d[0] == p && |d| == len + 1;
    var c := [i] + d;
    assert IsPath(g, c);
    assert c[0] == i;
  }

  lemma {:induction false} ChainPrefix(g: Graph, i: nat, len: nat, shorter: nat)
    requires HasChain(g, i, len) && shorter <= len
    ensures HasChain(g, i, shorter)
  {
    var c :| IsPath(g, c) && c[0] == i && |c| == len + 1;
    var d := c[..shorter + 1];
    assert IsPath(g, d) && d[0] == i;
  }

  /** The last thing a later node waited for came no earlier than anything an earlier node needs. */
  lemma {:induction false} LatestNeed(g: Graph, order: seq<nat>, a: nat, b: nat, p: nat) returns (q: nat)
    requires Served(g, order) && a < b < |order| && p in g[order[a]]
    ensures q in g[order[b]] && Position(order, p) <= Position(order, q) < b
  {
    assert FifoBefore(g, order, order[a], order[b]);
    var t := ReadyAt(g[order[b]], order);
    assert Position(order, p) < ReadyAt(g[order[a]], order) <= t;
    q :| q in g[order[b]] && Position(order, q) == t - 1;
  }

  /** A node emitted later carries every chain length of a node emitted earlier. */
  lemma {:induction false} ChainsAscend(g: Graph, order: seq<nat>, a: nat, b: nat, len: nat)
    requires Served(g, order) && a <= b < |order|
    requires HasChain(g, order[a], len)
    ensures HasChain(g, order[b], len)
    decreases len
  {
    var i, j := order[a], order[b];
    if len == 0 {
      assert IsPath(g, [j]) && [j][0] == j;
    } else if a < b {
      var p := ChainStep(g, i, len - 1);
      var q := LatestNeed(g, order, a, b, p);
      ChainsAscend(g, order, Position(order, p), Position(order, q), len - 1);
      ChainExtend(g, j, q, len - 1);
    }
  }

  /** The worklist emits nodes in non-decreasing length of their longest dependency chain. */
  lemma {:induction false} LevelsAscend(g: Graph, order: seq<nat>, a: nat, b: nat, levelA: nat, levelB: nat)
    requires Served(g, order) && a <= b < |order|
    requires LongestChain(g, order[a], levelA) && LongestChain(g, order[b], levelB)
    ensures levelA <= levelB
  {
    if levelA > levelB {
      ChainsAscend(g, order, a, b, levelA);
      ChainPrefix(g, order[b], levelA, levelB + 1);
      assert false;
    }
  }

  /** A served node has no chain longer than the number of nodes served before it. */
  lemma {:induction false} ChainFits(g: Graph, order: seq<nat>, a: nat, len: nat)
    requires Served(g, order) && a < |order| && HasChain(g, order[a], len)
    ensures len <= a
    decreases len
  {
    if len > 0 {
      var p := ChainStep(g, order[a], len - 1);
      assert Position(order, p) < a;
      ChainFits(g, order, Position(order, p), len - 1);
    }
  }

  /** Every served node has a longest chain, even when others lie on a cycle. */
  lemma {:induction false} ServedLevel(g: Graph, order: seq<nat>, a: nat) returns (level: nat)
    requires Served(g, order) && a < |order|
    ensures LongestChain(g, order[a], level) && level <= a
  {
    level := 0;
    assert IsPath(g, [order[a]]) && [order[a]][0] == order[a];
    while HasChain(g, order[a], level + 1)
      invariant HasChain(g, order[a], level) && level <= a
      decreases a - level
    {
      ChainFits(g, order, a, level + 1);
      level := level + 1;
    }
  }

  /** In an acyclic graph every node has a longest chain, shorter than the number of nodes. */
  lemma {:induction false} LevelExists(g: Graph, i: nat) returns (level: nat)
    requires Acyclic(g) && i < |g|
    ensures LongestChain(g, i, level) && level < |g|
  {
    level := 0;
    assert IsPath(g, [i]) && [i][0] == i;
    while HasChain(g, i, level + 1)
      invariant HasChain(g, i, level)
      invariant level < |g|
      decreases |g| - level
    {
      var c :| IsPath(g, c) && c[0] == i && |c| == level + 2;
      if |c| > |g| {
        LongPathHasCycle(g, c);
      }
      level := level + 1;
    }
  }

  // --------------------------------------------------------------- uniqueness

  lemma {:induction false} PositionPrefix(order: seq<nat>, other: seq<nat>, k: nat, x: nat)
    requires k <= |order| && k <= |other| && order[..k] == other[..k]
    requires Position(order, x) < k
    ensures Position(order, x) == Position(other, x)
  {
    forall m | 0 <= m < k ensures order[m] == other[m] {
      assert order[..k][m] == other[..k][m];
    }
  }

  lemma {:induction false} ReadyAtPrefix(ps: seq<nat>, order: seq<nat>, other: seq<nat>, k: nat)
    requires k <= |order| && k <= |other| && order[..k] == other[..k]
    requires forall p :: p in ps ==> Position(order, p) < k
    ensures ReadyAt(ps, order) == ReadyAt(ps, other)
  {
    if ps != [] {
      PositionPrefix(order, other, k, ps[0]);
      ReadyAtPrefix(ps[1..], order, other, k);
    }
  }

  /** A node that is still missing from the first `k` was not served before the one at `k`. */
  lemma {:induction false} NextServed(g: Graph, order: seq<nat>, k: nat, j: nat)
    requires KahnOrder(g, order) && k < |order|
    requires j < |g| && j !in order[..k] && j != order[k]
    ensures FifoBefore(g, order, order[k], j)
  {
    hide FifoBefore, Topological;
    PermutationCovers(order, |g|, j);
    var m := Position(order, j);
    assert m >= k by {
      forall m' | 0 <= m' < k ensures order[m'] != j {
        assert order[..k][m'] in order[..k];
      }
    }
    assert FifoBefore(g, order, order[k], order[m]);
  }

  lemma {:induction false} AgreeNext(g: Graph, o1: seq<nat>, o2: seq<nat>, k: nat)
    requires KahnOrder(g, o1) && KahnOrder(g, o2) && k < |g|
    requires o1[..k] == o2[..k]
    ensures o1[k] == o2[k]
  {
    var x, y := o1[k], o2[k];
    if x != y {
      assert y !in o1[..k] && x !in o2[..k];
      NextServed(g, o1, k, y);
      NextServed(g, o2, k, x);
      ReadyAtPrefix(g[x], o1, o2, k);
      ReadyAtPrefix(g[y], o2, o1, k);
      assert false;
    }
  }

  lemma {:induction false} KahnPrefixUnique(g: Graph, o1: seq<nat>, o2: seq<nat>, k: nat)
    requires KahnOrder(g, o1) && KahnOrder(g, o2) && k <= |g|
    ensures o1[..k] == o2[..k]
  {
    if k > 0 {
      KahnPrefixUnique(g, o1, o2, k - 1);
      AgreeNext(g, o1, o2, k - 1);
      assert o1[..k] == o1[..k - 1] + [o1[k - 1]];
      assert o2[..k] == o2[..k - 1] + [o2[k - 1]];
    }
  }

  /** The description leaves exactly one output. */
  lemma {:induction false} KahnOrderUnique(g: Graph, o1: seq<nat>, o2: seq<nat>)
    requires KahnOrder(g, o1) && KahnOrder(g, o2)
    ensures o1 == o2
  {
    KahnPrefixUnique(g, o1, o2, |g|);
    assert o1[..|g|] == o1 && o2[..|g|] == o2;
  }
}
