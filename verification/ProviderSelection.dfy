/** Validating dependency lists, and choosing the providers one run needs. */
module ProviderSelection {
  import opened Prelude
  import opened DependencyGraph
  import opened DependencySort

  /** A capability or a provider, as far as ordering is concerned. */
  datatype Component = Component(name: string, dependencies: seq<Dependency>)

  // ------------------------------------------------------------- validation

  ghost predicate ValidEntry(deps: seq<Dependency>, targets: set<string>, k: nat)
    requires k < |deps|
  {
    && deps[k].name != ""
    && (forall j :: 0 <= j < k ==> deps[j].name != deps[k].name)
    && (deps[k].required ==> deps[k].name in targets)
  }

  ghost predicate ValidList(deps: seq<Dependency>, targets: set<string>) {
    forall k :: 0 <= k < |deps| ==> ValidEntry(deps, targets, k)
  }

  /** The error names the first defect of the first defective entry. */
  ghost predicate FirstDefect(deps: seq<Dependency>, targets: set<string>, e: DependencyError) {
    exists k :: 0 <= k < |deps| && !ValidEntry(deps, targets, k)
      && (forall j :: 0 <= j < k ==> ValidEntry(deps, targets, j))
      && e == if deps[k].name == "" then NameRequired
              else if exists j :: 0 <= j < k && deps[j].name == deps[k].name then Duplicate
              else Missing
  }

  method ValidateDependencyList(deps: seq<Dependency>, targetNames: set<string>)
    returns (err: Option<DependencyError>)
    ensures err.None? <==> ValidList(deps, targetNames)
    ensures err.Some? ==> FirstDefect(deps, targetNames, err.value)
  {
    var seen: set<string> := {};
    for k := 0 to |deps|
      invariant forall j :: 0 <= j < k ==> ValidEntry(deps, targetNames, j)
      invariant forall name :: name in seen <==> exists j :: 0 <= j < k && deps[j].name == name
    {
      var dep := deps[k];
      if dep.name == "" {
        assert !ValidEntry(deps, targetNames, k);
        return Some(NameRequired);
      }
      if dep.name in seen {
        assert !ValidEntry(deps, targetNames, k);
        return Some(Duplicate);
      }
      seen := seen + {dep.name};
      if !dep.required {
        continue;
      }
      if dep.name !in targetNames {
        assert !ValidEntry(deps, targetNames, k);
        return Some(Missing);
      }
    }
    return None;
  }

  // ------------------------------------------------------- from lists to items

  function MakeNameSet(components: seq<Component>): set<string> {
    set c | c in components :: c.name
  }

  function FilterDependencies(deps: seq<Dependency>, keep: set<string>): seq<Dependency> {
    if deps == [] then []
    else
      var front, last := deps[..|deps| - 1], deps[|deps| - 1];
      FilterDependencies(front, keep) + (if last.name in keep then [last] else [])
  }

  function Items(components: seq<Component>): (items: seq<Item<Component>>)
    ensures |items| == |components|
  {
    seq(|components|, i requires 0 <= i < |components| =>
      Item(components[i].name, components[i], components[i].dependencies))
  }

  function FilteredItems(components: seq<Component>, keep: set<string>): (items: seq<Item<Component>>)
    ensures |items| == |components|
  {
    seq(|components|, i requires 0 <= i < |components| =>
      Item(components[i].name, components[i], FilterDependencies(components[i].dependencies, keep)))
  }

  lemma {:induction false} IndexByName<T>(a: seq<Item<T>>, b: seq<Item<T>>, name: string)
    requires |a| == |b| && forall i :: 0 <= i < |a| ==> a[i].name == b[i].name
    ensures IndexOf(a, name) == IndexOf(b, name)
  {
    var x, y := IndexOf(a, name), IndexOf(b, name);
    assert x >= 0 ==> b[x].name == name;
    assert y >= 0 ==> a[y].name == name;
  }

  lemma {:induction false} FilterKeepsTargets(components: seq<Component>, deps: seq<Dependency>, keep: set<string>)
    requires forall c :: c in components ==> c.name in keep
    ensures Targets(FilteredItems(components, keep), FilterDependencies(deps, keep)) == Targets(Items(components), deps)
  {
    if deps != [] {
      var a, b := FilteredItems(components, keep), Items(components);
      var front, last := deps[..|deps| - 1], deps[|deps| - 1];
      FilterKeepsTargets(components, front, keep);
      IndexByName(a, b, last.name);
      var kept := FilterDependencies(front, keep);
      if last.name in keep {
        assert (kept + [last])[..|kept|] == kept;
      } else {
        assert FilterDependencies(deps, keep) == kept;
        assert IndexOf(b, last.name) == -1 by {
          forall i | 0 <= i < |components| ensures b[i].name != last.name {
            assert components[i] in components;
          }
        }
      }
    }
  }

  /** Dropping dependencies on names outside the list leaves the graph as it is. */
  lemma {:induction false} FilterKeepsGraph(components: seq<Component>, keep: set<string>)
    requires forall c :: c in components ==> c.name in keep
    ensures GraphOf(FilteredItems(components, keep)) == GraphOf(Items(components))
  {
    forall i | 0 <= i < |components| ensures
      GraphOf(FilteredItems(components, keep))[i] == GraphOf(Items(components))[i]
    {
      FilterKeepsTargets(components, components[i].dependencies, keep);
    }
  }

  // -------------------------------------------------------- sorting components

  /** `out` is the components in worklist order. */
  ghost predicate Ordered(components: seq<Component>, out: seq<Component>) {
    exists order :: KahnOrder(GraphOf(Items(components)), order) && out == Values(Items(components), order)
  }

  method SortProvidersNoValidate(providers: seq<Component>, providerNames: set<string>)
    returns (r: Result<seq<Component>, DependencyError>)
    requires providerNames == MakeNameSet(providers)
    ensures r.Ok? <==> Acyclic(GraphOf(Items(providers)))
    ensures r.Err? ==> r.error == Cycle
    ensures r.Ok? ==> Ordered(providers, r.value)
  {
    FilterKeepsGraph(providers, providerNames);
    r := SortDependencyItems(FilteredItems(providers, providerNames));
    if r.Ok? {
      ghost var order :| KahnOrder(GraphOf(Items(providers)), order)
        && r.value == Values(FilteredItems(providers, providerNames), order);
      assert r.value == Values(Items(providers), order);
    }
  }

  ghost predicate AllListsValid(components: seq<Component>, targets: set<string>) {
    forall c :: c in components ==> ValidList(c.dependencies, targets)
  }

  ghost predicate FirstBadList(components: seq<Component>, targets: set<string>, e: DependencyError) {
    exists i ::
      && 0 <= i < |components|
      && FirstDefect(components[i].dependencies, targets, e)
      && AllListsValid(components[..i], targets)
  }

  method ValidateAll(components: seq<Component>, targets: set<string>) returns (err: Option<DependencyError>)
    ensures err.None? <==> AllListsValid(components, targets)
    ensures err.Some? ==> FirstBadList(components, targets, err.value)
  {
    for i := 0 to |components|
      invariant AllListsValid(components[..i], targets)
    {
      err := ValidateDependencyList(components[i].dependencies, targets);
      if err.Some? {
        return;
      }
      assert components[..i + 1] == components[..i] + [components[i]];
    }
    assert components[..|components|] == components;
    return None;
  }

  /** What sorting needs: every list validates and nothing depends on itself. */
  ghost predicate Sortable(components: seq<Component>, targets: set<string>) {
    AllListsValid(components, targets) && Acyclic(GraphOf(Items(components)))
  }

  /** The verdict of validating, looking for cycles and sorting: the three outcomes exclude each other. */
  ghost predicate SortVerdict(components: seq<Component>, targets: set<string>,
    r: Result<seq<Component>, DependencyError>)
  {
    match r
    case Ok(out) => Sortable(components, targets) && Ordered(components, out)
    case Err(e) =>
      && !Sortable(components, targets)
      && if AllListsValid(components, targets) then e == Cycle else FirstBadList(components, targets, e)
  }

  /** Validates every list against the known names, checks for cycles, then sorts. */
  method SortProviders(providers: seq<Component>, capabilities: seq<Component>)
    returns (r: Result<seq<Component>, DependencyError>)
    ensures SortVerdict(providers, MakeNameSet(providers) + MakeNameSet(capabilities), r)
  {
    var providerNames := MakeNameSet(providers);
    var err := ValidateAll(providers, providerNames + MakeNameSet(capabilities));
    if err.Some? {
      return Err(err.value);
    }
    r := SortProvidersNoValidate(providers, providerNames);
    if r.Err? {
      return;
    }
    r := SortProvidersNoValidate(providers, providerNames);
  }

  method SortCapabilities(capabilities: seq<Component>) returns (r: Result<seq<Component>, DependencyError>)
    ensures SortVerdict(capabilities, MakeNameSet(capabilities), r)
  {
    var err := ValidateAll(capabilities, MakeNameSet(capabilities));
    if err.Some? {
      return Err(err.value);
    }
    r := SortDependencyItems(Items(capabilities));
    if r.Err? {
      return;
    }
    r := SortDependencyItems(Items(capabilities));
  }

  // -------------------------------------------------- what the order means by name

  ghost predicate UniqueNames(components: seq<Component>) {
    forall i, j :: 0 <= i < j < |components| ==> components[i].name != components[j].name
  }

  /** `a` comes before `b` in the list. */
  ghost predicate Precedes(s: seq<Component>, a: string, b: string) {
    exists i, j :: 0 <= i < j < |s| && s[i].name == a && s[j].name == b
  }

  lemma {:induction false} TargetIsListed<T>(items: seq<Item<T>>, deps: seq<Dependency>, d: Dependency)
    requires d in deps && IndexOf(items, d.name) >= 0
    ensures IndexOf(items, d.name) in Targets(items, deps)
  {
    if deps[|deps| - 1] != d {
      assert d in deps[..|deps| - 1];
      TargetIsListed(items, deps[..|deps| - 1], d);
    }
  }

  lemma {:induction false} TargetHasEntry<T>(items: seq<Item<T>>, deps: seq<Dependency>, t: nat)
    requires t in Targets(items, deps)
    ensures exists d :: d in deps && IndexOf(items, d.name) == t
  {
    var d := deps[|deps| - 1];
    if IndexOf(items, d.name) != t {
      TargetHasEntry(items, deps[..|deps| - 1], t);
    }
  }

  /** Without its entry `n`, a permutation of `n + 1` indices permutes the first `n`. */
  lemma {:induction false} CutPermutation(order: seq<nat>, n: nat, m: nat)
    requires IsPermutation(order, n + 1) && m <= n && order[m] == n
    ensures IsPermutation(order[..m] + order[m + 1..], n)
  {
    var cut := order[..m] + order[m + 1..];
    forall k | 0 <= k < n ensures cut[k] == order[if k < m then k else k + 1] && cut[k] < n {
    }
  }

  lemma CutMultiset<T>(s: seq<T>, m: nat)
    requires m < |s|
    ensures multiset(s) == multiset(s[..m] + s[m + 1..]) + multiset{s[m]}
  {
    assert s == s[..m] + ([s[m]] + s[m + 1..]);
  }

  lemma {:induction false} PermutedMultiset<T>(s: seq<T>, order: seq<nat>, out: seq<T>)
    requires IsPermutation(order, |s|)
    requires |out| == |s| && forall k :: 0 <= k < |s| ==> out[k] == s[order[k]]
    ensures multiset(out) == multiset(s)
  {
    hide Distinct, Position;
    if |s| > 0 {
      var n := |s| - 1;
      PermutationCovers(order, |s|, n);
      var m := Position(order, n);
      CutPermutation(order, n, m);
      PermutedMultiset(s[..n], order[..m] + order[m + 1..], out[..m] + out[m + 1..]);
      CutMultiset(out, m);
      CutMultiset(s, n);
      assert s[..n] + s[n + 1..] == s[..n];
    }
  }

  lemma {:induction false} OrderedIsPermutation(components: seq<Component>, out: seq<Component>)
    requires Ordered(components, out)
    ensures multiset(out) == multiset(components) && MakeNameSet(out) == MakeNameSet(components)
    ensures UniqueNames(components) ==> UniqueNames(out)
  {
    hide Topological, Fifo;
    var items := Items(components);
    var order :| KahnOrder(GraphOf(items), order) && out == Values(items, order);
    PermutedMultiset(components, order, out);
    SameMembers(components, out);
    if UniqueNames(components) {
      forall i, j | 0 <= i < j < |out| ensures out[i].name != out[j].name {
        assert order[i] != order[j];
      }
    }
  }

  lemma SameMembers(components: seq<Component>, out: seq<Component>)
    requires multiset(out) == multiset(components)
    ensures MakeNameSet(out) == MakeNameSet(components)
  {
    assert forall c :: c in out <==> c in multiset(out);
    assert forall c :: c in components <==> c in multiset(components);
  }

  lemma {:induction false} TargetPrecedes(components: seq<Component>, order: seq<nat>, i: nat, t: nat)
    requires KahnOrder(GraphOf(Items(components)), order)
    requires i < |components| && t in GraphOf(Items(components))[i]
    ensures Precedes(Values(Items(components), order), components[t].name, components[i].name)
  {
    PermutationCovers(order, |components|, i);
    PermutationCovers(order, |components|, t);
    var a, b := Position(order, t), Position(order, i);
    assert order[b] == i && order[a] == t && a < b;
    var out := Values(Items(components), order);
    assert out[a].name == components[t].name && out[b].name == components[i].name;
  }

  /** A sorted list is a rearrangement in which every present dependency, required or optional,
      comes before the component that declares it. */
  lemma {:induction false} OrderedByName(components: seq<Component>, out: seq<Component>)
    requires Ordered(components, out) && UniqueNames(components)
    ensures multiset(out) == multiset(components)
    ensures forall c, d | c in components && d in c.dependencies && d.name in MakeNameSet(components) ::
      Precedes(out, d.name, c.name)
  {
    hide Topological, Fifo, Precedes, UniqueNames;
    OrderedIsPermutation(components, out);
    var items := Items(components);
    var order :| KahnOrder(GraphOf(items), order) && out == Values(items, order);
    forall c, d | c in components && d in c.dependencies && d.name in MakeNameSet(components)
      ensures Precedes(out, d.name, c.name)
    {
      var i: nat :| i < |components| && components[i] == c;
      var j: nat :| j < |components| && components[j].name == d.name;
      assert items[j].name == d.name;
      TargetIsListed(items, c.dependencies, d);
      TargetPrecedes(components, order, i, IndexOf(items, d.name));
    }
  }

  /** Sorting has one possible result. */
  lemma {:induction false} OrderedUnique(components: seq<Component>, a: seq<Component>, b: seq<Component>)
    requires Ordered(components, a) && Ordered(components, b)
    ensures a == b
  {
    var g := GraphOf(Items(components));
    var x :| KahnOrder(g, x) && a == Values(Items(components), x);
    var y :| KahnOrder(g, y) && b == Values(Items(components), y);
    KahnOrderUnique(g, x, y);
  }

  lemma {:induction false} IndexUnique(components: seq<Component>, i: nat)
    requires UniqueNames(components) && i < |components|
    ensures IndexOf(Items(components), components[i].name) == i
  {
    var j := IndexOf(Items(components), components[i].name);
    assert Items(components)[i].name == components[i].name;
  }

  /** Edges follow names, so they survive rearranging the list. */
  lemma {:induction false} EdgeByName(components: seq<Component>, k: nat, t: nat)
    requires UniqueNames(components) && k < |components| && t < |components|
    ensures t in GraphOf(Items(components))[k] <==> exists d :: d in components[k].dependencies && d.name == components[t].name
  {
    var items, deps := Items(components), components[k].dependencies;
    if t in Targets(items, deps) {
      TargetHasEntry(items, deps, t);
    }
    if d :| d in deps && d.name == components[t].name {
      IndexUnique(components, t);
      TargetIsListed(items, deps, d);
    }
  }

  /** Renaming nodes by their positions does not change when a node becomes ready. */
  lemma {:induction false} RenamedReady(ps: seq<nat>, id: seq<nat>, qs: seq<nat>, order: seq<nat>, n: nat)
    requires |id| == |order| == n
    requires forall t :: 0 <= t < n ==> Position(id, t) == t && Position(order, order[t]) == t
    requires forall t :: 0 <= t < n ==> (t in ps <==> order[t] in qs)
    requires forall p :: p in ps ==> p < n
    requires forall q :: q in qs ==> q in order
    ensures ReadyAt(ps, id) == ReadyAt(qs, order)
  {
  }

  lemma {:induction false} ResortedReady(components: seq<Component>, out: seq<Component>, order: seq<nat>,
    id: seq<nat>, k: nat)
    requires UniqueNames(components) && UniqueNames(out)
    requires KahnOrder(GraphOf(Items(components)), order) && out == Values(Items(components), order)
    requires |id| == |out| && forall i :: 0 <= i < |id| ==> id[i] == i
    requires k < |out|
    ensures ReadyAt(GraphOf(Items(out))[k], id) == ReadyAt(GraphOf(Items(components))[order[k]], order)
    ensures forall t :: t in GraphOf(Items(out))[k] ==> Position(id, t) < k
  {
    var g, g' := GraphOf(Items(components)), GraphOf(Items(out));
    forall t | 0 <= t < |out| ensures t in g'[k] <==> order[t] in g[order[k]] {
      EdgeByName(out, k, t);
      EdgeByName(components, order[k], order[t]);
    }
    hide ReadyAt, Fifo, UniqueNames, GraphOf, Values, Items;
    forall t | 0 <= t < |out| ensures Position(id, t) == t && Position(order, order[t]) == t {
      PositionUnique(order, t);
      PositionUnique(id, t);
      assert id[t] == t;
    }
    forall q | q in g[order[k]] ensures q in order {
      PermutationCovers(order, |g|, q);
    }
    RenamedReady(g'[k], id, g[order[k]], order, |out|);
  }

  lemma {:induction false} IdentityOrder(out: seq<Component>) returns (id: seq<nat>)
    ensures |id| == |out| && forall i :: 0 <= i < |id| ==> id[i] == i
    ensures IsPermutation(id, |out|) && Values(Items(out), id) == out
  {
    id := seq(|out|, i => i);
  }

  /** Sorting a sorted list changes nothing. */
  lemma {:induction false} ResortIdentity(components: seq<Component>, out: seq<Component>)
    requires UniqueNames(components) && Ordered(components, out)
    ensures Ordered(out, out) && Acyclic(GraphOf(Items(out)))
  {
    hide ReadyAt, UniqueNames, GraphOf, Values, Items;
    OrderedIsPermutation(components, out);
    var g, g' := GraphOf(Items(components)), GraphOf(Items(out));
    var order :| KahnOrder(g, order) && out == Values(Items(components), order);
    var id := IdentityOrder(out);
    assert Topological(g', id) by {
      forall k, t | 0 <= k < |out| && t in g'[id[k]] ensures Position(id, t) < k {
        ResortedReady(components, out, order, id, k);
      }
    }
    assert Fifo(g', id) by {
      forall a, b | 0 <= a < b < |id| ensures FifoBefore(g', id, id[a], id[b]) {
        ResortedReady(components, out, order, id, a);
        ResortedReady(components, out, order, id, b);
        assert FifoBefore(g, order, order[a], order[b]);
      }
    }
    assert KahnOrder(g', id);
    TopologicalAcyclic(g', id);
  }

  // ------------------------------------------------------------ name graph

  type Registry = m: map<string, Component> | forall name :: name in m ==> m[name].name == name

  ghost predicate Needs(byName: Registry, a: string, b: string) {
    a in byName && b in byName && exists d :: d in byName[a].dependencies && d.name == b
  }

  ghost predicate NamePath(byName: Registry, p: seq<string>) {
    && p != []
    && (forall k :: 0 <= k < |p| ==> p[k] in byName)
    && (forall j, k :: 0 <= j < |p| - 1 && k == j + 1 ==> Needs(byName, p[j], p[k]))
  }

  ghost predicate Reaches(byName: Registry, a: string, b: string) {
    exists p :: NamePath(byName, p) && p[0] == a && p[|p| - 1] == b
  }

  /** Every list reachable from `root` validates and no reachable provider needs itself. */
  ghost predicate Sound(byName: Registry, targets: set<string>, root: string) {
    forall p | NamePath(byName, p) && p[0] == root ::
      && ValidList(byName[p[|p| - 1]].dependencies, targets)
      && p[|p| - 1] !in p[..|p| - 1]
  }

  /** The path `p` justifies the error: it closes a cycle or ends at a defective list. */
  ghost predicate Refutes(byName: Registry, targets: set<string>, p: seq<string>, e: DependencyError) {
    NamePath(byName, p) &&
    if e == Cycle then p[|p| - 1] in p[..|p| - 1]
    else FirstDefect(byName[p[|p| - 1]].dependencies, targets, e)
  }

  /** `finish` lists providers with valid lists, each after everything it needs. */
  ghost predicate Settled(byName: Registry, targets: set<string>, finish: seq<string>) {
    forall k :: 0 <= k < |finish| ==>
      && finish[k] in byName
      && ValidList(byName[finish[k]].dependencies, targets)
      && forall b :: Needs(byName, finish[k], b) ==> Position(finish, b) < k
  }

  lemma {:induction false} PathAppend(byName: Registry, p: seq<string>, b: string)
    requires NamePath(byName, p) && Needs(byName, p[|p| - 1], b)
    ensures NamePath(byName, p + [b])
  {
  }

  lemma {:induction false} ReachesVia(byName: Registry, a: string, b: string, c: string)
    requires Needs(byName, a, b) && Reaches(byName, b, c)
    ensures Reaches(byName, a, c)
  {
    var p :| NamePath(byName, p) && p[0] == b && p[|p| - 1] == c;
    var q := [a] + p;
    assert NamePath(byName, q) && q[0] == a && q[|q| - 1] == c;
  }

  lemma {:induction false} StringPositionAppend(finish: seq<string>, x: string, b: string)
    requires b in finish
    ensures Position(finish + [x], b) == Position(finish, b)
  {
    var i, j := Position(finish, b), Position(finish + [x], b);
    assert (finish + [x])[i] == b;
    if j < i { assert finish[j] == b; }
  }

  lemma {:induction false} SettledAppend(byName: Registry, targets: set<string>, finish: seq<string>, x: string)
    requires Settled(byName, targets, finish)
    requires x in byName && ValidList(byName[x].dependencies, targets)
    requires forall b :: Needs(byName, x, b) ==> b in finish
    ensures Settled(byName, targets, finish + [x])
  {
    forall k, b | 0 <= k < |finish + [x]| && Needs(byName, (finish + [x])[k], b)
      ensures Position(finish + [x], b) < k
    {
      assert b in finish;
      StringPositionAppend(finish, x, b);
    }
  }

  /** From a settled provider, every path stays among the settled ones and moves to the front. */
  lemma {:induction false} PathFalls(
    byName: Registry, targets: set<string>, finish: seq<string>, p: seq<string>, j: nat, k: nat)
    requires Settled(byName, targets, finish)
    requires NamePath(byName, p) && p[0] in finish && j <= k < |p|
    ensures Position(finish, p[k]) + k - j <= Position(finish, p[j]) < |finish|
    decreases k, j
  {
    if j < k {
      PathFalls(byName, targets, finish, p, j, k - 1);
      assert Needs(byName, p[k - 1], p[k]);
    } else if k > 0 {
      PathFalls(byName, targets, finish, p, k - 1, k - 1);
      assert Needs(byName, p[k - 1], p[k]);
    }
  }

  lemma {:induction false} SettledSound(byName: Registry, targets: set<string>, finish: seq<string>, root: string)
    requires Settled(byName, targets, finish) && root in finish
    ensures Sound(byName, targets, root)
    ensures forall b :: Reaches(byName, root, b) ==> b in finish
  {
    forall p | NamePath(byName, p) && p[0] == root
      ensures ValidList(byName[p[|p| - 1]].dependencies, targets) && p[|p| - 1] !in p[..|p| - 1]
      ensures p[|p| - 1] in finish
    {
      var n := |p| - 1;
      PathFalls(byName, targets, finish, p, 0, n);
      assert finish[Position(finish, p[n])] == p[n];
      forall j | 0 <= j < n ensures p[j] != p[n] {
        PathFalls(byName, targets, finish, p, j, n);
      }
    }
  }

  // ------------------------------------------------------------ the search

  /** The state shared by the nested visits of one selection. */
  class Selection {
    const providerByName: Registry
    const targetNames: set<string>
    var selected: set<string>
    var visiting: set<string>
    var visited: set<string>
    ghost var finish: seq<string>

    constructor (byName: Registry, targets: set<string>)
      ensures providerByName == byName && targetNames == targets
      ensures selected == visiting == visited == {} && finish == []
    {
      providerByName, targetNames := byName, targets;
      selected, visiting, visited, finish := {}, {}, {}, [];
    }

    ghost predicate Valid()
      reads this
    {
      && selected == visited == (set n | n in finish)
      && visited !! visiting
      && Settled(providerByName, targetNames, finish)
    }

    method Visit(current: string, ghost stack: seq<string>) returns (err: Option<DependencyError>)
      requires Valid() && visiting == set n | n in stack
      requires NamePath(providerByName, stack + [current])
      modifies this
      ensures err.None? ==> Valid() && visiting == old(visiting)
      ensures err.None? ==> old(visited) <= visited && current in visited
      ensures err.None? ==> forall n | n in visited - old(visited) :: Reaches(providerByName, current, n)
      ensures err.Some? ==> exists p | stack + [current] <= p :: Refutes(providerByName, targetNames, p, err.value)
      decreases providerByName.Keys - visiting - visited
    {
      ghost var chain := stack + [current];
      assert chain[|stack|] == current;
      if current in visited {
        return None;
      }
      if current in visiting {
        assert chain[..|chain| - 1] == stack;
        assert Refutes(providerByName, targetNames, chain, Cycle);
        return Some(Cycle);
      }
      var provider := providerByName[current];
      visiting := visiting + {current};
      err := ValidateDependencyList(provider.dependencies, targetNames);
      if err.Some? {
        assert Refutes(providerByName, targetNames, chain, err.value);
        return;
      }
      var deps := provider.dependencies;
      for k := 0 to |deps|
        invariant Valid() && visiting == old(visiting) + {current}
        invariant old(visited) <= visited
        invariant forall j :: 0 <= j < k && deps[j].name in providerByName ==> deps[j].name in visited
        invariant forall n | n in visited - old(visited) :: Reaches(providerByName, current, n)
      {
        var dep := deps[k];
        if dep.name !in providerByName {
          continue;
        }
        assert dep in deps && Needs(providerByName, current, dep.name);
        PathAppend(providerByName, chain, dep.name);
        ghost var before := visited;
        assert current in old(providerByName.Keys - visiting - visited);
        assert providerByName.Keys - visiting - visited < old(providerByName.Keys - visiting - visited);
        err := Visit(dep.name, chain);
        if err.Some? {
          ghost var p :| chain + [dep.name] <= p && Refutes(providerByName, targetNames, p, err.value);
          assert chain <= p;
          return;
        }
        forall n | n in visited - before ensures Reaches(providerByName, current, n) {
          ReachesVia(providerByName, current, dep.name, n);
        }
      }
      forall b | Needs(providerByName, current, b) ensures b in finish {
        assert b in visited;
      }
      SettledAppend(providerByName, targetNames, finish, current);
      assert Reaches(providerByName, current, current) by {
        assert NamePath(providerByName, [current]);
      }
      visiting := visiting - {current};
      visited := visited + {current};
      selected := selected + {current};
      finish := finish + [current];
      return None;
    }
  }

  // --------------------------------------------------- selecting for one run

  ghost function RegistryOf(providers: seq<Component>): (byName: Registry)
    requires UniqueNames(providers)
    ensures forall c :: c in providers ==> c.name in byName && byName[c.name] == c
  {
    map c | c in providers :: c.name := c
  }

  method IndexProviders(providers: seq<Component>) returns (byName: Registry)
    requires UniqueNames(providers)
    ensures byName == RegistryOf(providers)
  {
    byName := map[];
    for i := 0 to |providers|
      invariant forall name :: name in byName ==> byName[name] in providers[..i]
      invariant forall j :: 0 <= j < i ==> providers[j].name in byName && byName[providers[j].name] == providers[j]
    {
      byName := byName[providers[i].name := providers[i]];
    }
    assert byName.Keys == RegistryOf(providers).Keys by {
      forall name | name in byName ensures name in RegistryOf(providers) {
        assert byName[name] in providers;
      }
      forall name | name in RegistryOf(providers) ensures name in byName {
        var j :| 0 <= j < |providers| && providers[j].name == name;
      }
    }
  }

  function OnlyNamed(components: seq<Component>, names: set<string>): (out: seq<Component>)
    ensures forall c :: c in out <==> c in components && c.name in names
  {
    if components == [] then []
    else
      var front, last := components[..|components| - 1], components[|components| - 1];
      assert components == front + [last];
      OnlyNamed(front, names) + (if last.name in names then [last] else [])
  }

  ghost function ReachableFrom(byName: Registry, root: string): set<string> {
    set n | n in byName && Reaches(byName, root, n)
  }

  /** The providers a run of `name` consists of, in registration order. */
  ghost function Needed(providers: seq<Component>, name: string): seq<Component>
    requires UniqueNames(providers)
  {
    OnlyNamed(providers, ReachableFrom(RegistryOf(providers), name))
  }

  lemma {:induction false} SettledAcyclic(providers: seq<Component>, chosen: seq<Component>, targets: set<string>,
    finish: seq<string>)
    requires UniqueNames(providers) && Settled(RegistryOf(providers), targets, finish)
    requires forall c :: c in chosen ==> c in providers && c.name in finish
    ensures Acyclic(GraphOf(Items(chosen)))
  {
    var byName := RegistryOf(providers);
    var g := GraphOf(Items(chosen));
    var rank := seq(|chosen|, i requires 0 <= i < |chosen| => Position(finish, chosen[i].name));
    forall i, t | 0 <= i < |g| && t in g[i] ensures rank[t] < rank[i] {
      TargetHasEntry(Items(chosen), chosen[i].dependencies, t);
      assert chosen[i] in chosen && chosen[t] in chosen;
      assert Needs(byName, chosen[i].name, chosen[t].name);
      assert finish[rank[i]] == chosen[i].name;
    }
    RankedAcyclic(g, rank);
  }

  lemma {:induction false} SelectedReachable(byName: Registry, targets: set<string>, finish: seq<string>, root: string,
    selected: set<string>)
    requires Settled(byName, targets, finish) && root in finish
    requires selected == set n | n in finish
    requires forall n :: n in selected ==> Reaches(byName, root, n)
    ensures selected == ReachableFrom(byName, root)
  {
    SettledSound(byName, targets, finish, root);
  }

  lemma {:induction false} RefutedUnsound(byName: Registry, targets: set<string>, p: seq<string>, e: DependencyError)
    requires Refutes(byName, targets, p, e)
    ensures !Sound(byName, targets, p[0])
  {
  }

  /** Running one provider takes exactly the providers it reaches, dependencies first. It fails exactly
      when a reachable list is invalid or a reachable provider needs itself; the final sort cannot fail. */
  method SelectProvidersForRun(name: string, providers: seq<Component>, capabilities: seq<Component>,
    extraCapabilityNames: set<string>)
    returns (r: Result<seq<Component>, DependencyError>)
    requires UniqueNames(providers)
    ensures name !in RegistryOf(providers) ==> r == Err(ProviderNotFound)
    ensures name in RegistryOf(providers) ==>
      var targets := MakeNameSet(capabilities) + extraCapabilityNames + MakeNameSet(providers);
      && (r.Ok? <==> Sound(RegistryOf(providers), targets, name))
      && (r.Err? ==> exists p | p != [] && p[0] == name :: Refutes(RegistryOf(providers), targets, p, r.error))
    ensures r.Ok? ==> Ordered(Needed(providers, name), r.value)
  {
    hide Sound, Settled, Reaches, FirstDefect, Ordered, RegistryOf, UniqueNames;
    var byName := IndexProviders(providers);
    if name !in byName {
      return Err(ProviderNotFound);
    }
    var targets := MakeNameSet(capabilities) + extraCapabilityNames + MakeNameSet(providers);
    var search := new Selection(byName, targets);
    assert NamePath(byName, [] + [name]);
    var err := search.Visit(name, []);
    if err.Some? {
      ghost var p :| [] + [name] <= p && Refutes(byName, targets, p, err.value);
      assert p[0] == name;
      RefutedUnsound(byName, targets, p, err.value);
      return Err(err.value);
    }
    SettledSound(byName, targets, search.finish, name);
    SelectedReachable(byName, targets, search.finish, name, search.selected);
    var out := OnlyNamed(providers, search.selected);
    SettledAcyclic(providers, out, targets, search.finish);
    r := SortProvidersNoValidate(out, MakeNameSet(out));
  }

  lemma {:induction false} NeededLists(capabilities: seq<Component>, providers: seq<Component>, name: string)
    requires UniqueNames(providers) && name in RegistryOf(providers)
    requires Sound(RegistryOf(providers), MakeNameSet(capabilities) + MakeNameSet(providers), name)
    ensures AllListsValid(Needed(providers, name), MakeNameSet(Needed(providers, name)) + MakeNameSet(capabilities))
    ensures UniqueNames(Needed(providers, name))
  {
    var byName := RegistryOf(providers);
    var targets := MakeNameSet(capabilities) + MakeNameSet(providers);
    var needed := Needed(providers, name);
    OnlyNamedUnique(providers, ReachableFrom(byName, name));
    forall c, k | c in needed && 0 <= k < |c.dependencies|
      ensures ValidEntry(c.dependencies, MakeNameSet(needed) + MakeNameSet(capabilities), k)
    {
      var p :| NamePath(byName, p) && p[0] == name && p[|p| - 1] == c.name;
      assert ValidEntry(c.dependencies, targets, k);
      var d := c.dependencies[k];
      if d.name in MakeNameSet(providers) {
        assert d in c.dependencies;
        assert Needs(byName, c.name, d.name);
        PathAppend(byName, p, d.name);
        var q := p + [d.name];
        assert NamePath(byName, q) && q[0] == name && q[|q| - 1] == d.name;
        assert byName[d.name] in needed;
      }
    }
  }

  lemma {:induction false} OnlyNamedUnique(components: seq<Component>, names: set<string>)
    requires UniqueNames(components)
    ensures UniqueNames(OnlyNamed(components, names))
  {
    if components != [] {
      var front, last := components[..|components| - 1], components[|components| - 1];
      OnlyNamedUnique(front, names);
      var out := OnlyNamed(front, names);
      forall i | 0 <= i < |out| ensures out[i].name != last.name {
        assert out[i] in front;
      }
    }
  }

  /** The second validation and sort of a selection repeat the first: they succeed and change nothing. */
  lemma {:induction false} SelectionRunnable(capabilities: seq<Component>, providers: seq<Component>, name: string,
    selected: seq<Component>)
    requires UniqueNames(providers) && name in RegistryOf(providers)
    requires Sound(RegistryOf(providers), MakeNameSet(capabilities) + MakeNameSet(providers), name)
    requires Ordered(Needed(providers, name), selected)
    ensures Sortable(selected, MakeNameSet(selected) + MakeNameSet(capabilities))
    ensures forall out :: Ordered(selected, out) <==> out == selected
    ensures MakeNameSet(selected) <= MakeNameSet(providers)
  {
    var needed := Needed(providers, name);
    NeededLists(capabilities, providers, name);
    OrderedIsPermutation(needed, selected);
    ResortIdentity(needed, selected);
    forall out | Ordered(selected, out) ensures out == selected {
      OrderedUnique(selected, out, selected);
    }
    assert forall c :: c in selected ==> c in multiset(selected);
    assert forall c :: c in multiset(needed) ==> c in needed;
  }
}
