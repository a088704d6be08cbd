/** Filling one cache key from many callers at once: a double-checked cache behind a flight table. */
module RememberFlight {
  import opened Prelude

  datatype Fault = CacheFault | LoadFault

  /** Where one caller is. A caller is in flight from joining as leader until its result is published. */
  datatype Caller<V> =
    | Start
    | Missed
    | Waiting(leader: nat)
    | Leading
    | Loading
    | Storing(loaded: V)
    | Returning(outcome: Result<V, Fault>)
    | Done(result: Result<V, Fault>)
  {
    predicate InFlight() {
      Leading? || Loading? || Storing? || Returning?
    }

    /** An upper bound on the steps this caller still takes. */
    ghost function Remaining(): nat {
      match this
      case Start => 6
      case Missed => 5
      case Waiting(_) => 1
      case Leading => 4
      case Loading => 3
      case Storing(_) => 2
      case Returning(_) => 1
      case Done(_) => 0
    }
  }

  /** `loads` records what the loader returned; the counters record what happened to the cache entry. */
  datatype State<V> = State(
    callers: seq<Caller<V>>,
    cache: Option<V>,
    flight: Option<nat>,
    published: map<nat, Result<V, Fault>>,
    loads: seq<V>,
    stores: nat,
    failedStores: nat,
    evictions: nat)

  /** One atomic step; `fault` and `loaded` are the answers of the cache and the loader. */
  datatype Action<V> =
    | Read(i: nat, fault: bool)
    | Join(i: nat)
    | Recheck(i: nat, fault: bool)
    | Load(i: nat, loaded: Option<V>)
    | Store(i: nat, fault: bool)
    | Publish(i: nat)
    | Receive(i: nat)
    | Evict

  ghost function Init<V>(n: nat): State<V> {
    State(seq(n, _ => Start), None, None, map[], [], 0, 0, 0)
  }

  ghost predicate Enabled<V>(s: State<V>, a: Action<V>) {
    match a
    case Read(i, _) => i < |s.callers| && s.callers[i].Start?
    case Join(i) => i < |s.callers| && s.callers[i].Missed?
    case Recheck(i, _) => i < |s.callers| && s.callers[i].Leading?
    case Load(i, _) => i < |s.callers| && s.callers[i].Loading?
    case Store(i, _) => i < |s.callers| && s.callers[i].Storing?
    case Publish(i) => i < |s.callers| && s.callers[i].Returning?
    case Receive(i) => i < |s.callers| && s.callers[i].Waiting? && s.callers[i].leader in s.published
    case Evict => s.cache.Some?
  }

  ghost function Goto<V>(s: State<V>, i: nat, c: Caller<V>): State<V>
    requires i < |s.callers|
  {
    s.(callers := s.callers[i := c])
  }

  ghost function Apply<V>(s: State<V>, a: Action<V>): State<V>
    requires Enabled(s, a)
  {
    match a
    case Read(i, fault) =>
      Goto(s, i, if fault then Done(Err(CacheFault)) else if s.cache.Some? then Done(Ok(s.cache.value)) else Missed)
    case Join(i) =>
      if s.flight.Some? then Goto(s, i, Waiting(s.flight.value))
      else Goto(s, i, Leading).(flight := Some(i))
    case Recheck(i, fault) =>
      Goto(s, i, if fault then Returning(Err(CacheFault))
                 else if s.cache.Some? then Returning(Ok(s.cache.value)) else Loading)
    case Load(i, loaded) =>
      if loaded.None? then Goto(s, i, Returning(Err(LoadFault)))
      else Goto(s, i, Storing(loaded.value)).(loads := s.loads + [loaded.value])
    case Store(i, fault) =>
      var v := s.callers[i].loaded;
      if fault then Goto(s, i, Returning(Err(CacheFault))).(failedStores := s.failedStores + 1)
      else Goto(s, i, Returning(Ok(v))).(cache := Some(v), stores := s.stores + 1)
    case Publish(i) =>
      var r := s.callers[i].outcome;
      Goto(s, i, Done(r)).(flight := None, published := s.published[i := r])
    case Receive(i) => Goto(s, i, Done(s.published[s.callers[i].leader]))
    case Evict => s.(cache := None, evictions := s.evictions + 1)
  }

  ghost predicate Run<V>(s: State<V>, actions: seq<Action<V>>, t: State<V>)
    decreases |actions|
  {
    if actions == [] then s == t
    else Enabled(s, actions[0]) && Run(Apply(s, actions[0]), actions[1..], t)
  }

  // --------------------------------------------------------------- invariants

  /** The flight table names exactly the caller in flight, and nobody waits for a lost result. */
  ghost predicate OneFlight<V>(s: State<V>) {
    && (forall i :: 0 <= i < |s.callers| ==> (s.callers[i].InFlight() <==> s.flight == Some(i)))
    && (s.flight.Some? ==> s.flight.value < |s.callers|)
    && (forall i :: 0 <= i < |s.callers| && s.callers[i].Waiting? ==>
          s.flight == Some(s.callers[i].leader) || s.callers[i].leader in s.published)
  }

  ghost predicate SomeoneStoring<V>(s: State<V>) {
    s.flight.Some? && s.flight.value < |s.callers| && s.callers[s.flight.value].Storing?
  }

  /** Every loaded value is stored, failed to be stored, or about to be; every stored value is in the
      cache or was evicted. The loader runs only while the cache is empty. */
  ghost predicate Accounted<V>(s: State<V>) {
    && |s.loads| == s.stores + s.failedStores + (if SomeoneStoring(s) then 1 else 0)
    && s.stores == s.evictions + (if s.cache.Some? then 1 else 0)
    && (s.flight.Some? && s.flight.value < |s.callers| ==>
          s.callers[s.flight.value].Loading? || s.callers[s.flight.value].Storing? ==> s.cache.None?)
  }

  /** A value some caller returns was loaded and, unless something was evicted, is still cached. */
  ghost predicate Genuine<V>(s: State<V>, r: Result<V, Fault>) {
    r.Ok? ==> r.value in s.loads && (s.evictions == 0 ==> s.cache == Some(r.value))
  }

  ghost predicate AllGenuine<V>(s: State<V>) {
    && (s.cache.Some? ==> s.cache.value in s.loads)
    && (forall i :: 0 <= i < |s.callers| && s.callers[i].Storing? ==> s.callers[i].loaded in s.loads)
    && (forall i :: 0 <= i < |s.callers| && s.callers[i].Returning? ==> Genuine(s, s.callers[i].outcome))
    && (forall i :: 0 <= i < |s.callers| && s.callers[i].Done? ==> Genuine(s, s.callers[i].result))
    && (forall l :: l in s.published ==> Genuine(s, s.published[l]))
  }

  ghost predicate Inv<V>(s: State<V>) {
    OneFlight(s) && Accounted(s) && AllGenuine(s)
  }

  lemma InvStep<V>(s: State<V>, a: Action<V>)
    requires Inv(s) && Enabled(s, a)
    ensures Inv(Apply(s, a))
  {
    OneFlightStep(s, a);
    AccountedStep(s, a);
    GenuineStep(s, a);
  }

  lemma OneFlightStep<V>(s: State<V>, a: Action<V>)
    requires OneFlight(s) && Enabled(s, a)
    ensures OneFlight(Apply(s, a))
  {
  }

  lemma AccountedStep<V>(s: State<V>, a: Action<V>)
    requires OneFlight(s) && Accounted(s) && Enabled(s, a)
    ensures Accounted(Apply(s, a))
  {
  }

  /** What was genuine stays so, as loads only grow and a cached value only goes by eviction. */
  lemma GenuineStays<V>(s: State<V>, t: State<V>, r: Result<V, Fault>)
    requires Genuine(s, r) && t.evictions >= s.evictions
    requires (forall v :: v in s.loads ==> v in t.loads) && (t.evictions == 0 && s.cache.Some? ==> t.cache == s.cache)
    ensures Genuine(t, r)
  {
  }

  /** Loads stay recorded, and without evictions the cache entry never changes once it is there. */
  lemma NothingChanges<V>(s: State<V>, a: Action<V>)
    requires OneFlight(s) && Accounted(s) && Enabled(s, a)
    ensures forall v :: v in s.loads ==> v in Apply(s, a).loads
    ensures s.evictions <= Apply(s, a).evictions
    ensures Apply(s, a).evictions == 0 && s.cache.Some? ==> Apply(s, a).cache == s.cache
  {
  }

  lemma GenuineStep<V>(s: State<V>, a: Action<V>)
    requires Inv(s) && Enabled(s, a)
    ensures AllGenuine(Apply(s, a))
  {
    hide OneFlight, Accounted;
    var t := Apply(s, a);
    NothingChanges(s, a);
    forall r | Genuine(s, r) ensures Genuine(t, r) {
      GenuineStays(s, t, r);
    }
  }

  lemma {:induction false} RunKeepsInv<V>(s: State<V>, actions: seq<Action<V>>, t: State<V>)
    requires Inv(s) && Run(s, actions, t)
    ensures Inv(t) && |t.callers| == |s.callers|
    decreases |actions|
  {
    if actions != [] {
      InvStep(s, actions[0]);
      RunKeepsInv(Apply(s, actions[0]), actions[1..], t);
    }
  }

  // ------------------------------------------------------------- the theorems

  /** However many callers run and whatever the cache and the loader answer, at most one of them is in
      flight, and the loader succeeds at most once per entry lost to a failed store or an eviction. */
  lemma {:induction false} LoadedOncePerEntry<V>(n: nat, actions: seq<Action<V>>, t: State<V>)
    requires Run(Init(n), actions, t)
    ensures |t.callers| == n
    ensures forall i, j :: 0 <= i < n && 0 <= j < n && t.callers[i].InFlight() && t.callers[j].InFlight() ==> i == j
    ensures |t.loads| <= 1 + t.failedStores + t.evictions
  {
    RunKeepsInv(Init(n), actions, t);
  }

  /** Without evictions all successful callers return one value, and the loader produced it. */
  lemma {:induction false} OneValueForAll<V>(n: nat, actions: seq<Action<V>>, t: State<V>, i: nat, j: nat)
    requires Run(Init(n), actions, t) && t.evictions == 0
    requires i < |t.callers| && t.callers[i].Done? && t.callers[i].result.Ok?
    requires j < |t.callers| && t.callers[j].Done? && t.callers[j].result.Ok?
    ensures t.callers[i].result == t.callers[j].result
    ensures t.callers[i].result.value in t.loads
  {
    RunKeepsInv(Init(n), actions, t);
    assert Genuine(t, t.callers[i].result) && Genuine(t, t.callers[j].result);
  }

  /** Nobody is stuck: until every caller is done, some caller can move. */
  lemma {:induction false} SomeoneCanMove<V>(n: nat, actions: seq<Action<V>>, t: State<V>, i: nat) returns (a: Action<V>)
    requires Run(Init(n), actions, t)
    requires i < |t.callers| && !t.callers[i].Done?
    ensures !a.Evict? && Enabled(t, a)
  {
    RunKeepsInv(Init(n), actions, t);
    var mover := i;
    if t.callers[i].Waiting? && t.callers[i].leader !in t.published {
      mover := t.callers[i].leader;
    }
    a := OwnMove(t.callers[mover], mover);
  }

  /** The step a caller takes by itself. */
  ghost function OwnMove<V>(c: Caller<V>, i: nat): Action<V> {
    match c
    case Start => Read(i, false)
    case Missed => Join(i)
    case Leading => Recheck(i, false)
    case Loading => Load(i, None)
    case Storing(_) => Store(i, false)
    case Returning(_) => Publish(i)
    case Waiting(_) => Receive(i)
    case Done(_) => Evict
  }

  ghost function OwnerOf<V>(a: Action<V>): Option<nat> {
    if a.Evict? then None else Some(a.i)
  }

  ghost function OwnersOf<V>(actions: seq<Action<V>>): seq<Option<nat>> {
    seq(|actions|, k requires 0 <= k < |actions| => OwnerOf(actions[k]))
  }

  /** How many of the actions are steps of caller `i`. */
  ghost function StepsOf<V>(actions: seq<Action<V>>, i: nat): nat {
    multiset(OwnersOf(actions))[Some(i)]
  }

  lemma StepsFirst<V>(actions: seq<Action<V>>, i: nat)
    requires actions != []
    ensures StepsOf(actions, i) == (if !actions[0].Evict? && actions[0].i == i then 1 else 0) + StepsOf(actions[1..], i)
  {
    assert OwnersOf(actions) == [OwnerOf(actions[0])] + OwnersOf(actions[1..]);
  }

  lemma StepCosts<V>(s: State<V>, a: Action<V>, i: nat)
    requires Enabled(s, a) && i < |s.callers|
    ensures |Apply(s, a).callers| == |s.callers|
    ensures Apply(s, a).callers[i].Remaining() + (if !a.Evict? && a.i == i then 1 else 0) <= s.callers[i].Remaining()
  {
  }

  lemma {:induction false} StepsBound<V>(s: State<V>, actions: seq<Action<V>>, t: State<V>, i: nat)
    requires Run(s, actions, t) && i < |s.callers|
    ensures |t.callers| == |s.callers|
    ensures StepsOf(actions, i) + t.callers[i].Remaining() <= s.callers[i].Remaining()
    decreases |actions|
  {
    hide Enabled, Apply;
    if actions != [] {
      StepCosts(s, actions[0], i);
      StepsFirst(actions, i);
      StepsBound(Apply(s, actions[0]), actions[1..], t, i);
    }
  }

  /** Every run ends: each caller takes at most six steps, and one that has taken six is done. */
  lemma {:induction false} RunsEnd<V>(n: nat, actions: seq<Action<V>>, t: State<V>, i: nat)
    requires Run(Init(n), actions, t) && i < n
    ensures |t.callers| == n && StepsOf(actions, i) <= 6
    ensures StepsOf(actions, i) == 6 ==> t.callers[i].Done?
  {
    StepsBound(Init(n), actions, t, i);
  }

  // ------------------------------------------------------------ one caller alone

  lemma {:induction false} RunMore<V>(s: State<V>, actions: seq<Action<V>>, t: State<V>, a: Action<V>)
    requires Run(s, actions, t) && Enabled(t, a)
    ensures Run(s, actions + [a], Apply(t, a))
    decreases |actions|
  {
    hide Enabled, Apply;
    if actions == [] {
      assert [] + [a] == [a] && [a][1..] == [];
      assert Run(Apply(t, a), [], Apply(t, a));
    } else {
      assert (actions + [a])[1..] == actions[1..] + [a];
      RunMore(Apply(s, actions[0]), actions[1..], t, a);
    }
  }

  /** One more step of a single caller. */
  lemma {:induction false} StepAlone<V>(s: State<V>, actions: seq<Action<V>>, t: State<V>, a: Action<V>, u: State<V>)
    requires Run(s, actions, t) && Enabled(t, a) && |t.callers| == |u.callers| == 1
    requires
      var next := Apply(t, a);
      && u.callers[0] == next.callers[0] && u.cache == next.cache && u.flight == next.flight && u.published == next.published
      && u.loads == next.loads && u.stores == next.stores && u.failedStores == next.failedStores
      && u.evictions == next.evictions
    ensures Run(s, actions + [a], u)
  {
    hide Run;
    RunMore(s, actions, t, a);
    assert u.callers == Apply(t, a).callers;
  }

  class Memory<V> {
    var cache: Option<V>
    ghost var loads: seq<V>
    ghost var stores: nat
    ghost var failedStores: nat
    ghost var published: map<nat, Result<V, Fault>>

    /** The state in which this caller is the only one. */
    ghost function Alone(c: Caller<V>, flight: Option<nat>): State<V>
      reads this
    {
      State([c], cache, flight, published, loads, stores, failedStores, 0)
    }

    /** What the leader of a flight does: look again, load, store. */
    method Fly(fault: bool, loaded: Option<V>, storeFault: bool)
      returns (r: Result<V, Fault>, ghost actions: seq<Action<V>>)
      modifies `cache, `loads, `stores, `failedStores
      ensures Run(old(Alone(Leading, Some(0))), actions, Alone(Returning(r), Some(0)))
      ensures r.Ok? <==> !fault && (old(cache).Some? || (loaded.Some? && !storeFault))
      ensures r == Err(LoadFault) <==> !fault && old(cache).None? && loaded.None?
      ensures r.Err? ==> cache == old(cache)
      ensures r.Ok? ==> cache == Some(r.value) && r.value == (if old(cache).Some? then old(cache) else loaded).value
    {
      hide Run;
      ghost var s := Alone(Leading, Some(0));
      NoRun(s);
      r := if fault then Err(CacheFault) else if cache.Some? then Ok(cache.value) else Err(LoadFault);
      ghost var looked := Alone(if fault || cache.Some? then Returning(r) else Loading, Some(0));
      StepAlone(s, [], s, Recheck(0, fault), looked);
      actions := [] + [Recheck(0, fault)];
      if fault || cache.Some? {
        return r, actions;
      }
      if loaded.None? {
        StepAlone(s, actions, looked, Load(0, loaded), Alone(Returning(r), Some(0)));
        return r, actions + [Load(0, loaded)];
      }
      loads := loads + [loaded.value];
      ghost var storing := Alone(Storing(loaded.value), Some(0));
      StepAlone(s, actions, looked, Load(0, loaded), storing);
      actions := actions + [Load(0, loaded)];
      if storeFault {
        r := Err(CacheFault);
        failedStores := failedStores + 1;
      } else {
        r := Ok(loaded.value);
        cache := loaded;
        stores := stores + 1;
      }
      StepAlone(s, actions, storing, Store(0, storeFault), Alone(Returning(r), Some(0)));
      return r, actions + [Store(0, storeFault)];
    }

    /** One call, with nobody else about: a run of the machine from its start to its end. */
    method RememberWith(firstFault: bool, fault: bool, loaded: Option<V>, storeFault: bool)
      returns (r: Result<V, Fault>, ghost actions: seq<Action<V>>)
      modifies this
      ensures Run(old(Alone(Start, None)), actions, Alone(Done(r), None))
      ensures r.Ok? <==> !firstFault && (old(cache).Some? || (!fault && loaded.Some? && !storeFault))
      ensures r == Err(LoadFault) <==> !firstFault && old(cache).None? && !fault && loaded.None?
      ensures r.Err? ==> cache == old(cache)
      ensures r.Ok? ==> cache == Some(r.value) && r.value == (if old(cache).Some? then old(cache) else loaded).value
    {
      hide Run;
      ghost var s := Alone(Start, None);
      NoRun(s);
      actions := [] + [Read(0, firstFault)];
      if firstFault {
        r := Err(CacheFault);
        StepAlone(s, [], s, Read(0, firstFault), Alone(Done(r), None));
        return r, actions;
      }
      if cache.Some? {
        r := Ok(cache.value);
        StepAlone(s, [], s, Read(0, firstFault), Alone(Done(r), None));
        return r, actions;
      }
      StepAlone(s, [], s, Read(0, firstFault), Alone(Missed, None));
      ghost var joined := Alone(Leading, Some(0));
      StepAlone(s, actions, Alone(Missed, None), Join(0), joined);
      actions := actions + [Join(0)];
      ghost var flown;
      r, flown := Fly(fault, loaded, storeFault);
      ghost var returning := Alone(Returning(r), Some(0));
      RunThen(s, actions, joined, flown, returning);
      actions := actions + flown;
      published := published[0 := r];
      StepAlone(s, actions, returning, Publish(0), Alone(Done(r), None));
      actions := actions + [Publish(0)];
    }
  }

  lemma NoRun<V>(s: State<V>)
    ensures Run(s, [], s)
  {
  }

  lemma {:induction false} RunThen<V>(s: State<V>, a: seq<Action<V>>, t: State<V>, b: seq<Action<V>>, u: State<V>)
    requires Run(s, a, t) && Run(t, b, u)
    ensures Run(s, a + b, u)
    decreases |a|
  {
    hide Enabled, Apply;
    if a == [] {
      assert a + b == b;
    } else {
      assert (a + b)[1..] == a[1..] + b;
      RunThen(Apply(s, a[0]), a[1..], t, b, u);
    }
  }
}
