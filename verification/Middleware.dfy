/** The queue's middleware chain: ordered by stage, entered in that order, left in the reverse. */
module Middleware {
  import opened Prelude

  // ------------------------------------------------------------------ handlers

  datatype Event = Enter(name: string) | Leave(name: string) | Handled(what: string)

  /** A message on its way to a handler, with what has happened to it so far. */
  datatype Delivery = Delivery(taskType: string, log: seq<Event>)

  datatype Outcome = Outcome(log: seq<Event>, error: Option<string>)

  type Handler = Delivery -> Outcome

  type Wrapper = Handler -> Handler

  const TIMEOUT_STAGE := 4

  /** A middleware may be nil; a nil one is never called. */
  datatype Staged = Staged(stage: int, wrapper: Option<Wrapper>)

  // ------------------------------------------------------------------ chaining

  function Chain(handler: Handler, ms: seq<Staged>): Handler {
    if ms == [] then handler
    else if ms[0].wrapper.None? then Chain(handler, ms[1..])
    else ms[0].wrapper.value(Chain(handler, ms[1..]))
  }

  /** Wraps from the last middleware to the first. */
  method ChainRuntime(handler: Handler, ms: seq<Staged>) returns (wrapped: Handler)
    ensures wrapped == Chain(handler, ms)
  {
    wrapped := handler;
    var i := |ms|;
    while i > 0
      invariant 0 <= i <= |ms|
      invariant wrapped == Chain(handler, ms[i..])
    {
      i := i - 1;
      if ms[i].wrapper.Some? {
        wrapped := ms[i].wrapper.value(wrapped);
      }
      assert ms[i..][1..] == ms[i + 1..];
    }
  }

  /** A middleware that notes its entry, calls the next handler once, notes its exit, and passes the error on. */
  ghost predicate PassThrough(w: Wrapper, name: string) {
    forall h: Handler, d: Delivery {:trigger w(h)(d)} :: w(h)(d) == Around(h, name, d)
  }

  function Around(h: Handler, name: string, d: Delivery): Outcome {
    var r := h(d.(log := d.log + [Enter(name)]));
    r.(log := r.log + [Leave(name)])
  }

  function Names(ms: seq<Staged>, name: Staged -> string): seq<string> {
    if ms == [] then []
    else (if ms[0].wrapper.None? then [] else [name(ms[0])]) + Names(ms[1..], name)
  }

  function Enters(names: seq<string>): seq<Event> {
    if names == [] then [] else [Enter(names[0])] + Enters(names[1..])
  }

  /** The exits, last entered first. */
  function LeavesReversed(names: seq<string>): seq<Event> {
    if names == [] then [] else LeavesReversed(names[1..]) + [Leave(names[0])]
  }

  ghost predicate AllPassThrough(ms: seq<Staged>, name: Staged -> string) {
    forall m :: m in ms && m.wrapper.Some? ==> PassThrough(m.wrapper.value, name(m))
  }

  /** The handler between all entries, in order, and all exits, in the exact reverse. */
  function Nested(handler: Handler, names: seq<string>, d: Delivery): Outcome {
    var r := handler(d.(log := d.log + Enters(names)));
    r.(log := r.log + LeavesReversed(names))
  }

  lemma NestedStep(handler: Handler, first: string, rest: seq<string>, d: Delivery)
    ensures
      var r := Nested(handler, rest, d.(log := d.log + [Enter(first)]));
      Nested(handler, [first] + rest, d) == r.(log := r.log + [Leave(first)])
  {
    var names := [first] + rest;
    assert names[1..] == rest;
    var d' := d.(log := d.log + [Enter(first)]);
    assert d.log + Enters(names) == d'.log + Enters(rest);
    var r := handler(d'.(log := d'.log + Enters(rest)));
    assert r.log + LeavesReversed(names) == r.log + LeavesReversed(rest) + [Leave(first)];
  }

  lemma {:induction false} Nesting(handler: Handler, ms: seq<Staged>, name: Staged -> string, d: Delivery)
    requires AllPassThrough(ms, name)
    ensures Chain(handler, ms)(d) == Nested(handler, Names(ms, name), d)
  {
    hide Nested, PassThrough, Enters, LeavesReversed;
    if ms == [] {
      NestedNone(handler, d);
    } else {
      Nesting(handler, ms[1..], name, d);
      if ms[0].wrapper.Some? {
        var first := name(ms[0]);
        var d' := d.(log := d.log + [Enter(first)]);
        Nesting(handler, ms[1..], name, d');
        assert ms[0] in ms;
        PassesThrough(ms[0].wrapper.value, first, Chain(handler, ms[1..]), d);
        NestedStep(handler, first, Names(ms[1..], name), d);
      } else {
        assert Names(ms, name) == Names(ms[1..], name);
      }
    }
  }

  lemma NestedNone(handler: Handler, d: Delivery)
    ensures Nested(handler, [], d) == handler(d)
  {
    assert d.log + [] == d.log;
    var r := handler(d);
    assert r.log + [] == r.log;
  }

  lemma PassesThrough(w: Wrapper, name: string, h: Handler, d: Delivery)
    requires PassThrough(w, name)
    ensures w(h)(d) == Around(h, name, d)
  {
  }

  // ------------------------------------------------------------------ ordering

  predicate NoNil(ms: seq<Staged>) {
    forall i :: 0 <= i < |ms| ==> ms[i].wrapper.Some?
  }

  predicate ByStage(ms: seq<Staged>) {
    forall i, j :: 0 <= i < j < |ms| ==> ms[i].stage <= ms[j].stage
  }

  /** The middlewares of one stage, in order. */
  function OfStage(ms: seq<Staged>, stage: int): seq<Staged> {
    if ms == [] then []
    else (if ms[0].wrapper.Some? && ms[0].stage == stage then [ms[0]] else []) + OfStage(ms[1..], stage)
  }

  /** A stable sort by stage, which drops nil middlewares. */
  ghost predicate Arranges(ms: seq<Staged>, out: seq<Staged>) {
    NoNil(out) && ByStage(out) && SameStages(ms, out)
  }

  ghost predicate SameStages(a: seq<Staged>, b: seq<Staged>) {
    forall s {:trigger OfStage(a, s)} {:trigger OfStage(b, s)} :: OfStage(a, s) == OfStage(b, s)
  }

  lemma {:induction false} OfStageConcat(a: seq<Staged>, b: seq<Staged>, s: int)
    ensures OfStage(a + b, s) == OfStage(a, s) + OfStage(b, s)
  {
    if a == [] {
      assert a + b == b;
    } else {
      assert (a + b)[1..] == a[1..] + b;
      OfStageConcat(a[1..], b, s);
    }
  }

  lemma {:induction false} OfStageMembers(ms: seq<Staged>, s: int)
    ensures forall m :: m in OfStage(ms, s) <==> m in ms && m.wrapper.Some? && m.stage == s
  {
    if ms != [] {
      OfStageMembers(ms[1..], s);
      assert ms == [ms[0]] + ms[1..];
    }
  }

  lemma FirstStageLeast(a: seq<Staged>, b: seq<Staged>)
    requires NoNil(a) && NoNil(b) && ByStage(b) && a != [] && SameStages(a, b)
    ensures b != [] && b[0].stage <= a[0].stage
  {
    OfStageMembers(a, a[0].stage);
    OfStageMembers(b, a[0].stage);
    assert a[0] in OfStage(b, a[0].stage);
  }

  /** A list sorted by stage is determined by what it holds in each stage. */
  lemma {:induction false} DeterminedByStages(a: seq<Staged>, b: seq<Staged>)
    requires NoNil(a) && NoNil(b) && ByStage(a) && ByStage(b) && SameStages(a, b)
    ensures a == b
  {
    if a != [] || b != [] {
      if a != [] { FirstStageLeast(a, b); }
      if b != [] { FirstStageLeast(b, a); }
      var s := a[0].stage;
      assert OfStage(a, s)[0] == a[0] && OfStage(b, s)[0] == b[0];
      assert OfStage(a, s) == OfStage(b, s);
      forall t ensures OfStage(a[1..], t) == OfStage(b[1..], t) {
        assert OfStage(a, t) == OfStage(b, t);
        assert OfStage(a[1..], t) == OfStage(a, t)[if t == s then 1 else 0..];
        assert OfStage(b[1..], t) == OfStage(b, t)[if t == s then 1 else 0..];
      }
      DeterminedByStages(a[1..], b[1..]);
      assert a == [a[0]] + a[1..] && b == [b[0]] + b[1..];
    }
  }

  /** Puts a middleware after every other of its own or an earlier stage. */
  function Place(ms: seq<Staged>, m: Staged): seq<Staged> {
    if ms == [] || ms[|ms| - 1].stage <= m.stage then ms + [m]
    else Place(ms[..|ms| - 1], m) + [ms[|ms| - 1]]
  }

  function Normalized(ms: seq<Staged>): seq<Staged> {
    if ms == [] then []
    else
      var front, m := Normalized(ms[..|ms| - 1]), ms[|ms| - 1];
      if m.wrapper.None? then front else Place(front, m)
  }

  lemma {:induction false} PlaceMembers(ms: seq<Staged>, m: Staged)
    ensures forall x :: x in Place(ms, m) <==> x in ms || x == m
  {
    if ms != [] && ms[|ms| - 1].stage > m.stage {
      PlaceMembers(ms[..|ms| - 1], m);
      assert ms == ms[..|ms| - 1] + [ms[|ms| - 1]];
    }
  }

  lemma {:induction false} PlaceStage(ms: seq<Staged>, m: Staged, s: int)
    ensures OfStage(Place(ms, m), s) == OfStage(ms + [m], s)
  {
    if ms != [] && ms[|ms| - 1].stage > m.stage {
      var front, last := ms[..|ms| - 1], ms[|ms| - 1];
      PlaceStage(front, m, s);
      assert ms + [m] == front + [last, m] && front + [m] + [] == front + [m];
      OfStageConcat(Place(front, m), [last], s);
      OfStageConcat(front, [m], s);
      OfStageConcat(front, [last, m], s);
      assert [last, m][1..] == [m];
      assert OfStage([last], s) == [] || OfStage([m], s) == [];
    }
  }

  lemma {:induction false} PlaceArranges(ms: seq<Staged>, m: Staged)
    requires NoNil(ms) && ByStage(ms) && m.wrapper.Some?
    ensures Arranges(ms + [m], Place(ms, m))
  {
    hide OfStage;
    forall s ensures OfStage(ms + [m], s) == OfStage(Place(ms, m), s) {
      PlaceStage(ms, m, s);
    }
    if ms != [] && ms[|ms| - 1].stage > m.stage {
      PlaceArranges(ms[..|ms| - 1], m);
      PlaceMembers(ms[..|ms| - 1], m);
      forall x | x in Place(ms[..|ms| - 1], m) ensures x.stage <= ms[|ms| - 1].stage {
      }
    }
  }

  lemma {:induction false} NormalizedArranges(ms: seq<Staged>)
    ensures Arranges(ms, Normalized(ms))
  {
    if ms != [] {
      var front, m := ms[..|ms| - 1], ms[|ms| - 1];
      assert ms == front + [m];
      NormalizedArranges(front);
      if m.wrapper.Some? {
        PlaceArranges(Normalized(front), m);
      }
      forall s ensures OfStage(ms, s) == OfStage(Normalized(ms), s) {
        OfStageConcat(front, [m], s);
        OfStageConcat(Normalized(front), [m], s);
        assert OfStage(front, s) == OfStage(Normalized(front), s);
      }
    }
  }

  /** The stable sort is unique. */
  lemma {:induction false} ArrangedIsNormalized(ms: seq<Staged>, out: seq<Staged>)
    requires Arranges(ms, out)
    ensures out == Normalized(ms)
  {
    NormalizedArranges(ms);
    forall s ensures OfStage(out, s) == OfStage(Normalized(ms), s) {
      assert OfStage(ms, s) == OfStage(out, s);
    }
    DeterminedByStages(out, Normalized(ms));
  }

  lemma StageOfThree(a: seq<Staged>, b: seq<Staged>, c: seq<Staged>, s: int)
    ensures OfStage(a + b + c, s) == OfStage(a, s) + OfStage(b, s) + OfStage(c, s)
  {
    OfStageConcat(a + b, c, s);
    OfStageConcat(a, b, s);
  }

  // ------------------------------------------------------------- sorting in place

  ghost predicate Swapped(a: seq<Staged>, b: seq<Staged>, j: nat) {
    0 < j < |a| && b == a[j - 1 := a[j]][j := a[j - 1]]
  }

  lemma {:induction false} SwapKeepsStages(a: seq<Staged>, b: seq<Staged>, j: nat)
    requires Swapped(a, b, j) && a[j].stage != a[j - 1].stage
    ensures SameStages(a, b)
  {
    var pre, post := a[..j - 1], a[j + 1..];
    assert a == pre + [a[j - 1], a[j]] + post;
    assert b == pre + [a[j], a[j - 1]] + post;
    forall s ensures OfStage(a, s) == OfStage(b, s) {
      StageOfThree(pre, [a[j - 1], a[j]], post, s);
      StageOfThree(pre, [a[j], a[j - 1]], post, s);
      assert [a[j - 1], a[j]][1..] == [a[j]] && [a[j], a[j - 1]][1..] == [a[j - 1]];
    }
  }

  /** The first `i + 1` elements are in order, but for the one at `j`, which may be too far right. */
  predicate AlmostByStage(ms: seq<Staged>, i: nat, j: nat) {
    && j <= i < |ms|
    && (forall x, y :: 0 <= x < y <= i && x != j && y != j ==> ms[x].stage <= ms[y].stage)
    && (forall y :: j < y <= i ==> ms[j].stage <= ms[y].stage)
  }

  lemma StartInsertion(ms: seq<Staged>, i: nat)
    requires i < |ms| && ByStage(ms[..i])
    ensures AlmostByStage(ms, i, i)
  {
    forall x, y | 0 <= x < y <= i && x != i && y != i ensures ms[x].stage <= ms[y].stage {
      assert ms[..i][x] == ms[x] && ms[..i][y] == ms[y];
    }
  }

  lemma EndInsertion(ms: seq<Staged>, i: nat, j: nat)
    requires AlmostByStage(ms, i, j) && (j == 0 || ms[j - 1].stage <= ms[j].stage)
    ensures ByStage(ms[..i + 1])
  {
  }

  lemma SwapInserts(was: seq<Staged>, a: seq<Staged>, b: seq<Staged>, i: nat, j: nat)
    requires NoNil(a) && SameStages(was, a) && AlmostByStage(a, i, j)
    requires Swapped(a, b, j) && a[j].stage < a[j - 1].stage
    ensures NoNil(b) && SameStages(was, b) && AlmostByStage(b, i, j - 1)
  {
    hide SameStages;
    SwapKeepsStages(a, b, j);
    SameStagesTrans(was, a, b);
  }

  /** Sorts by stage, keeping the order within a stage. */
  method SortRuntimeMiddlewares(a: array<Staged>)
    requires NoNil(a[..])
    modifies a
    ensures a[..] == Normalized(old(a[..]))
  {
    hide OfStage, Normalized, SameStages, NoNil, ByStage, AlmostByStage;
    ghost var was := a[..];
    SameStagesRefl(was);
    ShortIsSorted(a[..]);
    var i := 1;
    while i < a.Length
      invariant 1 <= i
      invariant if a.Length == 0 then ByStage(a[..]) else i <= a.Length && ByStage(a[..][..i])
      invariant NoNil(a[..]) && SameStages(was, a[..])
    {
      var j := i;
      StartInsertion(a[..], i);
      while j > 0 && a[j].stage < a[j - 1].stage
        invariant 0 <= j <= i && AlmostByStage(a[..], i, j)
        invariant NoNil(a[..]) && SameStages(was, a[..])
      {
        ghost var now := a[..];
        a[j], a[j - 1] := a[j - 1], a[j];
        SwapInserts(was, now, a[..], i, j);
        j := j - 1;
      }
      EndInsertion(a[..], i, j);
      i := i + 1;
    }
    assert a[..] == a[..][..a.Length];
    ArrangedIsNormalized(was, a[..]);
  }

  lemma ShortIsSorted(ms: seq<Staged>)
    ensures ByStage(if ms == [] then ms else ms[..1])
  {
  }

  lemma SameStagesTrans(a: seq<Staged>, b: seq<Staged>, c: seq<Staged>)
    requires SameStages(a, b) && SameStages(b, c)
    ensures SameStages(a, c)
  {
    forall s ensures OfStage(a, s) == OfStage(c, s) {
      assert OfStage(a, s) == OfStage(b, s);
    }
  }

  method NormalizeRuntimeMiddlewares(ms: seq<Staged>) returns (r: seq<Staged>)
    ensures r == Normalized(ms)
  {
    hide OfStage, Normalized;
    var out: seq<Staged> := [];
    SameStagesRefl(ms[..0]);
    assert ms[..0] == [];
    for i := 0 to |ms|
      invariant NoNil(out) && SameStages(ms[..i], out)
    {
      StagesStep(ms, i, out);
      if ms[i].wrapper.Some? {
        out := out + [ms[i]];
      }
    }
    assert ms[..|ms|] == ms;
    var a := new Staged[|out|](k requires 0 <= k < |out| => out[k]);
    assert a[..] == out;
    SortRuntimeMiddlewares(a);
    r := a[..];
    NormalizedArranges(out);
    SameStagesTrans(ms, out, r);
    ArrangedIsNormalized(ms, r);
  }

  lemma SameStagesRefl(a: seq<Staged>)
    ensures SameStages(a, a)
  {
  }

  lemma StagesStep(ms: seq<Staged>, i: nat, out: seq<Staged>)
    requires i < |ms| && SameStages(ms[..i], out)
    ensures SameStages(ms[..i + 1], if ms[i].wrapper.Some? then out + [ms[i]] else out)
  {
    assert ms[..i + 1] == ms[..i] + [ms[i]];
    var more := if ms[i].wrapper.Some? then out + [ms[i]] else out;
    forall s ensures OfStage(ms[..i + 1], s) == OfStage(more, s) {
      OfStageConcat(ms[..i], [ms[i]], s);
      OfStageConcat(out, [ms[i]], s);
      assert OfStage(ms[..i], s) == OfStage(out, s);
    }
  }

  // ----------------------------------------------------------------- dispatcher

  datatype Error = PatternRequired | BadHandlerChain | HandlerNotFound(pattern: string)

  /** What a pattern was registered with. */
  datatype Registration = Registration(handler: Handler, given: seq<Staged>, timeout: int)

  predicate HasStage(ms: seq<Staged>, stage: int) {
    exists i :: 0 <= i < |ms| && ms[i].wrapper.Some? && ms[i].stage == stage
  }

  /** The route's middlewares, with a timeout added when one is set and none was given. */
  function Route(r: Registration, timeoutOf: int -> Wrapper): seq<Staged> {
    var missing := r.timeout > 0 && !HasStage(r.given, TIMEOUT_STAGE);
    r.given + (if missing then [Staged(TIMEOUT_STAGE, Some(timeoutOf(r.timeout)))] else [])
  }

  lemma {:induction false} HasStageMeans(ms: seq<Staged>, stage: int)
    ensures HasStage(ms, stage) <==> OfStage(ms, stage) != []
  {
    OfStageMembers(ms, stage);
    if HasStage(ms, stage) {
      var i :| 0 <= i < |ms| && ms[i].wrapper.Some? && ms[i].stage == stage;
      assert ms[i] in OfStage(ms, stage);
    }
    if OfStage(ms, stage) != [] {
      var m := OfStage(ms, stage)[0];
      assert m in OfStage(ms, stage);
      var i :| 0 <= i < |ms| && ms[i] == m;
    }
  }

  method HasRuntimeMiddlewareStage(ms: seq<Staged>, stage: int) returns (found: bool)
    ensures found == HasStage(ms, stage)
  {
    for i := 0 to |ms|
      invariant forall k :: 0 <= k < i ==> !(ms[k].wrapper.Some? && ms[k].stage == stage)
    {
      if ms[i].wrapper.Some? && ms[i].stage == stage {
        return true;
      }
    }
    return false;
  }

  /** The timeout that registering adds: one was set, and no middleware was given for its stage. */
  function Added(r: Registration, timeoutOf: int -> Wrapper, stage: int): seq<Staged> {
    if stage == TIMEOUT_STAGE && r.timeout > 0 && OfStage(r.given, TIMEOUT_STAGE) == [] then
      [Staged(TIMEOUT_STAGE, Some(timeoutOf(r.timeout)))]
    else []
  }

  /** The middlewares of a dispatch: by stage; in a stage the used ones first, then those given, each as registered. */
  ghost predicate LinedUp(ms: seq<Staged>, used: seq<Staged>, r: Registration, timeoutOf: int -> Wrapper) {
    && NoNil(ms) && ByStage(ms)
    && forall s :: OfStage(ms, s) == OfStage(used, s) + OfStage(r.given, s) + Added(r, timeoutOf, s)
  }

  /** The answer for a pattern, and a message of some type: what the registered handler does inside its middlewares. */
  ghost predicate Answers(registered: map<string, Registration>, used: seq<Staged>, timeoutOf: int -> Wrapper,
    pattern: string, taskType: string, r: Result<Outcome, Error>)
  {
    if pattern !in registered then r == Err(HandlerNotFound(pattern))
    else exists ms ::
      && LinedUp(ms, used, registered[pattern], timeoutOf)
      && r == Ok(Chain(registered[pattern].handler, ms)(Delivery(taskType, [])))
  }

  lemma {:induction false} NormalizedLinesUp(used: seq<Staged>, r: Registration, timeoutOf: int -> Wrapper)
    ensures LinedUp(Normalized(used + Route(r, timeoutOf)), used, r, timeoutOf)
  {
    hide OfStage, Normalized, HasStage;
    var route := Route(r, timeoutOf);
    var ms := Normalized(used + route);
    NormalizedArranges(used + route);
    HasStageMeans(r.given, TIMEOUT_STAGE);
    forall s ensures OfStage(ms, s) == OfStage(used, s) + OfStage(r.given, s) + Added(r, timeoutOf, s) {
      assert OfStage(used + route, s) == OfStage(ms, s);
      OfStageConcat(used, route, s);
      RouteStage(r, timeoutOf, s);
    }
  }

  lemma RouteStage(r: Registration, timeoutOf: int -> Wrapper, s: int)
    ensures OfStage(Route(r, timeoutOf), s) == OfStage(r.given, s) + Added(r, timeoutOf, s)
  {
    HasStageMeans(r.given, TIMEOUT_STAGE);
    OfStageConcat(r.given, Route(r, timeoutOf)[|r.given|..], s);
    assert Route(r, timeoutOf) == r.given + Route(r, timeoutOf)[|r.given|..];
  }

  /** When all middlewares pass through, the handler runs between their entries, in order, and their exits in reverse. */
  lemma {:induction false} DispatchOrder(registered: map<string, Registration>, used: seq<Staged>,
    timeoutOf: int -> Wrapper, pattern: string, taskType: string, answer: Result<Outcome, Error>, name: Staged -> string)
    returns (ms: seq<Staged>)
    requires Answers(registered, used, timeoutOf, pattern, taskType, answer) && pattern in registered
    requires AllPassThrough(used + registered[pattern].given, name)
    requires forall t :: PassThrough(timeoutOf(t), name(Staged(TIMEOUT_STAGE, Some(timeoutOf(t)))))
    ensures LinedUp(ms, used, registered[pattern], timeoutOf)
    ensures answer == Ok(Nested(registered[pattern].handler, Names(ms, name), Delivery(taskType, [])))
  {
    hide OfStage, PassThrough, Nested;
    var r := registered[pattern];
    ms :| LinedUp(ms, used, r, timeoutOf) && answer == Ok(Chain(r.handler, ms)(Delivery(taskType, [])));
    forall m | m in ms && m.wrapper.Some? ensures PassThrough(m.wrapper.value, name(m)) {
      OfStageMembers(ms, m.stage);
      OfStageMembers(used, m.stage);
      OfStageMembers(r.given, m.stage);
      assert m in OfStage(used, m.stage) + OfStage(r.given, m.stage) + Added(r, timeoutOf, m.stage);
    }
    Nesting(r.handler, ms, name, Delivery(taskType, []));
  }

  class Dispatcher {
    const timeoutOf: int -> Wrapper
    var handlers: map<string, Handler>
    var routes: map<string, seq<Staged>>
    var middlewares: seq<Staged>
    ghost var registered: map<string, Registration>
    ghost var used: seq<Staged>

    constructor (timeoutOf: int -> Wrapper)
      ensures Valid() && registered == map[] && used == [] && this.timeoutOf == timeoutOf
    {
      this.timeoutOf := timeoutOf;
      handlers, routes, middlewares, registered, used := map[], map[], [], map[], [];
    }

    ghost predicate Valid()
      reads this
    {
      && Recorded(handlers, routes, registered, timeoutOf)
      && SameStages(used, middlewares)
    }

    method UseRuntime(ms: seq<Staged>)
      requires Valid()
      modifies `middlewares, `used
      ensures Valid() && used == old(used) + ms
    {
      hide OfStage, SameStages, SameRoute;
      assert ms[..0] == [] && used + [] == used;
      for i := 0 to |ms|
        invariant used == old(used) + ms[..i]
        invariant SameStages(used, middlewares)
      {
        assert (used + [ms[i]])[..|used|] == used && old(used) + ms[..i + 1] == used + [ms[i]];
        StagesStep(used + [ms[i]], |used|, middlewares);
        assert (used + [ms[i]])[..|used| + 1] == used + [ms[i]];
        if ms[i].wrapper.Some? {
          middlewares := middlewares + [ms[i]];
        }
        used := used + [ms[i]];
      }
      assert ms[..|ms|] == ms;
    }

    /** Registers a pattern anew; a chain of handlers that cannot be understood is `None`. */
    method Register(pattern: string, chain: Option<(Handler, seq<Staged>)>, timeout: int) returns (err: Option<Error>)
      requires Valid()
      modifies `handlers, `routes, `registered
      ensures Valid()
      ensures err == (if pattern == "" then Some(PatternRequired) else if chain.None? then Some(BadHandlerChain) else None)
      ensures registered == if err.Some? then old(registered) else
        old(registered)[pattern := Registration(chain.value.0, chain.value.1, timeout)]
    {
      hide OfStage, SameStages, SameRoute, Normalized, HasStage, Recorded;
      if pattern == "" {
        return Some(PatternRequired);
      }
      if chain.None? {
        return Some(BadHandlerChain);
      }
      var handler, given := chain.value.0, chain.value.1;
      var ms := NormalizeRuntimeMiddlewares(given);
      var has := HasRuntimeMiddlewareStage(ms, TIMEOUT_STAGE);
      if timeout > 0 && !has {
        ms := ms + [Staged(TIMEOUT_STAGE, Some(timeoutOf(timeout)))];
      }
      ghost var registration := Registration(handler, given, timeout);
      NormalizedRoute(registration, ms, timeoutOf);
      RecordedMore(handlers, routes, registered, timeoutOf, pattern, ms, registration);
      handlers := handlers[pattern := handler];
      routes := routes[pattern := ms];
      registered := registered[pattern := registration];
      return None;
    }

    method Dispatch(pattern: string, message: Option<string>) returns (r: Result<Outcome, Error>)
      requires Valid()
      ensures pattern == "" && message in [None, Some("")] ==> r == Err(PatternRequired)
      ensures pattern == "" && message.Some? && message.value != "" ==>
        Answers(registered, used, timeoutOf, message.value, message.value, r)
      ensures pattern != "" && message in [None, Some("")] ==>
        Answers(registered, used, timeoutOf, pattern, pattern, r)
      ensures pattern != "" && message.Some? && message.value != "" ==>
        Answers(registered, used, timeoutOf, pattern, message.value, r)
    {
      hide OfStage, SameStages, SameRoute, Normalized, LinedUp;
      var p := if pattern == "" && message.Some? then message.value else pattern;
      if p == "" {
        return Err(PatternRequired);
      }
      if p !in handlers {
        return Err(HandlerNotFound(p));
      }
      var found := NormalizeRuntimeMiddlewares(middlewares + routes[p]);
      var taskType := if message.None? || message.value == "" then p else message.value;
      var again := NormalizeRuntimeMiddlewares(found);
      var wrapped := ChainRuntime(handlers[p], again);
      NormalizedTwice(middlewares + routes[p]);
      SameRouteNormalizes(used, middlewares, registered[p], routes[p], timeoutOf);
      NormalizedLinesUp(used, registered[p], timeoutOf);
      r := Ok(wrapped(Delivery(taskType, [])));
    }
  }

  /** A stored route: the given one, stage by stage, with the timeout last in its stage. */
  ghost predicate SameRoute(stored: seq<Staged>, r: Registration, timeoutOf: int -> Wrapper) {
    SameStages(Route(r, timeoutOf), stored)
  }

  /** The dispatcher's maps hold what was registered last. */
  ghost predicate Recorded(
    handlers: map<string, Handler>, routes: map<string, seq<Staged>>, registered: map<string, Registration>,
    timeoutOf: int -> Wrapper)
  {
    && handlers.Keys == routes.Keys == registered.Keys
    && (forall p :: p in handlers ==> handlers[p] == registered[p].handler)
    && (forall p :: p in routes ==> SameRoute(routes[p], registered[p], timeoutOf))
  }

  lemma RecordedMore(
    handlers: map<string, Handler>, routes: map<string, seq<Staged>>, registered: map<string, Registration>,
    timeoutOf: int -> Wrapper, pattern: string, stored: seq<Staged>, r: Registration)
    requires Recorded(handlers, routes, registered, timeoutOf) && SameRoute(stored, r, timeoutOf)
    ensures Recorded(handlers[pattern := r.handler], routes[pattern := stored], registered[pattern := r], timeoutOf)
  {
    hide SameRoute;
  }

  lemma NormalizedRoute(r: Registration, stored: seq<Staged>, timeoutOf: int -> Wrapper)
    requires
      var ms := Normalized(r.given);
      var missing := r.timeout > 0 && !HasStage(ms, TIMEOUT_STAGE);
      stored == if missing then ms + [Staged(TIMEOUT_STAGE, Some(timeoutOf(r.timeout)))] else ms
    ensures SameRoute(stored, r, timeoutOf)
  {
    hide OfStage, Normalized, HasStage;
    var ms := Normalized(r.given);
    NormalizedArranges(r.given);
    HasStageMeans(r.given, TIMEOUT_STAGE);
    HasStageMeans(ms, TIMEOUT_STAGE);
    assert OfStage(r.given, TIMEOUT_STAGE) == OfStage(ms, TIMEOUT_STAGE);
    var added := Route(r, timeoutOf)[|r.given|..];
    assert Route(r, timeoutOf) == r.given + added && stored == ms + added;
    forall s ensures OfStage(Route(r, timeoutOf), s) == OfStage(stored, s) {
      OfStageConcat(r.given, added, s);
      OfStageConcat(ms, added, s);
      assert OfStage(r.given, s) == OfStage(ms, s);
    }
  }

  /** Normalising again changes nothing. */
  lemma {:induction false} NormalizedTwice(ms: seq<Staged>)
    ensures Normalized(Normalized(ms)) == Normalized(ms)
  {
    NormalizedArranges(ms);
    SameStagesRefl(Normalized(ms));
    ArrangedIsNormalized(Normalized(ms), Normalized(ms));
  }

  lemma SameRouteNormalizes(
    used: seq<Staged>, globals: seq<Staged>, r: Registration, stored: seq<Staged>, timeoutOf: int -> Wrapper)
    requires SameStages(used, globals) && SameRoute(stored, r, timeoutOf)
    ensures Normalized(globals + stored) == Normalized(used + Route(r, timeoutOf))
  {
    hide OfStage, Normalized, Route;
    var route := Route(r, timeoutOf);
    NormalizedArranges(globals + stored);
    forall s ensures OfStage(used + route, s) == OfStage(Normalized(globals + stored), s) {
      OfStageConcat(used, route, s);
      OfStageConcat(globals, stored, s);
      assert OfStage(used, s) == OfStage(globals, s) && OfStage(route, s) == OfStage(stored, s);
      assert OfStage(globals + stored, s) == OfStage(Normalized(globals + stored), s);
    }
    ArrangedIsNormalized(used + route, Normalized(globals + stored));
  }
}
