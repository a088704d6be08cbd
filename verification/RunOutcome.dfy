/** What a run followed by Stop reports and leaves behind, read off the calls that were made and those that fail. */
module RunOutcome {
  import opened Prelude
  import opened DependencyGraph
  import opened DependencySort
  import opened ProviderSelection
  import opened AppLifecycle

  /** A service whose Start was invoked. */
  ghost predicate Launched(calls: seq<Call>, services: set<string>, n: string) {
    n in services && Call(Kind.Start, n) in calls
  }

  /** A job's Start fails, so that everything started is stopped again at once. */
  ghost predicate RolledBack(calls: seq<Call>, services: set<string>, fails: set<Call>) {
    exists c :: c in calls && c.kind.Start? && c.name !in services && c in fails
  }

  /** Of the launched services, this one's Start returns first, while the run context is not done. */
  ghost predicate ReturnsFirst(calls: seq<Call>, services: set<string>, script: Script, n: string) {
    && !script.contextDone && Launched(calls, services, n)
    && exists i :: 0 <= i < |script.exits| && script.exits[i] == n && NoneBefore(calls, services, script.exits, i)
  }

  ghost predicate NoneBefore(calls: seq<Call>, services: set<string>, exits: seq<string>, i: nat)
    requires i <= |exits|
  {
    forall j :: 0 <= j < i ==> !Launched(calls, services, exits[j])
  }

  /** The service that ends the run, unless a rollback did. */
  ghost predicate EndsRun(calls: seq<Call>, services: set<string>, script: Script, n: string) {
    !RolledBack(calls, services, script.fails) && ReturnsFirst(calls, services, script, n)
  }

  /** Failing calls are reported, but for the stops of a rollback and for services that are not waited for. */
  ghost predicate Reported(calls: seq<Call>, services: set<string>, script: Script, c: Call) {
    match c.kind
    case Start => c.name !in services || EndsRun(calls, services, script, c.name)
    case Stop => !RolledBack(calls, services, script.fails)
    case _ => true
  }

  /** A failure that ends the start-up. */
  ghost predicate StartUp(services: set<string>, c: Call) {
    c.kind.RegisterCapability? || c.kind.RegisterProvider? || (c.kind.Start? && c.name !in services)
  }

  /**
   * Errors are reported in the order of the calls, each once: exactly those of failing calls that are waited for,
   * a failed start-up in front. The end of the wait, if there was one, is the first error.
   */
  ghost predicate Tells(calls: seq<Call>, services: set<string>, script: Script, faults: seq<Fault>) {
    && (forall c :: c in calls && c in script.fails && StartUp(services, c) ==>
          faults != [] && faults[0] == CallFailed(c))
    && (forall c :: CallFailed(c) in faults <==>
          c in calls && c in script.fails && Reported(calls, services, script, c))
    && (forall n :: ServiceExited(n) in faults <==>
          EndsRun(calls, services, script, n) && Call(Kind.Start, n) !in script.fails)
    && (ContextDone in faults <==>
          && !RolledBack(calls, services, script.fails)
          && (exists n :: Launched(calls, services, n))
          && forall n :: !ReturnsFirst(calls, services, script, n))
    && (forall i :: 0 <= i < |faults| ==> !faults[i].Unsortable? && (i > 0 ==> faults[i].CallFailed?))
    && (forall i, j :: 0 <= i < j < |faults| && faults[i].CallFailed? ==>
          faults[j].CallFailed? && Before(calls, faults[i].call, faults[j].call))
  }

  // --------------------------------------------------------------- the errors

  lemma CallsHold(kind: Kind, names: seq<string>, c: Call)
    ensures c in Calls(kind, names) <==> c.kind == kind && c.name in names
  {
    if c.kind == kind && c.name in names {
      var i :| 0 <= i < |names| && names[i] == c.name;
      assert Calls(kind, names)[i] == c;
    }
  }

  lemma ReverseHolds(names: seq<string>, n: string)
    ensures n in Reverse(names) <==> n in names
  {
    hide Reverse;
    if n in names {
      MembersReversed(names, n);
    }
    if n in Reverse(names) {
      ReverseMembers(names, n);
    }
  }

  lemma TeardownHolds(started: seq<string>, registered: seq<string>, c: Call)
    ensures c in Teardown(started, registered) <==>
      (c.kind.Stop? && c.name in started) || (c.kind.Shutdown? && c.name in registered)
  {
    hide Calls, Reverse;
    CallsHold(Kind.Stop, Reverse(started), c);
    CallsHold(Shutdown, Reverse(registered), c);
    ReverseHolds(started, c.name);
    ReverseHolds(registered, c.name);
  }

  lemma LogHolds(caps: seq<string>, providers: seq<string>, services: set<string>, fails: set<Call>, c: Call)
    ensures
      var k := FirstFailing(RegisterCapability, caps, {}, fails);
      var p := FirstFailing(RegisterProvider, providers, {}, fails);
      var started := if k < |caps| || p < |providers| then [] else Started(providers, services, fails);
      c in FullLog(caps, providers, services, fails) <==>
        match c.kind
        case RegisterCapability => c.name in Tried(caps, k)
        case RegisterProvider => k == |caps| && c.name in Tried(providers, p)
        case Start => c.name in started
        case Stop => c.name in started
        case Shutdown => c.name in caps[..k]
  {
    hide Calls, Teardown, Tried, Started, FirstFailing;
    var k := FirstFailing(RegisterCapability, caps, {}, fails);
    var p := FirstFailing(RegisterProvider, providers, {}, fails);
    var started := if k < |caps| || p < |providers| then [] else Started(providers, services, fails);
    CallsHold(RegisterCapability, Tried(caps, k), c);
    CallsHold(RegisterProvider, Tried(providers, p), c);
    CallsHold(Kind.Start, started, c);
    TeardownHolds(started, caps[..k], c);
  }

  /** The faults of some calls are those of the failing ones, in order. */
  lemma {:induction false} FaultsHold(calls: seq<Call>, fails: set<Call>)
    ensures
      var faults := Faults(calls, fails);
      && (forall f :: f in faults <==> f.CallFailed? && f.call in calls && f.call in fails)
      && (forall i, j :: 0 <= i < j < |faults| ==> Before(calls, faults[i].call, faults[j].call))
  {
    hide Before;
    if calls != [] {
      var front, last := calls[..|calls| - 1], calls[|calls| - 1];
      assert calls == front + [last];
      FaultsHold(front, fails);
      FaultsAppend(front, last, fails);
      var before, faults := Faults(front, fails), Faults(calls, fails);
      forall i, j | 0 <= i < j < |faults| ensures Before(calls, faults[i].call, faults[j].call) {
        assert faults[i] == before[i] && before[i] in before;
        if j < |before| {
          assert faults[j] == before[j];
          BeforeAppend(front, [last], faults[i].call, faults[j].call);
        } else {
          BeforeAcross(front, [last], faults[i].call, last);
        }
      }
    }
  }

  lemma BeforeAppend(a: seq<Call>, b: seq<Call>, c: Call, d: Call)
    ensures Before(a, c, d) ==> Before(a + b, c, d)
    ensures Before(b, c, d) ==> Before(a + b, c, d)
  {
    if Before(a, c, d) {
      var i, j :| 0 <= i < j < |a| && a[i] == c && a[j] == d;
      assert (a + b)[i] == c && (a + b)[j] == d;
    }
    if Before(b, c, d) {
      var i, j :| 0 <= i < j < |b| && b[i] == c && b[j] == d;
      assert (a + b)[|a| + i] == c && (a + b)[|a| + j] == d;
    }
  }

  lemma BeforeAcross(a: seq<Call>, b: seq<Call>, c: Call, d: Call)
    requires c in a && d in b
    ensures Before(a + b, c, d)
  {
    var i :| 0 <= i < |a| && a[i] == c;
    var j :| 0 <= j < |b| && b[j] == d;
    assert (a + b)[i] == c && (a + b)[|a| + j] == d;
  }

  /** What is in front of the errors of the calls in `rest`. */
  ghost predicate Heads(calls: seq<Call>, front: seq<Call>, services: set<string>, script: Script, head: seq<Fault>) {
    && |head| <= 1
    && (forall c :: c in front && c in script.fails && Reported(calls, services, script, c) ==> head == [CallFailed(c)])
    && (forall c :: head == [CallFailed(c)] ==> c in front && c in script.fails && Reported(calls, services, script, c))
    && (forall n :: head == [ServiceExited(n)] <==>
          EndsRun(calls, services, script, n) && Call(Kind.Start, n) !in script.fails)
    && (head == [ContextDone] <==>
          && !RolledBack(calls, services, script.fails)
          && (exists n :: Launched(calls, services, n))
          && forall n :: !ReturnsFirst(calls, services, script, n))
    && (head != [] ==> !head[0].Unsortable?)
  }

  lemma {:induction false} Assembled(
    front: seq<Call>, rest: seq<Call>, services: set<string>, script: Script, head: seq<Fault>)
    requires Heads(front + rest, front, services, script, head)
    requires forall c :: c in rest ==> Reported(front + rest, services, script, c) && !StartUp(services, c)
    ensures Tells(front + rest, services, script, head + Faults(rest, script.fails))
  {
    hide Reported, EndsRun, RolledBack, ReturnsFirst, Launched, Faults, Before;
    var calls, tail := front + rest, Faults(rest, script.fails);
    var faults := head + tail;
    FaultsHold(rest, script.fails);
    forall c | c in calls && c in script.fails && StartUp(services, c) ensures faults != [] && faults[0] == CallFailed(c) {
      StartUpReported(calls, services, script, c);
      assert c in front;
    }
    forall c ensures CallFailed(c) in faults <==> c in calls && c in script.fails && Reported(calls, services, script, c) {
      if CallFailed(c) in head {
        assert head == [CallFailed(c)];
      }
    }
    forall n ensures ServiceExited(n) in faults <==> head == [ServiceExited(n)] {
    }
    assert ContextDone in faults <==> head == [ContextDone];
    forall i | 0 <= i < |faults| ensures !faults[i].Unsortable? && (i > 0 ==> faults[i].CallFailed?) {
      if i >= |head| {
        assert faults[i] == tail[i - |head|] && faults[i] in tail;
      }
    }
    forall i, j | 0 <= i < j < |faults| && faults[i].CallFailed?
      ensures faults[j].CallFailed? && Before(calls, faults[i].call, faults[j].call)
    {
      assert faults[j] == tail[j - |head|] && faults[j] in tail;
      if i < |head| {
        assert head == [CallFailed(faults[i].call)];
        BeforeAcross(front, rest, faults[i].call, faults[j].call);
      } else {
        assert faults[i] == tail[i - |head|];
        BeforeAppend(front, rest, faults[i].call, faults[j].call);
      }
    }
  }

  lemma StartUpReported(calls: seq<Call>, services: set<string>, script: Script, c: Call)
    requires StartUp(services, c)
    ensures Reported(calls, services, script, c)
  {
  }

  /** No Start, no wait. */
  lemma NothingLaunched(calls: seq<Call>, services: set<string>, script: Script)
    requires forall c :: c in calls ==> !c.kind.Start?
    ensures !RolledBack(calls, services, script.fails)
    ensures forall n :: !Launched(calls, services, n) && !EndsRun(calls, services, script, n)
  {
  }

  lemma {:induction false} CapabilityFailureTells(
    caps: seq<string>, providers: seq<string>, services: set<string>, script: Script)
    requires FirstFailing(RegisterCapability, caps, {}, script.fails) < |caps|
    ensures Tells(FullLog(caps, providers, services, script.fails), services, script,
      FullFaults(caps, providers, services, script))
  {
    hide Calls, Teardown, Launched, EndsRun, RolledBack, ReturnsFirst, FirstFailing, FullLog;
    var k := FirstFailing(RegisterCapability, caps, {}, script.fails);
    var front, rest := Calls(RegisterCapability, caps[..k + 1]), Teardown([], caps[..k]);
    FullLogCapabilityFailure(caps, providers, services, script.fails);
    var head := [CallFailed(Call(RegisterCapability, caps[k]))];
    forall c ensures c in front <==> c.kind.RegisterCapability? && c.name in caps[..k + 1] {
      CallsHold(RegisterCapability, caps[..k + 1], c);
    }
    forall c ensures c in rest <==> c.kind.Shutdown? && c.name in caps[..k] {
      TeardownHolds([], caps[..k], c);
    }
    NothingLaunched(front + rest, services, script);
    assert caps[..k + 1][k] == caps[k];
    forall c | c in front && c in script.fails ensures head == [CallFailed(c)] {
      var i :| 0 <= i < k + 1 && caps[i] == c.name;
    }
    assert Heads(front + rest, front, services, script, head);
    Assembled(front, rest, services, script, head);
  }

  lemma {:induction false} ProviderFailureTells(
    caps: seq<string>, providers: seq<string>, services: set<string>, script: Script)
    requires FirstFailing(RegisterCapability, caps, {}, script.fails) == |caps|
    requires FirstFailing(RegisterProvider, providers, {}, script.fails) < |providers|
    ensures Tells(FullLog(caps, providers, services, script.fails), services, script,
      FullFaults(caps, providers, services, script))
  {
    hide Calls, Teardown, Launched, EndsRun, RolledBack, ReturnsFirst, FirstFailing, FullLog;
    var p := FirstFailing(RegisterProvider, providers, {}, script.fails);
    var front := Calls(RegisterCapability, caps) + Calls(RegisterProvider, providers[..p + 1]);
    var rest := Teardown([], caps);
    FullLogProviderFailure(caps, providers, services, script.fails);
    var head := [CallFailed(Call(RegisterProvider, providers[p]))];
    forall c ensures c in front <==>
      (c.kind.RegisterCapability? && c.name in caps) || (c.kind.RegisterProvider? && c.name in providers[..p + 1])
    {
      CallsHold(RegisterCapability, caps, c);
      CallsHold(RegisterProvider, providers[..p + 1], c);
    }
    forall c ensures c in rest <==> c.kind.Shutdown? && c.name in caps {
      TeardownHolds([], caps, c);
    }
    NothingLaunched(front + rest, services, script);
    assert providers[..p + 1][p] == providers[p];
    NoneFails(RegisterCapability, caps, script.fails);
    forall c | c in front && c in script.fails ensures head == [CallFailed(c)] {
      if c.kind.RegisterProvider? {
        var i :| 0 <= i < p + 1 && providers[i] == c.name;
      }
    }
    assert Heads(front + rest, front, services, script, head);
    Assembled(front, rest, services, script, head);
  }

  /** The calls up to the end of the start phase. */
  ghost function Opening(caps: seq<string>, providers: seq<string>, started: seq<string>): seq<Call> {
    Calls(RegisterCapability, caps) + Calls(RegisterProvider, providers) + Calls(Kind.Start, started)
  }

  lemma OpeningHolds(caps: seq<string>, providers: seq<string>, started: seq<string>, c: Call)
    ensures c in Opening(caps, providers, started) <==>
      || (c.kind.RegisterCapability? && c.name in caps)
      || (c.kind.RegisterProvider? && c.name in providers)
      || (c.kind.Start? && c.name in started)
  {
    hide Calls;
    CallsHold(RegisterCapability, caps, c);
    CallsHold(RegisterProvider, providers, c);
    CallsHold(Kind.Start, started, c);
  }

  lemma NoneFails(kind: Kind, names: seq<string>, fails: set<Call>)
    requires FirstFailing(kind, names, {}, fails) == |names|
    ensures forall n :: n in names ==> Call(kind, n) !in fails
  {
    hide FirstFailing;
  }

  lemma {:induction false} RollbackTells(
    caps: seq<string>, providers: seq<string>, services: set<string>, script: Script)
    requires FirstFailing(RegisterCapability, caps, {}, script.fails) == |caps|
    requires FirstFailing(RegisterProvider, providers, {}, script.fails) == |providers|
    requires FirstFailing(Kind.Start, providers, services, script.fails) < |providers|
    ensures Tells(FullLog(caps, providers, services, script.fails), services, script,
      FullFaults(caps, providers, services, script))
  {
    hide Calls, Teardown, Launched, ReturnsFirst, FirstFailing, FullLog, Opening, Reverse;
    var k := FirstFailing(Kind.Start, providers, services, script.fails);
    var started := providers[..k + 1];
    var stops, rest := Calls(Kind.Stop, Reverse(started)), Calls(Shutdown, Reverse(caps));
    var front := Opening(caps, providers, started) + stops;
    FullLogStart(caps, providers, services, script.fails);
    RollbackLog(caps, providers, started);
    assert FullLog(caps, providers, services, script.fails) == front + rest;
    var head := [CallFailed(Call(Kind.Start, providers[k]))];
    forall c ensures c in front <==> c in Opening(caps, providers, started) || (c.kind.Stop? && c.name in started) {
      CallsHold(Kind.Stop, Reverse(started), c);
      ReverseHolds(started, c.name);
    }
    forall c ensures c in rest <==> c.kind.Shutdown? && c.name in caps {
      CallsHold(Shutdown, Reverse(caps), c);
      ReverseHolds(caps, c.name);
    }
    assert started[k] == providers[k];
    OpeningHolds(caps, providers, started, Call(Kind.Start, providers[k]));
    assert Call(Kind.Start, providers[k]) in front + rest;
    NoneFails(RegisterCapability, caps, script.fails);
    NoneFails(RegisterProvider, providers, script.fails);
    forall c | c in front && c in script.fails && Reported(front + rest, services, script, c)
      ensures head == [CallFailed(c)]
    {
      OpeningHolds(caps, providers, started, c);
      assert c.kind.Start? && c.name in started && c.name !in services;
      var i :| 0 <= i < k + 1 && providers[i] == c.name;
    }
    assert Heads(front + rest, front, services, script, head);
    Assembled(front, rest, services, script, head);
  }

  lemma RollbackLog(caps: seq<string>, providers: seq<string>, started: seq<string>)
    ensures Calls(RegisterCapability, caps) + Calls(RegisterProvider, providers) + Calls(Kind.Start, started)
      + Teardown(started, caps) ==
      Opening(caps, providers, started) + Calls(Kind.Stop, Reverse(started)) + Calls(Shutdown, Reverse(caps))
  {
    hide Calls, Reverse;
  }

  /** The first exit among the launched services is the one that returns first. */
  lemma {:induction false} ExitReturnsFirst(
    calls: seq<Call>, services: set<string>, script: Script, launched: set<string>, n: string)
    requires forall m :: m in launched <==> Launched(calls, services, m)
    ensures ReturnsFirst(calls, services, script, n) <==>
      !script.contextDone && FirstExit(script.exits, launched) == Some(n)
  {
    hide Launched, FirstExit;
    var exits := script.exits;
    if FirstExit(exits, launched).Some? {
      var i := ExitIndex(exits, launched);
      assert NoneBefore(calls, services, exits, i);
    }
  }

  lemma {:induction false} ExitIndex(exits: seq<string>, launched: set<string>) returns (i: nat)
    requires FirstExit(exits, launched).Some?
    ensures i < |exits| && FirstExit(exits, launched) == Some(exits[i]) && exits[i] in launched
    ensures forall j :: 0 <= j < i ==> exits[j] !in launched
  {
    if exits[0] in launched {
      i := 0;
    } else {
      i := ExitIndex(exits[1..], launched);
      i := i + 1;
      forall j | 0 <= j < i ensures exits[j] !in launched {
        assert j > 0 ==> exits[j] == exits[1..][j - 1];
      }
    }
  }

  lemma {:induction false} StartedTells(
    caps: seq<string>, providers: seq<string>, services: set<string>, script: Script)
    requires FirstFailing(RegisterCapability, caps, {}, script.fails) == |caps|
    requires FirstFailing(RegisterProvider, providers, {}, script.fails) == |providers|
    requires FirstFailing(Kind.Start, providers, services, script.fails) == |providers|
    ensures Tells(FullLog(caps, providers, services, script.fails), services, script,
      FullFaults(caps, providers, services, script))
  {
    hide Calls, Teardown, FirstFailing, FullLog, Opening, Reverse, FirstExit, ReturnsFirst;
    var launched := set n | n in providers && n in services;
    var front, rest := Opening(caps, providers, providers), Teardown(providers, caps);
    FullLogStart(caps, providers, services, script.fails);
    StartedLog(caps, providers);
    var calls := FullLog(caps, providers, services, script.fails);
    assert calls == front + rest;
    var head := if launched == {} then [] else [EndFault(launched, script)];
    forall c ensures c in rest <==> (c.kind.Stop? && c.name in providers) || (c.kind.Shutdown? && c.name in caps) {
      TeardownHolds(providers, caps, c);
    }
    NoneFails(RegisterCapability, caps, script.fails);
    NoneFails(RegisterProvider, providers, script.fails);
    forall c | c in front && c in script.fails ensures c.kind.Start? && c.name in launched {
      OpeningHolds(caps, providers, providers, c);
      var i :| 0 <= i < |providers| && providers[i] == c.name;
    }
    forall n ensures Launched(calls, services, n) <==> n in launched {
      OpeningHolds(caps, providers, providers, Call(Kind.Start, n));
    }
    forall n ensures ReturnsFirst(calls, services, script, n) <==>
      !script.contextDone && FirstExit(script.exits, launched) == Some(n)
    {
      ExitReturnsFirst(calls, services, script, launched, n);
    }
    assert !RolledBack(calls, services, script.fails);
    WaitHeads(calls, front, services, script, launched, head);
    Assembled(front, rest, services, script, head);
  }

  lemma StartedLog(caps: seq<string>, providers: seq<string>)
    ensures Calls(RegisterCapability, caps) + Calls(RegisterProvider, providers) + Calls(Kind.Start, providers)
      + Teardown(providers, caps) == Opening(caps, providers, providers) + Teardown(providers, caps)
  {
  }

  lemma {:induction false} WaitHeads(calls: seq<Call>, front: seq<Call>, services: set<string>, script: Script,
    launched: set<string>, head: seq<Fault>)
    requires head == if launched == {} then [] else [EndFault(launched, script)]
    requires !RolledBack(calls, services, script.fails)
    requires forall n :: Launched(calls, services, n) <==> n in launched
    requires forall n :: ReturnsFirst(calls, services, script, n) <==>
      !script.contextDone && FirstExit(script.exits, launched) == Some(n)
    requires forall c :: c in front && c in script.fails ==> c.kind.Start? && c.name in launched
    requires forall n :: n in launched ==> n in services && Call(Kind.Start, n) in front
    ensures Heads(calls, front, services, script, head)
  {
    hide RolledBack, Launched, ReturnsFirst, FirstExit;
    var exit := FirstExit(script.exits, launched);
    if launched != {} {
      var n :| n in launched;
      assert Launched(calls, services, n);
    }
    if exit.Some? && !script.contextDone {
      assert ReturnsFirst(calls, services, script, exit.value);
    }
  }

  lemma {:induction false} FullTells(caps: seq<string>, providers: seq<string>, services: set<string>, script: Script)
    ensures Tells(FullLog(caps, providers, services, script.fails), services, script,
      FullFaults(caps, providers, services, script))
  {
    hide Tells, FullLog, FullFaults, FirstFailing;
    if FirstFailing(RegisterCapability, caps, {}, script.fails) < |caps| {
      CapabilityFailureTells(caps, providers, services, script);
    } else if FirstFailing(RegisterProvider, providers, {}, script.fails) < |providers| {
      ProviderFailureTells(caps, providers, services, script);
    } else if FirstFailing(Kind.Start, providers, services, script.fails) < |providers| {
      RollbackTells(caps, providers, services, script);
    } else {
      StartedTells(caps, providers, services, script);
    }
  }

  // --------------------------------------------------------- each error once

  lemma CallsDistinct(kind: Kind, names: seq<string>)
    requires Distinct(names)
    ensures Distinct(Calls(kind, names))
  {
  }

  lemma ReverseDistinct(names: seq<string>)
    requires Distinct(names)
    ensures Distinct(Reverse(names))
  {
    hide Reverse;
    forall a, b | 0 <= a < b < |names| ensures Reverse(names)[a] != Reverse(names)[b] {
      assert names[|names| - 1 - a] != names[|names| - 1 - b];
    }
  }

  lemma ConcatDistinct(a: seq<Call>, b: seq<Call>)
    requires Distinct(a) && Distinct(b) && forall c :: c in a ==> c !in b
    ensures Distinct(a + b)
  {
    forall i, j | 0 <= i < j < |a + b| ensures (a + b)[i] != (a + b)[j] {
      if i < |a| <= j {
        assert (a + b)[i] in a && (a + b)[j] in b;
      }
    }
  }

  lemma TeardownDistinct(started: seq<string>, registered: seq<string>)
    requires Distinct(started) && Distinct(registered)
    ensures Distinct(Teardown(started, registered))
  {
    hide Calls, Reverse, Distinct;
    ReverseDistinct(started);
    ReverseDistinct(registered);
    CallsDistinct(Kind.Stop, Reverse(started));
    CallsDistinct(Shutdown, Reverse(registered));
    forall c | c in Calls(Kind.Stop, Reverse(started)) ensures c !in Calls(Shutdown, Reverse(registered)) {
      CallsHold(Kind.Stop, Reverse(started), c);
      CallsHold(Shutdown, Reverse(registered), c);
    }
    ConcatDistinct(Calls(Kind.Stop, Reverse(started)), Calls(Shutdown, Reverse(registered)));
  }

  lemma PrefixDistinct(names: seq<string>, k: nat)
    requires Distinct(names) && k <= |names|
    ensures Distinct(names[..k]) && Distinct(Tried(names, k))
  {
  }

  /** No call is made twice. */
  lemma {:induction false} LogDistinct(caps: seq<string>, providers: seq<string>, services: set<string>, fails: set<Call>)
    requires Distinct(caps) && Distinct(providers)
    ensures Distinct(FullLog(caps, providers, services, fails))
  {
    hide Calls, Distinct, Teardown, Tried, FirstFailing;
    var c := FirstFailing(RegisterCapability, caps, {}, fails);
    var p := FirstFailing(RegisterProvider, providers, {}, fails);
    var started := if c < |caps| || p < |providers| then [] else Started(providers, services, fails);
    var tried := if c < |caps| then [] else Tried(providers, p);
    NoneDistinct();
    PrefixDistinct(caps, c);
    PrefixDistinct(providers, p);
    PrefixDistinct(providers, FirstFailing(Kind.Start, providers, services, fails));
    PhasesDistinct(Tried(caps, c), tried, started, caps[..c]);
    assert c < |caps| ==> Calls(RegisterProvider, []) == [];
  }

  lemma NoneDistinct()
    ensures Distinct<string>([])
  {
  }

  lemma PhasesDistinct(caps: seq<string>, providers: seq<string>, started: seq<string>, registered: seq<string>)
    requires Distinct(caps) && Distinct(providers) && Distinct(started) && Distinct(registered)
    ensures Distinct(Opening(caps, providers, started) + Teardown(started, registered))
  {
    hide Calls, Distinct, Teardown;
    var a, b, d := Calls(RegisterCapability, caps), Calls(RegisterProvider, providers), Calls(Kind.Start, started);
    var e := Teardown(started, registered);
    CallsDistinct(RegisterCapability, caps);
    CallsDistinct(RegisterProvider, providers);
    CallsDistinct(Kind.Start, started);
    TeardownDistinct(started, registered);
    forall c: Call ensures
      && (c in a ==> c.kind.RegisterCapability?) && (c in b ==> c.kind.RegisterProvider?) && (c in d ==> c.kind.Start?)
      && (c in e ==> c.kind.Stop? || c.kind.Shutdown?)
    {
      CallsHold(RegisterCapability, caps, c);
      CallsHold(RegisterProvider, providers, c);
      CallsHold(Kind.Start, started, c);
      TeardownHolds(started, registered, c);
    }
    ConcatDistinct(a, b);
    ConcatDistinct(a + b, d);
    ConcatDistinct(a + b + d, e);
  }

  lemma ToldOnce(calls: seq<Call>, services: set<string>, script: Script, faults: seq<Fault>)
    requires Distinct(calls) && Tells(calls, services, script, faults)
    ensures Distinct(faults)
  {
    hide Reported, StartUp, EndsRun, RolledBack, ReturnsFirst, Launched;
    forall i, j | 0 <= i < j < |faults| ensures faults[i] != faults[j] {
      if faults[j].CallFailed? {
        NotBeforeItself(calls, faults[j].call);
      }
    }
  }

  lemma NotBeforeItself(calls: seq<Call>, c: Call)
    requires Distinct(calls)
    ensures !Before(calls, c, c)
  {
  }

  /** The errors of a run followed by Stop tell what happened, whatever fails and whichever service returns. */
  lemma {:induction false} RunTells(capabilities: seq<Component>, providers: seq<Component>, services: set<string>,
    script: Script, status: map<string, Status>, calls: seq<Call>, faults: seq<Fault>, statuses: map<string, Status>)
    requires RunCalls(capabilities, providers, true, services, script.fails, calls)
    requires RunReports(capabilities, providers, services, script, status, faults, statuses)
    ensures Tells(calls, services, script, faults)
    ensures UniqueNames(capabilities) && UniqueNames(providers) ==> Distinct(faults)
  {
    hide Ordered, FullLog, FullFaults, FullStatuses, Tells, UniqueNames, Distinct;
    var caps, ordered :| Ordered(capabilities, caps) && Ordered(providers, ordered)
      && calls == FullLog(Names(caps), Names(ordered), services, script.fails);
    SameOrder(capabilities, providers, caps, ordered, services, script, status, faults, statuses);
    FullTells(Names(caps), Names(ordered), services, script);
    if UniqueNames(capabilities) && UniqueNames(providers) {
      OrderedIsPermutation(capabilities, caps);
      OrderedIsPermutation(providers, ordered);
      NamesDistinct(caps);
      NamesDistinct(ordered);
      LogDistinct(Names(caps), Names(ordered), services, script.fails);
      ToldOnce(calls, services, script, faults);
    }
  }

  lemma {:induction false} SameOrder(capabilities: seq<Component>, providers: seq<Component>, caps: seq<Component>,
    ordered: seq<Component>, services: set<string>, script: Script, status: map<string, Status>,
    faults: seq<Fault>, statuses: map<string, Status>)
    requires Ordered(capabilities, caps) && Ordered(providers, ordered)
    requires RunReports(capabilities, providers, services, script, status, faults, statuses)
    ensures faults == FullFaults(Names(caps), Names(ordered), services, script)
    ensures statuses == FullStatuses(status, Names(caps), Names(ordered), services, script)
  {
    hide Ordered, FullFaults, FullStatuses;
    var caps', ordered' :| Ordered(capabilities, caps') && Ordered(providers, ordered')
      && faults == FullFaults(Names(caps'), Names(ordered'), services, script)
      && statuses == FullStatuses(status, Names(caps'), Names(ordered'), services, script);
    OrderedUnique(capabilities, caps, caps');
    OrderedUnique(providers, ordered, ordered');
  }

  // ------------------------------------------------------------- the statuses

  /** The status a provider is left in, by the calls made to it. */
  ghost function Left(calls: seq<Call>, services: set<string>, script: Script, n: string): Status {
    if Call(RegisterProvider, n) !in calls then Stopped
    else if Call(Kind.Start, n) !in calls then
      if Call(RegisterProvider, n) in script.fails then Failed else Booting
    else if
      || Call(Kind.Stop, n) in script.fails
      || (Call(Kind.Start, n) in script.fails && n !in services)
      || EndsRun(calls, services, script, n) then Failed
    else Stopped
  }

  /** The status a capability is left in, by the calls made to it. */
  ghost function LeftCapability(calls: seq<Call>, fails: set<Call>, n: string): Status {
    if (Call(RegisterCapability, n) in calls && Call(RegisterCapability, n) in fails)
      || (Call(Shutdown, n) in calls && Call(Shutdown, n) in fails) then Failed
    else Stopped
  }

  lemma {:induction false} CulpritIs(caps: seq<string>, providers: seq<string>, services: set<string>, script: Script,
    n: string)
    requires FirstFailing(RegisterCapability, caps, {}, script.fails) == |caps|
    requires FirstFailing(RegisterProvider, providers, {}, script.fails) == |providers|
    requires n in Started(providers, services, script.fails)
    ensures
      var calls := FullLog(caps, providers, services, script.fails);
      Culprit(providers, services, script) == Some(n) <==>
        (Call(Kind.Start, n) in script.fails && n !in services) || EndsRun(calls, services, script, n)
  {
    hide FirstFailing, FullLog, FirstExit, ReturnsFirst, Launched;
    var calls := FullLog(caps, providers, services, script.fails);
    var k := FirstFailing(Kind.Start, providers, services, script.fails);
    var launched := set m | m in providers && m in services;
    forall m ensures Call(Kind.Start, m) in calls <==> m in Started(providers, services, script.fails) {
      LogHolds(caps, providers, services, script.fails, Call(Kind.Start, m));
    }
    var i :| 0 <= i < |Started(providers, services, script.fails)| && providers[i] == n;
    if k < |providers| {
      assert providers[..k + 1][k] == providers[k];
      assert Call(Kind.Start, providers[k]) in calls;
      assert RolledBack(calls, services, script.fails);
    } else {
      forall m | m in providers ensures m in services || Call(Kind.Start, m) !in script.fails {
        var j :| 0 <= j < |providers| && providers[j] == m;
      }
      assert !RolledBack(calls, services, script.fails);
      LaunchedAre(calls, providers, services);
      ExitReturnsFirst(calls, services, script, launched, n);
    }
  }

  lemma LaunchedAre(calls: seq<Call>, providers: seq<string>, services: set<string>)
    requires forall m :: Call(Kind.Start, m) in calls <==> m in providers
    ensures forall m :: Launched(calls, services, m) <==> m in providers && m in services
  {
  }

  lemma {:induction false} FullLeft(status: map<string, Status>, caps: seq<string>, providers: seq<string>,
    services: set<string>, script: Script, n: string)
    requires n in status && status[n] == Stopped && forall m :: m in providers ==> m in status
    ensures
      var statuses := FullStatuses(status, caps, providers, services, script);
      statuses.Keys == status.Keys
      && statuses[n] == Left(FullLog(caps, providers, services, script.fails), services, script, n)
  {
    hide FirstFailing, FullLog, EndsRun, Culprit;
    var c := FirstFailing(RegisterCapability, caps, {}, script.fails);
    var p := FirstFailing(RegisterProvider, providers, {}, script.fails);
    LogHolds(caps, providers, services, script.fails, Call(RegisterProvider, n));
    LogHolds(caps, providers, services, script.fails, Call(Kind.Start, n));
    if c == |caps| && p < |providers| {
      FailedAt(providers, p, script.fails, n);
    } else if c == |caps| {
      NoneFails(RegisterProvider, providers, script.fails);
      if n in Started(providers, services, script.fails) {
        StartedAreProviders(providers, services, script.fails, n);
        CulpritIs(caps, providers, services, script, n);
      }
    }
  }

  lemma StartedAreProviders(providers: seq<string>, services: set<string>, fails: set<Call>, n: string)
    requires n in Started(providers, services, fails)
    ensures n in providers
  {
  }

  lemma FailedAt(providers: seq<string>, p: nat, fails: set<Call>, n: string)
    requires p == FirstFailing(RegisterProvider, providers, {}, fails) < |providers|
    ensures n in Tried(providers, p) <==> n in providers[..p] || n == providers[p]
    ensures n in providers[..p] ==> Call(RegisterProvider, n) !in fails
    ensures n == providers[p] ==> Call(RegisterProvider, n) in fails
  {
    hide FirstFailing;
    assert providers[..p + 1] == providers[..p] + [providers[p]];
  }

  /** Every provider is left as the calls to it say. */
  lemma {:induction false} RunLeaves(capabilities: seq<Component>, providers: seq<Component>, needed: seq<Component>,
    services: set<string>, script: Script, calls: seq<Call>, faults: seq<Fault>, statuses: map<string, Status>)
    requires MakeNameSet(needed) <= MakeNameSet(providers)
    requires RunCalls(capabilities, needed, true, services, script.fails, calls)
    requires RunReports(capabilities, needed, services, script, AllStopped(providers), faults, statuses)
    ensures statuses == map n | n in Names(providers) :: Left(calls, services, script, n)
  {
    hide Ordered, FullLog, FullFaults, FullStatuses, Left, MakeNameSet;
    var caps, ordered :| Ordered(capabilities, caps) && Ordered(needed, ordered)
      && calls == FullLog(Names(caps), Names(ordered), services, script.fails);
    var status := AllStopped(providers);
    SameOrder(capabilities, needed, caps, ordered, services, script, status, faults, statuses);
    OrderedIsPermutation(needed, ordered);
    SameNames(providers, ordered);
    FullKeys(status, Names(caps), Names(ordered), services, script);
    forall n | n in status ensures statuses[n] == Left(calls, services, script, n) {
      FullLeft(status, Names(caps), Names(ordered), services, script, n);
    }
  }

  lemma FullKeys(status: map<string, Status>, caps: seq<string>, providers: seq<string>, services: set<string>,
    script: Script)
    requires forall m :: m in providers ==> m in status
    ensures FullStatuses(status, caps, providers, services, script).Keys == status.Keys
  {
    hide FirstFailing;
  }

  /** Every capability is left as the calls to it say. */
  lemma {:induction false} RunLeavesCapabilities(capabilities: seq<Component>, providers: seq<Component>,
    services: set<string>, script: Script, calls: seq<Call>, statuses: map<string, Status>)
    requires RunCalls(capabilities, providers, true, services, script.fails, calls)
    requires CapabilitiesLeft(capabilities, true, script.fails, AllStopped(capabilities), statuses)
    ensures statuses == map n | n in Names(capabilities) :: LeftCapability(calls, script.fails, n)
  {
    hide Ordered, FullLog, FullCapabilities, LeftCapability;
    var caps, ordered :| Ordered(capabilities, caps) && Ordered(providers, ordered)
      && calls == FullLog(Names(caps), Names(ordered), services, script.fails);
    var caps' :| Ordered(capabilities, caps')
      && statuses == FullCapabilities(AllStopped(capabilities), Names(caps'), script.fails);
    OrderedUnique(capabilities, caps, caps');
    CapabilitiesKeys(AllStopped(capabilities), Names(caps), script.fails);
    forall n | n in AllStopped(capabilities) ensures statuses[n] == LeftCapability(calls, script.fails, n) {
      FullLeftCapability(AllStopped(capabilities), Names(caps), Names(ordered), services, script.fails, n);
    }
  }

  lemma CapabilitiesKeys(status: map<string, Status>, caps: seq<string>, fails: set<Call>)
    ensures FullCapabilities(status, caps, fails).Keys == status.Keys
  {
    hide FirstFailing;
  }

  lemma {:induction false} FullLeftCapability(status: map<string, Status>, caps: seq<string>, providers: seq<string>,
    services: set<string>, fails: set<Call>, n: string)
    requires n in status && status[n] == Stopped
    ensures FullCapabilities(status, caps, fails)[n] == LeftCapability(FullLog(caps, providers, services, fails), fails, n)
  {
    hide FirstFailing, FullLog;
    var k := FirstFailing(RegisterCapability, caps, {}, fails);
    LogHolds(caps, providers, services, fails, Call(RegisterCapability, n));
    LogHolds(caps, providers, services, fails, Call(Shutdown, n));
    if n in caps[..k] {
      var i :| 0 <= i < k && caps[i] == n;
    }
    if k < |caps| {
      assert caps[..k + 1] == caps[..k] + [caps[k]];
    }
  }

  // ---------------------------------------------------------------- the calls

  /** `made` is what one phase calls of `names`: all in order, up to the first that fails and is not exempt. */
  ghost predicate UpToFailure(
    kind: Kind, names: seq<string>, exempt: set<string>, fails: set<Call>, made: seq<string>)
  {
    && made <= names
    && (forall i :: 0 <= i < |made| - 1 ==> made[i] in exempt || Call(kind, made[i]) !in fails)
    && (made != names ==> made != [] && made[|made| - 1] !in exempt && Call(kind, made[|made| - 1]) in fails)
  }

  lemma TriedUpToFailure(kind: Kind, names: seq<string>, exempt: set<string>, fails: set<Call>)
    ensures UpToFailure(kind, names, exempt, fails, Tried(names, FirstFailing(kind, names, exempt, fails)))
  {
    hide FirstFailing;
  }

  /** Some call of this kind is made and fails. */
  ghost predicate SomeFails(calls: seq<Call>, kind: Kind, fails: set<Call>) {
    exists c :: c in calls && c.kind == kind && c in fails
  }

  /** Each phase makes its calls in the sorted order up to a failure, and only after the phases before went well. */
  lemma {:induction false} RunPhases(capabilities: seq<Component>, providers: seq<Component>, caps: seq<Component>,
    ordered: seq<Component>, services: set<string>, fails: set<Call>, calls: seq<Call>)
    requires RunCalls(capabilities, providers, true, services, fails, calls)
    requires Ordered(capabilities, caps) && Ordered(providers, ordered)
    ensures UpToFailure(RegisterCapability, Names(caps), {}, fails, OfKind(calls, RegisterCapability))
    ensures if SomeFails(calls, RegisterCapability, fails) then OfKind(calls, RegisterProvider) == []
      else UpToFailure(RegisterProvider, Names(ordered), {}, fails, OfKind(calls, RegisterProvider))
    ensures
      if SomeFails(calls, RegisterCapability, fails) || SomeFails(calls, RegisterProvider, fails) then
        OfKind(calls, Kind.Start) == []
      else UpToFailure(Kind.Start, Names(ordered), services, fails, OfKind(calls, Kind.Start))
  {
    hide Ordered, FullLog, FirstFailing, Tried, UpToFailure, OfKind, SomeFails, Phases;
    var caps', ordered' :| Ordered(capabilities, caps') && Ordered(providers, ordered')
      && calls == FullLog(Names(caps'), Names(ordered'), services, fails);
    OrderedUnique(capabilities, caps, caps');
    OrderedUnique(providers, ordered, ordered');
    LogPhases(Names(caps), Names(ordered), services, fails);
    PhaseFails(Names(caps), Names(ordered), services, fails);
    TriedUpToFailure(RegisterCapability, Names(caps), {}, fails);
    TriedUpToFailure(RegisterProvider, Names(ordered), {}, fails);
    TriedUpToFailure(Kind.Start, Names(ordered), services, fails);
  }

  lemma {:induction false} PhaseFails(caps: seq<string>, providers: seq<string>, services: set<string>, fails: set<Call>)
    ensures
      var calls := FullLog(caps, providers, services, fails);
      var c := FirstFailing(RegisterCapability, caps, {}, fails);
      var p := FirstFailing(RegisterProvider, providers, {}, fails);
      && (SomeFails(calls, RegisterCapability, fails) <==> c < |caps|)
      && (SomeFails(calls, RegisterProvider, fails) <==> c == |caps| && p < |providers|)
  {
    hide FullLog, FirstFailing;
    var calls := FullLog(caps, providers, services, fails);
    var c := FirstFailing(RegisterCapability, caps, {}, fails);
    var p := FirstFailing(RegisterProvider, providers, {}, fails);
    forall n ensures
      && (Call(RegisterCapability, n) in calls <==> n in Tried(caps, c))
      && (Call(RegisterProvider, n) in calls <==> c == |caps| && n in Tried(providers, p))
    {
      LogHolds(caps, providers, services, fails, Call(RegisterCapability, n));
      LogHolds(caps, providers, services, fails, Call(RegisterProvider, n));
    }
    if c < |caps| {
      assert Tried(caps, c)[c] == caps[c];
    }
    if p < |providers| {
      assert Tried(providers, p)[p] == providers[p];
    }
  }

  lemma {:induction false} LogPhases(caps: seq<string>, providers: seq<string>, services: set<string>, fails: set<Call>)
    ensures
      var calls := FullLog(caps, providers, services, fails);
      var c := FirstFailing(RegisterCapability, caps, {}, fails);
      var p := FirstFailing(RegisterProvider, providers, {}, fails);
      && OfKind(calls, RegisterCapability) == Tried(caps, c)
      && OfKind(calls, RegisterProvider) == (if c < |caps| then [] else Tried(providers, p))
      && OfKind(calls, Kind.Start) == if c < |caps| || p < |providers| then [] else Started(providers, services, fails)
  {
    hide FirstFailing, Tried, OfKind, Reverse, Calls;
    var c := FirstFailing(RegisterCapability, caps, {}, fails);
    var p := FirstFailing(RegisterProvider, providers, {}, fails);
    var tried := if c < |caps| then [] else Tried(providers, p);
    var started := if c < |caps| || p < |providers| then [] else Started(providers, services, fails);
    assert c < |caps| ==> Calls(RegisterProvider, []) == [];
    PhasesOfKind(Tried(caps, c), tried, started, Reverse(started), Reverse(caps[..c]), RegisterCapability);
    PhasesOfKind(Tried(caps, c), tried, started, Reverse(started), Reverse(caps[..c]), RegisterProvider);
    PhasesOfKind(Tried(caps, c), tried, started, Reverse(started), Reverse(caps[..c]), Kind.Start);
  }

  // --------------------------------------------------------- run, then stop

  lemma NeededNames(providers: seq<Component>, name: string)
    requires UniqueNames(providers)
    ensures UniqueNames(Needed(providers, name)) && MakeNameSet(Needed(providers, name)) <= MakeNameSet(providers)
  {
    hide UniqueNames;
    OnlyNamedUnique(providers, ReachableFrom(RegistryOf(providers), name));
  }

  lemma AllLeftFailed(components: seq<Component>)
    ensures AllFailed(AllStopped(components)) == map n | n in Names(components) :: Failed
  {
  }

  /** Run everything, then stop. */
  method RunAllProviders(app: App, capabilities: seq<Component>, providers: seq<Component>, services: set<string>,
    script: Script)
    returns (faults: seq<Fault>, ghost calls: seq<Call>)
    requires app.Valid()
    modifies app
    ensures app.Valid() && app.stopped
    ensures RunCalls(capabilities, providers, BothSortable(capabilities, providers), services, script.fails, calls)
    ensures app.log == old(app.log) + calls
    ensures BothSortable(capabilities, providers) ==>
      && Tells(calls, services, script, faults)
      && (UniqueNames(capabilities) && UniqueNames(providers) ==> Distinct(faults))
      && app.providerStatus == (map n | n in Names(providers) :: Left(calls, services, script, n))
      && app.capabilityStatus == map n | n in Names(capabilities) :: LeftCapability(calls, script.fails, n)
    ensures !BothSortable(capabilities, providers) ==>
      && Unsorted(capabilities, providers, faults)
      && app.providerStatus == (map n | n in Names(providers) :: Failed)
      && app.capabilityStatus == map n | n in Names(capabilities) :: Failed
  {
    hide RunReports, Unsorted, BothSortable, RunCalls, Faults, Left, LeftCapability, Tells, MakeNameSet;
    hide UniqueNames, Distinct, AllFailed, AllStopped, Names, Ordered;
    var runFaults;
    runFaults, calls := app.RunAllProviders(capabilities, providers, services, script);
    var stopFaults := app.Stop(script.fails);
    faults := runFaults + stopFaults;
    AllLeftFailed(capabilities);
    AllLeftFailed(providers);
    if BothSortable(capabilities, providers) {
      RunTells(capabilities, providers, services, script, AllStopped(providers), calls, faults, app.providerStatus);
      RunLeaves(capabilities, providers, providers, services, script, calls, faults, app.providerStatus);
      RunLeavesCapabilities(capabilities, providers, services, script, calls, app.capabilityStatus);
    }
  }

  /** Run one provider, then stop. */
  method RunProvider(app: App, name: string, capabilities: seq<Component>, providers: seq<Component>,
    services: set<string>, script: Script)
    returns (faults: seq<Fault>, ghost calls: seq<Call>)
    requires app.Valid() && UniqueNames(providers)
    modifies app
    ensures app.Valid() && app.stopped
    ensures name !in RegistryOf(providers) ==>
      && app.log == old(app.log + app.PendingTeardown())
      && faults == [Unsortable(ProviderNotFound)] + Faults(old(app.PendingTeardown()), script.fails)
    ensures name in RegistryOf(providers) ==>
      RunCalls(capabilities, Needed(providers, name), OneRunnable(capabilities, providers, name), services,
        script.fails, calls)
    ensures name in RegistryOf(providers) ==> app.log == old(app.log) + calls
    ensures name in RegistryOf(providers) && OneRunnable(capabilities, providers, name) ==>
      && Tells(calls, services, script, faults)
      && (UniqueNames(capabilities) ==> Distinct(faults))
      && app.providerStatus == (map n | n in Names(providers) :: Left(calls, services, script, n))
      && app.capabilityStatus == map n | n in Names(capabilities) :: LeftCapability(calls, script.fails, n)
    ensures name in RegistryOf(providers) && !OneRunnable(capabilities, providers, name) ==>
      && Unselected(capabilities, providers, name, faults)
      && app.providerStatus == (map n | n in Names(providers) :: Failed)
      && app.capabilityStatus == map n | n in Names(capabilities) :: Failed
  {
    hide RunReports, Unselected, OneRunnable, RunCalls, Faults, Left, LeftCapability, Tells, MakeNameSet, Needed;
    hide UniqueNames, Distinct, AllFailed, AllStopped, Names, Ordered;
    var runFaults;
    runFaults, calls := app.RunProvider(name, capabilities, providers, services, script);
    var stopFaults := app.Stop(script.fails);
    faults := runFaults + stopFaults;
    AllLeftFailed(capabilities);
    AllLeftFailed(providers);
    if name in RegistryOf(providers) && OneRunnable(capabilities, providers, name) {
      var needed := Needed(providers, name);
      NeededNames(providers, name);
      RunTells(capabilities, needed, services, script, AllStopped(providers), calls, faults, app.providerStatus);
      RunLeaves(capabilities, providers, needed, services, script, calls, faults, app.providerStatus);
      RunLeavesCapabilities(capabilities, needed, services, script, calls, app.capabilityStatus);
    }
  }
}
