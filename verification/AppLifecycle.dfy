/** Starting an application, rolling it back and stopping it, as a log of calls into its parts. */
module AppLifecycle {
  import opened Prelude
  import opened DependencyGraph
  import opened DependencySort
  import opened ProviderSelection

  datatype Kind = RegisterCapability | RegisterProvider | Start | Stop | Shutdown

  datatype Call = Call(kind: Kind, name: string)

  datatype Status = Booting | Running | Stopping | Stopped | Failed

  datatype Fault =
    | Unsortable(cause: DependencyError)
    | CallFailed(call: Call)
    | ServiceExited(name: string)
    | ContextDone

  /** How the outside world answers: the calls that fail, the order in which the Start calls of
      services return, and whether the run context is done while a result is being looked at. */
  datatype Script = Script(fails: set<Call>, exits: seq<string>, contextDone: bool)

  // ----------------------------------------------------------- call sequences

  ghost function Calls(kind: Kind, names: seq<string>): (calls: seq<Call>)
    ensures |calls| == |names|
  {
    seq(|names|, i requires 0 <= i < |names| => Call(kind, names[i]))
  }

  ghost function Reverse(s: seq<string>): (r: seq<string>)
    ensures |r| == |s|
    ensures forall k :: 0 <= k < |s| ==> r[k] == s[|s| - 1 - k]
  {
    if s == [] then [] else [s[|s| - 1]] + Reverse(s[..|s| - 1])
  }

  function Names(components: seq<Component>): (names: seq<string>)
    ensures |names| == |components|
    ensures forall i :: 0 <= i < |names| ==> names[i] == components[i].name
  {
    seq(|components|, i requires 0 <= i < |components| => components[i].name)
  }

  /** The position of the first call of this kind that fails, or `|names|`. */
  ghost function FirstFailing(kind: Kind, names: seq<string>, exempt: set<string>, fails: set<Call>): (k: nat)
    ensures k <= |names|
    ensures forall i :: 0 <= i < k ==> names[i] in exempt || Call(kind, names[i]) !in fails
    ensures k < |names| ==> names[k] !in exempt && Call(kind, names[k]) in fails
  {
    if names == [] then 0
    else if names[0] !in exempt && Call(kind, names[0]) in fails then 0
    else 1 + FirstFailing(kind, names[1..], exempt, fails)
  }

  /** The names tried when the one at `k` is the first to fail. */
  ghost function Tried(names: seq<string>, k: nat): seq<string>
    requires k <= |names|
  {
    if k < |names| then names[..k + 1] else names
  }

  ghost function Teardown(started: seq<string>, registered: seq<string>): seq<Call> {
    Calls(Stop, Reverse(started)) + Calls(Shutdown, Reverse(registered))
  }

  /** How many providers have Start invoked: services never hold up the others, a failing job does. */
  ghost function Started(providers: seq<string>, services: set<string>, fails: set<Call>): seq<string> {
    Tried(providers, FirstFailing(Start, providers, services, fails))
  }

  /** Every call of one run followed by Stop, for sorted capabilities and providers. */
  ghost function FullLog(caps: seq<string>, providers: seq<string>, services: set<string>, fails: set<Call>): seq<Call> {
    var c := FirstFailing(RegisterCapability, caps, {}, fails);
    var p := FirstFailing(RegisterProvider, providers, {}, fails);
    var started := if c < |caps| || p < |providers| then [] else Started(providers, services, fails);
    Calls(RegisterCapability, Tried(caps, c))
    + (if c < |caps| then [] else Calls(RegisterProvider, Tried(providers, p)))
    + Calls(Start, started)
    + Teardown(started, caps[..c])
  }

  ghost function AfterStop(kind: Kind, name: string, fails: set<Call>): Status {
    if Call(kind, name) in fails then Failed else Stopped
  }

  /** Statuses after stopping `names`: each is stopped, or failed if its call failed. The one to keep
      (a provider whose Start just failed) is left as it is unless stopping it fails too. */
  ghost function StoppedStatuses(status: map<string, Status>, kind: Kind, names: seq<string>,
    keepFailed: Option<string>, fails: set<Call>): map<string, Status>
  {
    map n | n in status ::
      if n in names && (Some(n) != keepFailed || Call(kind, n) in fails) then AfterStop(kind, n, fails) else status[n]
  }

  lemma StatusesStep(status: map<string, Status>, kind: Kind, names: seq<string>, i: nat,
    keepFailed: Option<string>, fails: set<Call>)
    requires i < |names| && names[i] in status
    ensures var before := StoppedStatuses(status, kind, names[i + 1..], keepFailed, fails);
      var after := StoppedStatuses(status, kind, names[i..], keepFailed, fails);
      if Call(kind, names[i]) in fails then
        after == before[names[i] := Failed] == before[names[i] := Stopping][names[i] := Failed]
      else if Some(names[i]) != keepFailed then
        after == before[names[i] := Stopping][names[i] := Stopped]
      else after == before
  {
    assert names[i..] == [names[i]] + names[i + 1..];
  }

  lemma StoppedKeys(status: map<string, Status>, kind: Kind, names: seq<string>, fails: set<Call>)
    ensures StoppedStatuses(status, kind, names, None, fails).Keys == status.Keys
  {
  }

  lemma StatusesNone(status: map<string, Status>, kind: Kind, keepFailed: Option<string>, fails: set<Call>)
    ensures StoppedStatuses(status, kind, [], keepFailed, fails) == status
  {
  }

  /** The faults of making these calls, in order. */
  ghost function Faults(calls: seq<Call>, fails: set<Call>): seq<Fault> {
    if calls == [] then []
    else
      var last := calls[|calls| - 1];
      Faults(calls[..|calls| - 1], fails) + (if last in fails then [CallFailed(last)] else [])
  }

  lemma FaultsAppend(calls: seq<Call>, c: Call, fails: set<Call>)
    ensures Faults(calls + [c], fails) == Faults(calls, fails) + if c in fails then [CallFailed(c)] else []
  {
    assert (calls + [c])[..|calls|] == calls;
  }

  lemma CallsReverseStep(kind: Kind, names: seq<string>, i: nat, fails: set<Call>)
    requires i < |names|
    ensures Calls(kind, Reverse(names[i..])) == Calls(kind, Reverse(names[i + 1..])) + [Call(kind, names[i])]
    ensures Faults(Calls(kind, Reverse(names[i..])), fails) ==
      Faults(Calls(kind, Reverse(names[i + 1..])), fails)
      + if Call(kind, names[i]) in fails then [CallFailed(Call(kind, names[i]))] else []
  {
    FaultsAppend(Calls(kind, Reverse(names[i + 1..])), Call(kind, names[i]), fails);
  }

  lemma CallsReverseNone(kind: Kind, fails: set<Call>)
    ensures Calls(kind, Reverse([])) == [] && Faults([], fails) == []
  {
  }

  lemma CallsStep(kind: Kind, names: seq<string>, i: nat)
    requires i < |names|
    ensures Calls(kind, names[..i + 1]) == Calls(kind, names[..i]) + [Call(kind, names[i])]
  {
  }

  /** The first service whose Start returns, if any of them ever does. */
  function FirstExit(exits: seq<string>, launched: set<string>): (r: Option<string>)
    ensures r.Some? ==> r.value in launched && r.value in exits
    ensures r.None? ==> forall n :: n in exits ==> n !in launched
  {
    if exits == [] then None
    else if exits[0] in launched then Some(exits[0])
    else FirstExit(exits[1..], launched)
  }

  lemma {:induction false} FaultsConcat(a: seq<Call>, b: seq<Call>, fails: set<Call>)
    ensures Faults(a + b, fails) == Faults(a, fails) + Faults(b, fails)
  {
    if b == [] {
      assert a + b == a;
    } else {
      var front, last := b[..|b| - 1], b[|b| - 1];
      FaultsConcat(a, front, fails);
      assert a + b == (a + front) + [last];
      FaultsAppend(a + front, last, fails);
      assert b == front + [last];
    }
  }

  /** Who is to blame for ending the start phase: a failing job, or the first service to return. */
  ghost function Culprit(providers: seq<string>, services: set<string>, script: Script): Option<string> {
    var k := FirstFailing(Kind.Start, providers, services, script.fails);
    if k < |providers| then Some(providers[k])
    else if script.contextDone then None
    else FirstExit(script.exits, set n | n in providers && n in services)
  }

  /** Provider statuses after the start phase and Stop: the culprit stays failed, the other started
      providers are stopped or failed to stop, and providers never started keep their status. */
  ghost function FinalStatuses(status: map<string, Status>, providers: seq<string>, services: set<string>,
    script: Script): map<string, Status>
  {
    map n | n in status ::
      if n !in Started(providers, services, script.fails) then status[n]
      else if Some(n) == Culprit(providers, services, script) then Failed
      else AfterStop(Kind.Stop, n, script.fails)
  }

  /** What the start phase and Stop report. Stop calls that fail during a rollback go unreported. */
  ghost function StartFaults(providers: seq<string>, services: set<string>, registered: seq<string>, script: Script)
    : seq<Fault>
  {
    var k := FirstFailing(Kind.Start, providers, services, script.fails);
    var launched := set n | n in providers && n in services;
    if k < |providers| then
      [CallFailed(Call(Kind.Start, providers[k]))] + Faults(Calls(Shutdown, Reverse(registered)), script.fails)
    else
      (if launched == {} then [] else [EndFault(launched, script)]) + Faults(Teardown(providers, registered), script.fails)
  }

  /** What a whole run and Stop report: the first failing registration, or what the start phase reports. */
  ghost function FullFaults(caps: seq<string>, providers: seq<string>, services: set<string>, script: Script): seq<Fault> {
    var c := FirstFailing(RegisterCapability, caps, {}, script.fails);
    var p := FirstFailing(RegisterProvider, providers, {}, script.fails);
    if c < |caps| then
      [CallFailed(Call(RegisterCapability, caps[c]))] + Faults(Teardown([], caps[..c]), script.fails)
    else if p < |providers| then
      [CallFailed(Call(RegisterProvider, providers[p]))] + Faults(Teardown([], caps), script.fails)
    else StartFaults(providers, services, caps, script)
  }

  /** The provider statuses after a whole run and Stop. */
  ghost function FullStatuses(status: map<string, Status>, caps: seq<string>, providers: seq<string>,
    services: set<string>, script: Script): map<string, Status>
  {
    var p := FirstFailing(RegisterProvider, providers, {}, script.fails);
    if FirstFailing(RegisterCapability, caps, {}, script.fails) < |caps| then status
    else if p < |providers| then AllBooting(status, providers[..p])[providers[p] := Failed]
    else FinalStatuses(AllBooting(status, providers), providers, services, script)
  }

  /** The capability statuses after registering: those before the first failure run, that one failed. */
  ghost function RegisteredStatuses(status: map<string, Status>, caps: seq<string>, fails: set<Call>)
    : map<string, Status>
  {
    var k := FirstFailing(RegisterCapability, caps, {}, fails);
    map n | n in status ::
      if n in caps[..k] then Running else if k < |caps| && n == caps[k] then Failed else status[n]
  }

  lemma RegisterVerdict(status: map<string, Status>, caps: seq<string>, fails: set<Call>)
    requires forall n :: n in caps ==> n in status
    ensures
      var k := FirstFailing(RegisterCapability, caps, {}, fails);
      var before := RunningStatuses(status, caps[..k]);
      RegisteredStatuses(status, caps, fails) ==
        if k < |caps| then before[caps[k] := Booting][caps[k] := Failed] else before
  {
    hide FirstFailing;
    var k := FirstFailing(RegisterCapability, caps, {}, fails);
    assert forall i :: 0 <= i < k ==> caps[i] == caps[..k][i];
  }

  /** The capability statuses after a whole run and Stop. */
  ghost function FullCapabilities(status: map<string, Status>, caps: seq<string>, fails: set<Call>): map<string, Status> {
    var k := FirstFailing(RegisterCapability, caps, {}, fails);
    StoppedStatuses(RegisteredStatuses(status, caps, fails), Shutdown, caps[..k], None, fails)
  }

  function EndFault(launched: set<string>, script: Script): Fault {
    var exit := FirstExit(script.exits, launched);
    if exit.None? || script.contextDone then ContextDone
    else if Call(Kind.Start, exit.value) in script.fails then CallFailed(Call(Kind.Start, exit.value))
    else ServiceExited(exit.value)
  }

  ghost function AllBooting(status: map<string, Status>, names: seq<string>): map<string, Status> {
    map n | n in status :: if n in names then Booting else status[n]
  }

  lemma BootingNone(status: map<string, Status>)
    ensures AllBooting(status, []) == status
  {
  }

  lemma BootingStep(status: map<string, Status>, names: seq<string>, i: nat)
    requires i < |names| && names[i] in status
    ensures AllBooting(status, names[..i + 1]) == AllBooting(status, names[..i])[names[i] := Booting]
  {
    assert names[..i + 1] == names[..i] + [names[i]];
  }

  ghost function RunningStatuses(status: map<string, Status>, names: seq<string>): map<string, Status> {
    map n | n in status :: if n in names then Running else status[n]
  }

  lemma RunningStep(status: map<string, Status>, names: seq<string>, i: nat)
    requires i < |names| && names[i] in status
    ensures var before := RunningStatuses(status, names[..i]);
      RunningStatuses(status, names[..i + 1]) == before[names[i] := Booting][names[i] := Running]
  {
    assert names[..i + 1] == names[..i] + [names[i]];
  }

  lemma StartsNone(status: map<string, Status>)
    ensures RunningStatuses(status, []) == status && Calls(Kind.Start, []) == []
    ensures forall fails :: Faults([], fails) == []
  {
  }

  lemma TeardownConcat(started: seq<string>, registered: seq<string>)
    ensures Teardown(started, registered) == Calls(Kind.Stop, Reverse(started)) + Teardown([], registered)
  {
    EmptyTeardown(registered);
  }

  lemma EmptyTeardown(registered: seq<string>)
    ensures Teardown([], registered) == Calls(Shutdown, Reverse(registered))
  {
    assert Calls(Kind.Stop, Reverse([])) == [];
  }

  /** The rollback branch: job `i` is the first whose Start fails. */
  lemma {:induction false} RollbackVerdict(status: map<string, Status>, providers: seq<string>, services: set<string>,
    registered: seq<string>, script: Script, i: nat)
    requires i == FirstFailing(Kind.Start, providers, services, script.fails) < |providers|
    requires forall n :: n in providers ==> n in status
    ensures Started(providers, services, script.fails) == providers[..i + 1]
    ensures [CallFailed(Call(Kind.Start, providers[i]))] + Faults(Teardown([], registered), script.fails)
      == StartFaults(providers, services, registered, script)
    ensures
      var p := providers[i];
      var failed := RunningStatuses(status, providers[..i])[p := Booting][p := Failed];
      var rolledBack := StoppedStatuses(failed, Kind.Stop, providers[..i + 1], Some(p), script.fails);
      StoppedStatuses(rolledBack, Kind.Stop, [], None, script.fails) == FinalStatuses(status, providers, services, script)
  {
    hide Calls, Reverse, Teardown, StoppedStatuses, FinalStatuses, RunningStatuses;
    EmptyTeardown(registered);
    RollbackStatuses(status, providers, services, script, i);
  }

  lemma {:induction false} RollbackStatuses(status: map<string, Status>, providers: seq<string>, services: set<string>,
    script: Script, i: nat)
    requires i == FirstFailing(Kind.Start, providers, services, script.fails) < |providers|
    requires forall n :: n in providers ==> n in status
    ensures
      var p := providers[i];
      var failed := RunningStatuses(status, providers[..i])[p := Booting][p := Failed];
      var rolledBack := StoppedStatuses(failed, Kind.Stop, providers[..i + 1], Some(p), script.fails);
      StoppedStatuses(rolledBack, Kind.Stop, [], None, script.fails) == FinalStatuses(status, providers, services, script)
  {
    hide FirstFailing, FirstExit;
    assert providers[..i + 1] == providers[..i] + [providers[i]];
  }

  /** The other branches: every provider was started, and Stop follows now or later. */
  lemma {:induction false} StartedVerdict(status: map<string, Status>, providers: seq<string>, services: set<string>,
    registered: seq<string>, script: Script)
    requires FirstFailing(Kind.Start, providers, services, script.fails) == |providers|
    requires forall n :: n in providers ==> n in status
    ensures Started(providers, services, script.fails) == providers
    ensures
      var launched := set n | n in providers && n in services;
      var eventual := StoppedStatuses(RunningStatuses(status, providers), Kind.Stop, providers, None, script.fails);
      var exit := FirstExit(script.exits, launched);
      && StartFaults(providers, services, registered, script) ==
        (if launched == {} then [] else [EndFault(launched, script)]) + Faults(Teardown(providers, registered), script.fails)
      && FinalStatuses(status, providers, services, script) ==
        if exit.Some? && !script.contextDone then eventual[exit.value := Failed] else eventual
  {
  }

  // -------------------------------------------------------------------- the app

  class App {
    var registeredCapabilities: seq<string>
    var runningProviders: seq<string>
    var stopping: bool
    var stopped: bool
    var cancelled: bool
    var capabilityStatus: map<string, Status>
    var providerStatus: map<string, Status>
    ghost var log: seq<Call>

    constructor ()
      ensures registeredCapabilities == runningProviders == [] && log == []
      ensures !stopping && !stopped && !cancelled
    {
      registeredCapabilities, runningProviders := [], [];
      stopping, stopped, cancelled := false, false, false;
      capabilityStatus, providerStatus, log := map[], map[], [];
    }

    ghost predicate Valid()
      reads this
    {
      && !stopping
      && (forall n :: n in runningProviders ==> n in providerStatus)
      && (forall n :: n in registeredCapabilities ==> n in capabilityStatus)
    }

    /** The calls a Stop would make now. */
    ghost function PendingTeardown(): seq<Call>
      reads this
    {
      if stopped then [] else Teardown(runningProviders, registeredCapabilities)
    }

    /** The provider statuses once Stop has run. */
    ghost function EventualStatuses(fails: set<Call>): map<string, Status>
      reads this
    {
      if stopped then providerStatus else StoppedStatuses(providerStatus, Kind.Stop, runningProviders, None, fails)
    }

    /** The capability statuses once Stop has run. */
    ghost function EventualCapabilities(fails: set<Call>): map<string, Status>
      reads this
    {
      if stopped then capabilityStatus
      else StoppedStatuses(capabilityStatus, Shutdown, registeredCapabilities, None, fails)
    }

    method StopProviders(providers: seq<string>, keepFailed: Option<string>, fails: set<Call>)
      returns (faults: seq<Fault>)
      requires forall n :: n in providers ==> n in providerStatus
      modifies this`providerStatus, this`log
      ensures log == old(log) + Calls(Kind.Stop, Reverse(providers))
      ensures providerStatus == StoppedStatuses(old(providerStatus), Kind.Stop, providers, keepFailed, fails)
      ensures faults == Faults(Calls(Kind.Stop, Reverse(providers)), fails)
    {
      hide Faults, Calls, Reverse, StoppedStatuses;
      faults := [];
      var i := |providers|;
      assert providers[i..] == [];
      CallsReverseNone(Kind.Stop, fails);
      StatusesNone(providerStatus, Kind.Stop, keepFailed, fails);
      while i > 0
        invariant 0 <= i <= |providers|
        invariant log == old(log) + Calls(Kind.Stop, Reverse(providers[i..]))
        invariant providerStatus == StoppedStatuses(old(providerStatus), Kind.Stop, providers[i..], keepFailed, fails)
        invariant faults == Faults(Calls(Kind.Stop, Reverse(providers[i..])), fails)
      {
        i := i - 1;
        var name := providers[i];
        var call := Call(Kind.Stop, name);
        CallsReverseStep(Kind.Stop, providers, i, fails);
        StatusesStep(old(providerStatus), Kind.Stop, providers, i, keepFailed, fails);
        if Some(name) != keepFailed {
          providerStatus := providerStatus[name := Stopping];
        }
        log := log + [call];
        if call in fails {
          providerStatus := providerStatus[name := Failed];
          faults := faults + [CallFailed(call)];
          continue;
        }
        if Some(name) != keepFailed {
          providerStatus := providerStatus[name := Stopped];
        }
      }
      assert providers[0..] == providers;
    }

    method ShutdownCapabilities(capabilities: seq<string>, fails: set<Call>) returns (faults: seq<Fault>)
      requires forall n :: n in capabilities ==> n in capabilityStatus
      modifies this`capabilityStatus, this`log
      ensures log == old(log) + Calls(Shutdown, Reverse(capabilities))
      ensures capabilityStatus == StoppedStatuses(old(capabilityStatus), Shutdown, capabilities, None, fails)
      ensures faults == Faults(Calls(Shutdown, Reverse(capabilities)), fails)
    {
      hide Faults, Calls, Reverse, StoppedStatuses;
      faults := [];
      var i := |capabilities|;
      assert capabilities[i..] == [];
      CallsReverseNone(Shutdown, fails);
      StatusesNone(capabilityStatus, Shutdown, None, fails);
      while i > 0
        invariant 0 <= i <= |capabilities|
        invariant log == old(log) + Calls(Shutdown, Reverse(capabilities[i..]))
        invariant capabilityStatus == StoppedStatuses(old(capabilityStatus), Shutdown, capabilities[i..], None, fails)
        invariant faults == Faults(Calls(Shutdown, Reverse(capabilities[i..])), fails)
      {
        i := i - 1;
        var name := capabilities[i];
        var call := Call(Shutdown, name);
        CallsReverseStep(Shutdown, capabilities, i, fails);
        StatusesStep(old(capabilityStatus), Shutdown, capabilities, i, None, fails);
        capabilityStatus := capabilityStatus[name := Stopping];
        log := log + [call];
        if call in fails {
          capabilityStatus := capabilityStatus[name := Failed];
          faults := faults + [CallFailed(call)];
          continue;
        }
        capabilityStatus := capabilityStatus[name := Stopped];
      }
      assert capabilities[0..] == capabilities;
    }

    /** Stops what runs, in reverse, then shuts down what was registered, in reverse; once. */
    method Stop(fails: set<Call>) returns (faults: seq<Fault>)
      requires Valid()
      modifies this
      ensures Valid() && stopped
      ensures log == old(log) + old(PendingTeardown())
      ensures faults == Faults(old(PendingTeardown()), fails)
      ensures providerStatus == old(EventualStatuses(fails))
      ensures capabilityStatus == old(EventualCapabilities(fails))
      ensures !old(stopped) ==> runningProviders == registeredCapabilities == [] && cancelled
    {
      hide Faults, Calls, Reverse, StoppedStatuses;
      StoppedKeys(providerStatus, Kind.Stop, runningProviders, fails);
      StoppedKeys(capabilityStatus, Shutdown, registeredCapabilities, fails);
      if stopped {
        CallsReverseNone(Kind.Stop, fails);
        return [];
      }
      stopping := true;
      var providers, capabilities := runningProviders, registeredCapabilities;
      faults := StopProviders(providers, None, fails);
      var more := ShutdownCapabilities(capabilities, fails);
      FaultsConcat(Calls(Kind.Stop, Reverse(providers)), Calls(Shutdown, Reverse(capabilities)), fails);
      faults := faults + more;
      cancelled := true;
      runningProviders, registeredCapabilities := [], [];
      stopped, stopping := true, false;
    }

    /** Waits for the first service to return or the context to end; either way everything is stopped. */
    method WaitServiceProviders(launched: set<string>, script: Script) returns (faults: seq<Fault>)
      requires Valid() && !stopped && launched != {} && forall n :: n in launched ==> n in runningProviders
      modifies this
      ensures Valid() && stopped
      ensures log == old(log) + old(PendingTeardown())
      ensures faults == [EndFault(launched, script)] + Faults(old(PendingTeardown()), script.fails)
      ensures var exit := FirstExit(script.exits, launched);
        var eventual := old(EventualStatuses(script.fails));
        providerStatus == if exit.Some? && !script.contextDone then eventual[exit.value := Failed] else eventual
      ensures capabilityStatus == old(EventualCapabilities(script.fails))
      ensures cancelled
    {
      hide Faults, Calls, Reverse, Teardown;
      var exit := FirstExit(script.exits, launched);
      if exit.None? || script.contextDone {
        var stopFaults := Stop(script.fails);
        return [ContextDone] + stopFaults;
      }
      var fault := EndFault(launched, script);
      providerStatus := providerStatus[exit.value := Failed];
      var stopFaults := Stop(script.fails);
      providerStatus := providerStatus[exit.value := Failed];
      return [fault] + stopFaults;
    }

    /** Stops what was started, the provider whose Start failed first; what the stops report is dropped. */
    method RollBack(rollback: seq<string>, provider: string, fails: set<Call>)
      requires Valid() && !stopped && forall n :: n in rollback ==> n in providerStatus
      requires provider in providerStatus
      modifies this
      ensures Valid() && !stopped && cancelled && runningProviders == []
      ensures registeredCapabilities == old(registeredCapabilities) && capabilityStatus == old(capabilityStatus)
      ensures log + PendingTeardown() == old(log) + Teardown(rollback, registeredCapabilities)
      ensures providerStatus ==
        StoppedStatuses(old(providerStatus)[provider := Failed], Kind.Stop, rollback, Some(provider), fails)
    {
      hide Faults, Calls, Reverse, StoppedStatuses;
      providerStatus := providerStatus[provider := Failed];
      cancelled := true;
      var ignored := StopProviders(rollback, Some(provider), fails);
      runningProviders := [];
      TeardownConcat(rollback, registeredCapabilities);
    }

    /** Starts providers in order. A failing job rolls back everything started so far, itself included. */
    method StartProviders(providers: seq<string>, services: set<string>, script: Script)
      returns (faults: seq<Fault>)
      requires Valid() && !stopped && runningProviders == []
      requires forall n :: n in providers ==> n in providerStatus
      modifies this
      ensures Valid()
      ensures log + PendingTeardown() == old(log) + Calls(Kind.Start, Started(providers, services, script.fails))
        + Teardown(Started(providers, services, script.fails), old(registeredCapabilities))
      ensures faults + Faults(PendingTeardown(), script.fails) ==
        StartFaults(providers, services, old(registeredCapabilities), script)
      ensures EventualStatuses(script.fails) == FinalStatuses(old(providerStatus), providers, services, script)
      ensures EventualCapabilities(script.fails) == old(EventualCapabilities(script.fails))
    {
      hide Faults, Calls, Reverse, Teardown, StoppedStatuses, FinalStatuses, StartFaults, Started, RunningStatuses;
      StartsNone(providerStatus);
      var started: seq<string> := [];
      var launched: set<string> := {};
      for i := 0 to |providers|
        invariant Valid() && !stopped
        invariant i <= FirstFailing(Kind.Start, providers, services, script.fails)
        invariant started == runningProviders == providers[..i]
        invariant launched == set n | n in providers[..i] && n in services
        invariant log == old(log) + Calls(Kind.Start, providers[..i])
        invariant registeredCapabilities == old(registeredCapabilities)
        invariant capabilityStatus == old(capabilityStatus)
        invariant providerStatus == RunningStatuses(old(providerStatus), providers[..i])
      {
        var provider := providers[i];
        var call := Call(Kind.Start, provider);
        CallsStep(Kind.Start, providers, i);
        RunningStep(old(providerStatus), providers, i);
        assert providers[..i + 1] == providers[..i] + [provider];
        providerStatus := providerStatus[provider := Booting];
        runningProviders := runningProviders + [provider];
        log := log + [call];
        if provider in services {
          launched := launched + {provider};
          providerStatus := providerStatus[provider := Running];
          started := started + [provider];
          continue;
        }
        if call in script.fails {
          RollbackVerdict(old(providerStatus), providers, services, registeredCapabilities, script, i);
          RollBack(started + [provider], provider, script.fails);
          return [CallFailed(call)];
        }
        providerStatus := providerStatus[provider := Running];
        started := started + [provider];
      }
      assert providers[..|providers|] == providers;
      StartedVerdict(old(providerStatus), providers, services, registeredCapabilities, script);
      if launched == {} {
        return [];
      }
      faults := WaitServiceProviders(launched, script);
    }

    /** A fresh run forgets the previous one. */
    method PrepareRunContext(capabilities: seq<string>, providers: seq<string>)
      requires Valid()
      modifies this
      ensures Valid() && !stopped && !cancelled && runningProviders == registeredCapabilities == []
      ensures capabilityStatus == map n | n in capabilities :: Stopped
      ensures providerStatus == map n | n in providers :: Stopped
      ensures log == old(log)
    {
      registeredCapabilities, runningProviders := [], [];
      stopping, stopped, cancelled := false, false, false;
      capabilityStatus := map n | n in capabilities :: Stopped;
      providerStatus := map n | n in providers :: Stopped;
    }

    method FailRuntimeStatuses()
      modifies this`capabilityStatus, this`providerStatus
      ensures capabilityStatus == map n | n in old(capabilityStatus) :: Failed
      ensures providerStatus == map n | n in old(providerStatus) :: Failed
    {
      capabilityStatus := map n | n in capabilityStatus :: Failed;
      providerStatus := map n | n in providerStatus :: Failed;
    }

    /** Registers capabilities in order and remembers the ones that succeeded, up to the first failure. */
    method RegisterCapabilities(caps: seq<string>, fails: set<Call>) returns (fault: Option<Fault>)
      requires Valid() && !stopped && registeredCapabilities == [] && runningProviders == []
      requires forall n :: n in caps ==> n in capabilityStatus
      modifies this`capabilityStatus, this`registeredCapabilities, this`log
      ensures Valid()
      ensures var k := FirstFailing(RegisterCapability, caps, {}, fails);
        && log == old(log) + Calls(RegisterCapability, Tried(caps, k))
        && registeredCapabilities == caps[..k]
        && capabilityStatus == RegisteredStatuses(old(capabilityStatus), caps, fails)
        && fault == if k < |caps| then Some(CallFailed(Call(RegisterCapability, caps[k]))) else None
    {
      hide Calls, RunningStatuses, RegisteredStatuses;
      RegisterVerdict(capabilityStatus, caps, fails);
      StartsNone(capabilityStatus);
      for i := 0 to |caps|
        invariant Valid() && i <= FirstFailing(RegisterCapability, caps, {}, fails)
        invariant registeredCapabilities == caps[..i]
        invariant log == old(log) + Calls(RegisterCapability, caps[..i])
        invariant capabilityStatus.Keys == old(capabilityStatus.Keys)
        invariant capabilityStatus == RunningStatuses(old(capabilityStatus), caps[..i])
      {
        var call := Call(RegisterCapability, caps[i]);
        CallsStep(RegisterCapability, caps, i);
        RunningStep(old(capabilityStatus), caps, i);
        capabilityStatus := capabilityStatus[caps[i] := Booting];
        log := log + [call];
        if call in fails {
          capabilityStatus := capabilityStatus[caps[i] := Failed];
          return Some(CallFailed(call));
        }
        capabilityStatus := capabilityStatus[caps[i] := Running];
        registeredCapabilities := registeredCapabilities + [caps[i]];
      }
      assert caps[..|caps|] == caps;
      return None;
    }

    method RegisterProviders(providers: seq<string>, fails: set<Call>) returns (fault: Option<Fault>)
      requires Valid() && runningProviders == [] && forall n :: n in providers ==> n in providerStatus
      modifies this`providerStatus, this`log
      ensures Valid()
      ensures var k := FirstFailing(RegisterProvider, providers, {}, fails);
        && log == old(log) + Calls(RegisterProvider, Tried(providers, k))
        && fault == if k < |providers| then Some(CallFailed(Call(RegisterProvider, providers[k]))) else None
      ensures providerStatus.Keys == old(providerStatus.Keys)
      ensures fault.None? ==> providerStatus == AllBooting(old(providerStatus), providers)
      ensures fault.Some? ==>
        var k := FirstFailing(RegisterProvider, providers, {}, fails);
        providerStatus == AllBooting(old(providerStatus), providers[..k])[providers[k] := Failed]
    {
      hide AllBooting;
      BootingNone(providerStatus);
      for i := 0 to |providers|
        invariant i <= FirstFailing(RegisterProvider, providers, {}, fails)
        invariant log == old(log) + Calls(RegisterProvider, providers[..i])
        invariant providerStatus.Keys == old(providerStatus.Keys)
        invariant providerStatus == AllBooting(old(providerStatus), providers[..i])
      {
        var call := Call(RegisterProvider, providers[i]);
        CallsStep(RegisterProvider, providers, i);
        BootingStep(old(providerStatus), providers, i);
        providerStatus := providerStatus[providers[i] := Booting];
        log := log + [call];
        if call in fails {
          providerStatus := providerStatus[providers[i] := Failed];
          return Some(CallFailed(call));
        }
      }
      assert providers[..|providers|] == providers;
      return None;
    }

    /** Registers everything, then starts the providers. */
    method RegisterAndStart(caps: seq<string>, providers: seq<string>, services: set<string>, script: Script)
      returns (faults: seq<Fault>)
      requires Valid() && !stopped && registeredCapabilities == [] && runningProviders == []
      requires forall n :: n in caps ==> n in capabilityStatus
      requires forall n :: n in providers ==> n in providerStatus
      modifies this
      ensures Valid()
      ensures log + PendingTeardown() == old(log) + FullLog(caps, providers, services, script.fails)
      ensures faults + Faults(PendingTeardown(), script.fails) == FullFaults(caps, providers, services, script)
      ensures EventualStatuses(script.fails) == FullStatuses(old(providerStatus), caps, providers, services, script)
      ensures EventualCapabilities(script.fails) == FullCapabilities(old(capabilityStatus), caps, script.fails)
    {
      hide RegisteredStatuses;
      hide Faults, Calls, Reverse, Teardown, StoppedStatuses, FinalStatuses, StartFaults, Started, Tried, AllBooting;
      var fault := RegisterCapabilities(caps, script.fails);
      FullLogCapabilityFailure(caps, providers, services, script.fails);
      if fault.Some? {
        StatusesNone(providerStatus, Kind.Stop, None, script.fails);
        return [fault.value];
      }
      assert caps[..|caps|] == caps;
      fault := RegisterProviders(providers, script.fails);
      FullLogProviderFailure(caps, providers, services, script.fails);
      if fault.Some? {
        StatusesNone(providerStatus, Kind.Stop, None, script.fails);
        return [fault.value];
      }
      FullLogStart(caps, providers, services, script.fails);
      ghost var before := log;
      faults := StartProviders(providers, services, script);
      ghost var s := Started(providers, services, script.fails);
      assert before + Calls(Kind.Start, s) + Teardown(s, caps) == before + (Calls(Kind.Start, s) + Teardown(s, caps));
    }

    method RunSorted(capabilities: seq<Component>, providers: seq<Component>, services: set<string>, script: Script)
      returns (faults: seq<Fault>, ghost calls: seq<Call>)
      requires Valid() && !stopped && registeredCapabilities == [] && runningProviders == []
      requires forall n :: n in Names(capabilities) ==> n in capabilityStatus
      requires forall n :: n in Names(providers) ==> n in providerStatus
      modifies this
      ensures Valid()
      ensures RunCalls(capabilities, providers, BothSortable(capabilities, providers), services, script.fails, calls)
      ensures log + PendingTeardown() == old(log) + calls
      ensures BothSortable(capabilities, providers) ==>
        RunReports(capabilities, providers, services, script, old(providerStatus),
          faults + Faults(PendingTeardown(), script.fails), EventualStatuses(script.fails))
      ensures !BothSortable(capabilities, providers) ==>
        && faults + Faults(PendingTeardown(), script.fails) == faults && Unsorted(capabilities, providers, faults)
        && EventualStatuses(script.fails) == AllFailed(old(providerStatus))
      ensures
        CapabilitiesLeft(capabilities, BothSortable(capabilities, providers), script.fails, old(capabilityStatus),
          EventualCapabilities(script.fails))
    {
      hide FullCapabilities;
      hide Faults, Calls, Reverse, Teardown, StoppedStatuses, FullFaults, FullStatuses, FullLog, Ordered, Sortable;
      StatusesNone(AllFailed(providerStatus), Kind.Stop, None, script.fails);
      StatusesNone(AllFailed(capabilityStatus), Shutdown, None, script.fails);
      NoFaults(script.fails);
      var sortedCapabilities := SortCapabilities(capabilities);
      if sortedCapabilities.Err? {
        FailRuntimeStatuses();
        NothingToTear();
        return [Unsortable(sortedCapabilities.error)], [];
      }
      var caps := sortedCapabilities.value;
      OrderedIsPermutation(capabilities, caps);
      var sortedProviders := SortProviders(providers, caps);
      if sortedProviders.Err? {
        FailRuntimeStatuses();
        NothingToTear();
        return [Unsortable(sortedProviders.error)], [];
      }
      OrderedIsPermutation(providers, sortedProviders.value);
      SameNames(capabilities, caps);
      SameNames(providers, sortedProviders.value);
      calls := FullLog(Names(caps), Names(sortedProviders.value), services, script.fails);
      faults := RegisterAndStart(Names(caps), Names(sortedProviders.value), services, script);
    }

    /** Runs every registered provider. */
    method RunAllProviders(capabilities: seq<Component>, providers: seq<Component>, services: set<string>, script: Script)
      returns (faults: seq<Fault>, ghost calls: seq<Call>)
      requires Valid()
      modifies this
      ensures Valid()
      ensures RunCalls(capabilities, providers, BothSortable(capabilities, providers), services, script.fails, calls)
      ensures log + PendingTeardown() == old(log) + calls
      ensures BothSortable(capabilities, providers) ==>
        RunReports(capabilities, providers, services, script, AllStopped(providers),
          faults + Faults(PendingTeardown(), script.fails), EventualStatuses(script.fails))
      ensures !BothSortable(capabilities, providers) ==>
        && faults + Faults(PendingTeardown(), script.fails) == faults && Unsorted(capabilities, providers, faults)
        && EventualStatuses(script.fails) == AllFailed(AllStopped(providers))
      ensures CapabilitiesLeft(capabilities, BothSortable(capabilities, providers), script.fails,
        AllStopped(capabilities), EventualCapabilities(script.fails))
    {
      PrepareRunContext(Names(capabilities), Names(providers));
      faults, calls := RunSorted(capabilities, providers, services, script);
    }

    /** Runs one provider with everything it needs. */
    method RunProvider(name: string, capabilities: seq<Component>, providers: seq<Component>, services: set<string>,
      script: Script)
      returns (faults: seq<Fault>, ghost calls: seq<Call>)
      requires Valid() && UniqueNames(providers)
      modifies this
      ensures Valid()
      ensures name !in RegistryOf(providers) ==>
        && faults == [Unsortable(ProviderNotFound)]
        && log == old(log) && PendingTeardown() == old(PendingTeardown())
      ensures name in RegistryOf(providers) ==>
        RunCalls(capabilities, Needed(providers, name), OneRunnable(capabilities, providers, name), services,
          script.fails, calls)
      ensures name in RegistryOf(providers) ==> log + PendingTeardown() == old(log) + calls
      ensures name in RegistryOf(providers) && OneRunnable(capabilities, providers, name) ==>
        RunReports(capabilities, Needed(providers, name), services, script, AllStopped(providers),
          faults + Faults(PendingTeardown(), script.fails), EventualStatuses(script.fails))
      ensures name in RegistryOf(providers) && !OneRunnable(capabilities, providers, name) ==>
        && faults + Faults(PendingTeardown(), script.fails) == faults
        && Unselected(capabilities, providers, name, faults)
        && EventualStatuses(script.fails) == AllFailed(AllStopped(providers))
      ensures name in RegistryOf(providers) ==>
        CapabilitiesLeft(capabilities, OneRunnable(capabilities, providers, name), script.fails,
          AllStopped(capabilities), EventualCapabilities(script.fails))
    {
      hide BothSortable, Ordered, Needed, Sound, RegistryOf, MakeNameSet, FullLog, Teardown, Sortable, Refutes;
      hide Faults, StoppedStatuses, RunReports;
      NoFaults(script.fails);
      StatusesNone(AllFailed(AllStopped(providers)), Kind.Stop, None, script.fails);
      StatusesNone(AllFailed(AllStopped(capabilities)), Shutdown, None, script.fails);
      ProviderRegistered(providers, name);
      if name !in MakeNameSet(providers) {
        return [Unsortable(ProviderNotFound)], [];
      }
      PrepareRunContext(Names(capabilities), Names(providers));
      assert MakeNameSet(capabilities) + {} + MakeNameSet(providers) == MakeNameSet(capabilities) + MakeNameSet(providers);
      var selection := SelectProvidersForRun(name, providers, capabilities, {});
      if selection.Err? {
        FailRuntimeStatuses();
        NothingToTear();
        return [Unsortable(selection.error)], [];
      }
      faults, calls := RunSelected(name, capabilities, providers, selection.value, services, script);
    }

    method RunSelected(ghost name: string, capabilities: seq<Component>, ghost providers: seq<Component>,
      selected: seq<Component>, services: set<string>, script: Script)
      returns (faults: seq<Fault>, ghost calls: seq<Call>)
      requires Valid() && !stopped && registeredCapabilities == [] && runningProviders == []
      requires forall n :: n in Names(capabilities) ==> n in capabilityStatus
      requires forall n :: n in Names(providers) ==> n in providerStatus
      requires UniqueNames(providers) && name in RegistryOf(providers)
      requires Sound(RegistryOf(providers), MakeNameSet(capabilities) + MakeNameSet(providers), name)
      requires Ordered(Needed(providers, name), selected)
      modifies this
      ensures Valid()
      ensures RunCalls(capabilities, Needed(providers, name), OneRunnable(capabilities, providers, name), services,
        script.fails, calls)
      ensures log + PendingTeardown() == old(log) + calls
      ensures OneRunnable(capabilities, providers, name) ==>
        RunReports(capabilities, Needed(providers, name), services, script, old(providerStatus),
          faults + Faults(PendingTeardown(), script.fails), EventualStatuses(script.fails))
      ensures !OneRunnable(capabilities, providers, name) ==>
        && faults + Faults(PendingTeardown(), script.fails) == faults
        && Unselected(capabilities, providers, name, faults)
        && EventualStatuses(script.fails) == AllFailed(old(providerStatus))
      ensures CapabilitiesLeft(capabilities, OneRunnable(capabilities, providers, name), script.fails,
        old(capabilityStatus), EventualCapabilities(script.fails))
    {
      hide CapabilitiesLeft;
      hide Faults, Calls, Reverse, Teardown, FullLog, Sound, Sortable, Ordered, Needed, Refutes;
      SelectionRunnable(capabilities, providers, name, selected);
      SameNames(providers, selected);
      faults, calls := RunSorted(capabilities, selected, services, script);
    }
  }

  // ----------------------------------------------- what a run followed by Stop calls

  ghost predicate BothSortable(capabilities: seq<Component>, providers: seq<Component>) {
    && Sortable(capabilities, MakeNameSet(capabilities))
    && Sortable(providers, MakeNameSet(providers) + MakeNameSet(capabilities))
  }

  ghost predicate OneRunnable(capabilities: seq<Component>, providers: seq<Component>, name: string)
    requires UniqueNames(providers)
  {
    && Sound(RegistryOf(providers), MakeNameSet(capabilities) + MakeNameSet(providers), name)
    && Sortable(capabilities, MakeNameSet(capabilities))
  }

  /** The calls of a run followed by Stop: none at all when something cannot be sorted. */
  ghost predicate RunCalls(capabilities: seq<Component>, providers: seq<Component>, sortable: bool,
    services: set<string>, fails: set<Call>, calls: seq<Call>)
  {
    if sortable then
      exists caps, ordered ::
        && Ordered(capabilities, caps)
        && Ordered(providers, ordered)
        && calls == FullLog(Names(caps), Names(ordered), services, fails)
    else calls == []
  }

  /** What such a run reports, and the provider statuses it leaves. */
  ghost predicate RunReports(capabilities: seq<Component>, providers: seq<Component>, services: set<string>,
    script: Script, status: map<string, Status>, faults: seq<Fault>, statuses: map<string, Status>)
  {
    exists caps, ordered ::
      && Ordered(capabilities, caps)
      && Ordered(providers, ordered)
      && faults == FullFaults(Names(caps), Names(ordered), services, script)
      && statuses == FullStatuses(status, Names(caps), Names(ordered), services, script)
  }

  /** The capability statuses such a run leaves: all failed when something cannot be sorted. */
  ghost predicate CapabilitiesLeft(capabilities: seq<Component>, sortable: bool, fails: set<Call>,
    status: map<string, Status>, statuses: map<string, Status>)
  {
    if sortable then
      exists caps :: Ordered(capabilities, caps) && statuses == FullCapabilities(status, Names(caps), fails)
    else statuses == AllFailed(status)
  }

  /** What is reported when something cannot be sorted: the verdict on the capabilities, or else on the providers. */
  ghost predicate Unsorted(capabilities: seq<Component>, providers: seq<Component>, faults: seq<Fault>) {
    && |faults| == 1 && faults[0].Unsortable?
    && (|| SortVerdict(capabilities, MakeNameSet(capabilities), Err(faults[0].cause))
        || (&& Sortable(capabilities, MakeNameSet(capabilities))
            && SortVerdict(providers, MakeNameSet(providers) + MakeNameSet(capabilities), Err(faults[0].cause))))
  }

  /** What is reported when one provider cannot be selected, or the capabilities not sorted. */
  ghost predicate Unselected(capabilities: seq<Component>, providers: seq<Component>, name: string, faults: seq<Fault>)
    requires UniqueNames(providers)
  {
    && |faults| == 1 && faults[0].Unsortable?
    && var targets := MakeNameSet(capabilities) + MakeNameSet(providers);
       if Sound(RegistryOf(providers), targets, name) then
         SortVerdict(capabilities, MakeNameSet(capabilities), Err(faults[0].cause))
       else RefutedFrom(RegistryOf(providers), targets, name, faults[0].cause)
  }

  ghost predicate RefutedFrom(byName: Registry, targets: set<string>, name: string, e: DependencyError) {
    exists p :: p != [] && p[0] == name && Refutes(byName, targets, p, e)
  }

  ghost function AllStopped(providers: seq<Component>): map<string, Status> {
    map n | n in Names(providers) :: Stopped
  }

  ghost function AllFailed(status: map<string, Status>): map<string, Status> {
    map n | n in status :: Failed
  }

  lemma NoFaults(fails: set<Call>)
    ensures Teardown([], []) == [] && Faults([], fails) == []
    ensures forall faults: seq<Fault> :: faults + [] == faults
  {
    NothingToTear();
  }

  lemma ProviderRegistered(providers: seq<Component>, name: string)
    requires UniqueNames(providers)
    ensures name in RegistryOf(providers) <==> name in MakeNameSet(providers)
  {
  }

  lemma NothingToTear()
    ensures Teardown([], []) == []
  {
  }

  lemma SameNames(a: seq<Component>, b: seq<Component>)
    requires MakeNameSet(b) <= MakeNameSet(a)
    ensures forall n :: n in Names(b) ==> n in Names(a)
  {
    forall n | n in Names(b) ensures n in Names(a) {
      var i :| 0 <= i < |b| && b[i].name == n;
      assert b[i] in b;
      assert n in MakeNameSet(a);
      var c :| c in a && c.name == n;
      var j :| 0 <= j < |a| && a[j] == c;
      assert Names(a)[j] == n;
    }
  }

  lemma FullLogCapabilityFailure(caps: seq<string>, providers: seq<string>, services: set<string>, fails: set<Call>)
    ensures var c := FirstFailing(RegisterCapability, caps, {}, fails);
      c < |caps| ==>
        FullLog(caps, providers, services, fails) == Calls(RegisterCapability, Tried(caps, c)) + Teardown([], caps[..c])
  {
    assert Calls(Kind.Start, []) == [];
  }

  lemma FullLogProviderFailure(caps: seq<string>, providers: seq<string>, services: set<string>, fails: set<Call>)
    ensures var p := FirstFailing(RegisterProvider, providers, {}, fails);
      FirstFailing(RegisterCapability, caps, {}, fails) == |caps| && p < |providers| ==>
        FullLog(caps, providers, services, fails) ==
          Calls(RegisterCapability, Tried(caps, |caps|)) + Calls(RegisterProvider, Tried(providers, p)) + Teardown([], caps)
  {
    assert Calls(Kind.Start, []) == [] && caps[..|caps|] == caps;
  }

  lemma FullLogStart(caps: seq<string>, providers: seq<string>, services: set<string>, fails: set<Call>)
    requires FirstFailing(RegisterCapability, caps, {}, fails) == |caps|
    requires FirstFailing(RegisterProvider, providers, {}, fails) == |providers|
    ensures FullLog(caps, providers, services, fails) ==
      Calls(RegisterCapability, Tried(caps, |caps|)) + Calls(RegisterProvider, Tried(providers, |providers|))
      + Calls(Kind.Start, Started(providers, services, fails)) + Teardown(Started(providers, services, fails), caps)
  {
    assert caps[..|caps|] == caps;
  }

  // ------------------------------------------------------ reading a log by kind

  /** The names called with this kind, in order. */
  ghost function OfKind(calls: seq<Call>, kind: Kind): seq<string> {
    if calls == [] then []
    else
      var last := calls[|calls| - 1];
      OfKind(calls[..|calls| - 1], kind) + (if last.kind == kind then [last.name] else [])
  }

  ghost function Succeeded(kind: Kind, names: seq<string>, fails: set<Call>): seq<string> {
    if names == [] then []
    else
      var last := names[|names| - 1];
      Succeeded(kind, names[..|names| - 1], fails) + (if Call(kind, last) in fails then [] else [last])
  }

  ghost function Rank(kind: Kind): nat {
    match kind
    case RegisterCapability => 0
    case RegisterProvider => 1
    case Start => 2
    case Stop => 3
    case Shutdown => 4
  }

  /** Registering, starting, stopping and shutting down never mix. */
  ghost predicate InPhases(calls: seq<Call>) {
    forall i, j :: 0 <= i < j < |calls| ==> Rank(calls[i].kind) <= Rank(calls[j].kind)
  }

  ghost predicate Earlier(names: seq<string>, a: string, b: string) {
    exists i, j :: 0 <= i < j < |names| && names[i] == a && names[j] == b
  }

  lemma {:induction false} OfKindConcat(a: seq<Call>, b: seq<Call>, kind: Kind)
    ensures OfKind(a + b, kind) == OfKind(a, kind) + OfKind(b, kind)
  {
    if b == [] {
      assert a + b == a;
    } else {
      OfKindConcat(a, b[..|b| - 1], kind);
      assert (a + b)[..|a + b| - 1] == a + b[..|b| - 1];
    }
  }

  lemma {:induction false} OfKindCalls(made: Kind, names: seq<string>, kind: Kind)
    ensures OfKind(Calls(made, names), kind) == if made == kind then names else []
  {
    if names != [] {
      var front := names[..|names| - 1];
      OfKindCalls(made, front, kind);
      assert Calls(made, names)[..|names| - 1] == Calls(made, front);
      assert names == front + [names[|names| - 1]];
    }
  }

  lemma {:induction false} AllSucceeded(kind: Kind, names: seq<string>, fails: set<Call>)
    requires forall n :: n in names ==> Call(kind, n) !in fails
    ensures Succeeded(kind, names, fails) == names
  {
    if names != [] {
      AllSucceeded(kind, names[..|names| - 1], fails);
      assert names == names[..|names| - 1] + [names[|names| - 1]];
    }
  }

  lemma {:induction false} TriedSucceeded(kind: Kind, names: seq<string>, fails: set<Call>)
    ensures var k := FirstFailing(kind, names, {}, fails);
      Succeeded(kind, Tried(names, k), fails) == names[..k]
  {
    var k := FirstFailing(kind, names, {}, fails);
    AllSucceeded(kind, names[..k], fails);
    if k < |names| {
      assert names[..k + 1][..k] == names[..k];
    } else {
      assert names[..k] == names;
    }
  }

  ghost function Phases(caps: seq<string>, providers: seq<string>, started: seq<string>, stops: seq<string>,
    downs: seq<string>): seq<Call>
  {
    Calls(RegisterCapability, caps) + Calls(RegisterProvider, providers) + Calls(Kind.Start, started)
    + (Calls(Kind.Stop, stops) + Calls(Shutdown, downs))
  }

  lemma {:induction false} PhasesOfKind(caps: seq<string>, providers: seq<string>, started: seq<string>,
    stops: seq<string>, downs: seq<string>, kind: Kind)
    ensures OfKind(Phases(caps, providers, started, stops, downs), kind) ==
      match kind
      case RegisterCapability => caps
      case RegisterProvider => providers
      case Start => started
      case Stop => stops
      case Shutdown => downs
  {
    hide OfKind, Calls;
    var a, b, d := Calls(RegisterCapability, caps), Calls(RegisterProvider, providers), Calls(Kind.Start, started);
    var e, f := Calls(Kind.Stop, stops), Calls(Shutdown, downs);
    OfKindConcat(a + b + d, e + f, kind);
    OfKindConcat(e, f, kind);
    OfKindConcat(a + b, d, kind);
    OfKindConcat(a, b, kind);
    OfKindCalls(RegisterCapability, caps, kind);
    OfKindCalls(RegisterProvider, providers, kind);
    OfKindCalls(Kind.Start, started, kind);
    OfKindCalls(Kind.Stop, stops, kind);
    OfKindCalls(Shutdown, downs, kind);
  }

  lemma PhasesInOrder(caps: seq<string>, providers: seq<string>, started: seq<string>, stops: seq<string>,
    downs: seq<string>)
    ensures InPhases(Phases(caps, providers, started, stops, downs))
  {
  }

  /** The parts of a full log. */
  lemma {:induction false} FullLogParts(caps: seq<string>, providers: seq<string>, services: set<string>, fails: set<Call>)
    returns (tried: seq<string>, started: seq<string>)
    ensures var c := FirstFailing(RegisterCapability, caps, {}, fails);
      && started <= providers && (started != [] ==> c == |caps|)
      && FullLog(caps, providers, services, fails) ==
        Phases(Tried(caps, c), tried, started, Reverse(started), Reverse(caps[..c]))
  {
    hide Reverse;
    var c := FirstFailing(RegisterCapability, caps, {}, fails);
    var p := FirstFailing(RegisterProvider, providers, {}, fails);
    tried := if c < |caps| then [] else Tried(providers, p);
    started := if c < |caps| || p < |providers| then [] else Started(providers, services, fails);
    assert c < |caps| ==> Calls(RegisterProvider, tried) == [];
  }

  lemma {:induction false} NamesDistinct(components: seq<Component>)
    requires UniqueNames(components)
    ensures Distinct(Names(components))
  {
  }

  /** Reversing a list of distinct names reverses who is earlier. */
  lemma {:induction false} ReverseEarlier(names: seq<string>, a: string, b: string)
    requires Earlier(names, a, b)
    ensures Earlier(Reverse(names), b, a)
  {
    var i, j :| 0 <= i < j < |names| && names[i] == a && names[j] == b;
    var r, n := Reverse(names), |names|;
    assert r[n - 1 - j] == b && r[n - 1 - i] == a;
  }

  /** In a sorted list cut anywhere, what a kept component needs was kept too, and comes earlier. */
  lemma {:induction false} KeptNeeds(components: seq<Component>, out: seq<Component>, kept: seq<string>, c: Component,
    d: Dependency)
    requires UniqueNames(components) && Ordered(components, out) && kept <= Names(out)
    requires c in components && d in c.dependencies && d.name in MakeNameSet(components)
    requires c.name in kept
    ensures Earlier(kept, d.name, c.name)
  {
    OrderedByName(components, out);
    OrderedIsPermutation(components, out);
    var i, j :| 0 <= i < j < |out| && out[i].name == d.name && out[j].name == c.name;
    var k :| 0 <= k < |kept| && kept[k] == c.name;
    assert Names(out)[k] == c.name;
    assert k == j;
    assert kept[i] == Names(out)[i];
  }

  /** The mirror image: every provider whose Start was invoked is stopped exactly once, in reverse order;
      afterwards every capability whose Register succeeded is shut down exactly once, in reverse order. */
  lemma {:induction false} TeardownMirrorsStart(capabilities: seq<Component>, providers: seq<Component>,
    sortable: bool, services: set<string>, fails: set<Call>, calls: seq<Call>)
    requires UniqueNames(capabilities) && UniqueNames(providers)
    requires RunCalls(capabilities, providers, sortable, services, fails, calls)
    ensures OfKind(calls, Kind.Stop) == Reverse(OfKind(calls, Kind.Start))
    ensures OfKind(calls, Shutdown)
      == Reverse(Succeeded(RegisterCapability, OfKind(calls, RegisterCapability), fails))
    ensures Distinct(OfKind(calls, Kind.Stop)) && Distinct(OfKind(calls, Shutdown))
    ensures InPhases(calls)
  {
    hide Ordered, FullLog, Phases, FirstFailing, Tried, Succeeded, Reverse, OfKind, InPhases;
    if sortable {
      var caps, ordered :| Ordered(capabilities, caps) && Ordered(providers, ordered)
        && calls == FullLog(Names(caps), Names(ordered), services, fails);
      OrderedIsPermutation(capabilities, caps);
      OrderedIsPermutation(providers, ordered);
      NamesDistinct(caps);
      NamesDistinct(ordered);
      var k := FirstFailing(RegisterCapability, Names(caps), {}, fails);
      var tried, started := FullLogParts(Names(caps), Names(ordered), services, fails);
      forall kind {:trigger OfKind(calls, kind)} ensures OfKind(calls, kind) ==
        match kind
        case RegisterCapability => Tried(Names(caps), k)
        case RegisterProvider => tried
        case Start => started
        case Stop => Reverse(started)
        case Shutdown => Reverse(Names(caps)[..k])
      {
        PhasesOfKind(Tried(Names(caps), k), tried, started, Reverse(started), Reverse(Names(caps)[..k]), kind);
      }
      PhasesInOrder(Tried(Names(caps), k), tried, started, Reverse(started), Reverse(Names(caps)[..k]));
      TriedSucceeded(RegisterCapability, Names(caps), fails);
    } else {
      NoCalls(calls, fails);
    }
  }

  lemma NoCalls(calls: seq<Call>, fails: set<Call>)
    requires calls == []
    ensures forall kind :: OfKind(calls, kind) == []
    ensures Reverse([]) == [] && InPhases(calls)
    ensures Succeeded(RegisterCapability, [], fails) == []
  {
  }

  lemma {:induction false} ProvidersGoDownFirst(providers: seq<Component>, ordered: seq<Component>,
    started: seq<string>, c: Component, d: Dependency)
    requires UniqueNames(providers) && Ordered(providers, ordered) && started <= Names(ordered)
    requires d in c.dependencies
    ensures c in providers && d.name in MakeNameSet(providers) && c.name in started ==>
      && Earlier(started, d.name, c.name)
      && Earlier(Reverse(started), c.name, d.name)
  {
    hide Ordered, Reverse, Earlier, UniqueNames;
    if c in providers && d.name in MakeNameSet(providers) && c.name in started {
      KeptNeeds(providers, ordered, started, c, d);
      ReverseEarlier(started, d.name, c.name);
    }
  }

  lemma {:induction false} CapabilitiesGoDownFirst(capabilities: seq<Component>, caps: seq<Component>,
    registered: seq<string>, attempted: seq<string>, c: Component, d: Dependency)
    requires UniqueNames(capabilities) && Ordered(capabilities, caps)
    requires registered <= Names(caps) && registered <= attempted
    requires d in c.dependencies
    ensures c in capabilities && d.name in MakeNameSet(capabilities) && c.name in Reverse(registered) ==>
      && Earlier(attempted, d.name, c.name)
      && Earlier(Reverse(registered), c.name, d.name)
  {
    hide Ordered, Reverse, Earlier, UniqueNames;
    if c in capabilities && d.name in MakeNameSet(capabilities) && c.name in Reverse(registered) {
      ReverseMembers(registered, c.name);
      KeptNeeds(capabilities, caps, registered, c, d);
      ReverseEarlier(registered, d.name, c.name);
      EarlierExtends(registered, attempted, d.name, c.name);
    }
  }

  /** Nothing starts before what it needs, be it a provider or a capability, and nothing it needs goes down before it. */
  lemma {:induction false} DependentsGoDownFirst(capabilities: seq<Component>, providers: seq<Component>,
    sortable: bool, services: set<string>, fails: set<Call>, calls: seq<Call>, c: Component, d: Dependency)
    requires UniqueNames(capabilities) && UniqueNames(providers)
    requires RunCalls(capabilities, providers, sortable, services, fails, calls)
    requires d in c.dependencies
    ensures c in providers && d.name in MakeNameSet(providers) && c.name in OfKind(calls, Kind.Start) ==>
      && Earlier(OfKind(calls, Kind.Start), d.name, c.name)
      && Earlier(OfKind(calls, Kind.Stop), c.name, d.name)
    ensures c in capabilities && d.name in MakeNameSet(capabilities) && c.name in OfKind(calls, Shutdown) ==>
      && Earlier(OfKind(calls, RegisterCapability), d.name, c.name)
      && Earlier(OfKind(calls, Shutdown), c.name, d.name)
    ensures c in providers && d.name in MakeNameSet(capabilities) && c.name in OfKind(calls, Kind.Start) ==>
      && Before(calls, Call(RegisterCapability, d.name), Call(Kind.Start, c.name))
      && Before(calls, Call(Kind.Stop, c.name), Call(Shutdown, d.name))
  {
    hide Ordered, FullLog, Phases, FirstFailing, Reverse, OfKind, Earlier, UniqueNames, Before, InPhases;
    if sortable {
      var caps, ordered :| Ordered(capabilities, caps) && Ordered(providers, ordered)
        && calls == FullLog(Names(caps), Names(ordered), services, fails);
      var k := FirstFailing(RegisterCapability, Names(caps), {}, fails);
      var registered, attempted := Names(caps)[..k], Tried(Names(caps), k);
      var tried, started := FullLogParts(Names(caps), Names(ordered), services, fails);
      PhasesOfKind(attempted, tried, started, Reverse(started), Reverse(registered), Kind.Start);
      PhasesOfKind(attempted, tried, started, Reverse(started), Reverse(registered), Kind.Stop);
      PhasesOfKind(attempted, tried, started, Reverse(started), Reverse(registered), Shutdown);
      PhasesOfKind(attempted, tried, started, Reverse(started), Reverse(registered), RegisterCapability);
      ProvidersGoDownFirst(providers, ordered, started, c, d);
      CapabilitiesGoDownFirst(capabilities, caps, registered, attempted, c, d);
      if d.name in MakeNameSet(capabilities) && c.name in started {
        OrderedIsPermutation(capabilities, caps);
        NamedIn(caps, d.name);
        assert registered == attempted == Names(caps);
        MembersReversed(registered, d.name);
        MembersReversed(started, c.name);
        PhasesInOrder(attempted, tried, started, Reverse(started), Reverse(registered));
        PhaseBefore(calls, RegisterCapability, d.name, Kind.Start, c.name);
        PhaseBefore(calls, Kind.Stop, c.name, Shutdown, d.name);
      }
    } else {
      NoCalls(calls, fails);
    }
  }

  /** One call was made before the other. */
  ghost predicate Before(calls: seq<Call>, a: Call, b: Call) {
    exists i, j :: 0 <= i < j < |calls| && calls[i] == a && calls[j] == b
  }

  lemma {:induction false} KindIndex(calls: seq<Call>, kind: Kind, name: string)
    requires name in OfKind(calls, kind)
    ensures Call(kind, name) in calls
  {
    var front := calls[..|calls| - 1];
    if name in OfKind(front, kind) {
      KindIndex(front, kind, name);
    }
  }

  /** Calls of an earlier phase come before those of a later one. */
  lemma {:induction false} PhaseBefore(calls: seq<Call>, a: Kind, m: string, b: Kind, n: string)
    requires InPhases(calls) && Rank(a) < Rank(b)
    requires m in OfKind(calls, a) && n in OfKind(calls, b)
    ensures Before(calls, Call(a, m), Call(b, n))
  {
    hide OfKind;
    KindIndex(calls, a, m);
    KindIndex(calls, b, n);
    var i :| 0 <= i < |calls| && calls[i] == Call(a, m);
    var j :| 0 <= j < |calls| && calls[j] == Call(b, n);
    assert i < j;
  }

  lemma NamedIn(components: seq<Component>, name: string)
    requires name in MakeNameSet(components)
    ensures name in Names(components)
  {
    var c :| c in components && c.name == name;
    var i :| 0 <= i < |components| && components[i] == c;
    assert Names(components)[i] == name;
  }

  lemma MembersReversed(names: seq<string>, n: string)
    requires n in names
    ensures n in Reverse(names)
  {
    var k :| 0 <= k < |names| && names[k] == n;
    assert Reverse(names)[|names| - 1 - k] == n;
  }

  lemma EarlierExtends(names: seq<string>, longer: seq<string>, a: string, b: string)
    requires names <= longer && Earlier(names, a, b)
    ensures Earlier(longer, a, b)
  {
    var i, j :| 0 <= i < j < |names| && names[i] == a && names[j] == b;
    assert longer[i] == a && longer[j] == b;
  }

  lemma {:induction false} ReverseMembers(names: seq<string>, n: string)
    requires n in Reverse(names)
    ensures n in names
  {
    var k :| 0 <= k < |names| && Reverse(names)[k] == n;
    assert names[|names| - 1 - k] == n;
  }
}
