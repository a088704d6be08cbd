/** An access log that takes entries without waiting and writes them in batches, until it is shut down. */
module AccessLog {
  import opened Prelude

  const DEFAULT_QUEUE_SIZE := 1024
  const DEFAULT_BATCH_SIZE := 100

  type Entry = string

  datatype Phase = Idle | Looping | Draining | Returned

  /** One call of the writer; the last may be that of the shutdown. */
  datatype Batch = Batch(entries: seq<Entry>, shutdown: bool)

  /**
   * What can happen next: an entry is pushed, the logger is started, its context is done, or its goroutine goes on:
   * it receives an entry, is woken by its ticker, sees that the context is done, drains an entry, or finds none left.
   */
  datatype Action =
    | Pushes(entry: Option<Entry>)
    | Starts
    | Cancels
    | Receives
    | Ticks
    | SeesDone
    | Drains
    | FindsNone

  datatype Config = Config(capacity: int, batchSize: int, hasWriter: bool)

  function Normal(c: Config): (r: Config)
    ensures r.capacity > 0 && r.batchSize > 0
  {
    c.(capacity := if c.capacity <= 0 then DEFAULT_QUEUE_SIZE else c.capacity,
       batchSize := if c.batchSize <= 0 then DEFAULT_BATCH_SIZE else c.batchSize)
  }

  datatype State = State(
    queue: seq<Entry>, batch: seq<Entry>, writes: seq<Batch>, phase: Phase, done: bool, accepted: seq<Entry>)

  const FRESH := State([], [], [], Idle, false, [])

  function Flushed(s: State, shutdown: bool): State {
    if s.batch == [] then s else s.(batch := [], writes := s.writes + [Batch(s.batch, shutdown)])
  }

  /** An action that is not possible changes nothing. */
  function Act(s: State, a: Action, c: Config): State {
    match a
    case Pushes(entry) =>
      if entry.None? || |s.queue| >= c.capacity then s
      else s.(queue := s.queue + [entry.value], accepted := s.accepted + [entry.value])
    case Starts => if c.hasWriter && s.phase.Idle? then s.(phase := Looping) else s
    case Cancels => s.(done := true)
    case Receives =>
      if !s.phase.Looping? || s.queue == [] then s
      else
        var next := s.(batch := s.batch + [s.queue[0]], queue := s.queue[1..]);
        if |next.batch| >= c.batchSize then Flushed(next, false) else next
    case Ticks => if s.phase.Looping? then Flushed(s, false) else s
    case SeesDone => if s.phase.Looping? && s.done then s.(phase := Draining) else s
    case Drains =>
      if !s.phase.Draining? || s.queue == [] then s
      else s.(batch := s.batch + [s.queue[0]], queue := s.queue[1..])
    case FindsNone =>
      if s.phase.Draining? && s.queue == [] then Flushed(s, true).(phase := Returned) else s
  }

  function Acts(s: State, actions: seq<Action>, c: Config): State {
    if actions == [] then s else Act(Acts(s, actions[..|actions| - 1], c), actions[|actions| - 1], c)
  }

  class Logger {
    const capacity: int
    const batchSize: int
    const hasWriter: bool
    var queue: seq<Entry>
    var batch: seq<Entry>
    var writes: seq<Batch>
    var phase: Phase
    var done: bool
    ghost var accepted: seq<Entry>

    constructor (c: Config)
      ensures Value() == FRESH && Settings() == Normal(c)
    {
      capacity := if c.capacity <= 0 then DEFAULT_QUEUE_SIZE else c.capacity;
      batchSize := if c.batchSize <= 0 then DEFAULT_BATCH_SIZE else c.batchSize;
      hasWriter := c.hasWriter;
      queue, batch, writes, phase, done, accepted := [], [], [], Idle, false, [];
    }

    ghost function Value(): State
      reads this
    {
      State(queue, batch, writes, phase, done, accepted)
    }

    ghost function Settings(): Config {
      Config(capacity, batchSize, hasWriter)
    }

    /** Takes an entry without waiting; drops it when the queue is full. */
    method Push(entry: Option<Entry>)
      modifies `queue, `accepted
      ensures Value() == Act(old(Value()), Pushes(entry), Settings())
      ensures entry.Some? && |old(queue)| < capacity ==>
        queue == old(queue) + [entry.value] && accepted == old(accepted) + [entry.value]
      ensures entry.None? || |old(queue)| >= capacity ==> unchanged(this)
    {
      if entry.None? {
        return;
      }
      if |queue| < capacity {
        queue := queue + [entry.value];
        accepted := accepted + [entry.value];
      }
    }

    method Start()
      modifies `phase
      ensures Value() == Act(old(Value()), Starts, Settings())
    {
      if !hasWriter {
        return;
      }
      if phase == Idle {
        phase := Looping;
      }
    }

    method Flush(shutdown: bool)
      modifies `batch, `writes
      ensures Value() == Flushed(old(Value()), shutdown)
    {
      if |batch| == 0 {
        return;
      }
      writes := writes + [Batch(batch, shutdown)];
      batch := [];
    }

    /** One round of the logger's goroutine, in the branch that its `select` took. */
    method Proceed(a: Action)
      requires a.Receives? || a.Ticks? || a.SeesDone? || a.Drains? || a.FindsNone?
      modifies `queue, `batch, `writes, `phase
      ensures Value() == Act(old(Value()), a, Settings())
    {
      if phase == Looping {
        if a.SeesDone? && done {
          phase := Draining;
        } else if a.Receives? && queue != [] {
          batch, queue := batch + [queue[0]], queue[1..];
          if |batch| >= batchSize {
            Flush(false);
          }
        } else if a.Ticks? {
          Flush(false);
        }
      } else if phase == Draining {
        if a.Drains? && queue != [] {
          batch, queue := batch + [queue[0]], queue[1..];
        } else if a.FindsNone? && queue == [] {
          Flush(true);
          phase := Returned;
        }
      }
    }

    /** Callers and the goroutine, interleaved in any way. */
    method Run(actions: seq<Action>)
      modifies this
      ensures Value() == Acts(old(Value()), actions, Settings())
    {
      hide Act;
      for i := 0 to |actions|
        invariant Value() == Acts(old(Value()), actions[..i], Settings())
      {
        assert actions[..i + 1][..i] == actions[..i];
        match actions[i] {
          case Pushes(entry) => Push(entry);
          case Starts => Start();
          case Cancels => Cancel();
          case _ => Proceed(actions[i]);
        }
      }
      assert actions[..|actions|] == actions;
    }

    method Cancel()
      modifies `done
      ensures Value() == Act(old(Value()), Cancels, Settings())
    {
      done := true;
    }
  }

  // ------------------------------------------------------------------- every run

  function Flat(writes: seq<Batch>): seq<Entry> {
    if writes == [] then [] else Flat(writes[..|writes| - 1]) + writes[|writes| - 1].entries
  }

  lemma FlatMore(writes: seq<Batch>, b: Batch)
    ensures Flat(writes + [b]) == Flat(writes) + b.entries
  {
    assert (writes + [b])[..|writes|] == writes;
  }

  /** Nothing accepted is lost, repeated or reordered; what is queued and batched stays in bounds. */
  predicate Conserved(s: State, c: Config) {
    && s.accepted == Flat(s.writes) + s.batch + s.queue
    && |s.queue| <= c.capacity
    && (s.phase.Idle? ==> s.writes == [] && s.batch == [])
    && (s.phase.Looping? ==> |s.batch| < c.batchSize)
    && (s.phase.Returned? ==> s.batch == [])
  }

  predicate WellSized(s: State, c: Config) {
    && (forall i :: 0 <= i < |s.writes| ==> s.writes[i].entries != [])
    && (forall i :: 0 <= i < |s.writes| && !s.writes[i].shutdown ==> |s.writes[i].entries| <= c.batchSize)
    && (forall i :: 0 <= i < |s.writes| && s.writes[i].shutdown ==> i == |s.writes| - 1 && s.phase.Returned?)
  }

  lemma FlushConserves(s: State, shutdown: bool)
    requires s.accepted == Flat(s.writes) + s.batch + s.queue
    ensures Flushed(s, shutdown).accepted == Flat(Flushed(s, shutdown).writes) + Flushed(s, shutdown).batch + s.queue
  {
    if s.batch != [] {
      FlatMore(s.writes, Batch(s.batch, shutdown));
      assert Flat(s.writes) + s.batch + [] == Flat(s.writes) + s.batch;
    }
  }

  lemma TakeConserves(s: State)
    requires s.accepted == Flat(s.writes) + s.batch + s.queue && s.queue != []
    ensures s.accepted == Flat(s.writes) + (s.batch + [s.queue[0]]) + s.queue[1..]
  {
    assert s.queue == [s.queue[0]] + s.queue[1..];
  }

  lemma {:induction false} ActConserves(s: State, a: Action, c: Config)
    requires Conserved(s, c) && c.batchSize > 0
    ensures Conserved(Act(s, a, c), c)
  {
    hide Flat;
    match a
    case Pushes(entry) =>
      if entry.Some? {
        assert Flat(s.writes) + s.batch + (s.queue + [entry.value]) == s.accepted + [entry.value];
      }
    case Receives =>
      if s.phase.Looping? && s.queue != [] {
        TakeConserves(s);
        FlushConserves(s.(batch := s.batch + [s.queue[0]], queue := s.queue[1..]), false);
      }
    case Ticks => FlushConserves(s, false);
    case Drains => if s.queue != [] { TakeConserves(s); }
    case FindsNone => FlushConserves(s, true);
    case _ =>
  }

  lemma {:induction false} ActSizesWell(s: State, a: Action, c: Config)
    requires Conserved(s, c) && WellSized(s, c) && c.batchSize > 0
    ensures WellSized(Act(s, a, c), c)
  {
    hide Flat;
  }

  /**
   * After any run: the accepted entries are those written, batch by batch, then those batched, then those queued.
   * No write is empty; none but the last, at shutdown, exceeds the batch size.
   */
  lemma {:induction false} EveryRunConserves(actions: seq<Action>, c: Config)
    ensures
      var s := Acts(FRESH, actions, Normal(c));
      && Conserved(s, Normal(c)) && WellSized(s, Normal(c))
      && (s.phase.Returned? ==> s.accepted == Flat(s.writes) + s.queue)
  {
    hide Act, Flat;
    if actions == [] {
      assert Flat([]) == [] by { FlatNone(); }
    } else {
      EveryRunConserves(actions[..|actions| - 1], c);
      var before := Acts(FRESH, actions[..|actions| - 1], Normal(c));
      ActConserves(before, actions[|actions| - 1], Normal(c));
      ActSizesWell(before, actions[|actions| - 1], Normal(c));
    }
  }

  lemma FlatNone()
    ensures Flat([]) == []
  {
  }

  /** A batch is written when a tick finds one, when receiving fills it, or when draining ends with one; at no other time. */
  lemma {:induction false} WritesWhen(s: State, a: Action, c: Config)
    requires Conserved(s, c) && c.batchSize > 0
    ensures
      var t := Act(s, a, c);
      var taken := if a.Receives? && s.queue != [] then [s.queue[0]] else [];
      && (t.writes != s.writes <==>
            || (s.phase.Looping? && a.Ticks? && s.batch != [])
            || (s.phase.Looping? && a.Receives? && s.queue != [] && |s.batch| + 1 == c.batchSize)
            || (s.phase.Draining? && a.FindsNone? && s.queue == [] && s.batch != []))
      && (t.writes != s.writes ==> t.batch == [] && t.writes == s.writes + [Batch(s.batch + taken, a.FindsNone?)])
  {
    hide Flat;
    assert s.batch + [] == s.batch;
  }

  /** While the goroutine loops nothing has to wait for the shutdown: it can receive all there is, and tick. */
  lemma {:induction false} LoopCanWrite(s: State, c: Config) returns (actions: seq<Action>)
    requires Conserved(s, c) && c.batchSize > 0 && s.phase.Looping?
    ensures forall a :: a in actions ==> a.Receives? || a.Ticks?
    ensures |actions| == |s.queue| + 1
    ensures
      var end := Acts(s, actions, c);
      end.phase.Looping? && end.accepted == s.accepted == Flat(end.writes) && end.queue == end.batch == []
    decreases |s.queue|
  {
    hide Flat;
    if s.queue == [] {
      actions := [Ticks];
      ActConserves(s, Ticks, c);
      assert [Ticks][..0] == [] && Acts(s, [Ticks], c) == Act(s, Ticks, c);
      var end := Act(s, Ticks, c);
      assert end.accepted == Flat(end.writes) + end.batch + end.queue;
    } else {
      var next := Act(s, Receives, c);
      ActConserves(s, Receives, c);
      var rest := LoopCanWrite(next, c);
      actions := [Receives] + rest;
      assert [Receives][..0] == [] && Acts(s, [Receives], c) == next;
      ActsConcat(s, [Receives], rest, c);
    }
  }

  /** When the goroutine returns, everything accepted so far has been written. */
  lemma {:induction false} ReturnWritesAll(actions: seq<Action>, a: Action, c: Config)
    requires !Acts(FRESH, actions, Normal(c)).phase.Returned? && Acts(FRESH, actions + [a], Normal(c)).phase.Returned?
    ensures
      var s := Acts(FRESH, actions + [a], Normal(c));
      s.accepted == Flat(s.writes) && s.queue == [] && s.batch == []
  {
    hide Flat;
    assert (actions + [a])[..|actions|] == actions;
    EveryRunConserves(actions + [a], c);
  }

  /** No goroutine runs, and none can be started any more. */
  predicate Idled(s: State, c: Config) {
    s.phase.Returned? || (s.phase.Idle? && !c.hasWriter)
  }

  /** Then nothing more is written: what is accepted stays queued. */
  lemma {:induction false} IdledWritesNothing(s: State, actions: seq<Action>, c: Config)
    requires Idled(s, c)
    ensures
      var end := Acts(s, actions, c);
      && Idled(end, c) && end.writes == s.writes && end.batch == s.batch
      && s.queue <= end.queue && s.accepted <= end.accepted
      && |end.accepted| - |s.accepted| == |end.queue| - |s.queue|
  {
    if actions != [] {
      IdledWritesNothing(s, actions[..|actions| - 1], c);
    }
  }

  ghost predicate CanBeWritten(s: State, c: Config) {
    exists actions :: s.accepted <= Flat(Acts(s, actions, c).writes)
  }

  /** Everything accepted can still be written exactly when it already is, or a goroutine runs or can be started. */
  lemma {:induction false} WrittenIff(s: State, c: Config)
    requires Conserved(s, c) && c.batchSize > 0
    ensures CanBeWritten(s, c) <==> s.accepted == Flat(s.writes) || !Idled(s, c)
  {
    hide Flat, Conserved;
    if s.accepted == Flat(s.writes) {
      assert Acts(s, [], c) == s;
    } else if Idled(s, c) {
      forall actions ensures !(s.accepted <= Flat(Acts(s, actions, c).writes)) {
        IdledWritesNothing(s, actions, c);
        NotAllWritten(s, c);
      }
    } else {
      var actions := WriteAll(s, c);
      assert s.accepted <= Flat(Acts(s, actions, c).writes);
    }
  }

  lemma NotAllWritten(s: State, c: Config)
    requires Conserved(s, c) && s.accepted != Flat(s.writes)
    ensures !(s.accepted <= Flat(s.writes))
  {
    hide Flat;
  }

  /** A run that writes everything: start if need be, then shut down. */
  lemma {:induction false} WriteAll(s: State, c: Config) returns (actions: seq<Action>)
    requires Conserved(s, c) && c.batchSize > 0 && !Idled(s, c)
    ensures s.accepted <= Flat(Acts(s, actions, c).writes)
  {
    hide Flat;
    var started := Act(s, Starts, c);
    var rest := ShutdownReturns(started, c);
    actions := [Starts] + rest;
    assert [Starts][..0] == [] && Acts(s, [Starts], c) == started;
    ActsConcat(s, [Starts], rest, c);
    RunConserves(s, actions, c);
    WritesGrow(s, actions, c);
    assert Acts(s, actions, c) == Acts(started, rest, c);
  }

  lemma {:induction false} RunConserves(s: State, actions: seq<Action>, c: Config)
    requires Conserved(s, c) && c.batchSize > 0
    ensures Conserved(Acts(s, actions, c), c)
  {
    if actions != [] {
      hide Act, Conserved;
      RunConserves(s, actions[..|actions| - 1], c);
      ActConserves(Acts(s, actions[..|actions| - 1], c), actions[|actions| - 1], c);
    }
  }

  /** An entry pushed after the return is accepted while the queue has room, and no later run writes it. */
  lemma {:induction false} LateEntryLost(actions: seq<Action>, entry: Entry, c: Config)
    requires Acts(FRESH, actions, Normal(c)).phase.Returned? && |Acts(FRESH, actions, Normal(c)).queue| < Normal(c).capacity
    ensures
      var s := Acts(FRESH, actions + [Pushes(Some(entry))], Normal(c));
      s.accepted == Acts(FRESH, actions, Normal(c)).accepted + [entry] && !CanBeWritten(s, Normal(c))
  {
    hide Flat;
    var before := Acts(FRESH, actions, Normal(c));
    assert (actions + [Pushes(Some(entry))])[..|actions|] == actions;
    EveryRunConserves(actions, c);
    EveryRunConserves(actions + [Pushes(Some(entry))], c);
    var s := Acts(FRESH, actions + [Pushes(Some(entry))], Normal(c));
    assert |s.accepted| == |Flat(s.writes)| + |s.queue|;
    WrittenIff(s, Normal(c));
  }

  /** Without a writer, Start does nothing: every entry accepted is lost. */
  lemma {:induction false} NoWriterLoses(actions: seq<Action>, c: Config)
    requires !c.hasWriter
    ensures
      var s := Acts(FRESH, actions, Normal(c));
      s.phase.Idle? && s.writes == [] && (CanBeWritten(s, Normal(c)) <==> s.accepted == [])
  {
    hide Flat;
    var s := Acts(FRESH, actions, Normal(c));
    EveryRunConserves(actions, c);
    IdledWritesNothing(FRESH, actions, Normal(c));
    StaysIdle(actions, Normal(c));
    FlatNone();
    WrittenIff(s, Normal(c));
  }

  /** A shut down logger and one without a writer: both accept an entry and lose it. */
  lemma {:induction false} TwoLosses() returns (late: seq<Action>, silent: seq<Action>)
    ensures late == [Starts, Cancels, SeesDone, FindsNone, Pushes(Some("x"))] && silent == [Starts, Pushes(Some("x"))]
    ensures
      var shut, mute := Config(1, 1, true), Config(1, 1, false);
      && Acts(FRESH, late, shut).accepted == ["x"] && !CanBeWritten(Acts(FRESH, late, shut), shut)
      && Acts(FRESH, silent, mute).accepted == ["x"] && !CanBeWritten(Acts(FRESH, silent, mute), mute)
  {
    var shut, mute, push := Config(1, 1, true), Config(1, 1, false), Pushes(Some("x"));
    var close := [Starts, Cancels, SeesDone, FindsNone];
    late, silent := close + [push], [Starts, push];
    assert [Starts][..0] == [] && [Starts, Cancels][..1] == [Starts];
    assert [Starts, Cancels, SeesDone][..2] == [Starts, Cancels] && close[..3] == [Starts, Cancels, SeesDone];
    assert Acts(FRESH, [Starts, Cancels], shut) == FRESH.(phase := Looping, done := true);
    assert Acts(FRESH, close, shut) == FRESH.(phase := Returned, done := true);
    LateEntryLost(close, "x", shut);
    assert silent[..1] == [Starts] && Acts(FRESH, [Starts], mute) == FRESH;
    NoWriterLoses(silent, mute);
  }

  lemma {:induction false} StaysIdle(actions: seq<Action>, c: Config)
    requires !c.hasWriter
    ensures Acts(FRESH, actions, c).phase.Idle?
  {
    if actions != [] {
      StaysIdle(actions[..|actions| - 1], c);
    }
  }

  /** What has been written stays written, in front of what is written later. */
  lemma {:induction false} WritesGrow(s: State, actions: seq<Action>, c: Config)
    ensures s.writes <= Acts(s, actions, c).writes && s.accepted <= Acts(s, actions, c).accepted
  {
    hide Act;
    if actions != [] {
      WritesGrow(s, actions[..|actions| - 1], c);
      ActGrows(Acts(s, actions[..|actions| - 1], c), actions[|actions| - 1], c);
    }
  }

  lemma ActGrows(s: State, a: Action, c: Config)
    ensures s.writes <= Act(s, a, c).writes && s.accepted <= Act(s, a, c).accepted
  {
  }

  /** How often the drain goes on in a run. */
  function DrainSteps(s: State, actions: seq<Action>, c: Config): nat {
    if actions == [] then 0
    else
      var before, a := Acts(s, actions[..|actions| - 1], c), actions[|actions| - 1];
      DrainSteps(s, actions[..|actions| - 1], c) +
      (if before.phase.Draining? && (if before.queue == [] then a.FindsNone? else a.Drains?) then 1 else 0)
  }

  /** Every drain without pushes takes as many steps as there are queued entries, and one more to return. */
  lemma {:induction false} EveryDrainEnds(s: State, actions: seq<Action>, c: Config)
    requires s.phase.Draining? && forall a :: a in actions ==> !a.Pushes?
    ensures
      var end := Acts(s, actions, c);
      && (end.phase.Draining? || end.phase.Returned?) && (end.phase.Returned? ==> end.queue == [])
      && DrainSteps(s, actions, c) + |end.queue| + (if end.phase.Draining? then 1 else 0) == |s.queue| + 1
  {
    if actions != [] {
      EveryDrainEnds(s, actions[..|actions| - 1], c);
      assert actions[|actions| - 1] in actions;
    }
  }

  /** Shutdown gets through: from any running state the goroutine can drain the queue and return. */
  lemma {:induction false} ShutdownReturns(s: State, c: Config) returns (actions: seq<Action>)
    requires s.phase.Looping? || s.phase.Draining?
    ensures Acts(s, actions, c).phase.Returned? && forall a :: a in actions ==> !a.Pushes?
    ensures Acts(s, actions, c).queue == [] && Acts(s, actions, c).accepted == s.accepted
    ensures |actions| == |s.queue| + (if s.phase.Looping? then 3 else 1)
    decreases if s.phase.Looping? then 1 else 0, |s.queue|
  {
    if s.phase.Looping? {
      var draining := s.(done := true, phase := Draining);
      var rest := ShutdownReturns(draining, c);
      actions := [Cancels, SeesDone] + rest;
      ActsConcat(s, [Cancels, SeesDone], rest, c);
      assert [Cancels, SeesDone][..1] == [Cancels] && [Cancels][..0] == [];
      assert Acts(s, [Cancels], c) == s.(done := true);
    } else if s.queue == [] {
      actions := [FindsNone];
      assert [FindsNone][..0] == [];
    } else {
      var rest := ShutdownReturns(Act(s, Drains, c), c);
      actions := [Drains] + rest;
      ActsConcat(s, [Drains], rest, c);
      assert [Drains][..0] == [];
    }
  }

  lemma {:induction false} ActsConcat(s: State, a: seq<Action>, b: seq<Action>, c: Config)
    ensures Acts(s, a + b, c) == Acts(Acts(s, a, c), b, c)
  {
    hide Act;
    if b == [] {
      assert a + b == a;
    } else {
      assert (a + b)[..|a + b| - 1] == a + b[..|b| - 1];
      ActsConcat(s, a, b[..|b| - 1], c);
    }
  }
}
