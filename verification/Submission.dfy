/** Submitting tasks to a broker with a record written first, and dispatching recorded ones later. */
module Submission {
  import opened Prelude

  const DEFAULT_QUEUE := "default"
  const NANOS := 1_000_000_000

  const SCHEDULED := "scheduled"
  const SUBMITTING := "submitting"
  const SUBMIT_FAILED := "submit_failed"
  const PENDING := "pending"

  // -------------------------------------------------------------------- options

  /** Durations are in nanoseconds. */
  datatype EnqueueOptions = EnqueueOptions(
    queue: string, taskID: string, maxRetry: Option<int>, timeout: int, deadline: Option<int>,
    processAt: Option<int>, processIn: int, uniqueTTL: int, retention: int, group: string, priority: int,
    rateLimitKey: string, trace: bool, autoRetryEnabled: bool, autoRetryMax: int, autoRetryDelay: int)

  const DEFAULTS := EnqueueOptions(
    DEFAULT_QUEUE, "", None, 0, None, None, 0, 0, 0, "", 0, "", true, false, 0, 0)

  /** Any change to the options; a nil option is skipped. */
  type Setting = EnqueueOptions -> EnqueueOptions

  type Settings = seq<Option<Setting>>

  function WithQueue(name: string): Setting { (o: EnqueueOptions) => o.(queue := name) }

  function WithTaskID(id: string): Setting { (o: EnqueueOptions) => o.(taskID := id) }

  function WithMaxRetry(n: int): Setting { (o: EnqueueOptions) => o.(maxRetry := Some(if n < 0 then 0 else n)) }

  function WithTimeout(d: int): Setting { (o: EnqueueOptions) => o.(timeout := d) }

  function WithUnique(ttl: int): Setting { (o: EnqueueOptions) => o.(uniqueTTL := ttl) }

  function WithAutoRetry(max: int, delay: int): Setting {
    var pause := if max <= 0 || delay < 0 then 0 else delay;
    (o: EnqueueOptions) =>
      o.(autoRetryEnabled := max > 0, autoRetryMax := if max > 0 then max else 0, autoRetryDelay := pause)
  }

  function Applied(opts: Settings): EnqueueOptions {
    if opts == [] then DEFAULTS
    else
      var before, last := Applied(opts[..|opts| - 1]), opts[|opts| - 1];
      if last.Some? then last.value(before) else before
  }

  method ApplyOptions(opts: Settings) returns (out: EnqueueOptions)
    ensures out == Applied(opts)
  {
    out := DEFAULTS;
    for i := 0 to |opts|
      invariant out == Applied(opts[..i])
    {
      assert opts[..i + 1][..i] == opts[..i];
      if opts[i].Some? {
        out := opts[i].value(out);
      }
    }
    assert opts[..|opts|] == opts;
  }

  lemma AppliedMore(opts: Settings, s: Setting)
    ensures Applied(opts + [Some(s)]) == s(Applied(opts))
  {
    assert (opts + [Some(s)])[..|opts|] == opts;
  }

  // ------------------------------------------------------------ tasks and records

  /** Encoding a value may fail; bytes and text are passed on as they are. */
  datatype Payload = Nil | Bytes(bytes: string) | Text(text: string) | Value(encoded: Option<string>)

  function Marshal(p: Payload): Option<string> {
    match p
    case Nil => Some("")
    case Bytes(b) => Some(b)
    case Text(t) => Some(t)
    case Value(encoded) => encoded
  }

  datatype Task = Task(id: string, taskType: string, queue: string, payload: Payload)

  datatype Record = Record(
    recordID: int, taskID: string, queue: string, taskType: string, payload: string, state: string,
    maxRetry: int, timeoutSeconds: int, uniqueSeconds: int,
    autoRetryEnabled: bool, autoRetryMax: int, autoRetryDelaySeconds: int, scheduledAt: Option<int>)

  /** The broker's answer to an accepted task; where it names an id, that is the accepted one. */
  datatype Info = Info(state: string, maxRetry: int, nextRunAt: Option<int>)

  function FirstNonEmpty(a: string, b: string): string {
    if a != "" then a else b
  }

  /** Whole seconds, rounded toward zero. */
  function Seconds(d: int): (s: int)
    ensures d >= 0 ==> s * NANOS <= d < (s + 1) * NANOS
    ensures d <= 0 ==> (s - 1) * NANOS < d <= s * NANOS
  {
    if d >= 0 then d / NANOS else -((-d) / NANOS)
  }

  /** The options in effect: the task's own queue and id come before those of the options. */
  function Effective(task: Task, opts: Settings): EnqueueOptions {
    var o := Applied(opts);
    o.(queue := FirstNonEmpty(task.queue, o.queue), taskID := FirstNonEmpty(task.id, o.taskID))
  }

  /** The task's own queue and id count before those that the options set, and nothing else differs. */
  lemma {:induction false} EffectiveTells(task: Task, opts: Settings)
    ensures Effective(task, opts).queue == if task.queue != "" then task.queue else Applied(opts).queue
    ensures Effective(task, opts).taskID == if task.id != "" then task.id else Applied(opts).taskID
    ensures Effective(task, opts).(queue := "", taskID := "") == Applied(opts).(queue := "", taskID := "")
  {
    hide Applied;
  }

  function RecordFromEnqueue(
    task: Task, payload: string, info: Option<Info>, applied: EnqueueOptions, state: string, now: int): Record
  {
    var at :=
      if applied.processAt.Some? then applied.processAt
      else if applied.processIn > 0 then Some(now + applied.processIn)
      else if info.Some? then info.value.nextRunAt
      else None;
    Record(
      0, applied.taskID, FirstNonEmpty(task.queue, FirstNonEmpty(applied.queue, DEFAULT_QUEUE)), task.taskType, payload,
      if at.Some? && at.value > now && state == PENDING then SCHEDULED else state,
      if applied.maxRetry.Some? then applied.maxRetry.value else if info.Some? then info.value.maxRetry else 0,
      Seconds(applied.timeout), Seconds(applied.uniqueTTL),
      applied.autoRetryEnabled, applied.autoRetryMax, Seconds(applied.autoRetryDelay), at)
  }

  function TaskOf(r: Record): Task {
    Task(r.taskID, r.taskType, r.queue, Bytes(r.payload))
  }

  function TaskRecordOptions(r: Record): Settings {
    [Some(WithQueue(FirstNonEmpty(r.queue, DEFAULT_QUEUE)))]
    + (if r.taskID != "" then [Some(WithTaskID(r.taskID))] else [])
    + [Some(WithMaxRetry(r.maxRetry))]
    + (if r.timeoutSeconds > 0 then [Some(WithTimeout(r.timeoutSeconds * NANOS))] else [])
    + (if r.uniqueSeconds > 0 then [Some(WithUnique(r.uniqueSeconds * NANOS))] else [])
    + (if r.autoRetryEnabled && r.autoRetryMax > 0
       then [Some(WithAutoRetry(r.autoRetryMax, r.autoRetryDelaySeconds * NANOS))] else [])
  }

  /** What a dispatched record asks of the broker. */
  function Redispatched(r: Record): EnqueueOptions {
    var auto := r.autoRetryEnabled && r.autoRetryMax > 0;
    DEFAULTS.(
      queue := FirstNonEmpty(r.queue, DEFAULT_QUEUE),
      taskID := r.taskID,
      maxRetry := Some(if r.maxRetry < 0 then 0 else r.maxRetry),
      timeout := if r.timeoutSeconds > 0 then r.timeoutSeconds * NANOS else 0,
      uniqueTTL := if r.uniqueSeconds > 0 then r.uniqueSeconds * NANOS else 0,
      autoRetryEnabled := auto,
      autoRetryMax := if auto then r.autoRetryMax else 0,
      autoRetryDelay := if auto && r.autoRetryDelaySeconds > 0 then r.autoRetryDelaySeconds * NANOS else 0)
  }

  lemma AppliedMaybe(opts: Settings, given: bool, s: Setting)
    ensures Applied(opts + (if given then [Some(s)] else [])) == if given then s(Applied(opts)) else Applied(opts)
  {
    if given {
      AppliedMore(opts, s);
    } else {
      assert opts + [] == opts;
    }
  }

  lemma {:induction false} OptionsOfRecord(r: Record)
    ensures Applied(TaskRecordOptions(r)) == Redispatched(r)
  {
    hide Applied;
    var queue, id, retry := WithQueue(FirstNonEmpty(r.queue, DEFAULT_QUEUE)), WithTaskID(r.taskID), WithMaxRetry(r.maxRetry);
    var timeout, unique := WithTimeout(r.timeoutSeconds * NANOS), WithUnique(r.uniqueSeconds * NANOS);
    var auto := WithAutoRetry(r.autoRetryMax, r.autoRetryDelaySeconds * NANOS);
    var o1 := [Some(queue)];
    var o2 := o1 + (if r.taskID != "" then [Some(id)] else []);
    var o3 := o2 + [Some(retry)];
    var o4 := o3 + (if r.timeoutSeconds > 0 then [Some(timeout)] else []);
    var o5 := o4 + (if r.uniqueSeconds > 0 then [Some(unique)] else []);
    AppliedNone();
    assert [] + [Some(queue)] == o1;
    AppliedMore([], queue);
    AppliedMaybe(o1, r.taskID != "", id);
    AppliedMore(o2, retry);
    AppliedMaybe(o3, r.timeoutSeconds > 0, timeout);
    AppliedMaybe(o4, r.uniqueSeconds > 0, unique);
    AppliedMaybe(o5, r.autoRetryEnabled && r.autoRetryMax > 0, auto);
  }

  lemma AppliedNone()
    ensures Applied([]) == DEFAULTS
  {
  }

  /** A duration survives being recorded in seconds exactly when it is a whole, non-negative number of them. */
  predicate Whole(d: int) {
    d >= 0 && d % NANOS == 0
  }

  lemma WholeSeconds(d: int)
    ensures (if Seconds(d) > 0 then Seconds(d) * NANOS else 0) == d <==> Whole(d)
    ensures (if Seconds(d) > 0 then Seconds(d) * NANOS else 0) == if d > 0 then d - d % NANOS else 0
  {
  }

  function AutoRetryOf(o: EnqueueOptions): (bool, int, int) {
    (o.autoRetryEnabled, o.autoRetryMax, o.autoRetryDelay)
  }

  /** What a scheduled task's options become when its record is dispatched: what is kept, and exactly when. */
  lemma {:induction false} ScheduledSettings(task: Task, opts: Settings, payload: string, state: string, now: int)
    ensures
      var asked := Effective(task, opts);
      var sent := Applied(TaskRecordOptions(RecordFromEnqueue(task, payload, None, asked, state, now)));
      && sent.taskID == asked.taskID
      && sent.queue == FirstNonEmpty(asked.queue, DEFAULT_QUEUE)
      && (sent.maxRetry == asked.maxRetry <==> asked.maxRetry.Some? && asked.maxRetry.value >= 0)
      && sent.maxRetry == Some(if asked.maxRetry.Some? && asked.maxRetry.value >= 0 then asked.maxRetry.value else 0)
      && (sent.timeout == asked.timeout <==> Whole(asked.timeout))
      && sent.timeout == (if asked.timeout > 0 then asked.timeout - asked.timeout % NANOS else 0)
      && (sent.uniqueTTL == asked.uniqueTTL <==> Whole(asked.uniqueTTL))
      && sent.uniqueTTL == (if asked.uniqueTTL > 0 then asked.uniqueTTL - asked.uniqueTTL % NANOS else 0)
      && (AutoRetryOf(sent) == AutoRetryOf(asked) <==>
            if asked.autoRetryEnabled then asked.autoRetryMax > 0 && Whole(asked.autoRetryDelay)
            else asked.autoRetryMax == 0 && asked.autoRetryDelay == 0)
      && sent == DEFAULTS.(
           queue := sent.queue, taskID := sent.taskID, maxRetry := sent.maxRetry,
           timeout := sent.timeout, uniqueTTL := sent.uniqueTTL, autoRetryEnabled := sent.autoRetryEnabled,
           autoRetryMax := sent.autoRetryMax, autoRetryDelay := sent.autoRetryDelay)
  {
    hide Applied, TaskRecordOptions;
    var asked := Effective(task, opts);
    OptionsOfRecord(RecordFromEnqueue(task, payload, None, asked, state, now));
    WholeSeconds(asked.timeout);
    WholeSeconds(asked.uniqueTTL);
    WholeSeconds(asked.autoRetryDelay);
  }

  // ------------------------------------------------------------------- the machine

  /** What a task is to the broker and in its record. */
  datatype Core = Core(id: string, queue: string, taskType: string, payload: string)

  function CoreOf(r: Record): Core {
    Core(r.taskID, r.queue, r.taskType, r.payload)
  }

  predicate Sendable(task: Task) {
    task.taskType != "" && Marshal(task.payload).Some?
  }

  /** What the broker takes a task for. */
  function BrokerCore(task: Task, opts: Settings): Core
    requires Marshal(task.payload).Some?
  {
    var o := Effective(task, opts);
    Core(o.taskID, FirstNonEmpty(o.queue, DEFAULT_QUEUE), task.taskType, Marshal(task.payload).value)
  }

  datatype Event = Recorded(core: Core) | Accepted(core: Core)

  /** Where a process is: before which call. A poller carries the claimed records it has yet to dispatch. */
  datatype Pc =
    | Start(task: Task, opts: Settings)
    | Scheduling(record: Record)
    | Submitting(task: Task, opts: Settings, record: Record)
    | Sending(task: Task, opts: Settings, record: Record, poll: Option<seq<Record>>)
    | Dispatched(record: Record, poll: Option<seq<Record>>)
    | Refused(record: Record, poll: Option<seq<Record>>)
    | Polling(rest: seq<Record>)
    | Done

  datatype Reply = Refuses | AcceptsUnheard | Accepts(info: Option<Info>)

  /**
   * A store may keep a write although it answers with an error; an accepted task's answer may be lost, which the
   * client sees as a refusal.
   */
  datatype Action =
    | Submit(now: int, uuid: string)
    | StoreAnswers(ok: bool, kept: bool, recordID: int)
    | BrokerAnswers(reply: Reply, now: int)
    | Claim(ids: seq<string>, mark: string)
    | Take
    | Crash

  /** One process with the store and the log that all of them share. */
  datatype View = View(pc: Pc, store: map<string, Record>, log: seq<Event>)

  function Afterwards(poll: Option<seq<Record>>): Pc {
    if poll.None? then Done else Polling(poll.value)
  }

  /** The store keeps one record per task id: a later record replaces an earlier one with its id. */
  function Write(v: View, r: Record, pc: Pc): View {
    View(pc, v.store[r.taskID := r], v.log + [Recorded(CoreOf(r))])
  }

  function StoreAct(v: View, a: Action, r: Record, onOk: Pc, onError: Pc): View
    requires a.StoreAnswers?
  {
    if a.ok || a.kept then Write(v, r, if a.ok then onOk else onError) else v.(pc := onError)
  }

  function DueAt(o: EnqueueOptions, now: int): Option<int> {
    if o.processAt.Some? then o.processAt else if o.processIn > 0 then Some(now + o.processIn) else None
  }

  function NamedTask(task: Task, opts: Settings, uuid: string): Task {
    if Effective(task, opts).taskID == "" then task.(id := uuid) else task
  }

  function NamedOptions(task: Task, opts: Settings, uuid: string): Settings {
    if Effective(task, opts).taskID == "" then opts + [Some(WithTaskID(uuid))] else opts
  }

  /** Chooses between scheduling and submitting, and prepares the record, under a new id when there is none. */
  function SubmitAct(task: Task, opts: Settings, schedules: bool, now: int, uuid: string): Pc {
    var o := Effective(task, opts);
    var named := o.(taskID := FirstNonEmpty(o.taskID, uuid));
    var payload := Marshal(task.payload);
    var due := DueAt(o, now);
    if payload.None? then Done
    else if schedules && due.Some? && due.value > now then
      Scheduling(RecordFromEnqueue(task, payload.value, None, named, SCHEDULED, now).(scheduledAt := due))
    else
      Submitting(
        NamedTask(task, opts, uuid), NamedOptions(task, opts, uuid),
        RecordFromEnqueue(task, payload.value, None, named, SUBMITTING, now))
  }

  /** The record of an accepted task, with what the pending record knew of automatic retries. */
  function AcceptedRecord(task: Task, opts: Settings, pending: Record, info: Info, now: int): Record
    requires Marshal(task.payload).Some?
  {
    RecordFromEnqueue(
      task, Marshal(task.payload).value, Some(info), Effective(task, opts),
      if info.state == "" then PENDING else info.state, now)
    .(recordID := pending.recordID, autoRetryEnabled := pending.autoRetryEnabled,
      autoRetryMax := pending.autoRetryMax, autoRetryDelaySeconds := pending.autoRetryDelaySeconds)
  }

  function BrokerAct(v: View, reply: Reply, now: int): View
    requires v.pc.Sending?
  {
    var pc := v.pc;
    if reply.Refuses? || !Sendable(pc.task) then v.(pc := Refused(pc.record, pc.poll))
    else
      var log := v.log + [Accepted(BrokerCore(pc.task, pc.opts))];
      match reply
      case AcceptsUnheard => v.(pc := Refused(pc.record, pc.poll), log := log)
      case Accepts(None) => v.(pc := Afterwards(pc.poll), log := log)
      case Accepts(Some(info)) =>
        v.(pc := Dispatched(AcceptedRecord(pc.task, pc.opts, pc.record, info, now), pc.poll), log := log)
  }

  function Marked(store: map<string, Record>, ids: seq<string>, mark: string): map<string, Record> {
    map k | k in store :: if k in ids then store[k].(state := mark) else store[k]
  }

  function Chosen(store: map<string, Record>, ids: seq<string>): seq<Record> {
    if ids == [] then []
    else (if ids[0] in store then [store[ids[0]]] else []) + Chosen(store, ids[1..])
  }

  /** One step of one process; an action that is not its next one changes nothing. */
  function Act(v: View, a: Action, schedules: bool): View {
    match (v.pc, a)
    case (_, Crash) => v.(pc := Done)
    case (Start(task, opts), Submit(now, uuid)) =>
      if uuid == "" then v else v.(pc := SubmitAct(task, opts, schedules, now, uuid))
    case (Scheduling(r), StoreAnswers(_, _, _)) => StoreAct(v, a, r, Done, Done)
    case (Submitting(task, opts, r), StoreAnswers(_, _, id)) =>
      var stored := r.(recordID := id);
      StoreAct(v, a, stored, Sending(task, opts, stored, None), Done)
    case (Sending(_, _, _, _), BrokerAnswers(reply, now)) => BrokerAct(v, reply, now)
    case (Dispatched(r, poll), StoreAnswers(_, _, _)) => StoreAct(v, a, r, Afterwards(poll), Afterwards(poll))
    case (Refused(r, poll), StoreAnswers(_, _, _)) =>
      StoreAct(v, a, r.(state := SUBMIT_FAILED), Afterwards(poll), Afterwards(poll))
    case (Polling(rest), Claim(ids, mark)) =>
      if rest != [] then v
      else
        var store := Marked(v.store, ids, mark);
        v.(pc := Polling(Chosen(store, ids)), store := store)
    case (Polling(rest), Take) =>
      if rest == [] then v
      else v.(pc := Sending(TaskOf(rest[0]), TaskRecordOptions(rest[0]), rest[0], Some(rest[1..])))
    case _ => v
  }

  datatype State = State(pcs: map<nat, Pc>, store: map<string, Record>, log: seq<Event>)

  function Step(s: State, p: nat, a: Action, schedules: bool): State {
    if p !in s.pcs then s
    else
      var v := Act(View(s.pcs[p], s.store, s.log), a, schedules);
      State(s.pcs[p := v.pc], v.store, v.log)
  }

  /** Any number of processes, in any interleaving. */
  function Run(s: State, steps: seq<(nat, Action)>, schedules: bool): State {
    if steps == [] then s
    else Step(Run(s, steps[..|steps| - 1], schedules), steps[|steps| - 1].0, steps[|steps| - 1].1, schedules)
  }

  // ------------------------------------------------------------------- recorded first

  /** Every accepted task was recorded earlier, with the same id, queue, type and payload. */
  predicate RecordedFirst(log: seq<Event>) {
    forall i :: 0 <= i < |log| && log[i].Accepted? ==> log[i].core.id != "" && Recorded(log[i].core) in log[..i]
  }

  /** A record that a process holds: it is named, and the log knows it. */
  predicate Known(log: seq<Event>, r: Record) {
    r.taskID != "" && r.queue != "" && Recorded(CoreOf(r)) in log
  }

  predicate AllKnown(log: seq<Event>, rs: seq<Record>) {
    forall r :: r in rs ==> Known(log, r)
  }

  predicate PollKnown(log: seq<Event>, poll: Option<seq<Record>>) {
    poll.Some? ==> AllKnown(log, poll.value)
  }

  /** The broker would take the task for what the record says. */
  predicate Matches(task: Task, opts: Settings, r: Record) {
    Marshal(task.payload).Some? && BrokerCore(task, opts) == CoreOf(r)
  }

  predicate PcOk(pc: Pc, log: seq<Event>) {
    match pc
    case Start(_, _) => true
    case Scheduling(r) => r.taskID != "" && r.queue != ""
    case Submitting(task, opts, r) => r.taskID != "" && r.queue != "" && Matches(task, opts, r)
    case Sending(task, opts, r, poll) => Known(log, r) && Matches(task, opts, r) && PollKnown(log, poll)
    case Dispatched(r, poll) => Known(log, r) && PollKnown(log, poll)
    case Refused(r, poll) => Known(log, r) && PollKnown(log, poll)
    case Polling(rest) => AllKnown(log, rest)
    case Done => true
  }

  predicate StoreOk(store: map<string, Record>, log: seq<Event>) {
    && (forall k :: k in store ==> store[k].taskID == k && Known(log, store[k]))
    && (forall e :: e in log ==> e.core.id in store)
  }

  predicate ViewOk(v: View) {
    RecordedFirst(v.log) && StoreOk(v.store, v.log) && PcOk(v.pc, v.log)
  }

  lemma KnownMore(log: seq<Event>, more: seq<Event>, pc: Pc)
    requires PcOk(pc, log)
    ensures PcOk(pc, log + more)
  {
    hide Matches;
  }

  /** The record of a new task is what the broker would take the task for, under its old id or a new one. */
  lemma {:induction false} SubmitMatches(task: Task, opts: Settings, schedules: bool, now: int, uuid: string, log: seq<Event>)
    requires uuid != ""
    ensures PcOk(SubmitAct(task, opts, schedules, now, uuid), log)
  {
    hide Applied;
    AppliedMore(opts, WithTaskID(uuid));
  }

  /** A dispatched record asks the broker for exactly the recorded task. */
  lemma {:induction false} RecordMatches(r: Record)
    requires r.taskID != "" && r.queue != ""
    ensures Matches(TaskOf(r), TaskRecordOptions(r), r)
  {
    hide Applied, TaskRecordOptions;
    OptionsOfRecord(r);
  }

  lemma {:induction false} AcceptedMatches(task: Task, opts: Settings, r: Record, info: Info, now: int)
    requires Matches(task, opts, r)
    ensures CoreOf(AcceptedRecord(task, opts, r, info, now)) == CoreOf(r)
  {
    hide Applied;
  }

  lemma RecordedMore(log: seq<Event>, c: Core)
    requires RecordedFirst(log)
    ensures RecordedFirst(log + [Recorded(c)])
    ensures Recorded(c) in log && c.id != "" ==> RecordedFirst(log + [Accepted(c)])
  {
    forall e | e == Recorded(c) || (e == Accepted(c) && Recorded(c) in log && c.id != "") ensures RecordedFirst(log + [e]) {
      forall i | 0 <= i < |log + [e]| && (log + [e])[i].Accepted?
        ensures (log + [e])[i].core.id != "" && Recorded((log + [e])[i].core) in (log + [e])[..i]
      {
        assert (log + [e])[..i] == log[..i];
        assert log[..|log|] == log;
      }
    }
  }

  lemma {:induction false} StoreActOk(v: View, a: Action, r: Record, onOk: Pc, onError: Pc)
    requires a.StoreAnswers? && RecordedFirst(v.log) && StoreOk(v.store, v.log)
    requires r.taskID != "" && r.queue != ""
    requires PcOk(onError, v.log) && PcOk(onOk, v.log + [Recorded(CoreOf(r))])
    ensures ViewOk(StoreAct(v, a, r, onOk, onError))
  {
    hide RecordedFirst, PcOk;
    RecordedMore(v.log, CoreOf(r));
    KnownMore(v.log, [Recorded(CoreOf(r))], onError);
  }

  lemma {:induction false} BrokerActOk(v: View, reply: Reply, now: int)
    requires ViewOk(v) && v.pc.Sending?
    ensures ViewOk(BrokerAct(v, reply, now))
  {
    hide RecordedFirst, BrokerCore, AcceptedRecord, StoreOk, AllKnown;
    var pc := v.pc;
    var c := CoreOf(pc.record);
    if !reply.Refuses? && Sendable(pc.task) {
      RecordedMore(v.log, c);
      AcceptedStored(v.store, v.log, pc.record);
      KnownMore(v.log, [Accepted(c)], Refused(pc.record, pc.poll));
      if reply.Accepts? && reply.info.Some? {
        AcceptedMatches(pc.task, pc.opts, pc.record, reply.info.value, now);
        AcceptedNamed(pc.task, pc.opts, pc.record, reply.info.value, now);
      }
    }
  }

  lemma AcceptedStored(store: map<string, Record>, log: seq<Event>, r: Record)
    requires StoreOk(store, log) && Known(log, r)
    ensures StoreOk(store, log + [Accepted(CoreOf(r))])
  {
  }

  lemma AcceptedNamed(task: Task, opts: Settings, r: Record, info: Info, now: int)
    requires Marshal(task.payload).Some?
    ensures AcceptedRecord(task, opts, r, info, now).queue != ""
  {
  }

  lemma {:induction false} ChosenKnown(store: map<string, Record>, ids: seq<string>, log: seq<Event>)
    requires StoreOk(store, log)
    ensures AllKnown(log, Chosen(store, ids))
  {
    if ids != [] {
      hide Known;
      ChosenKnown(store, ids[1..], log);
    }
  }

  lemma MarkedOk(store: map<string, Record>, ids: seq<string>, mark: string, log: seq<Event>)
    requires StoreOk(store, log)
    ensures StoreOk(Marked(store, ids, mark), log)
  {
  }

  lemma {:induction false} ActOk(v: View, a: Action, schedules: bool)
    requires ViewOk(v)
    ensures ViewOk(Act(v, a, schedules))
  {
    hide RecordedFirst, StoreOk, Matches, SubmitAct, StoreAct, BrokerAct, Marked, Chosen, TaskRecordOptions;
    match (v.pc, a)
    case (_, Crash) =>
    case (Start(task, opts), Submit(now, uuid)) =>
      if uuid != "" { SubmitMatches(task, opts, schedules, now, uuid, v.log); }
    case (Scheduling(r), StoreAnswers(_, _, _)) => StoreActOk(v, a, r, Done, Done);
    case (Submitting(task, opts, r), StoreAnswers(_, _, id)) =>
      var stored := r.(recordID := id);
      SameCore(task, opts, r, stored);
      StoreActOk(v, a, stored, Sending(task, opts, stored, None), Done);
    case (Sending(_, _, _, _), BrokerAnswers(reply, now)) => BrokerActOk(v, reply, now);
    case (Dispatched(r, poll), StoreAnswers(_, _, _)) =>
      KnownMore(v.log, [Recorded(CoreOf(r))], Afterwards(poll));
      StoreActOk(v, a, r, Afterwards(poll), Afterwards(poll));
    case (Refused(r, poll), StoreAnswers(_, _, _)) =>
      KnownMore(v.log, [Recorded(CoreOf(r))], Afterwards(poll));
      StoreActOk(v, a, r.(state := SUBMIT_FAILED), Afterwards(poll), Afterwards(poll));
    case (Polling(rest), Claim(ids, mark)) =>
      MarkedOk(v.store, ids, mark, v.log);
      ChosenKnown(Marked(v.store, ids, mark), ids, v.log);
    case (Polling(rest), Take) =>
      if rest != [] {
        assert rest[0] in rest;
        RecordMatches(rest[0]);
      }
    case _ =>
  }

  lemma SameCore(task: Task, opts: Settings, r: Record, stored: Record)
    requires Matches(task, opts, r) && CoreOf(stored) == CoreOf(r)
    ensures Matches(task, opts, stored)
  {
  }

  /** The log only grows. */
  lemma ActLog(v: View, a: Action, schedules: bool)
    ensures v.log <= Act(v, a, schedules).log
  {
    hide SubmitAct, Marked, Chosen, TaskRecordOptions, BrokerCore, AcceptedRecord;
  }

  predicate StateOk(s: State) {
    && RecordedFirst(s.log) && StoreOk(s.store, s.log)
    && forall p :: p in s.pcs ==> PcOk(s.pcs[p], s.log)
  }

  lemma {:induction false} StepOk(s: State, p: nat, a: Action, schedules: bool)
    requires StateOk(s)
    ensures StateOk(Step(s, p, a, schedules))
  {
    hide RecordedFirst, StoreOk, PcOk, Act;
    if p in s.pcs {
      var v := View(s.pcs[p], s.store, s.log);
      ActOk(v, a, schedules);
      ActLog(v, a, schedules);
      var more := Act(v, a, schedules).log[|s.log|..];
      assert Act(v, a, schedules).log == s.log + more;
      forall q | q in s.pcs && q != p ensures PcOk(s.pcs[q], s.log + more) {
        KnownMore(s.log, more, s.pcs[q]);
      }
    }
  }

  /** Before anything happened: tasks to enqueue, and pollers with nothing claimed. */
  predicate Initial(s: State) {
    && s.store == map[] && s.log == []
    && forall p :: p in s.pcs ==> s.pcs[p].Start? || s.pcs[p] == Polling([])
  }

  /**
   * Whatever the processes do, in whatever order, and wherever they crash: a task the broker accepted was recorded
   * before with the same id, queue, type and payload, and the store still has a record of that id.
   */
  lemma {:induction false} EveryRunRecordsFirst(s: State, steps: seq<(nat, Action)>, schedules: bool)
    requires Initial(s)
    ensures
      var end := Run(s, steps, schedules);
      && RecordedFirst(end.log)
      && (forall c :: Accepted(c) in end.log ==> c.id in end.store && end.store[c.id].taskID == c.id)
  {
    hide RecordedFirst;
    RunOk(s, steps, schedules);
  }

  lemma {:induction false} RunOk(s: State, steps: seq<(nat, Action)>, schedules: bool)
    requires Initial(s)
    ensures StateOk(Run(s, steps, schedules))
  {
    if steps != [] {
      hide StateOk, Step;
      RunOk(s, steps[..|steps| - 1], schedules);
      StepOk(Run(s, steps[..|steps| - 1], schedules), steps[|steps| - 1].0, steps[|steps| - 1].1, schedules);
    }
  }

  // ----------------------------------------------------------------- one id, one task

  /** The id that a process was given for its task, if any. */
  function GivenId(pc: Pc): string
    requires pc.Start?
  {
    Effective(pc.task, pc.opts).taskID
  }

  /** The task of a process that is to enqueue it under a name. */
  function ProcessCore(pc: Pc, name: string): Core
    requires pc.Start? && Marshal(pc.task.payload).Some?
  {
    var queue := FirstNonEmpty(pc.task.queue, FirstNonEmpty(Applied(pc.opts).queue, DEFAULT_QUEUE));
    Core(name, queue, pc.task.taskType, Marshal(pc.task.payload).value)
  }

  /** A process without a given id draws one that no other process has. */
  predicate Draws(s: State, steps: seq<(nat, Action)>, names: map<nat, string>) {
    && (forall p :: p in names ==> p in s.pcs && s.pcs[p].Start? && GivenId(s.pcs[p]) in ["", names[p]])
    && (forall p, q :: p in names && q in names && p != q && GivenId(s.pcs[p]) == "" ==> names[p] != names[q])
    && (forall i :: 0 <= i < |steps| ==> UsesName(s, steps[i].0, steps[i].1, names))
  }

  predicate UsesName(s: State, p: nat, a: Action, names: map<nat, string>) {
    p in s.pcs && s.pcs[p].Start? && a.Submit? && a.uuid != "" ==>
      p in names && (GivenId(s.pcs[p]) == "" ==> a.uuid == names[p])
  }

  /** An id is given to one task only, or to tasks none of which the broker would take. */
  predicate OneTaskPerId(s: State) {
    forall p, q :: p in s.pcs && q in s.pcs ==> SameTask(s.pcs[p], s.pcs[q])
  }

  predicate SameTask(a: Pc, b: Pc) {
    && a.Start? && b.Start? && Sendable(a.task) && Marshal(b.task.payload).Some? && GivenId(a) == GivenId(b) != ""
    ==> ProcessCore(a, GivenId(a)) == ProcessCore(b, GivenId(b))
  }

  /** The store has every accepted task as it was accepted. */
  ghost predicate AllKept(s: State) {
    forall c :: Accepted(c) in s.log ==> c.id in s.store && CoreOf(s.store[c.id]) == c
  }

  ghost predicate FromProcess(s: State, names: map<nat, string>, c: Core) {
    exists p :: IsProcess(s, names, p, c)
  }

  predicate IsProcess(s: State, names: map<nat, string>, p: nat, c: Core) {
    && p in s.pcs && s.pcs[p].Start? && p in names
    && Marshal(s.pcs[p].task.payload).Some? && c == ProcessCore(s.pcs[p], names[p])
  }

  /** Everything written or about to be written stems from one of the processes; the accepted has a type. */
  ghost predicate Originates(start: State, names: map<nat, string>, s: State) {
    && LogOriginates(start, names, s.log)
    && forall p :: p in s.pcs ==> PcOriginates(start, names, p, s.pcs[p])
  }

  ghost predicate LogOriginates(start: State, names: map<nat, string>, log: seq<Event>) {
    forall e :: e in log ==> FromProcess(start, names, e.core) && (e.Accepted? ==> e.core.taskType != "")
  }

  ghost predicate PcOriginates(start: State, names: map<nat, string>, p: nat, pc: Pc) {
    match pc
    case Start(_, _) => p in start.pcs && start.pcs[p] == pc
    case Scheduling(r) => FromProcess(start, names, CoreOf(r))
    case Submitting(_, _, r) => FromProcess(start, names, CoreOf(r))
    case _ => true
  }

  /** What a process records of its task, under the id it was given or draws. */
  lemma {:induction false} SubmitCore(pc: Pc, schedules: bool, now: int, uuid: string, name: string)
    requires pc.Start? && uuid != "" && GivenId(pc) in ["", name] && (GivenId(pc) == "" ==> uuid == name)
    ensures
      var next := SubmitAct(pc.task, pc.opts, schedules, now, uuid);
      if Marshal(pc.task.payload).None? then next.Done?
      else (next.Scheduling? || next.Submitting?) && CoreOf(next.record) == ProcessCore(pc, name)
  {
    hide Applied, NamedOptions, NamedTask;
  }

  lemma {:induction false} SubmitOriginates(
    start: State, names: map<nat, string>, p: nat, schedules: bool, now: int, uuid: string)
    requires p in start.pcs && start.pcs[p].Start? && uuid != ""
    requires p in names ==> GivenId(start.pcs[p]) in ["", names[p]]
    requires UsesName(start, p, Submit(now, uuid), names)
    ensures PcOriginates(start, names, p, SubmitAct(start.pcs[p].task, start.pcs[p].opts, schedules, now, uuid))
  {
    hide GivenId, SubmitAct, ProcessCore;
    var pc := start.pcs[p];
    SubmitCore(pc, schedules, now, uuid, names[p]);
    if Marshal(pc.task.payload).Some? {
      assert IsProcess(start, names, p, ProcessCore(pc, names[p]));
    }
  }

  lemma {:induction false} ActOriginates(
    start: State, names: map<nat, string>, p: nat, v: View, a: Action, schedules: bool)
    requires ViewOk(v) && LogOriginates(start, names, v.log)
    requires PcOriginates(start, names, p, v.pc) && UsesName(start, p, a, names)
    requires p in names ==> p in start.pcs && start.pcs[p].Start? && GivenId(start.pcs[p]) in ["", names[p]]
    ensures
      var next := Act(v, a, schedules);
      LogOriginates(start, names, next.log) && PcOriginates(start, names, p, next.pc)
  {
    hide RecordedFirst, StoreOk, FromProcess, SubmitAct, Marked, Chosen, TaskRecordOptions, LogOriginates;
    hide UsesName, GivenId, Write, BrokerAct;
    if v.pc.Start? && a.Submit? && a.uuid != "" {
      SubmitOriginates(start, names, p, schedules, a.now, a.uuid);
    } else if v.pc.Sending? && a.BrokerAnswers? {
      BrokerOriginates(start, names, p, v, a.reply, a.now);
    } else if (v.pc.Dispatched? || v.pc.Refused?) && a.StoreAnswers? {
      KnownOriginates(start, names, v.log, v.pc.record);
    }
    forall r: Record, pc | FromProcess(start, names, CoreOf(r))
      ensures LogOriginates(start, names, Write(v, r, pc).log) && Write(v, r, pc).pc == pc
    {
      WriteOriginates(start, names, v, r, pc);
    }
  }

  lemma WriteOriginates(start: State, names: map<nat, string>, v: View, r: Record, pc: Pc)
    requires LogOriginates(start, names, v.log) && FromProcess(start, names, CoreOf(r))
    ensures LogOriginates(start, names, Write(v, r, pc).log) && Write(v, r, pc).pc == pc
  {
    hide FromProcess, CoreOf;
  }

  lemma KnownOriginates(start: State, names: map<nat, string>, log: seq<Event>, r: Record)
    requires LogOriginates(start, names, log) && Known(log, r)
    ensures FromProcess(start, names, CoreOf(r))
  {
    hide FromProcess, CoreOf;
  }

  lemma BrokerOriginates(start: State, names: map<nat, string>, p: nat, v: View, reply: Reply, now: int)
    requires ViewOk(v) && LogOriginates(start, names, v.log) && v.pc.Sending?
    ensures LogOriginates(start, names, BrokerAct(v, reply, now).log)
    ensures PcOriginates(start, names, p, BrokerAct(v, reply, now).pc)
  {
    hide RecordedFirst, StoreOk, FromProcess, AcceptedRecord, BrokerCore;
    if Sendable(v.pc.task) {
      BrokerCoreType(v.pc.task, v.pc.opts);
    }
  }

  lemma BrokerCoreType(task: Task, opts: Settings)
    requires Sendable(task)
    ensures BrokerCore(task, opts).taskType == task.taskType != ""
  {
  }

  lemma {:induction false} StepOriginates(
    start: State, steps: seq<(nat, Action)>, names: map<nat, string>, s: State, i: nat, schedules: bool)
    requires Draws(start, steps, names) && i < |steps| && StateOk(s) && Originates(start, names, s)
    ensures Originates(start, names, Step(s, steps[i].0, steps[i].1, schedules))
  {
    hide RecordedFirst, StoreOk, FromProcess, Act, PcOk, PcOriginates, UsesName, LogOriginates, GivenId;
    var p, a := steps[i].0, steps[i].1;
    if p in s.pcs {
      ActOriginates(start, names, p, View(s.pcs[p], s.store, s.log), a, schedules);
    }
  }

  lemma {:induction false} RunOriginates(
    start: State, steps: seq<(nat, Action)>, names: map<nat, string>, n: nat, schedules: bool)
    requires Initial(start) && Draws(start, steps, names) && n <= |steps|
    ensures Originates(start, names, Run(start, steps[..n], schedules))
  {
    if n > 0 {
      hide Originates, Step, Draws, Initial;
      RunOriginates(start, steps, names, n - 1, schedules);
      assert steps[..n][..n - 1] == steps[..n - 1];
      RunOk(start, steps[..n - 1], schedules);
      StepOriginates(start, steps, names, Run(start, steps[..n - 1], schedules), n - 1, schedules);
    }
  }

  lemma OneNameOneTask(s: State, steps: seq<(nat, Action)>, names: map<nat, string>, c: Core, d: Core)
    requires Draws(s, steps, names) && OneTaskPerId(s)
    requires FromProcess(s, names, c) && FromProcess(s, names, d) && c.id == d.id && c.taskType != ""
    ensures c == d
  {
    hide Effective, UsesName, Marshal;
    var p :| IsProcess(s, names, p, c);
    var q :| IsProcess(s, names, q, d);
    assert SameTask(s.pcs[p], s.pcs[q]);
  }

  /** When every id is given to one task only, the store keeps the record of every accepted task. */
  lemma {:induction false} RecordsKept(s: State, steps: seq<(nat, Action)>, names: map<nat, string>, schedules: bool)
    requires Initial(s) && Draws(s, steps, names) && OneTaskPerId(s)
    ensures AllKept(Run(s, steps, schedules))
  {
    hide Draws, Initial, RecordedFirst, FromProcess, Run, OneTaskPerId;
    RunOk(s, steps, schedules);
    RunOriginates(s, steps, names, |steps|, schedules);
    assert steps[..|steps|] == steps;
    var end := Run(s, steps, schedules);
    forall c | Accepted(c) in end.log ensures c.id in end.store && CoreOf(end.store[c.id]) == c {
      assert Accepted(c).core == c && c.id in end.store;
      var d := CoreOf(end.store[c.id]);
      assert Recorded(d) in end.log && Recorded(d).core == d;
      OneNameOneTask(s, steps, names, c, d);
    }
  }

  // ------------------------------------------------------------- two tasks under one id

  lemma RunMore(s: State, steps: seq<(nat, Action)>, p: nat, a: Action, schedules: bool)
    ensures Run(s, steps + [(p, a)], schedules) == Step(Run(s, steps, schedules), p, a, schedules)
  {
    hide Step;
    assert (steps + [(p, a)])[..|steps|] == steps;
  }

  lemma NoSteps(s: State, schedules: bool)
    ensures Run(s, [], schedules) == s
  {
  }

  const KEPT := StoreAnswers(true, true, 0)

  /** A process records its task, either to be scheduled or about to be sent. */
  lemma {:induction false} RecordTask(s: State, p: nat, schedules: bool) returns (t: State, r: Record)
    requires p in s.pcs && s.pcs[p].Start? && Marshal(s.pcs[p].task.payload).Some? && GivenId(s.pcs[p]) != ""
    ensures t == Step(Step(s, p, Submit(0, GivenId(s.pcs[p])), schedules), p, KEPT, schedules)
    ensures
      var pc := s.pcs[p];
      && CoreOf(r) == ProcessCore(pc, GivenId(pc)) && r.queue != ""
      && t == State(s.pcs[p := t.pcs[p]], s.store[r.taskID := r], s.log + [Recorded(CoreOf(r))])
      && (t.pcs[p] == Done || t.pcs[p] == Sending(pc.task, pc.opts, r, None))
      && (t.pcs[p].Sending? ==> Matches(pc.task, pc.opts, r))
  {
    hide SubmitAct, Effective, ProcessCore, BrokerCore;
    var pc := s.pcs[p];
    var id := GivenId(pc);
    SubmitCore(pc, schedules, 0, id, id);
    SubmitMatches(pc.task, pc.opts, schedules, 0, id, s.log);
    SubmitKeeps(pc, schedules, id);
    var middle := Step(s, p, Submit(0, id), schedules);
    t := Step(middle, p, KEPT, schedules);
    r := if middle.pcs[p].Submitting? then middle.pcs[p].record.(recordID := 0) else middle.pcs[p].record;
  }

  lemma SubmitKeeps(pc: Pc, schedules: bool, uuid: string)
    requires pc.Start? && GivenId(pc) != ""
    ensures
      var next := SubmitAct(pc.task, pc.opts, schedules, 0, uuid);
      next.Submitting? ==> next.task == pc.task && next.opts == pc.opts
  {
    hide Applied;
  }

  /** The broker accepts what is about to be sent. */
  lemma {:induction false} AcceptDirect(s: State, p: nat, schedules: bool) returns (t: State)
    requires p in s.pcs && s.pcs[p].Sending? && Sendable(s.pcs[p].task)
    requires Matches(s.pcs[p].task, s.pcs[p].opts, s.pcs[p].record)
    ensures t == Step(s, p, BrokerAnswers(AcceptsUnheard, 0), schedules)
    ensures t.log == s.log + [Accepted(CoreOf(s.pcs[p].record))]
    ensures t.pcs.Keys == s.pcs.Keys && forall q :: q in s.pcs && q != p ==> t.pcs[q] == s.pcs[q]
  {
    hide BrokerCore;
    t := Step(s, p, BrokerAnswers(AcceptsUnheard, 0), schedules);
  }

  /** A poller claims a record and the broker accepts its task. */
  lemma {:induction false} AcceptPolled(s: State, z: nat, r: Record, schedules: bool) returns (t: State)
    requires z in s.pcs && s.pcs[z] == Polling([])
    requires r.taskID in s.store && s.store[r.taskID] == r && r.taskID != "" && r.queue != "" && r.taskType != ""
    ensures
      var claimed := Step(s, z, Claim([r.taskID], SUBMITTING), schedules);
      t == Step(Step(claimed, z, Take, schedules), z, BrokerAnswers(AcceptsUnheard, 0), schedules)
    ensures t.log == s.log + [Accepted(CoreOf(r))]
    ensures t.pcs.Keys == s.pcs.Keys && forall q :: q in s.pcs && q != z ==> t.pcs[q] == s.pcs[q]
  {
    hide BrokerCore, TaskRecordOptions;
    var marked := r.(state := SUBMITTING);
    var claimed := Step(s, z, Claim([r.taskID], SUBMITTING), schedules);
    ChosenOne(Marked(s.store, [r.taskID], SUBMITTING), r.taskID);
    assert claimed.pcs[z] == Polling([marked]);
    RecordMatches(marked);
    var taken := Step(claimed, z, Take, schedules);
    assert taken.pcs[z] == Sending(TaskOf(marked), TaskRecordOptions(marked), marked, Some([marked][1..]));
    t := AcceptDirect(taken, z, schedules);
  }

  lemma ChosenOne(store: map<string, Record>, id: string)
    requires id in store
    ensures Chosen(store, [id]) == [store[id]]
  {
    assert [id][1..] == [];
  }

  predicate HasPoller(s: State) {
    exists z :: z in s.pcs && s.pcs[z] == Polling([])
  }

  /** A run that only submits one process's task. */
  predicate OnlySubmits(steps: seq<(nat, Action)>, p: nat, id: string) {
    forall i :: 0 <= i < |steps| && steps[i].1.Submit? ==> steps[i] == (p, Submit(0, id))
  }

  /** From a recorded task to an accepted one: directly, or by way of a poller. */
  lemma {:induction false} AcceptRecorded(s: State, p: nat, r: Record, z: nat, schedules: bool)
    returns (t: State, more: seq<(nat, Action)>)
    requires p in s.pcs && r.taskID in s.store && s.store[r.taskID] == r
    requires r.taskID != "" && r.queue != "" && r.taskType != ""
    requires if s.pcs[p].Sending? then
        Sendable(s.pcs[p].task) && s.pcs[p].record == r && Matches(s.pcs[p].task, s.pcs[p].opts, r)
      else z in s.pcs && s.pcs[z] == Polling([])
    ensures t.log == s.log + [Accepted(CoreOf(r))] && OnlySubmits(more, p, r.taskID)
    ensures t.pcs.Keys == s.pcs.Keys && forall q :: q in s.pcs && q != p && q != z ==> t.pcs[q] == s.pcs[q]
    ensures forall before, start :: Run(start, before, schedules) == s ==> Run(start, before + more, schedules) == t
  {
    hide Step, Matches, Sendable, Run;
    var broker := BrokerAnswers(AcceptsUnheard, 0);
    if s.pcs[p].Sending? {
      t := AcceptDirect(s, p, schedules);
      more := [(p, broker)];
      forall before, start | Run(start, before, schedules) == s ensures Run(start, before + more, schedules) == t {
        RunMore(start, before, p, broker, schedules);
      }
    } else {
      t := AcceptPolled(s, z, r, schedules);
      var claim := Claim([r.taskID], SUBMITTING);
      more := [(z, claim), (z, Take), (z, broker)];
      forall before, start | Run(start, before, schedules) == s ensures Run(start, before + more, schedules) == t {
        RunMore(start, before, z, claim, schedules);
        RunMore(start, before + [(z, claim)], z, Take, schedules);
        RunMore(start, before + [(z, claim)] + [(z, Take)], z, broker, schedules);
        assert before + more == before + [(z, claim)] + [(z, Take)] + [(z, broker)];
      }
    }
  }

  lemma {:induction false} RunRecords(s: State, before: seq<(nat, Action)>, p: nat, id: string, schedules: bool)
    ensures Run(s, before + [(p, Submit(0, id)), (p, KEPT)], schedules) ==
      Step(Step(Run(s, before, schedules), p, Submit(0, id), schedules), p, KEPT, schedules)
  {
    hide Step, Run;
    RunMore(s, before, p, Submit(0, id), schedules);
    RunMore(s, before + [(p, Submit(0, id))], p, KEPT, schedules);
    assert before + [(p, Submit(0, id)), (p, KEPT)] == before + [(p, Submit(0, id))] + [(p, KEPT)];
  }

  /** A process's task is recorded and accepted. */
  lemma {:induction false} AcceptTask(s: State, p: nat, schedules: bool) returns (t: State, steps: seq<(nat, Action)>)
    requires p in s.pcs && s.pcs[p].Start? && Sendable(s.pcs[p].task) && GivenId(s.pcs[p]) != ""
    requires schedules ==> HasPoller(s)
    ensures t == Run(s, steps, schedules) && OnlySubmits(steps, p, GivenId(s.pcs[p]))
    ensures Accepted(ProcessCore(s.pcs[p], GivenId(s.pcs[p]))) in t.log
    ensures t.pcs.Keys == s.pcs.Keys && forall q :: q in s.pcs && q != p && s.pcs[q].Start? ==> t.pcs[q] == s.pcs[q]
  {
    hide Step, Run, ProcessCore, GivenId, Matches;
    var id := GivenId(s.pcs[p]);
    NamedCore(s.pcs[p], id);
    var s2, r := RecordTask(s, p, schedules);
    NoSteps(s, schedules);
    RunRecords(s, [], p, id, schedules);
    var first := [] + [(p, Submit(0, id)), (p, KEPT)];
    ScheduledOnly(s, p, schedules);
    var z := p;
    if !s2.pcs[p].Sending? {
      z :| z in s.pcs && s.pcs[z] == Polling([]);
    }
    var more;
    t, more := AcceptRecorded(s2, p, r, z, schedules);
    steps := first + more;
  }

  /** One of two tasks under one id is accepted; then the other is recorded in its place. */
  lemma {:induction false} SharedIdReplaces(s: State, p: nat, q: nat, schedules: bool)
    returns (steps: seq<(nat, Action)>, names: map<nat, string>)
    requires Initial(s) && (schedules ==> HasPoller(s))
    requires p in s.pcs && q in s.pcs && !SameTask(s.pcs[p], s.pcs[q])
    ensures Draws(s, steps, names) && !AllKept(Run(s, steps, schedules))
  {
    hide Initial, Step, ProcessCore, GivenId, HasPoller, Run;
    var id := GivenId(s.pcs[p]);
    names := map[p := id, q := id];
    var c, d := ProcessCore(s.pcs[p], id), ProcessCore(s.pcs[q], id);
    NamedCore(s.pcs[p], id);
    NamedCore(s.pcs[q], id);
    var s3, first := AcceptTask(s, p, schedules);
    assert s3.pcs[q] == s.pcs[q];
    var s4, r := RecordTask(s3, q, schedules);
    RunRecords(s, first, q, id, schedules);
    steps := first + [(q, Submit(0, id)), (q, KEPT)];
    assert Run(s, steps, schedules) == s4;
    assert Accepted(c) in s4.log && CoreOf(s4.store[id]) == d != c;
  }

  lemma NamedCore(pc: Pc, name: string)
    requires pc.Start? && Marshal(pc.task.payload).Some?
    ensures ProcessCore(pc, name).id == name && ProcessCore(pc, name).taskType == pc.task.taskType
  {
  }

  /** Without a store that schedules, every task is about to be sent. */
  lemma {:induction false} ScheduledOnly(s: State, p: nat, schedules: bool)
    requires p in s.pcs && s.pcs[p].Start? && Marshal(s.pcs[p].task.payload).Some? && GivenId(s.pcs[p]) != ""
    ensures
      var t := Step(Step(s, p, Submit(0, GivenId(s.pcs[p])), schedules), p, KEPT, schedules);
      !schedules ==> t.pcs[p].Sending?
  {
    hide Effective, RecordFromEnqueue, NamedTask, NamedOptions;
  }

  /**
   * The store keeps the record of every accepted task, in every run in which new ids are new, exactly when every id
   * is given to one task only.
   */
  lemma {:induction false} RecordsKeptIff(s: State, schedules: bool)
    requires Initial(s) && (schedules ==> HasPoller(s))
    ensures (forall steps, names :: Draws(s, steps, names) ==> AllKept(Run(s, steps, schedules))) <==> OneTaskPerId(s)
  {
    hide Initial, Draws, AllKept, Run, SameTask;
    if OneTaskPerId(s) {
      forall steps, names {:trigger Draws(s, steps, names)} | Draws(s, steps, names)
        ensures AllKept(Run(s, steps, schedules))
      {
        RecordsKept(s, steps, names, schedules);
      }
    } else {
      var p, q :| p in s.pcs && q in s.pcs && !SameTask(s.pcs[p], s.pcs[q]);
      var steps, names := SharedIdReplaces(s, p, q, schedules);
      assert Draws(s, steps, names) && !AllKept(Run(s, steps, schedules));
    }
  }

  /** When the broker fails, the record is as it was, or the same task marked as failed to submit. */
  lemma {:induction false} FailureLeaves(s: State, p: nat, a: Action, schedules: bool, k: string)
    requires StateOk(s) && p in s.pcs && k in s.store
    requires s.pcs[p].Refused? || (s.pcs[p].Sending? && a.BrokerAnswers? && !a.reply.Accepts?)
    ensures
      var after := Step(s, p, a, schedules);
      && k in after.store
      && (s.pcs[p].Sending? ==> after.store == s.store && after.pcs[p] == Refused(s.pcs[p].record, s.pcs[p].poll))
      && (after.store[k] == s.store[k] ||
           (after.store[k] == s.pcs[p].record.(state := SUBMIT_FAILED) && k == s.pcs[p].record.taskID && a.StoreAnswers?))
  {
    hide RecordedFirst, StoreOk, PcOk, BrokerCore, SubmitAct;
  }

  // ------------------------------------------------------- the calls, one process alone

  function Acts(v: View, actions: seq<Action>, schedules: bool): View {
    if actions == [] then v
    else Act(Acts(v, actions[..|actions| - 1], schedules), actions[|actions| - 1], schedules)
  }

  /** The actions of one enqueue. */
  function EnqueueActions(now: int, uuid: string, first: Action, reply: Reply, last: Action): seq<Action> {
    [Submit(now, uuid), first, BrokerAnswers(reply, now), last]
  }

  lemma ActsFour(v: View, a: Action, b: Action, c: Action, d: Action, schedules: bool)
    ensures Acts(v, [a, b, c, d], schedules) == Act(Act(Act(Act(v, a, schedules), b, schedules), c, schedules), d, schedules)
  {
    hide Act;
    assert [a, b, c, d][..3] == [a, b, c] && [a, b, c][..2] == [a, b] && [a, b][..1] == [a] && [a][..0] == [];
    assert Acts(v, [], schedules) == v && Acts(v, [a], schedules) == Act(v, a, schedules);
    assert Acts(v, [a, b], schedules) == Act(Acts(v, [a], schedules), b, schedules);
    assert Acts(v, [a, b, c], schedules) == Act(Acts(v, [a, b], schedules), c, schedules);
  }

  lemma ActsMore(v: View, actions: seq<Action>, a: Action, schedules: bool)
    ensures Acts(v, actions + [a], schedules) == Act(Acts(v, actions, schedules), a, schedules)
  {
    assert (actions + [a])[..|actions|] == actions;
  }

  // ------------------------------------------------- what one enqueue does, and when

  /** The task is to run later: at a given time that has not come, or else after some delay. */
  predicate DueLater(asked: EnqueueOptions, now: int) {
    if asked.processAt.Some? then asked.processAt.value > now else asked.processIn > 0
  }

  /** The id and queue a task is recorded and sent under; it draws an id when it has none. */
  function NewCore(task: Task, opts: Settings, uuid: string): Core
    requires Marshal(task.payload).Some?
  {
    var asked := Effective(task, opts);
    Core(
      FirstNonEmpty(asked.taskID, uuid), FirstNonEmpty(asked.queue, DEFAULT_QUEUE), task.taskType,
      Marshal(task.payload).value)
  }

  /** The record of a task that was put off: its time is the one asked for. */
  predicate PutOff(r: Record, asked: EnqueueOptions, now: int) {
    && r.state == SCHEDULED && r.scheduledAt.Some?
    && (asked.processAt.Some? ==> r.scheduledAt == asked.processAt)
    && (asked.processAt.None? ==> r.scheduledAt.value == now + asked.processIn)
  }

  /**
   * The state recorded of a task that was sent: submitting until a later write of the record succeeds, then failed
   * when no acceptance was heard of, or else what the broker says, where a pending task not yet due is scheduled.
   */
  predicate SentState(state: string, asked: EnqueueOptions, heard: bool, info: Option<Info>, written: bool, now: int) {
    if heard && info.Some? && written then
      var said := if info.value.state == "" then PENDING else info.value.state;
      var timed := asked.processAt.Some? || asked.processIn > 0;
      var waits :=
        if timed then DueLater(asked, now) else info.value.nextRunAt.Some? && info.value.nextRunAt.value > now;
      state == if said == PENDING && waits then SCHEDULED else said
    else if !heard && written then state == SUBMIT_FAILED
    else state == SUBMITTING
  }

  /** Only the record of one id differs. */
  predicate OnlyAt(before: map<string, Record>, after: map<string, Record>, id: string) {
    after.Keys == before.Keys + {id} && forall k :: k in before && k != id ==> after[k] == before[k]
  }

  /**
   * What one enqueue does to the store and the log. A task due later on a store that schedules is only recorded. Any
   * other is recorded and then sent, unless the record fails; the enqueue succeeds if the broker is heard to accept.
   */
  predicate Enqueues(
    v: View, task: Task, opts: Settings, schedules: bool, now: int, uuid: string, first: Action, reply: Reply,
    last: Action, after: View, ok: bool)
    requires first.StoreAnswers? && last.StoreAnswers?
  {
    if Marshal(task.payload).None? then !ok && after.store == v.store && after.log == v.log
    else if !first.ok && !first.kept then !ok && after.store == v.store && after.log == v.log
    else
      var asked, core := Effective(task, opts), NewCore(task, opts, uuid);
      && OnlyAt(v.store, after.store, core.id) && CoreOf(after.store[core.id]) == core
      && var r := after.store[core.id];
         if schedules && DueLater(asked, now) then
           ok == first.ok && after.log == v.log + [Recorded(core)] && PutOff(r, asked, now)
         else if !first.ok then !ok && after.log == v.log + [Recorded(core)] && r.state == SUBMITTING
         else
           var accepted := !reply.Refuses? && task.taskType != "";
           var heard := reply.Accepts? && task.taskType != "";
           var info := if reply.Accepts? then reply.info else None;
           var written := (last.ok || last.kept) && (heard ==> info.Some?);
           && ok == heard
           && after.log == v.log + [Recorded(core)] + (if accepted then [Accepted(core)] else [])
              + (if written then [Recorded(core)] else [])
           && SentState(r.state, asked, heard, info, written, now)
  }

  lemma NamedEffective(task: Task, opts: Settings, uuid: string)
    requires uuid != ""
    ensures
      Effective(NamedTask(task, opts, uuid), NamedOptions(task, opts, uuid)) ==
        Effective(task, opts).(taskID := FirstNonEmpty(Effective(task, opts).taskID, uuid))
  {
    hide Applied;
    AppliedMore(opts, WithTaskID(uuid));
  }

  /** What a process does first with a task that can be encoded. */
  lemma {:induction false} SubmitTells(task: Task, opts: Settings, schedules: bool, now: int, uuid: string)
    requires uuid != "" && Marshal(task.payload).Some?
    ensures
      var asked, core := Effective(task, opts), NewCore(task, opts, uuid);
      var pc := SubmitAct(task, opts, schedules, now, uuid);
      if schedules && DueLater(asked, now) then
        pc.Scheduling? && CoreOf(pc.record) == core && PutOff(pc.record, asked, now)
      else
        && pc.Submitting? && CoreOf(pc.record) == core && pc.record.state == SUBMITTING
        && pc.task.taskType == task.taskType && pc.task.payload == task.payload
        && Effective(pc.task, pc.opts) == asked.(taskID := core.id) && BrokerCore(pc.task, pc.opts) == core
  {
    hide Applied;
    NamedEffective(task, opts, uuid);
  }

  lemma AcceptedTells(task: Task, opts: Settings, pending: Record, info: Info, now: int)
    requires Matches(task, opts, pending)
    ensures CoreOf(AcceptedRecord(task, opts, pending, info, now)) == CoreOf(pending)
    ensures SentState(
      AcceptedRecord(task, opts, pending, info, now).state, Effective(task, opts), true, Some(info), true, now)
    ensures
      var r := AcceptedRecord(task, opts, pending, info, now);
      && r.recordID == pending.recordID && r.autoRetryEnabled == pending.autoRetryEnabled
      && r.autoRetryMax == pending.autoRetryMax && r.autoRetryDelaySeconds == pending.autoRetryDelaySeconds
    ensures
      var r, asked := AcceptedRecord(task, opts, pending, info, now), Effective(task, opts);
      && (asked.maxRetry.Some? ==> r.maxRetry == asked.maxRetry.value)
      && (asked.maxRetry.None? ==> r.maxRetry == info.maxRetry)
      && (asked.processAt.Some? ==> r.scheduledAt == asked.processAt)
      && (asked.processAt.None? && asked.processIn > 0 ==> r.scheduledAt == Some(now + asked.processIn))
      && (asked.processAt.None? && asked.processIn <= 0 ==> r.scheduledAt == info.nextRunAt)
  {
    hide Applied;
    AcceptedMatches(task, opts, pending, info, now);
  }

  lemma TimesAlike(state: string, a: EnqueueOptions, id: string, heard: bool, info: Option<Info>, written: bool, now: int)
    ensures SentState(state, a.(taskID := id), heard, info, written, now) <==>
      SentState(state, a, heard, info, written, now)
  {
  }

  /** The machine's run of one process alone does what one enqueue should. */
  lemma {:induction false} EnqueueTells(v: View, task: Task, opts: Settings, schedules: bool, now: int, uuid: string,
    first: Action, reply: Reply, last: Action, ok: bool)
    requires first.StoreAnswers? && last.StoreAnswers? && uuid != "" && v.pc == Start(task, opts)
    requires ok <==>
      && first.ok && Marshal(task.payload).Some?
      && (SubmitAct(task, opts, schedules, now, uuid).Scheduling? || (reply.Accepts? && task.taskType != ""))
    ensures
      Enqueues(v, task, opts, schedules, now, uuid, first, reply, last,
        Acts(v, EnqueueActions(now, uuid, first, reply, last), schedules), ok)
  {
    hide Applied, SubmitAct, Effective, AcceptedRecord, PutOff, SentState, DueLater, NewCore;
    ActsFour(v, Submit(now, uuid), first, BrokerAnswers(reply, now), last, schedules);
    if Marshal(task.payload).Some? {
      SubmitTells(task, opts, schedules, now, uuid);
      var pc := SubmitAct(task, opts, schedules, now, uuid);
      if pc.Submitting? && first.ok {
        SentTells(v, pc, task, opts, now, uuid, first, reply, last, schedules);
      }
    } else {
      SubmitShape(task, opts, schedules, now, uuid);
    }
  }

  lemma {:induction false} SentTells(v: View, pc: Pc, task: Task, opts: Settings, now: int, uuid: string,
    first: Action, reply: Reply, last: Action, schedules: bool)
    requires first.StoreAnswers? && first.ok && last.StoreAnswers? && Marshal(task.payload).Some?
    requires
      var asked, core := Effective(task, opts), NewCore(task, opts, uuid);
      && pc.Submitting? && CoreOf(pc.record) == core && pc.record.state == SUBMITTING
      && pc.task.taskType == task.taskType && pc.task.payload == task.payload
      && Effective(pc.task, pc.opts) == asked.(taskID := core.id) && BrokerCore(pc.task, pc.opts) == core
    ensures
      var stored := Act(v.(pc := pc), first, schedules);
      var after := Act(Act(stored, BrokerAnswers(reply, now), schedules), last, schedules);
      var asked, core := Effective(task, opts), NewCore(task, opts, uuid);
      var accepted, heard := !reply.Refuses? && task.taskType != "", reply.Accepts? && task.taskType != "";
      var info := if reply.Accepts? then reply.info else None;
      var written := (last.ok || last.kept) && (heard ==> info.Some?);
      && OnlyAt(v.store, after.store, core.id) && CoreOf(after.store[core.id]) == core
      && after.log == v.log + [Recorded(core)] + (if accepted then [Accepted(core)] else [])
         + (if written then [Recorded(core)] else [])
      && SentState(after.store[core.id].state, asked, heard, info, written, now)
  {
    hide Applied, SubmitAct, Effective, AcceptedRecord, DueLater, NewCore;
    var asked, core := Effective(task, opts), NewCore(task, opts, uuid);
    var stored := pc.record.(recordID := first.recordID);
    var heard := reply.Accepts? && task.taskType != "";
    if heard && reply.info.Some? {
      AcceptedTells(pc.task, pc.opts, stored, reply.info.value, now);
      var r := AcceptedRecord(pc.task, pc.opts, stored, reply.info.value, now);
      TimesAlike(r.state, asked, core.id, true, reply.info, true, now);
    }
  }

  /** What sending a recorded task and recording the answer do. */
  lemma {:induction false} ConcludeTells(v: View, reply: Reply, now: int, answer: Action, schedules: bool)
    returns (r: Record)
    requires v.pc.Sending? && Matches(v.pc.task, v.pc.opts, v.pc.record) && answer.StoreAnswers?
    ensures
      var pc := v.pc;
      var sent := Act(v, BrokerAnswers(reply, now), schedules);
      var accepted, heard := !reply.Refuses? && pc.task.taskType != "", reply.Accepts? && pc.task.taskType != "";
      var core, asked := CoreOf(pc.record), Effective(pc.task, pc.opts);
      && sent.store == v.store && sent.log == v.log + (if accepted then [Accepted(core)] else [])
      && (heard && reply.info.None? ==> sent.pc == Afterwards(pc.poll))
      && (!heard || reply.info.Some? ==>
            && Concluded(r, pc.record) && SentState(r.state, asked, heard, if heard then reply.info else None, true, now)
            && Act(sent, answer, schedules) == StoreAct(sent, answer, r, Afterwards(pc.poll), Afterwards(pc.poll)))
  {
    hide Applied, AcceptedRecord, BrokerCore, SubmitAct, Marked, Chosen, Effective, DueLater, StoreAct, TaskRecordOptions;
    var pc := v.pc;
    r := pc.record.(state := SUBMIT_FAILED);
    if reply.Accepts? && reply.info.Some? && pc.task.taskType != "" {
      r := AcceptedRecord(pc.task, pc.opts, pc.record, reply.info.value, now);
      AcceptedTells(pc.task, pc.opts, pc.record, reply.info.value, now);
    }
  }

  /** The record of the same task under the same number. */
  predicate Concluded(r: Record, before: Record) {
    CoreOf(r) == CoreOf(before) && r.recordID == before.recordID
  }

  /** What a poller does with a record it has claimed: it sends the recorded task, and records how that went. */
  lemma {:induction false} DispatchTells(
    v: View, r: Record, rest: seq<Record>, reply: Reply, now: int, answer: Action, schedules: bool)
    requires v.pc == Polling([r] + rest) && r.taskID != "" && r.queue != "" && answer.StoreAnswers?
    ensures
      var sent := Act(Act(v, Take, schedules), BrokerAnswers(reply, now), schedules);
      var after := Act(sent, answer, schedules);
      var accepted, heard := !reply.Refuses? && r.taskType != "", reply.Accepts? && r.taskType != "";
      var info := if heard then reply.info else None;
      var written := (answer.ok || answer.kept) && (heard ==> info.Some?);
      && after.pc == Polling(rest)
      && after.log == v.log + (if accepted then [Accepted(CoreOf(r))] else [])
         + (if written then [Recorded(CoreOf(r))] else [])
      && (!written ==> after.store == v.store)
      && (written ==>
            && OnlyAt(v.store, after.store, r.taskID) && Concluded(after.store[r.taskID], r)
            && SentState(after.store[r.taskID].state, Redispatched(r), heard, info, true, now))
  {
    hide Applied, TaskRecordOptions, AcceptedRecord, Redispatched, BrokerCore, SubmitAct, BrokerAct;
    hide Marked, Chosen, Effective, SentState, Matches;
    assert ([r] + rest)[1..] == rest;
    RecordMatches(r);
    var taken := Act(v, Take, schedules);
    var concluded := ConcludeTells(taken, reply, now, answer, schedules);
    OptionsOfRecord(r);
    forall state, heard, info ensures
      SentState(state, Effective(TaskOf(r), TaskRecordOptions(r)), heard, info, true, now) <==>
        SentState(state, Redispatched(r), heard, info, true, now)
    {
      RedispatchedTimes(r, state, heard, info, now);
    }
  }

  lemma RedispatchedTimes(r: Record, state: string, heard: bool, info: Option<Info>, now: int)
    requires Applied(TaskRecordOptions(r)) == Redispatched(r)
    ensures SentState(state, Effective(TaskOf(r), TaskRecordOptions(r)), heard, info, true, now) <==>
      SentState(state, Redispatched(r), heard, info, true, now)
  {
    hide Applied, TaskRecordOptions;
  }

  /** A runtime with a submission store; whether the store also schedules is fixed. */
  class Instance {
    const schedules: bool
    var store: map<string, Record>
    var log: seq<Event>

    ghost function At(pc: Pc): View
      reads this
    {
      View(pc, store, log)
    }

    /** One call of the store, with the answer it will give. */
    method Put(r: Record, answer: Action) returns (ok: bool)
      requires answer.StoreAnswers?
      modifies this
      ensures ok == answer.ok
      ensures At(Done) == StoreAct(old(At(Done)), answer, r, Done, Done)
    {
      if answer.ok || answer.kept {
        store := store[r.taskID := r];
        log := log + [Recorded(CoreOf(r))];
      }
      return answer.ok;
    }

    /** One call of the broker. */
    method Send(task: Task, opts: Settings, reply: Reply) returns (info: Option<Option<Info>>)
      modifies this
      ensures store == old(store)
      ensures info == if reply.Accepts? && Sendable(task) then Some(reply.info) else None
      ensures log == old(log) +
        (if reply.Refuses? || !Sendable(task) then [] else [Accepted(BrokerCore(task, opts))])
    {
      if task.taskType == "" || Marshal(task.payload).None? || reply.Refuses? {
        return None;
      }
      log := log + [Accepted(BrokerCore(task, opts))];
      return if reply.Accepts? then Some(reply.info) else None;
    }

    /** Records what the broker made of a task; the store's answer is ignored. */
    method Conclude(
      task: Task, opts: Settings, record: Record, info: Option<Option<Info>>, now: int, answer: Action)
      requires answer.StoreAnswers? && Marshal(task.payload).Some?
      modifies this
      ensures info == None ==> At(Done) == StoreAct(old(At(Done)), answer, record.(state := SUBMIT_FAILED), Done, Done)
      ensures info == Some(None) ==> At(Done) == old(At(Done))
      ensures info.Some? && info.value.Some? ==>
        At(Done) == StoreAct(old(At(Done)), answer, AcceptedRecord(task, opts, record, info.value.value, now), Done, Done)
    {
      var ok;
      if info == None {
        ok := Put(record.(state := SUBMIT_FAILED), answer);
      } else if info.value.Some? {
        ok := Put(AcceptedRecord(task, opts, record, info.value.value, now), answer);
      }
    }

    /** Records a task that is due later. */
    method RecordScheduled(task: Task, opts: Settings, now: int, uuid: string, answer: Action)
      returns (scheduled: bool, failed: bool)
      requires answer.StoreAnswers? && uuid != ""
      modifies this
      ensures
        var pc := SubmitAct(task, opts, schedules, now, uuid);
        && (scheduled ==> !failed)
        && (pc.Scheduling? <==> scheduled || (failed && Marshal(task.payload).Some?))
        && (pc.Scheduling? ==> scheduled == answer.ok && At(Done) == StoreAct(old(At(Done)), answer, pc.record, Done, Done))
        && (!pc.Scheduling? ==> At(Done) == old(At(Done)) && (failed ==> pc.Done?))
    {
      hide Applied, StoreAct, RecordFromEnqueue;
      if !schedules {
        return false, false;
      }
      var applied := ApplyOptions(opts);
      if task.queue != "" {
        applied := applied.(queue := task.queue);
      }
      if task.id != "" {
        applied := applied.(taskID := task.id);
      }
      var due := DueAt(applied, now);
      if due.None? || due.value <= now {
        return false, false;
      }
      if applied.taskID == "" {
        applied := applied.(taskID := uuid);
      }
      if Marshal(task.payload).None? {
        return false, true;
      }
      var record := RecordFromEnqueue(task, Marshal(task.payload).value, None, applied, SCHEDULED, now).(scheduledAt := due);
      assert SubmitAct(task, opts, schedules, now, uuid) == Scheduling(record);
      var ok := Put(record, answer);
      return ok, !ok;
    }

    /** Writes the record that goes ahead of a submission, under a new id when there is none. */
    method RecordSubmitting(task: Task, opts: Settings, now: int, uuid: string, answer: Action)
      returns (named: Task, settings: Settings, record: Record, failed: bool)
      requires answer.StoreAnswers? && uuid != ""
      requires !SubmitAct(task, opts, schedules, now, uuid).Scheduling?
      modifies this
      ensures
        var pc := SubmitAct(task, opts, schedules, now, uuid);
        && (pc.Done? ==> failed && At(Done) == old(At(Done)))
        && (!pc.Done? ==>
              && failed == !answer.ok && pc.Submitting? && Marshal(named.payload).Some?
              && pc.task == named && pc.opts == settings && record == pc.record.(recordID := answer.recordID)
              && At(Done) == StoreAct(old(At(Done)), answer, record, Done, Done))
    {
      hide Applied, StoreAct, RecordFromEnqueue;
      named, settings := task, opts;
      var applied := ApplyOptions(opts);
      if task.queue != "" {
        applied := applied.(queue := task.queue);
      }
      if task.id != "" {
        applied := applied.(taskID := task.id);
      }
      if applied.taskID == "" {
        applied := applied.(taskID := uuid);
        named := task.(id := uuid);
        settings := opts + [Some(WithTaskID(uuid))];
      }
      if Marshal(task.payload).None? {
        record := RecordFromEnqueue(named, "", None, applied, SUBMITTING, now);
        return named, settings, record, true;
      }
      record := RecordFromEnqueue(task, Marshal(task.payload).value, None, applied, SUBMITTING, now);
      assert SubmitAct(task, opts, schedules, now, uuid) == Submitting(named, settings, record);
      record := record.(recordID := answer.recordID);
      var ok := Put(record, answer);
      return named, settings, record, !ok;
    }

    /** Enqueues a task: the machine's run of one process alone, to its end. */
    method Enqueue(task: Task, opts: Settings, now: int, uuid: string, first: Action, reply: Reply, last: Action)
      returns (ok: bool)
      requires first.StoreAnswers? && last.StoreAnswers? && uuid != ""
      modifies this
      ensures At(Done) == Acts(old(At(Start(task, opts))), EnqueueActions(now, uuid, first, reply, last), schedules)
      ensures ok <==>
        && first.ok && Marshal(task.payload).Some?
        && (SubmitAct(task, opts, schedules, now, uuid).Scheduling? || (reply.Accepts? && task.taskType != ""))
      ensures Enqueues(
        old(At(Start(task, opts))), task, opts, schedules, now, uuid, first, reply, last, At(Done), ok)
    {
      hide Applied, RecordFromEnqueue, AcceptedRecord, BrokerCore, SubmitAct, Enqueues;
      ghost var v := At(Start(task, opts));
      SubmitShape(task, opts, schedules, now, uuid);
      ActsFour(v, Submit(now, uuid), first, BrokerAnswers(reply, now), last, schedules);
      var scheduled, failed := RecordScheduled(task, opts, now, uuid, first);
      ok := scheduled;
      if !failed && !scheduled {
        var named, settings, record, refused := RecordSubmitting(task, opts, now, uuid, first);
        if !refused {
          var info := Send(named, settings, reply);
          Conclude(named, settings, record, info, now, last);
          ok := info.Some?;
        }
      }
      EnqueueTells(v, task, opts, schedules, now, uuid, first, reply, last, ok);
    }

    /** Dispatches one recorded task: the machine's three steps of a poller that has claimed it. */
    method DispatchScheduledTask(record: Record, ghost rest: seq<Record>, reply: Reply, now: int, answer: Action)
      requires answer.StoreAnswers?
      modifies this
      ensures
        var taken := Act(old(At(Polling([record] + rest))), Take, schedules);
        At(Polling(rest)) == Act(Act(taken, BrokerAnswers(reply, now), schedules), answer, schedules)
    {
      hide Applied, TaskRecordOptions, RecordFromEnqueue, AcceptedRecord, BrokerCore;
      assert ([record] + rest)[1..] == rest;
      var info := Send(TaskOf(record), TaskRecordOptions(record), reply);
      Conclude(TaskOf(record), TaskRecordOptions(record), record, info, now, answer);
    }

    /** One round of the poller: claims the due records and dispatches each. */
    method DispatchScheduledTasks(ids: seq<string>, mark: string, replies: nat -> Reply, now: int, answers: nat -> Action)
      requires forall i :: answers(i).StoreAnswers?
      modifies this
      ensures
        var claimed := Chosen(Marked(old(store), ids, mark), ids);
        At(Polling([])) == Acts(old(At(Polling([]))), PollActions(ids, mark, |claimed|, replies, now, answers), schedules)
    {
      hide Chosen, Marked, Act;
      ghost var start := At(Polling([]));
      store := Marked(store, ids, mark);
      var claimed := Chosen(store, ids);
      ClaimActs(start, ids, mark, schedules);
      assert claimed[0..] == claimed;
      for i := 0 to |claimed|
        invariant At(Polling(claimed[i..])) == Acts(start, PollActions(ids, mark, i, replies, now, answers), schedules)
      {
        assert claimed[i..] == [claimed[i]] + claimed[i + 1..];
        DispatchScheduledTask(claimed[i], claimed[i + 1..], replies(i), now, answers(i));
        PollMore(start, ids, mark, i, replies, now, answers, schedules);
      }
    }
  }

  /** The actions of one round of polling that dispatches `n` records. */
  function PollActions(
    ids: seq<string>, mark: string, n: nat, replies: nat -> Reply, now: int, answers: nat -> Action): seq<Action>
  {
    if n == 0 then [Claim(ids, mark)]
    else PollActions(ids, mark, n - 1, replies, now, answers) + [Take, BrokerAnswers(replies(n - 1), now), answers(n - 1)]
  }

  lemma ClaimActs(start: View, ids: seq<string>, mark: string, schedules: bool)
    requires start.pc == Polling([])
    ensures Acts(start, [Claim(ids, mark)], schedules) ==
      View(Polling(Chosen(Marked(start.store, ids, mark), ids)), Marked(start.store, ids, mark), start.log)
  {
    assert [Claim(ids, mark)][..0] == [];
  }

  lemma PollMore(
    start: View, ids: seq<string>, mark: string, n: nat, replies: nat -> Reply, now: int, answers: nat -> Action,
    schedules: bool)
    ensures
      var before := Acts(start, PollActions(ids, mark, n, replies, now, answers), schedules);
      Acts(start, PollActions(ids, mark, n + 1, replies, now, answers), schedules) ==
        Act(Act(Act(before, Take, schedules), BrokerAnswers(replies(n), now), schedules), answers(n), schedules)
  {
    hide Act;
    var actions := PollActions(ids, mark, n, replies, now, answers);
    var broker, answer := BrokerAnswers(replies(n), now), answers(n);
    assert actions + [Take, broker, answer] == actions + [Take] + [broker] + [answer];
    ActsMore(start, actions, Take, schedules);
    ActsMore(start, actions + [Take], broker, schedules);
    ActsMore(start, actions + [Take] + [broker], answer, schedules);
  }

  /** A claim marks the records asked for and no others, and hands over those that exist, in the order asked for. */
  lemma {:induction false} ClaimTells(store: map<string, Record>, ids: seq<string>, mark: string)
    ensures Marked(store, ids, mark).Keys == store.Keys
    ensures forall k :: k in store && k in ids ==> Marked(store, ids, mark)[k] == store[k].(state := mark)
    ensures forall k :: k in store && k !in ids ==> Marked(store, ids, mark)[k] == store[k]
    ensures forall r :: r in Chosen(store, ids) <==> exists k :: k in ids && k in store && r == store[k]
    ensures (forall k :: k in ids ==> k in store) ==>
      |Chosen(store, ids)| == |ids| && forall i :: 0 <= i < |ids| ==> Chosen(store, ids)[i] == store[ids[i]]
  {
    if ids != [] {
      ClaimTells(store, ids[1..], mark);
      assert ids == [ids[0]] + ids[1..];
    }
  }

  /** The accepted tasks of a log, in order. */
  function AcceptedOf(log: seq<Event>): seq<Core> {
    if log == [] then []
    else
      var last := log[|log| - 1];
      AcceptedOf(log[..|log| - 1]) + (if last.Accepted? then [last.core] else [])
  }

  lemma AcceptedMore(log: seq<Event>, accepted: bool, written: bool, c: Core)
    ensures
      AcceptedOf(log + (if accepted then [Accepted(c)] else []) + (if written then [Recorded(c)] else [])) ==
        AcceptedOf(log) + if accepted then [c] else []
  {
    var middle := log + if accepted then [Accepted(c)] else [];
    assert accepted ==> middle[..|log|] == log;
    assert !accepted ==> middle == log;
    assert written ==> (middle + [Recorded(c)])[..|middle|] == middle;
    assert !written ==> middle + [] == middle;
  }

  /** The first `n` claimed tasks that the broker takes. */
  function TakenOf(claimed: seq<Record>, replies: nat -> Reply, n: nat): seq<Core>
    requires n <= |claimed|
  {
    if n == 0 then []
    else
      var r := claimed[n - 1];
      TakenOf(claimed, replies, n - 1) + (if !replies(n - 1).Refuses? && r.taskType != "" then [CoreOf(r)] else [])
  }

  lemma TakenStep(before: seq<Core>, claimed: seq<Record>, replies: nat -> Reply, n: nat)
    requires 0 < n <= |claimed|
    ensures
      var r := claimed[n - 1];
      before + TakenOf(claimed, replies, n) ==
        before + TakenOf(claimed, replies, n - 1)
        + if !replies(n - 1).Refuses? && r.taskType != "" then [CoreOf(r)] else []
  {
  }

  /** A round of polling sends every claimed task, in order, whatever becomes of those before it. */
  lemma {:induction false} PollTells(start: View, ids: seq<string>, mark: string, claimed: seq<Record>, n: nat,
    replies: nat -> Reply, now: int, answers: nat -> Action, schedules: bool)
    requires start.pc == Polling([]) && forall i :: answers(i).StoreAnswers?
    requires claimed == Chosen(Marked(start.store, ids, mark), ids) && n <= |claimed|
    requires forall i :: 0 <= i < |claimed| ==> claimed[i].taskID != "" && claimed[i].queue != ""
    ensures
      var after := Acts(start, PollActions(ids, mark, n, replies, now, answers), schedules);
      && after.pc == Polling(claimed[n..])
      && AcceptedOf(after.log) == AcceptedOf(start.log) + TakenOf(claimed, replies, n)
  {
    hide Chosen, Marked, Act, AcceptedOf, CoreOf;
    if n == 0 {
      ClaimActs(start, ids, mark, schedules);
      assert claimed[0..] == claimed && AcceptedOf(start.log) + [] == AcceptedOf(start.log);
    } else {
      hide Acts, PollActions, TakenOf;
      PollTells(start, ids, mark, claimed, n - 1, replies, now, answers, schedules);
      PollMore(start, ids, mark, n - 1, replies, now, answers, schedules);
      var before := Acts(start, PollActions(ids, mark, n - 1, replies, now, answers), schedules);
      assert claimed[n - 1..] == [claimed[n - 1]] + claimed[n..];
      PollStep(before, claimed[n - 1], claimed[n..], replies(n - 1), now, answers(n - 1), schedules);
      TakenStep(AcceptedOf(start.log), claimed, replies, n);
    }
  }

  lemma {:induction false} PollStep(
    v: View, r: Record, rest: seq<Record>, reply: Reply, now: int, answer: Action, schedules: bool)
    requires v.pc == Polling([r] + rest) && r.taskID != "" && r.queue != "" && answer.StoreAnswers?
    ensures
      var after := Act(Act(Act(v, Take, schedules), BrokerAnswers(reply, now), schedules), answer, schedules);
      && after.pc == Polling(rest)
      && AcceptedOf(after.log) == AcceptedOf(v.log) + if !reply.Refuses? && r.taskType != "" then [CoreOf(r)] else []
  {
    hide Act, Redispatched, SentState, OnlyAt, AcceptedOf, Concluded, CoreOf;
    DispatchTells(v, r, rest, reply, now, answer, schedules);
    var heard := reply.Accepts? && r.taskType != "";
    AcceptedMore(v.log, !reply.Refuses? && r.taskType != "",
      (answer.ok || answer.kept) && (heard ==> reply.info.Some?), CoreOf(r));
  }

  lemma SubmitShape(task: Task, opts: Settings, schedules: bool, now: int, uuid: string)
    ensures
      var pc := SubmitAct(task, opts, schedules, now, uuid);
      && (pc.Done? <==> Marshal(task.payload).None?)
      && (pc.Done? || pc.Scheduling? || pc.Submitting?)
      && (pc.Submitting? ==> pc.task.payload == task.payload && pc.task.taskType == task.taskType)
  {
    hide Applied, RecordFromEnqueue;
  }
}
