/** One attempt at a task: its state machine, its events, and what the store records. */
module TaskExecution {
  import opened Prelude
  import opened TaskErrors

  const NEW := ""
  const PENDING := "pending"
  const RUNNING := "running"
  const RETRYING := "retrying"
  const FAILED := "failed"
  const DEAD := "deadletter"
  const SUCCESS := "success"

  // -------------------------------------------------------------------- states

  predicate CanTransition(from: string, to: string) {
    if to == "" then false
    else if from == "" then to == PENDING || to == RUNNING
    else if from == to then true
    else if from == PENDING then to == RUNNING
    else if from == RUNNING then to == SUCCESS || to == RETRYING || to == FAILED
    else if from == RETRYING then to == RUNNING
    else if from == FAILED then to == DEAD
    else false
  }

  /** A message as a value; `runtime` is the task state in its runtime context, when it has one. */
  datatype Task = Task(state: string, runtime: Option<string>, retryCount: int, maxRetry: int)

  function Move(t: Option<Task>, next: string): Option<Task> {
    if t.Some? && CanTransition(t.value.state, next) then Some(t.value.(state := next, runtime := Some(next))) else t
  }

  function Moves(t: Option<Task>, moves: seq<string>): Option<Task> {
    if moves == [] then t else Move(Moves(t, moves[..|moves| - 1]), moves[|moves| - 1])
  }

  function WithRuntime(t: Option<Task>): Option<Task> {
    if t.None? then None
    else
      var unset := t.value.runtime == None || t.value.runtime == Some("");
      Some(t.value.(runtime := if unset then Some(t.value.state) else t.value.runtime))
  }

  function Begun(t: Option<Task>): Option<Task> {
    WithRuntime(Move(if t.Some? && t.value.state == "" then Move(t, PENDING) else t, RUNNING))
  }

  class Message {
    var state: string
    var runtime: Option<string>
    var retryCount: int
    var maxRetry: int

    ghost function Value(): Task
      reads this
    {
      Task(state, runtime, retryCount, maxRetry)
    }
  }

  ghost function ValueOf(msg: Message?): Option<Task>
    reads msg
  {
    if msg == null then None else Some(msg.Value())
  }

  method TransitionTaskState(msg: Message?, next: string) returns (ok: bool)
    modifies msg
    ensures ValueOf(msg) == Move(old(ValueOf(msg)), next)
    ensures ok <==> msg != null && CanTransition(old(msg.state), next)
  {
    if msg == null {
      return false;
    }
    if !CanTransition(msg.state, next) {
      return false;
    }
    msg.state := next;
    msg.runtime := Some(next);
    return true;
  }

  predicate RetryExhausted(t: Option<Task>) {
    t.Some? && t.value.maxRetry >= 0 && t.value.retryCount >= t.value.maxRetry
  }

  // -------------------------------------------------------------------- events

  datatype Kind = Started | Succeeded | Failed | TimedOut | Retry | DeadLettered

  /** What publishers, observers, hooks and the handler are told, in order; a published event shows the state. */
  datatype Event =
    | Published(kind: Kind, state: string, err: Option<Err>)
    | TaskStart
    | TaskRetry(cause: Err)
    | TaskFailure(cause: Err)
    | TaskFinish(err: Option<Err>)
    | BeforeProcess(hook: nat)
    | Handled
    | AfterProcess(hook: nat, err: Option<Err>)
    | OnSuccess(hook: nat)
    | OnFailure(hook: nat, cause: Err)

  /** A hook, when not nil, is what its BeforeProcess returns. */
  type Hook = Option<Option<Err>>

  /** What a run of the middlewares and the handler did to the state, and what it returned. */
  datatype Ran = Ran(moves: seq<string>, err: Option<Err>)

  function StateOf(t: Option<Task>): string {
    if t.None? then "" else t.value.state
  }

  predicate ShouldMarkDeadLetter(t: Option<Task>, err: Err) {
    t.Some? && !IsRateLimitError(Some(err)) && !IsIgnoredError(Some(err)) && RetryExhausted(t)
  }

  function Ending(t: Option<Task>, err: Option<Err>): Kind {
    if err.None? then Succeeded
    else if t.Some? && t.value.state == DEAD then DeadLettered
    else if IsDeadLetterError(err) || IsFatalError(err) || ShouldMarkDeadLetter(t, err.value) then DeadLettered
    else if IsTimeoutError(err) || Is(err.value, DEADLINE_EXCEEDED) then TimedOut
    else if IsRetryableError(err) || IsRateLimitError(err) then Retry
    else Failed
  }

  function Ended(t: Option<Task>, err: Option<Err>): Option<Task> {
    match Ending(t, err)
    case Succeeded => Move(t, SUCCESS)
    case DeadLettered => if t.Some? && t.value.state == DEAD then t else Move(Move(t, FAILED), DEAD)
    case Retry => Move(t, RETRYING)
    case _ => Move(t, FAILED)
  }

  /** The hooks that are told before the handler runs, up to the first that objects. */
  function Befores(hooks: seq<Hook>): seq<Event> {
    if hooks == [] then []
    else
      var front, h := hooks[..|hooks| - 1], hooks[|hooks| - 1];
      Befores(front) + (if h.Some? && Objection(front).None? then [BeforeProcess(|hooks| - 1)] else [])
  }

  function Objection(hooks: seq<Hook>): Option<Err> {
    if hooks == [] then None
    else
      var front, h := Objection(hooks[..|hooks| - 1]), hooks[|hooks| - 1];
      if front.Some? then front else if h.Some? then h.value else None
  }

  /** What the hooks are told once the handler has returned: first the result, then the verdict. */
  datatype Telling = Processed(err: Option<Err>) | Good | Bad(cause: Err)

  function EventOf(telling: Telling, hook: nat): Event {
    match telling
    case Processed(err) => AfterProcess(hook, err)
    case Good => OnSuccess(hook)
    case Bad(cause) => OnFailure(hook, cause)
  }

  /** Every hook but the nil ones is told, in order. */
  function Told(hooks: seq<Hook>, telling: Telling): seq<Event> {
    if hooks == [] then []
    else
      var k := |hooks| - 1;
      Told(hooks[..k], telling) + (if hooks[k].Some? then [EventOf(telling, k)] else [])
  }

  /** The attempt's result: the first objecting hook's error, or else the handler's. */
  function Outcome(hooks: seq<Hook>, ran: Ran): Option<Err> {
    if Objection(hooks).Some? then Objection(hooks) else ran.err
  }

  /** The state when the attempt is judged: the handler may have moved it, if it ran. */
  function Judged(t: Option<Task>, hooks: seq<Hook>, ran: Ran): Option<Task> {
    Moves(Begun(t), if Objection(hooks).Some? then [] else ran.moves)
  }

  function After(t: Option<Task>, hooks: seq<Hook>, ran: Ran): Option<Task> {
    Ended(Judged(t, hooks, ran), Outcome(hooks, ran))
  }

  function Opening(t: Option<Task>): seq<Event> {
    [Published(Started, StateOf(Begun(t)), None), TaskStart]
  }

  function Closing(t: Option<Task>, err: Option<Err>): seq<Event> {
    var kind := Ending(t, err);
    [Published(kind, StateOf(Ended(t, err)), err)] +
    Verdict(kind, err) + [TaskFinish(err)]
  }

  function HookVerdicts(hooks: seq<Hook>, err: Option<Err>): seq<Event> {
    Told(hooks, if err.None? then Good else Bad(err.value))
  }

  function Trace(t: Option<Task>, hooks: seq<Hook>, ran: Ran): seq<Event> {
    var err := Outcome(hooks, ran);
    Opening(t) + Befores(hooks) + (if Objection(hooks).Some? then [] else [Handled])
    + Told(hooks, Processed(err)) + Closing(Judged(t, hooks, ran), err) + HookVerdicts(hooks, err)
  }

  datatype ExecuteError = NotInitialized | TaskError(err: Err)

  // -------------------------------------------------------------- orchestration

  class Orchestrator {
    var log: seq<Event>

    method Tell(hooks: seq<Hook>, telling: Telling)
      modifies this
      ensures log == old(log) + Told(hooks, telling)
    {
      assert hooks[..0] == [] && log + [] == log;
      for k := 0 to |hooks|
        invariant log == old(log) + Told(hooks[..k], telling)
      {
        assert hooks[..k + 1][..k] == hooks[..k];
        if hooks[k].Some? {
          log := log + [EventOf(telling, k)];
        }
      }
      assert hooks[..|hooks|] == hooks;
    }

    method RunBeforeProcess(hooks: seq<Hook>) returns (err: Option<Err>)
      modifies this
      ensures err == Objection(hooks)
      ensures log == old(log) + Befores(hooks)
    {
      assert hooks[..0] == [] && log + [] == log;
      for k := 0 to |hooks|
        invariant Objection(hooks[..k]) == None
        invariant log == old(log) + Befores(hooks[..k])
      {
        assert hooks[..k + 1][..k] == hooks[..k];
        if hooks[k].None? {
          continue;
        }
        log := log + [BeforeProcess(k)];
        if hooks[k].value.Some? {
          StopsAt(hooks, k);
          return hooks[k].value;
        }
      }
      assert hooks[..|hooks|] == hooks;
      return None;
    }

    /** The middlewares and the handler: abstract but for the transitions they make and what they return. */
    method RunChain(msg: Message?, ran: Ran) returns (err: Option<Err>)
      modifies this, msg
      ensures err == ran.err && log == old(log) + [Handled]
      ensures ValueOf(msg) == Moves(old(ValueOf(msg)), ran.moves)
    {
      for k := 0 to |ran.moves|
        invariant ValueOf(msg) == Moves(old(ValueOf(msg)), ran.moves[..k])
        invariant log == old(log)
      {
        assert ran.moves[..k + 1][..k] == ran.moves[..k];
        var ok := TransitionTaskState(msg, ran.moves[k]);
      }
      assert ran.moves[..|ran.moves|] == ran.moves;
      log := log + [Handled];
      return ran.err;
    }

    /** Marks the message as running, and says so. */
    method Open(msg: Message?)
      modifies this, msg
      ensures ValueOf(msg) == Begun(old(ValueOf(msg)))
      ensures log == old(log) + Opening(old(ValueOf(msg)))
    {
      hide CanTransition;
      ghost var t := ValueOf(msg);
      if msg != null {
        var ok;
        if msg.state == "" {
          ok := TransitionTaskState(msg, PENDING);
        }
        ok := TransitionTaskState(msg, RUNNING);
        if msg.runtime == None || msg.runtime == Some("") {
          msg.runtime := Some(msg.state);
        }
      }
      assert ValueOf(msg) == Begun(t);
      log := log + [Published(Started, if msg == null then "" else msg.state, None)];
      log := log + [TaskStart];
    }

    method Classify(msg: Message?, err: Err) returns (kind: Kind)
      modifies msg
      ensures kind == Ending(old(ValueOf(msg)), Some(err)) && ValueOf(msg) == Ended(old(ValueOf(msg)), Some(err))
    {
      hide CanTransition, IsDeadLetterError, IsFatalError, IsTimeoutError, IsRetryableError;
      hide IsRateLimitError, IsIgnoredError, Is;
      var ok;
      if msg != null && msg.state == DEAD {
        return DeadLettered;
      }
      var exhausted := msg != null && msg.maxRetry >= 0 && msg.retryCount >= msg.maxRetry;
      var should := msg != null && !IsRateLimitError(Some(err)) && !IsIgnoredError(Some(err)) && exhausted;
      if IsDeadLetterError(Some(err)) || IsFatalError(Some(err)) || should {
        ok := TransitionTaskState(msg, FAILED);
        ok := TransitionTaskState(msg, DEAD);
        return DeadLettered;
      }
      if IsTimeoutError(Some(err)) || Is(err, DEADLINE_EXCEEDED) {
        ok := TransitionTaskState(msg, FAILED);
        return TimedOut;
      }
      if IsRetryableError(Some(err)) || IsRateLimitError(Some(err)) {
        ok := TransitionTaskState(msg, RETRYING);
        return Retry;
      }
      ok := TransitionTaskState(msg, FAILED);
      return Failed;
    }

    method FinishFailure(msg: Message?, err: Err)
      modifies this, msg
      ensures ValueOf(msg) == Ended(old(ValueOf(msg)), Some(err))
      ensures log == old(log) + Closing(old(ValueOf(msg)), Some(err))
    {
      hide Ending, Ended;
      var kind := Classify(msg, err);
      log := log + [Published(kind, if msg == null then "" else msg.state, Some(err))];
      if kind == Retry {
        log := log + [TaskRetry(err)];
      } else {
        log := log + [TaskFailure(err)];
      }
      log := log + [TaskFinish(Some(err))];
    }

    method FinishSuccess(msg: Message?)
      modifies this, msg
      ensures ValueOf(msg) == Ended(old(ValueOf(msg)), None)
      ensures log == old(log) + Closing(old(ValueOf(msg)), None)
    {
      hide CanTransition;
      var ok := TransitionTaskState(msg, SUCCESS);
      log := log + [Published(Succeeded, if msg == null then "" else msg.state, None)];
      log := log + [TaskFinish(None)];
    }

    method Execute(hasHandler: bool, msg: Message?, hooks: seq<Hook>, ran: Ran) returns (err: Option<ExecuteError>)
      modifies this, msg
      ensures !hasHandler ==> err == Some(NotInitialized) && unchanged(this) && (msg != null ==> unchanged(msg))
      ensures hasHandler ==>
        && err == (var e := Outcome(hooks, ran); if e.None? then None else Some(TaskError(e.value)))
        && ValueOf(msg) == After(old(ValueOf(msg)), hooks, ran)
        && log == old(log) + Trace(old(ValueOf(msg)), hooks, ran)
    {
      hide Begun, Ended, Told, Befores, Objection, Closing, Opening, Move;
      if !hasHandler {
        return Some(NotInitialized);
      }
      ghost var t, told := ValueOf(msg), log;
      Open(msg);
      var e := RunBeforeProcess(hooks);
      if e == None {
        e := RunChain(msg, ran);
      }
      ghost var judged := ValueOf(msg);
      Tell(hooks, Processed(e));
      if e.Some? {
        FinishFailure(msg, e.value);
        Tell(hooks, Bad(e.value));
        err := Some(TaskError(e.value));
      } else {
        FinishSuccess(msg);
        Tell(hooks, Good);
        err := None;
      }
      Sixfold(told, Opening(t), Befores(hooks), if Objection(hooks).Some? then [] else [Handled],
              Told(hooks, Processed(e)), Closing(judged, e), HookVerdicts(hooks, e));
    }
  }

  lemma Sixfold(log: seq<Event>, a: seq<Event>, b: seq<Event>, c: seq<Event>, d: seq<Event>, e: seq<Event>, f: seq<Event>)
    ensures log + a + b + c + d + e + f == log + (a + b + c + d + e + f)
    ensures c == [] ==> log + a + b + d + e + f == log + (a + b + c + d + e + f)
  {
    if c == [] {
      assert log + a + b + c == log + a + b;
    }
  }

  lemma {:induction false} StopsAt(hooks: seq<Hook>, k: nat)
    requires k < |hooks| && Objection(hooks[..k]).None? && hooks[k].Some? && hooks[k].value.Some?
    ensures Objection(hooks) == hooks[k].value
    ensures Befores(hooks) == Befores(hooks[..k]) + [BeforeProcess(k)]
    decreases |hooks|
  {
    var front := hooks[..|hooks| - 1];
    if k < |front| {
      assert front[..k] == hooks[..k];
      StopsAt(front, k);
    }
  }

  // ------------------------------------------------------- how an attempt ends

  function StateFor(kind: Kind): string {
    match kind
    case Started => RUNNING
    case Succeeded => SUCCESS
    case DeadLettered => DEAD
    case Retry => RETRYING
    case _ => FAILED
  }

  predicate Live(state: string) {
    state == NEW || state == PENDING || state == RETRYING || state == RUNNING
  }

  predicate DeadLetters(t: Task, err: Err) {
    || IsDeadLetterError(Some(err)) || IsFatalError(Some(err))
    || (!IsRateLimitError(Some(err)) && !IsIgnoredError(Some(err)) && t.maxRetry >= 0 && t.retryCount >= t.maxRetry)
  }

  /** A live message whose state is left alone ends in the state that its end event names. */
  lemma {:induction false} AttemptEnds(t: Task, hooks: seq<Hook>, ran: Ran)
    requires Live(t.state) && ran.moves == []
    ensures
      var err := Outcome(hooks, ran);
      var kind := Ending(Judged(Some(t), hooks, ran), err);
      && After(Some(t), hooks, ran) == Some(t.(state := StateFor(kind), runtime := Some(StateFor(kind))))
      && (StateFor(kind) == SUCCESS <==> err.None?)
      && (StateFor(kind) == DEAD <==> err.Some? && DeadLetters(t, err.value))
  {
    hide IsDeadLetterError, IsFatalError, IsRateLimitError, IsIgnoredError, IsTimeoutError, IsRetryableError, Is;
    var begun := Begun(Some(t));
    assert begun == Some(t.(state := RUNNING, runtime := Some(RUNNING)));
    assert Judged(Some(t), hooks, ran) == begun;
  }

  /** In general the end event names the final state exactly when the handler left the state so that it could. */
  lemma {:induction false} EndMatches(t: Task, hooks: seq<Hook>, ran: Ran)
    ensures
      var judged := Judged(Some(t), hooks, ran);
      var kind := Ending(judged, Outcome(hooks, ran));
      StateOf(After(Some(t), hooks, ran)) == StateFor(kind) <==>
        || StateOf(judged) == RUNNING || StateOf(judged) == StateFor(kind)
        || (StateOf(judged) == FAILED && kind == DeadLettered)
    ensures
      var judged := Judged(Some(t), hooks, ran);
      StateOf(After(Some(t), hooks, ran)) in [StateOf(judged), StateFor(Ending(judged, Outcome(hooks, ran)))]
  {
    hide Begun, Ended, Ending, Moves, Outcome;
    var judged := Judged(Some(t), hooks, ran);
    SomeMoves(Begun(Some(t)), if Objection(hooks).Some? then [] else ran.moves);
    BegunSome(t);
    JudgedEnds(judged.value, Outcome(hooks, ran));
  }

  lemma BegunSome(t: Task)
    ensures Begun(Some(t)).Some?
  {
  }

  lemma JudgedEnds(t: Task, err: Option<Err>)
    ensures
      var kind := Ending(Some(t), err);
      StateOf(Ended(Some(t), err)) == StateFor(kind) <==>
        t.state == RUNNING || t.state == StateFor(kind) || (t.state == FAILED && kind == DeadLettered)
    ensures StateOf(Ended(Some(t), err)) in [t.state, StateFor(Ending(Some(t), err))]
  {
    hide IsDeadLetterError, IsFatalError, IsTimeoutError, IsRetryableError, IsRateLimitError, Is, ShouldMarkDeadLetter;
  }

  lemma {:induction false} SomeMoves(t: Option<Task>, moves: seq<string>)
    ensures Moves(t, moves).Some? == t.Some?
    ensures t.Some? ==> Moves(t, moves).value.retryCount == t.value.retryCount
    ensures t.Some? ==> Moves(t, moves).value.maxRetry == t.value.maxRetry
    ensures t.Some? && t.value.runtime == Some(t.value.state) ==>
      Moves(t, moves).value.runtime == Some(Moves(t, moves).value.state)
  {
    if moves != [] {
      SomeMoves(t, moves[..|moves| - 1]);
    }
  }

  /** The runtime context always shows the state of a message that arrived live. */
  lemma {:induction false} RuntimeInStep(t: Task, hooks: seq<Hook>, ran: Ran)
    requires Live(t.state)
    ensures
      var after := After(Some(t), hooks, ran);
      after.Some? && after.value.runtime == Some(after.value.state)
  {
    hide Ending, Moves;
    SomeMoves(Begun(Some(t)), if Objection(hooks).Some? then [] else ran.moves);
  }

  // ------------------------------------------------------------- what is told

  predicate Public(e: Event) {
    e.Published?
  }

  predicate Observed(e: Event) {
    e.TaskStart? || e.TaskRetry? || e.TaskFailure? || e.TaskFinish?
  }

  function Publications(es: seq<Event>): seq<Event> {
    if es == [] then [] else (if Public(es[0]) then [es[0]] else []) + Publications(es[1..])
  }

  function Observations(es: seq<Event>): seq<Event> {
    if es == [] then [] else (if Observed(es[0]) then [es[0]] else []) + Observations(es[1..])
  }

  lemma ConsConcat(a: seq<Event>, b: seq<Event>)
    requires a != []
    ensures (a + b)[0] == a[0] && (a + b)[1..] == a[1..] + b
  {
  }

  lemma Regrouped(a: seq<Event>, b: seq<Event>, c: seq<Event>)
    ensures a + (b + c) == a + b + c
  {
  }

  lemma {:induction false} PublicationsConcat(a: seq<Event>, b: seq<Event>)
    ensures Publications(a + b) == Publications(a) + Publications(b)
  {
    if a == [] {
      assert a + b == b;
    } else {
      ConsConcat(a, b);
      PublicationsConcat(a[1..], b);
      var head := if Public(a[0]) then [a[0]] else [];
      Regrouped(head, Publications(a[1..]), Publications(b));
    }
  }

  lemma {:induction false} ObservationsConcat(a: seq<Event>, b: seq<Event>)
    ensures Observations(a + b) == Observations(a) + Observations(b)
  {
    if a == [] {
      assert a + b == b;
    } else {
      ConsConcat(a, b);
      ObservationsConcat(a[1..], b);
      var head := if Observed(a[0]) then [a[0]] else [];
      Regrouped(head, Observations(a[1..]), Observations(b));
    }
  }

  lemma FilterConcat(a: seq<Event>, b: seq<Event>)
    ensures Publications(a + b) == Publications(a) + Publications(b)
    ensures Observations(a + b) == Observations(a) + Observations(b)
  {
    PublicationsConcat(a, b);
    ObservationsConcat(a, b);
  }

  predicate Quiet(es: seq<Event>) {
    forall e :: e in es ==> !Public(e) && !Observed(e)
  }

  lemma {:induction false} QuietFilters(es: seq<Event>)
    requires Quiet(es)
    ensures Publications(es) == [] && Observations(es) == []
  {
    if es != [] {
      assert es[0] in es;
      QuietFilters(es[1..]);
    }
  }

  lemma {:induction false} HooksQuiet(hooks: seq<Hook>, telling: Telling)
    ensures Quiet(Told(hooks, telling)) && Quiet(Befores(hooks))
  {
    if hooks != [] {
      HooksQuiet(hooks[..|hooks| - 1], telling);
    }
  }

  /** One start and one end are published, and each observer hears one start, one verdict on an error, one finish. */
  lemma {:induction false} OneStartOneEnd(t: Option<Task>, hooks: seq<Hook>, ran: Ran)
    ensures
      var err, judged := Outcome(hooks, ran), Judged(t, hooks, ran);
      var kind := Ending(judged, err);
      && Publications(Trace(t, hooks, ran)) ==
        [Published(Started, StateOf(Begun(t)), None), Published(kind, StateOf(After(t, hooks, ran)), err)]
      && Observations(Trace(t, hooks, ran)) == [TaskStart] + Verdict(kind, err) + [TaskFinish(err)]
  {
    hide Publications, Observations, Begun, Ended, Ending, Told, Befores, Objection, Judged;
    hide Outcome, Opening, Closing, StateOf, Verdict;
    var err, judged := Outcome(hooks, ran), Judged(t, hooks, ran);
    var a, b, c := Opening(t), Befores(hooks), if Objection(hooks).Some? then [] else [Handled];
    var d, e, f := Told(hooks, Processed(err)), Closing(judged, err), HookVerdicts(hooks, err);
    HooksQuiet(hooks, Processed(err));
    HooksQuiet(hooks, if err.None? then Good else Bad(err.value));
    QuietFilters(b);
    QuietFilters(c);
    QuietFilters(d);
    QuietFilters(f);
    FilterConcat(a + b + c + d + e, f);
    FilterConcat(a + b + c + d, e);
    FilterConcat(a + b + c, d);
    FilterConcat(a + b, c);
    FilterConcat(a, b);
    OpeningFilters(t);
    ClosingFilters(judged, err);
  }

  lemma Single(e: Event)
    ensures Publications([e]) == if Public(e) then [e] else []
    ensures Observations([e]) == if Observed(e) then [e] else []
  {
    assert [e][1..] == [];
  }

  lemma OpeningFilters(t: Option<Task>)
    ensures Publications(Opening(t)) == [Published(Started, StateOf(Begun(t)), None)]
    ensures Observations(Opening(t)) == [TaskStart]
  {
    hide Begun, StateOf, Publications, Observations;
    assert Opening(t) == [Opening(t)[0]] + [TaskStart];
    FilterConcat([Opening(t)[0]], [TaskStart]);
    Single(Opening(t)[0]);
    Single(TaskStart);
  }

  function Verdict(kind: Kind, err: Option<Err>): seq<Event> {
    if err.None? then [] else if kind == Retry then [TaskRetry(err.value)] else [TaskFailure(err.value)]
  }

  lemma ClosingFilters(t: Option<Task>, err: Option<Err>)
    ensures
      var kind := Ending(t, err);
      && Publications(Closing(t, err)) == [Published(kind, StateOf(Ended(t, err)), err)]
      && Observations(Closing(t, err)) == Verdict(kind, err) + [TaskFinish(err)]
  {
    hide Ending, Ended, StateOf, Publications, Observations;
    var kind := Ending(t, err);
    var end, verdict, finish := Published(kind, StateOf(Ended(t, err)), err), Verdict(kind, err), TaskFinish(err);
    assert Closing(t, err) == [end] + verdict + [finish];
    FilterConcat([end] + verdict, [finish]);
    FilterConcat([end], verdict);
    Single(end);
    Single(finish);
    if err.Some? {
      Single(verdict[0]);
      assert verdict == [verdict[0]];
    } else {
      QuietFilters(verdict);
    }
  }

  // ------------------------------------------- the bundled retry and dead letter

  /** The dead letter middleware, after an inner result; `pushed` is what pushing the dead letter returns. */
  function DeadLetterStep(t: Option<Task>, err: Option<Err>, pushed: Option<Err>): Ran {
    if err.None? || IsIgnoredError(err) || !(IsFatalError(err) || RetryExhausted(t)) then Ran([], err)
    else if pushed.Some? then Ran([], Some(Joined([err.value, pushed.value])))
    else Ran([FAILED, DEAD], Some(NewDeadLetterError(err)))
  }

  predicate RetryKeepsOut(t: Option<Task>, err: Option<Err>) {
    || err.None? || IsRateLimitError(err) || IsDeadLetterError(err) || IsFatalError(err) || IsIgnoredError(err)
    || (t.Some? && t.value.state == DEAD)
  }

  predicate AlreadyTimed(err: Option<Err>) {
    var r := RuntimeErrorFrom(err);
    r.Some? && r.value.retryable && r.value.retryIn > 0
  }

  /** The retry middleware; `next` is the delay its strategy answers with, if it agrees to retry. */
  function RetryStep(t: Option<Task>, err: Option<Err>, next: Option<int>): Ran {
    if RetryKeepsOut(t, err) then Ran([], err)
    else if RetryExhausted(t) then Ran([FAILED, DEAD], Some(NewDeadLetterError(err)))
    else if AlreadyTimed(err) || next.None? then Ran([], err)
    else Ran([RETRYING], Some(RetryableAfter(next.value, err)))
  }

  method DeadLetterMiddleware(msg: Message?, err: Option<Err>, pushed: Option<Err>) returns (r: Option<Err>)
    modifies msg
    ensures r == DeadLetterStep(old(ValueOf(msg)), err, pushed).err
    ensures ValueOf(msg) == Moves(old(ValueOf(msg)), DeadLetterStep(old(ValueOf(msg)), err, pushed).moves)
  {
    hide CanTransition, IsIgnoredError, IsFatalError;
    var exhausted := msg != null && msg.maxRetry >= 0 && msg.retryCount >= msg.maxRetry;
    if err.None? || IsIgnoredError(err) || !(IsFatalError(err) || exhausted) {
      return err;
    }
    if pushed.Some? {
      return Some(Joined([err.value, pushed.value]));
    }
    TwoMoves(ValueOf(msg));
    var ok := TransitionTaskState(msg, FAILED);
    ok := TransitionTaskState(msg, DEAD);
    return Some(NewDeadLetterError(err));
  }

  lemma TwoMoves(t: Option<Task>)
    ensures Moves(t, [FAILED, DEAD]) == Move(Move(t, FAILED), DEAD) && Moves(t, [RETRYING]) == Move(t, RETRYING)
  {
    hide Move;
    assert [FAILED, DEAD][..1] == [FAILED] && [FAILED][..0] == [] && [RETRYING][..0] == [];
    assert Moves(t, []) == t && Moves(t, [FAILED]) == Move(t, FAILED);
  }

  method RetryMiddleware(msg: Message?, err: Option<Err>, next: Option<int>) returns (r: Option<Err>)
    modifies msg
    ensures r == RetryStep(old(ValueOf(msg)), err, next).err
    ensures ValueOf(msg) == Moves(old(ValueOf(msg)), RetryStep(old(ValueOf(msg)), err, next).moves)
  {
    hide CanTransition, IsIgnoredError, IsFatalError, IsRateLimitError, IsDeadLetterError, RuntimeErrorFrom;
    TwoMoves(ValueOf(msg));
    var ok;
    if err.None? || IsRateLimitError(err) || IsDeadLetterError(err) || IsFatalError(err) || IsIgnoredError(err)
       || (msg != null && msg.state == DEAD) {
      return err;
    }
    var exhausted := msg != null && msg.maxRetry >= 0 && msg.retryCount >= msg.maxRetry;
    var found := RuntimeErrorFrom(err);
    if found.Some? && found.value.retryable && found.value.retryIn > 0 {
      if exhausted {
        ok := TransitionTaskState(msg, FAILED);
        ok := TransitionTaskState(msg, DEAD);
        return Some(NewDeadLetterError(err));
      }
      return err;
    }
    if exhausted {
      ok := TransitionTaskState(msg, FAILED);
      ok := TransitionTaskState(msg, DEAD);
      return Some(NewDeadLetterError(err));
    }
    if next.None? {
      return err;
    }
    ok := TransitionTaskState(msg, RETRYING);
    return Some(RetryableAfter(next.value, err));
  }

  /** Which of the two is installed, and what the dead letter queue and the retry strategy answer. */
  datatype Bundle = Bundle(deadLetter: Option<Option<Err>>, retry: Option<Option<int>>)

  /** The dead letter stage lies inside the retry stage. */
  function Bundled(t: Option<Task>, err: Option<Err>, b: Bundle): Ran {
    var d := if b.deadLetter.Some? then DeadLetterStep(t, err, b.deadLetter.value) else Ran([], err);
    var r := if b.retry.Some? then RetryStep(Moves(t, d.moves), d.err, b.retry.value) else Ran([], d.err);
    Ran(d.moves + r.moves, r.err)
  }

  /** The retry middleware schedules another attempt. */
  predicate SchedulesRetry(t: Task, err: Option<Err>, b: Bundle) {
    && b.retry.Some? && b.retry.value.Some?
    && err.Some? && !IsRateLimitError(err) && !IsDeadLetterError(err) && !IsFatalError(err) && !IsIgnoredError(err)
    && !RetryExhausted(Some(t)) && !AlreadyTimed(err)
  }

  /**
   * With the bundled middlewares the end event names the final state, with one exception: a retried deadline is
   * published as a timeout while the message stays in retrying.
   */
  lemma {:induction false} BundledEnd(t: Task, hooks: seq<Hook>, err: Option<Err>, b: Bundle)
    requires Live(t.state) && Objection(hooks).None?
    ensures
      var ran := Bundled(Begun(Some(t)), err, b);
      var kind := Ending(Judged(Some(t), hooks, ran), Outcome(hooks, ran));
      StateOf(After(Some(t), hooks, ran)) == StateFor(kind) <==>
        !(SchedulesRetry(t, err, b) && Is(err.value, DEADLINE_EXCEEDED))
  {
    hide Ended, Objection, Begun, Bundled, Moves, Ending, AlreadyTimed, Is;
    hide IsRateLimitError, IsDeadLetterError, IsFatalError, IsIgnoredError;
    var begun := t.(state := RUNNING, runtime := Some(RUNNING));
    BegunLive(t);
    var ran := Bundled(Some(begun), err, b);
    BundledState(begun, err, b);
    var judged := Judged(Some(t), hooks, ran);
    assert judged == Moves(Some(begun), ran.moves);
    EndMatches(t, hooks, ran);
    if SchedulesRetry(t, err, b) {
      ScheduledEnds(begun, err, b.retry.value.value);
    } else if judged.value.state == DEAD {
      DeadEnds(judged.value, ran.err);
    }
  }

  /** Such a message: a deadline exceeded in a first attempt, with retries left. */
  lemma {:induction false} RetriedDeadline() returns (t: Task, b: Bundle)
    ensures
      var ran := Bundled(Begun(Some(t)), Some(DEADLINE_EXCEEDED), b);
      && Ending(Judged(Some(t), [], ran), ran.err) == TimedOut
      && StateOf(After(Some(t), [], ran)) == RETRYING
  {
    hide Bundled, Moves, Ended, IsRateLimitError;
    t, b := Task(PENDING, None, 0, 3), Bundle(None, Some(Some(10)));
    var begun, err := t.(state := RUNNING, runtime := Some(RUNNING)), Some(DEADLINE_EXCEEDED);
    BegunLive(t);
    PlainIsNotLimited(DEADLINE_EXCEEDED);
    BundledState(begun, err, b);
    ScheduledEnds(begun, err, 10);
    var retrying := begun.(state := RETRYING, runtime := Some(RETRYING));
    assert Judged(Some(t), [], Bundled(Some(begun), err, b)) == Some(retrying);
    RefusesFailed(retrying, Some(RetryableAfter(10, err)));
  }

  lemma PlainIsNotLimited(e: Err)
    requires e.Sentinel? && e != RATE_LIMITED
    ensures !IsRateLimitError(Some(e))
  {
  }

  lemma RefusesFailed(t: Task, err: Option<Err>)
    requires t.state == RETRYING && Ending(Some(t), err) == TimedOut
    ensures Ended(Some(t), err) == Some(t)
  {
    hide Ending;
  }

  lemma DeadEnds(t: Task, err: Option<Err>)
    requires t.state == DEAD && err.Some?
    ensures Ending(Some(t), err) == DeadLettered
  {
  }

  lemma BegunLive(t: Task)
    requires Live(t.state)
    ensures Begun(Some(t)) == Some(t.(state := RUNNING, runtime := Some(RUNNING)))
  {
  }

  lemma {:induction false} DeadLetterState(t: Task, err: Option<Err>, pushed: Option<Err>)
    requires t.state == RUNNING
    ensures
      var d := DeadLetterStep(Some(t), err, pushed);
      var after := Moves(Some(t), d.moves);
      if d.moves == [] then
        && after == Some(t)
        && (d.err == err || (d.err.Some? && (IsFatalError(d.err) || RetryExhausted(Some(t)))))
      else after == Some(t.(state := DEAD, runtime := Some(DEAD))) && d.err.Some? && IsDeadLetterError(d.err)
    ensures !IsFatalError(err) && !RetryExhausted(Some(t)) ==> DeadLetterStep(Some(t), err, pushed) == Ran([], err)
  {
    hide Is, HasRateLimit, AsRuntimeAny;
    TwoMoves(Some(t));
    JoinedFatal(err, pushed);
  }

  lemma {:induction false} RetryState(t: Task, err: Option<Err>, next: Option<int>)
    requires t.state == RUNNING || (t.state == DEAD && err.Some?)
    ensures
      var r := RetryStep(Some(t), err, next);
      var after := Moves(Some(t), r.moves);
      if r.moves == [RETRYING] then
        && after == Some(t.(state := RETRYING, runtime := Some(RETRYING)))
        && next.Some? && r.err == Some(RetryableAfter(next.value, err))
        && !RetryKeepsOut(Some(t), err) && !RetryExhausted(Some(t)) && !AlreadyTimed(err)
      else
        && after.Some? && (after.value.state == RUNNING || (after.value.state == DEAD && r.err.Some?))
        && (RetryKeepsOut(Some(t), err) || RetryExhausted(Some(t)) || AlreadyTimed(err) || next.None?)
  {
    hide IsRateLimitError, IsDeadLetterError, IsFatalError, IsIgnoredError, AlreadyTimed;
    TwoMoves(Some(t));
  }

  lemma {:induction false} BundledState(t: Task, err: Option<Err>, b: Bundle)
    requires t.state == RUNNING
    ensures
      var ran := Bundled(Some(t), err, b);
      var after := Moves(Some(t), ran.moves);
      if SchedulesRetry(t, err, b) then
        && after == Some(t.(state := RETRYING, runtime := Some(RETRYING)))
        && ran.err == Some(RetryableAfter(b.retry.value.value, err))
      else after.Some? && (after.value.state == RUNNING || (after.value.state == DEAD && ran.err.Some?))
  {
    hide IsRateLimitError, IsDeadLetterError, IsFatalError, IsIgnoredError, AlreadyTimed;
    hide RetryExhausted, DeadLetterStep, RetryStep, Move;
    var d := if b.deadLetter.Some? then DeadLetterStep(Some(t), err, b.deadLetter.value) else Ran([], err);
    if b.deadLetter.Some? {
      DeadLetterState(t, err, b.deadLetter.value);
    }
    var mid := Moves(Some(t), d.moves);
    assert mid.Some? && (mid.value.state == RUNNING || (mid.value.state == DEAD && d.err.Some?));
    var r := if b.retry.Some? then RetryStep(mid, d.err, b.retry.value) else Ran([], d.err);
    MovesConcat(Some(t), d.moves, r.moves);
    if b.retry.Some? {
      RetryState(mid.value, d.err, b.retry.value);
    }
  }

  lemma {:induction false} MovesConcat(t: Option<Task>, a: seq<string>, b: seq<string>)
    ensures Moves(t, a + b) == Moves(Moves(t, a), b)
  {
    if b == [] {
      assert a + b == a;
    } else {
      assert (a + b)[..|a + b| - 1] == a + b[..|b| - 1];
      MovesConcat(t, a, b[..|b| - 1]);
    }
  }

  lemma JoinedFatal(err: Option<Err>, pushed: Option<Err>)
    ensures err.Some? && pushed.Some? && IsFatalError(err) ==> IsFatalError(Some(Joined([err.value, pushed.value])))
  {
    if err.Some? && pushed.Some? && IsFatalError(err) {
      var parts := [err.value, pushed.value];
      assert AsRuntimeAny(parts) == AsRuntime(parts[0]);
    }
  }

  lemma ScheduledEnds(t: Task, err: Option<Err>, next: int)
    requires !IsRateLimitError(err) && err.Some? && !RetryExhausted(Some(t))
    ensures
      var kind := Ending(Some(t.(state := RETRYING, runtime := Some(RETRYING))), Some(RetryableAfter(next, err)));
      if Is(err.value, DEADLINE_EXCEEDED) then kind == TimedOut else kind == Retry
  {
    var e := RetryableAfter(next, err);
    assert Is(e, DEADLINE_EXCEEDED) == Is(err.value, DEADLINE_EXCEEDED);
    assert IsRateLimitError(Some(e)) == IsRateLimitError(err);
    assert RuntimeErrorFrom(Some(e)) == Some(e);
  }

  // -------------------------------------------------------------------- the store

  const STORED_SUCCEEDED := "succeeded"
  const STORED_FAILED := "failed"
  const STORED_RETRY := "retry"

  datatype Write =
    | FinishRun(status: string)
    | AppendRunLog(level: string)
    | UpdateTaskStatus(status: string)

  class RunStore {
    var writes: seq<Write>
  }

  function StoredStatus(t: Task, err: Option<Err>): string {
    if err.None? then STORED_SUCCEEDED
    else
      var again := IsRateLimitError(err) || t.retryCount < t.maxRetry;
      if again && !IsDeadLetterError(err) && !IsFatalError(err) then STORED_RETRY else STORED_FAILED
  }

  function RunWrites(t: Task, err: Option<Err>): seq<Write> {
    var status := StoredStatus(t, err);
    [FinishRun(status), AppendRunLog(if err.None? then "info" else "error"), UpdateTaskStatus(status)]
  }

  /** How many of the writes are attempted: a failing one is the last. */
  function Attempted(faults: seq<Option<Err>>): nat
    requires |faults| == 3
  {
    if faults[0].Some? then 1 else if faults[1].Some? then 2 else 3
  }

  /** Records how a run ended, in three writes; `faults` are what the store answers to each. */
  method FinishStoredTaskRun(store: RunStore, hasRun: bool, msg: Message?, runErr: Option<Err>, faults: seq<Option<Err>>)
    returns (r: Option<Err>)
    requires |faults| == 3
    modifies store
    ensures msg == null || !hasRun ==> r == None && store.writes == old(store.writes)
    ensures msg != null && hasRun ==>
      && r == faults[Attempted(faults) - 1]
      && store.writes == old(store.writes) + RunWrites(msg.Value(), runErr)[..Attempted(faults)]
  {
    hide IsRateLimitError, IsDeadLetterError, IsFatalError;
    if msg == null || !hasRun {
      return None;
    }
    var status := STORED_SUCCEEDED;
    var level := "info";
    if runErr != None {
      status := STORED_FAILED;
      if (IsRateLimitError(runErr) || msg.retryCount < msg.maxRetry) && !IsDeadLetterError(runErr) && !IsFatalError(runErr) {
        status := STORED_RETRY;
      }
      level := "error";
    }
    store.writes := store.writes + [FinishRun(status)];
    if faults[0].Some? {
      return faults[0];
    }
    store.writes := store.writes + [AppendRunLog(level)];
    if faults[1].Some? {
      return faults[1];
    }
    store.writes := store.writes + [UpdateTaskStatus(status)];
    return faults[2];
  }

  /** The store and the state machine agree on giving up, but for two cases beyond the retry limit. */
  predicate Agreeable(t: Task, err: Err) {
    || IsDeadLetterError(Some(err)) || IsFatalError(Some(err)) || IsRateLimitError(Some(err))
    || t.retryCount < t.maxRetry
    || (t.maxRetry >= 0 && !IsIgnoredError(Some(err)))
  }

  /**
   * A live message whose state is left alone is dead-lettered only if the store records failed. The converse
   * holds exactly when the retries are limited and the error is not ignored, or the limit plays no part.
   */
  lemma {:induction false} StoreAgrees(t: Task, hooks: seq<Hook>, ran: Ran)
    requires Live(t.state) && ran.moves == [] && Outcome(hooks, ran).Some?
    ensures
      var err := Outcome(hooks, ran);
      var dead := StateOf(After(Some(t), hooks, ran)) == DEAD;
      var failed := StoredStatus(t, err) == STORED_FAILED;
      && (dead ==> failed)
      && ((dead <==> failed) <==> Agreeable(t, err.value))
  {
    hide IsDeadLetterError, IsFatalError, IsRateLimitError, IsIgnoredError, After, Outcome;
    AttemptEnds(t, hooks, ran);
  }

  /** Without a limit the store gives up on an error that the state machine leaves failed. */
  lemma {:induction false} UnlimitedDisagrees() returns (t: Task, err: Err)
    ensures Live(t.state) && t.maxRetry < 0
    ensures StoredStatus(t, Some(err)) == STORED_FAILED && StateOf(After(Some(t), [], Ran([], Some(err)))) == FAILED
  {
    t, err := Task(PENDING, None, 0, -1), Sentinel("any");
    assert Outcome([], Ran([], Some(err))) == Some(err);
    assert Nodes(err) == [err];
    IsAnywhere(err, RATE_LIMITED);
    StoreAgrees(t, [], Ran([], Some(err)));
    AttemptEnds(t, [], Ran([], Some(err)));
  }

  // ------------------------------------------------------------------- redelivery

  datatype Attempt = Attempt(hooks: seq<Hook>, ran: Ran)

  /** The same message delivered again and again. */
  function Lifetime(t: Option<Task>, attempts: seq<Attempt>): Option<Task>
    decreases |attempts|
  {
    if attempts == [] then t else Lifetime(After(t, attempts[0].hooks, attempts[0].ran), attempts[1..])
  }

  /** What is done stays done, whatever is tried: success and dead letter for good, failure up to dead letter. */
  predicate Stays(from: string, to: string) {
    && (from == SUCCESS || from == DEAD ==> to == from)
    && (from == FAILED ==> to == FAILED || to == DEAD)
  }

  lemma {:induction false} MovesStay(t: Task, moves: seq<string>)
    ensures Moves(Some(t), moves).Some? && Stays(t.state, Moves(Some(t), moves).value.state)
  {
    if moves != [] {
      MovesStay(t, moves[..|moves| - 1]);
    }
  }

  lemma {:induction false} LifetimeStays(t: Task, attempts: seq<Attempt>)
    ensures Lifetime(Some(t), attempts).Some? && Stays(t.state, Lifetime(Some(t), attempts).value.state)
    decreases |attempts|
  {
    if attempts != [] {
      hide CanTransition;
      var a := attempts[0];
      AttemptStays(t, a);
      LifetimeStays(After(Some(t), a.hooks, a.ran).value, attempts[1..]);
    }
  }

  lemma {:induction false} AttemptStays(t: Task, a: Attempt)
    ensures After(Some(t), a.hooks, a.ran).Some? && Stays(t.state, After(Some(t), a.hooks, a.ran).value.state)
  {
    hide Ending, Moves;
    var moves := if Objection(a.hooks).Some? then [] else a.ran.moves;
    MovesStay(Begun(Some(t)).value, moves);
  }
}
