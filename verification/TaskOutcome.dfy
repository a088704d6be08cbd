/** How an attempt at a task ends and what is told about it, by what its error tree holds. */
module TaskOutcome {
  import opened Prelude
  import opened TaskErrors
  import opened TaskExecution

  // ------------------------------------------------------------ what an error says

  /** The runtime error visited first, before any other and before any nil pointer to one. */
  ghost predicate Decides(e: Err, r: Err) {
    r.Runtime? && exists i :: 0 <= i < |Nodes(e)| && Nodes(e)[i] == r && NoneBefore(Nodes(e), i)
  }

  ghost predicate NoneBefore(es: seq<Err>, i: nat)
    requires i <= |es|
  {
    forall j :: 0 <= j < i ==> !RuntimeLike(es[j])
  }

  ghost predicate Limited(e: Err) {
    exists n :: n in Nodes(e) && (n == RATE_LIMITED || n.RateLimit? || n.NilRateLimit?)
  }

  ghost predicate Hopeless(e: Err) {
    exists r :: Decides(e, r) && (r.kind == DEAD_LETTER || r.kind == FATAL || r.fatal)
  }

  ghost predicate Ignored(e: Err) {
    exists r :: Decides(e, r) && (r.kind == IGNORED || r.ignore)
  }

  ghost predicate TimesOut(e: Err) {
    DEADLINE_EXCEEDED in Nodes(e) || exists r :: Decides(e, r) && r.kind == TIMEOUT
  }

  ghost predicate MayRetry(e: Err) {
    Limited(e) || exists r :: Decides(e, r) && (r.kind == RETRYABLE || r.retryable)
  }

  /** The retry limit is reached; a negative one is none. */
  predicate UsedUp(t: Option<Task>) {
    t.Some? && 0 <= t.value.maxRetry <= t.value.retryCount
  }

  /** No further attempt is made. */
  ghost predicate GivenUp(t: Option<Task>, e: Err) {
    Hopeless(e) || (UsedUp(t) && !Limited(e) && !Ignored(e))
  }

  lemma {:induction false} FirstIndex(es: seq<Err>) returns (i: nat)
    requires FirstRuntime(es).Some?
    ensures i < |es| && FirstRuntime(es) == Some(es[i]) && RuntimeLike(es[i]) && NoneBefore(es, i)
  {
    if RuntimeLike(es[0]) {
      i := 0;
    } else {
      i := FirstIndex(es[1..]);
      i := i + 1;
      forall j | 0 <= j < i ensures !RuntimeLike(es[j]) {
        assert j > 0 ==> es[j] == es[1..][j - 1];
      }
    }
  }

  lemma {:induction false} NoFirst(es: seq<Err>)
    requires FirstRuntime(es).None?
    ensures forall e :: e in es ==> !RuntimeLike(e)
  {
    if es != [] {
      NoFirst(es[1..]);
      assert es == [es[0]] + es[1..];
    }
  }

  lemma {:induction false} DecidesIs(e: Err, r: Err)
    ensures Decides(e, r) <==> RuntimeErrorFrom(Some(e)) == Some(r)
  {
    hide Nodes, AsRuntime, FirstRuntime;
    AsIsFirst(e);
    var es := Nodes(e);
    if FirstRuntime(es).Some? {
      var i := FirstIndex(es);
      assert es[i].Runtime? ==> Decides(e, es[i]);
      if Decides(e, r) {
        var j :| 0 <= j < |es| && es[j] == r && NoneBefore(es, j);
        assert i == j;
      }
    } else {
      NoFirst(es);
      assert Decides(e, r) ==> r in es;
    }
  }

  /** The classifiers say what the tree holds. */
  lemma {:induction false} Classified(e: Err)
    ensures IsDeadLetterError(Some(e)) || IsFatalError(Some(e)) <==> Hopeless(e)
    ensures IsIgnoredError(Some(e)) <==> Ignored(e)
    ensures IsTimeoutError(Some(e)) || Is(e, DEADLINE_EXCEEDED) <==> TimesOut(e)
    ensures IsRateLimitError(Some(e)) <==> Limited(e)
    ensures IsRetryableError(Some(e)) || IsRateLimitError(Some(e)) <==> MayRetry(e)
  {
    hide Decides, Nodes, RuntimeErrorFrom, Is, HasRateLimit;
    IsAnywhere(e, RATE_LIMITED);
    IsAnywhere(e, DEADLINE_EXCEEDED);
    forall r ensures Decides(e, r) <==> RuntimeErrorFrom(Some(e)) == Some(r) {
      DecidesIs(e, r);
    }
    var found := RuntimeErrorFrom(Some(e));
    assert found.Some? ==> Decides(e, found.value);
  }

  // ------------------------------------------------------------- the end event

  /** The end of an attempt that ends with an error or without, for a message judged in some state. */
  ghost function EndFor(t: Option<Task>, err: Option<Err>): Kind {
    if err.None? then Succeeded
    else if StateOf(t) == DEAD || GivenUp(t, err.value) then DeadLettered
    else if TimesOut(err.value) then TimedOut
    else if MayRetry(err.value) then Retry
    else Kind.Failed
  }

  lemma {:induction false} EndIs(t: Option<Task>, err: Option<Err>)
    ensures Ending(t, err) == EndFor(t, err)
  {
    hide IsDeadLetterError, IsFatalError, IsTimeoutError, IsRetryableError, IsRateLimitError, IsIgnoredError, Is;
    hide Hopeless, Ignored, TimesOut, MayRetry, Limited;
    if err.Some? {
      Classified(err.value);
    }
  }

  /** The error an attempt ends with: that of the first objecting hook, or else the handler's. */
  ghost predicate EndsWith(hooks: seq<Hook>, ran: Ran, err: Option<Err>) {
    if exists k :: Objects(hooks, k) then err.Some? && exists k :: FirstObjects(hooks, k) && hooks[k] == Some(err)
    else err == ran.err
  }

  ghost predicate Objects(hooks: seq<Hook>, k: int) {
    0 <= k < |hooks| && hooks[k].Some? && hooks[k].value.Some?
  }

  ghost predicate FirstObjects(hooks: seq<Hook>, k: int) {
    Objects(hooks, k) && forall j :: 0 <= j < k ==> !Objects(hooks, j)
  }

  lemma {:induction false} ObjectionIs(hooks: seq<Hook>)
    ensures if Objection(hooks).None? then forall k :: !Objects(hooks, k)
      else exists k :: FirstObjects(hooks, k) && hooks[k] == Some(Objection(hooks))
  {
    if hooks != [] {
      var n := |hooks| - 1;
      var front := hooks[..n];
      ObjectionIs(front);
      forall k | k < n ensures Objects(hooks, k) <==> Objects(front, k) {
      }
      if Objection(front).Some? {
        var k :| FirstObjects(front, k) && front[k] == Some(Objection(front));
        assert FirstObjects(hooks, k);
      } else if Objects(hooks, n) {
        assert FirstObjects(hooks, n);
      }
    }
  }

  lemma {:induction false} OutcomeIs(hooks: seq<Hook>, ran: Ran)
    ensures EndsWith(hooks, ran, Outcome(hooks, ran))
    ensures Objection(hooks).Some? <==> exists k :: Objects(hooks, k)
  {
    hide Objection;
    ObjectionIs(hooks);
    if Objection(hooks).Some? {
      var k :| FirstObjects(hooks, k) && hooks[k] == Some(Objection(hooks));
      assert Objects(hooks, k);
    }
  }

  /** An attempt sets a live message running; any other keeps its state, and shows it where nothing was shown. */
  lemma {:induction false} BegunTells(t: Task)
    ensures Begun(None) == None
    ensures Live(t.state) ==> Begun(Some(t)) == Some(t.(state := RUNNING, runtime := Some(RUNNING)))
    ensures !Live(t.state) && t.runtime in [None, Some("")] ==> Begun(Some(t)) == Some(t.(runtime := Some(t.state)))
    ensures !Live(t.state) && t.runtime !in [None, Some("")] ==> Begun(Some(t)) == Some(t)
  {
  }

  // -------------------------------------------------------------- what is told

  /** The start, the hooks before, the handler, the hooks after, the end, and the hooks on the end. */
  function Rank(e: Event): nat {
    match e
    case Published(kind, _, _) => if kind == Started then 0 else 5
    case TaskStart => 1
    case BeforeProcess(_) => 2
    case Handled => 3
    case AfterProcess(_, _) => 4
    case TaskRetry(_) => 6
    case TaskFailure(_) => 6
    case TaskFinish(_) => 7
    case OnSuccess(_) => 8
    case OnFailure(_, _) => 8
  }

  function HookOf(e: Event): nat {
    match e
    case BeforeProcess(hook) => hook
    case AfterProcess(hook, _) => hook
    case OnSuccess(hook) => hook
    case OnFailure(hook, _) => hook
    case _ => 0
  }

  predicate Precedes(a: Event, b: Event) {
    Rank(a) < Rank(b) || (Rank(a) == Rank(b) && HookOf(a) < HookOf(b))
  }

  /** Hooks are told in the order given, and nothing is told twice. */
  ghost predicate InOrder(es: seq<Event>) {
    forall i, j :: 0 <= i < j < |es| ==> Precedes(es[i], es[j])
  }

  predicate Present(hooks: seq<Hook>, k: nat) {
    k < |hooks| && hooks[k].Some?
  }

  /** What is told about an attempt that starts in one state and ends in another, with this end and this error. */
  ghost predicate Expected(hooks: seq<Hook>, start: string, end: string, kind: Kind, err: Option<Err>, e: Event) {
    match e
    case Published(k, state, x) => (k == Started && state == start && x.None?) || (k == kind && state == end && x == err)
    case TaskStart => true
    case BeforeProcess(h) => Present(hooks, h) && forall j :: 0 <= j < h ==> !Objects(hooks, j)
    case Handled => forall j :: !Objects(hooks, j)
    case AfterProcess(h, x) => Present(hooks, h) && x == err
    case TaskRetry(c) => err == Some(c) && kind == Retry
    case TaskFailure(c) => err == Some(c) && kind != Retry
    case TaskFinish(x) => x == err
    case OnSuccess(h) => Present(hooks, h) && err.None?
    case OnFailure(h, c) => Present(hooks, h) && err == Some(c)
  }

  lemma ConcatInOrder(a: seq<Event>, b: seq<Event>)
    requires InOrder(a) && InOrder(b) && forall x, y :: x in a && y in b ==> Precedes(x, y)
    ensures InOrder(a + b)
  {
    hide Precedes;
    forall i, j | 0 <= i < j < |a + b| ensures Precedes((a + b)[i], (a + b)[j]) {
      if i < |a| <= j {
        assert (a + b)[i] in a && (a + b)[j] in b;
      }
    }
  }

  /** What holds of the first hooks holds of all but the last. */
  lemma FrontHooks(hooks: seq<Hook>, front: seq<Hook>)
    requires hooks != [] && front == hooks[..|hooks| - 1]
    ensures forall k: nat :: Present(hooks, k) <==> if k == |front| then hooks[k].Some? else Present(front, k)
    ensures forall k :: k < |front| ==> (Objects(hooks, k) <==> Objects(front, k))
    ensures forall k: nat :: Present(front, k) ==> k < |front|
    ensures forall k :: Objects(front, k) ==> k < |front|
  {
  }

  lemma AppendInOrder(es: seq<Event>, given: bool, e: Event)
    requires InOrder(es) && (given ==> forall x :: x in es ==> Precedes(x, e))
    ensures InOrder(es + if given then [e] else [])
  {
    hide Precedes;
    NoneOrOne(if given then [e] else []);
    ConcatInOrder(es, if given then [e] else []);
  }

  lemma {:induction false} ToldTells(hooks: seq<Hook>, telling: Telling)
    ensures InOrder(Told(hooks, telling))
    ensures forall e :: e in Told(hooks, telling) <==> Present(hooks, HookOf(e)) && e == EventOf(telling, HookOf(e))
  {
    hide InOrder, Present, Objects;
    if hooks != [] {
      var n := |hooks| - 1;
      ToldTells(hooks[..n], telling);
      FrontHooks(hooks, hooks[..n]);
      AppendInOrder(Told(hooks[..n], telling), hooks[n].Some?, EventOf(telling, n));
    } else {
      NonePresent();
    }
  }

  lemma NonePresent()
    ensures InOrder([]) && forall k :: !Present([], k)
  {
  }

  lemma {:induction false} BeforesTell(hooks: seq<Hook>)
    ensures InOrder(Befores(hooks))
    ensures forall e :: e in Befores(hooks) <==>
      e.BeforeProcess? && Present(hooks, e.hook) && forall j :: 0 <= j < e.hook ==> !Objects(hooks, j)
  {
    hide Objection, InOrder, Present, Objects;
    if hooks != [] {
      var n := |hooks| - 1;
      BeforesTell(hooks[..n]);
      ObjectionIs(hooks[..n]);
      FrontHooks(hooks, hooks[..n]);
      NoneObjects(hooks, n);
      AppendInOrder(Befores(hooks[..n]), hooks[n].Some? && Objection(hooks[..n]).None?, BeforeProcess(n));
      forall h: nat ensures BeforeProcess(h) in Befores(hooks) <==>
        Present(hooks, h) && forall j :: 0 <= j < h ==> !Objects(hooks, j)
      {
        if h < n {
          assert forall j :: 0 <= j < h ==> (Objects(hooks, j) <==> Objects(hooks[..n], j));
        }
      }
    } else {
      NonePresent();
    }
  }

  /** No hook before `n` objects when the first `n` hooks have no objection. */
  lemma NoneObjects(hooks: seq<Hook>, n: nat)
    requires n <= |hooks|
    ensures Objection(hooks[..n]).None? <==> forall j :: 0 <= j < n ==> !Objects(hooks, j)
  {
    hide Objection;
    ObjectionIs(hooks[..n]);
    assert forall j :: 0 <= j < n ==> (Objects(hooks, j) <==> Objects(hooks[..n], j));
  }

  ghost predicate Within(es: seq<Event>, lo: nat, hi: nat) {
    forall e :: e in es ==> lo <= Rank(e) <= hi
  }

  lemma Phased(a: seq<Event>, b: seq<Event>, lo: nat, mid: nat, hi: nat)
    requires InOrder(a) && InOrder(b) && Within(a, lo, mid) && Within(b, mid + 1, hi) && lo <= mid < hi
    ensures InOrder(a + b) && Within(a + b, lo, hi)
  {
    hide InOrder, Rank, HookOf;
    ConcatInOrder(a, b);
  }

  lemma PhasesInOrder(
    a: seq<Event>, b: seq<Event>, c: seq<Event>, d: seq<Event>, e: seq<Event>, f: seq<Event>)
    requires InOrder(a) && InOrder(b) && InOrder(c) && InOrder(d) && InOrder(e) && InOrder(f)
    requires Within(a, 0, 1) && Within(b, 2, 2) && Within(c, 3, 3) && Within(d, 4, 4) && Within(e, 5, 7) && Within(f, 8, 8)
    ensures InOrder(a + b + c + d + e + f)
  {
    hide InOrder, Within;
    Phased(a, b, 0, 1, 2);
    Phased(a + b, c, 0, 2, 3);
    Phased(a + b + c, d, 0, 3, 4);
    Phased(a + b + c + d, e, 0, 4, 7);
    Phased(a + b + c + d + e, f, 0, 7, 8);
  }

  /** Everything told about an attempt, and in which order. */
  lemma {:induction false} TraceTells(t: Option<Task>, hooks: seq<Hook>, ran: Ran)
    ensures
      var err, judged := Outcome(hooks, ran), Judged(t, hooks, ran);
      && InOrder(Trace(t, hooks, ran))
      && forall e :: e in Trace(t, hooks, ran) <==>
           Expected(hooks, StateOf(Begun(t)), StateOf(After(t, hooks, ran)), EndFor(judged, err), err, e)
  {
    hide Begun, Ended, Told, Befores, Objection, Outcome, Judged, StateOf, Ending, EndFor, InOrder, Objects, Present;
    hide Opening, Closing, HookVerdicts, Expected;
    var err, judged := Outcome(hooks, ran), Judged(t, hooks, ran);
    EndNotStarted(judged, err);
    EndIs(judged, err);
    var a, b, c := Opening(t), Befores(hooks), if Objection(hooks).Some? then [] else [Handled];
    var d, e, f := Told(hooks, Processed(err)), Closing(judged, err), HookVerdicts(hooks, err);
    OpeningTells(t);
    BeforesTell(hooks);
    NoneOrOne(c);
    ToldTells(hooks, Processed(err));
    ClosingTells(judged, err);
    VerdictsTell(hooks, err);
    PhasesInOrder(a, b, c, d, e, f);
    forall x ensures x in Trace(t, hooks, ran) <==>
      Expected(hooks, StateOf(Begun(t)), StateOf(After(t, hooks, ran)), EndFor(judged, err), err, x)
    {
      OutcomeIs(hooks, ran);
      EachExpected(t, hooks, err, judged, x);
    }
  }

  lemma EachExpected(t: Option<Task>, hooks: seq<Hook>, err: Option<Err>, judged: Option<Task>, x: Event)
    requires Objection(hooks).Some? <==> exists k :: Objects(hooks, k)
    ensures
      Expected(hooks, StateOf(Begun(t)), StateOf(Ended(judged, err)), EndFor(judged, err), err, x) <==>
        || x in Opening(t) || x in Befores(hooks) || (x == Handled && Objection(hooks).None?)
        || x in Told(hooks, Processed(err)) || x in Closing(judged, err) || x in HookVerdicts(hooks, err)
  {
    hide Begun, Ended, Told, Befores, Objection, StateOf, Ending, EndFor, InOrder, Objects, Present;
    hide Opening, Closing, HookVerdicts;
    EndIs(judged, err);
    OpeningTells(t);
    BeforesTell(hooks);
    ToldTells(hooks, Processed(err));
    ClosingTells(judged, err);
    VerdictsTell(hooks, err);
  }

  lemma VerdictsTell(hooks: seq<Hook>, err: Option<Err>)
    ensures InOrder(HookVerdicts(hooks, err)) && Within(HookVerdicts(hooks, err), 8, 8)
    ensures forall e :: e in HookVerdicts(hooks, err) <==>
      match e
      case OnSuccess(h) => Present(hooks, h) && err.None?
      case OnFailure(h, c) => Present(hooks, h) && err == Some(c)
      case _ => false
  {
    hide Told, InOrder, Present;
    ToldTells(hooks, if err.None? then Good else Bad(err.value));
  }

  lemma EndNotStarted(t: Option<Task>, err: Option<Err>)
    ensures EndFor(t, err) != Started
  {
  }

  lemma NoneOrOne(es: seq<Event>)
    requires |es| <= 1
    ensures InOrder(es)
  {
  }

  lemma OpeningTells(t: Option<Task>)
    ensures InOrder(Opening(t)) && Within(Opening(t), 0, 1)
    ensures forall e :: e in Opening(t) <==> e == Published(Started, StateOf(Begun(t)), None) || e == TaskStart
  {
    hide Begun, StateOf;
  }

  lemma ClosingTells(t: Option<Task>, err: Option<Err>)
    ensures Ending(t, err) != Started ==> InOrder(Closing(t, err)) && Within(Closing(t, err), 5, 7)
    ensures forall e :: e in Closing(t, err) <==>
      match e
      case Published(k, state, x) => k == Ending(t, err) && state == StateOf(Ended(t, err)) && x == err
      case TaskRetry(c) => err == Some(c) && Ending(t, err) == Retry
      case TaskFailure(c) => err == Some(c) && Ending(t, err) != Retry
      case TaskFinish(x) => x == err
      case _ => false
  {
    hide Ending, Ended, StateOf;
  }

  /** A live message whose state the handler leaves alone: its final state and all that is told, by the error. */
  lemma {:induction false} AttemptClassified(t: Task, hooks: seq<Hook>, ran: Ran, err: Option<Err>)
    requires Live(t.state) && (ran.moves == [] || exists k :: Objects(hooks, k))
    requires EndsWith(hooks, ran, err)
    ensures
      var state := StateOf(After(Some(t), hooks, ran));
      && (state == SUCCESS <==> err.None?)
      && (state == DEAD <==> err.Some? && GivenUp(Some(t), err.value))
      && (state == RETRYING <==>
            err.Some? && !GivenUp(Some(t), err.value) && !TimesOut(err.value) && MayRetry(err.value))
      && (state == FAILED <==>
            err.Some? && !GivenUp(Some(t), err.value) && (TimesOut(err.value) || !MayRetry(err.value)))
      && InOrder(Trace(Some(t), hooks, ran))
      && forall e :: e in Trace(Some(t), hooks, ran) <==>
           Expected(hooks, RUNNING, state, EndFor(Some(t), err), err, e)
  {
    hide Trace, Objection, Objects, EndsWith, Expected, InOrder, GivenUp, TimesOut, MayRetry, Ended, Ending;
    OutcomeIs(hooks, ran);
    OneError(hooks, ran, err, Outcome(hooks, ran));
    BegunLive(t);
    var begun := t.(state := RUNNING, runtime := Some(RUNNING));
    assert Judged(Some(t), hooks, ran) == Some(begun);
    TraceTells(Some(t), hooks, ran);
    EndIs(Some(begun), err);
    LimitsAlike(t, begun, err);
    JudgedEnds(begun, err);
  }

  lemma OneError(hooks: seq<Hook>, ran: Ran, a: Option<Err>, b: Option<Err>)
    requires EndsWith(hooks, ran, a) && EndsWith(hooks, ran, b)
    ensures a == b
  {
  }

  /** Arriving live or running makes no difference to the limit, and neither is dead. */
  lemma LimitsAlike(t: Task, begun: Task, err: Option<Err>)
    requires Live(t.state) && begun == t.(state := RUNNING, runtime := Some(RUNNING))
    ensures EndFor(Some(begun), err) == EndFor(Some(t), err)
    ensures err.Some? ==> (GivenUp(Some(begun), err.value) <==> GivenUp(Some(t), err.value))
  {
    hide Hopeless, Limited, Ignored, TimesOut, MayRetry;
  }

  // ------------------------------------------- the bundled retry and dead letter

  /** When the dead letter middleware gives a message up, and what it returns. */
  lemma {:induction false} DeadLetterTells(t: Option<Task>, err: Option<Err>, pushed: Option<Err>)
    ensures
      var ran := DeadLetterStep(t, err, pushed);
      var gives := err.Some? && !Ignored(err.value) && (UsedUp(t) || exists r :: Decides(err.value, r) && IsFatal(r));
      && (ran.moves == [FAILED, DEAD] <==> gives && pushed.None?)
      && (ran.moves != [FAILED, DEAD] ==> ran.moves == [])
      && ran.err == (
           if !gives then err
           else if pushed.Some? then Some(Joined([err.value, pushed.value]))
           else Some(Runtime(DEAD_LETTER, false, true, false, 0, err)))
  {
    hide Decides, RuntimeErrorFrom;
    if err.Some? {
      forall r ensures Decides(err.value, r) <==> RuntimeErrorFrom(err) == Some(r) {
        DecidesIs(err.value, r);
      }
      if RuntimeErrorFrom(err).Some? {
        assert Decides(err.value, RuntimeErrorFrom(err).value);
      }
    }
  }

  predicate IsFatal(r: Err) {
    r.Runtime? && (r.fatal || r.kind == FATAL)
  }

  /** When the retry middleware schedules another attempt or gives up, and what it returns. */
  lemma {:induction false} RetryTells(t: Option<Task>, err: Option<Err>, next: Option<int>)
    ensures
      var ran := RetryStep(t, err, next);
      var final := err.None? || Limited(err.value) || Hopeless(err.value) || Ignored(err.value) || StateOf(t) == DEAD;
      var timed := err.Some? && exists r :: Decides(err.value, r) && r.retryable && r.retryIn > 0;
      && (ran.moves == [FAILED, DEAD] <==> !final && UsedUp(t))
      && (ran.moves == [RETRYING] <==> !final && !UsedUp(t) && !timed && next.Some?)
      && (ran.moves in [[], [RETRYING], [FAILED, DEAD]])
      && ran.err == (
           if ran.moves == [] then err
           else if ran.moves == [RETRYING] then Some(Runtime(RETRYABLE, true, false, false, next.value, err))
           else Some(Runtime(DEAD_LETTER, false, true, false, 0, err)))
  {
    hide Decides, RuntimeErrorFrom, Hopeless, Ignored, Limited;
    hide IsRateLimitError, IsDeadLetterError, IsFatalError, IsIgnoredError;
    if err.Some? {
      Classified(err.value);
      forall r ensures Decides(err.value, r) <==> RuntimeErrorFrom(err) == Some(r) {
        DecidesIs(err.value, r);
      }
      if RuntimeErrorFrom(err).Some? {
        assert Decides(err.value, RuntimeErrorFrom(err).value);
      }
    }
  }

  // ------------------------------------------------------------------ the store

  /** Writes are attempted up to the first that fails. */
  lemma AttemptedTells(faults: seq<Option<Err>>)
    requires |faults| == 3
    ensures
      var n := Attempted(faults);
      && 1 <= n <= 3 && (forall i :: 0 <= i < n - 1 ==> faults[i].None?) && (n < 3 ==> faults[n - 1].Some?)
  {
  }

  /** What the store records about a run. */
  lemma {:induction false} StoredTells(t: Task, err: Option<Err>)
    ensures
      var status := StoredStatus(t, err);
      && (status == STORED_SUCCEEDED <==> err.None?)
      && (status == STORED_RETRY <==>
            err.Some? && !Hopeless(err.value) && (Limited(err.value) || t.retryCount < t.maxRetry))
      && (status == STORED_FAILED <==>
            err.Some? && (Hopeless(err.value) || (!Limited(err.value) && t.retryCount >= t.maxRetry)))
      && |RunWrites(t, err)| == 3
      && RunWrites(t, err)[0] == FinishRun(status) && RunWrites(t, err)[2] == UpdateTaskStatus(status)
      && RunWrites(t, err)[1] in [AppendRunLog("info"), AppendRunLog("error")]
      && (RunWrites(t, err)[1] == AppendRunLog("error") <==> err.Some?)
  {
    hide Hopeless, Limited, IsRateLimitError, IsDeadLetterError, IsFatalError;
    if err.Some? {
      Classified(err.value);
    }
  }
}
