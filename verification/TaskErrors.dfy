/** Classifying a task's error, which may wrap or join others. */
module TaskErrors {
  import opened Prelude

  const RETRYABLE := "retryable"
  const FATAL := "fatal"
  const TIMEOUT := "timeout"
  const DEAD_LETTER := "deadletter"
  const IGNORED := "ignored"

  const RATE_LIMITED := Sentinel("queue rate limited")
  const DEADLINE_EXCEEDED := Sentinel("context deadline exceeded")

  /** A non-nil error. The two nil pointers are errors too: values of a pointer type, without a target. */
  datatype Err =
    | Sentinel(id: string)
    | Runtime(kind: string, retryable: bool, fatal: bool, ignore: bool, retryIn: int, inner: Option<Err>)
    | NilRuntime
    | RateLimit(inner: Option<Err>)
    | NilRateLimit
    | Wrapped(cause: Err)
    | Joined(parts: seq<Err>)

  // ---------------------------------------------------------------- searching

  /** The first runtime error in the tree, searching parents before children, left before right. */
  function AsRuntime(e: Err): (r: Option<Err>)
    ensures r.Some? ==> r.value.Runtime? || r.value.NilRuntime?
    decreases e
  {
    match e
    case Runtime(_, _, _, _, _, _) => Some(e)
    case NilRuntime => Some(e)
    case RateLimit(inner) => if inner.Some? then AsRuntime(inner.value) else None
    case Wrapped(cause) => AsRuntime(cause)
    case Joined(parts) => AsRuntimeAny(parts)
    case _ => None
  }

  function AsRuntimeAny(parts: seq<Err>): (r: Option<Err>)
    ensures r.Some? ==> r.value.Runtime? || r.value.NilRuntime?
    decreases parts
  {
    if parts == [] then None
    else
      var first := AsRuntime(parts[0]);
      if first.Some? then first else AsRuntimeAny(parts[1..])
  }

  predicate Is(e: Err, target: Err)
    decreases e
  {
    || e == target
    || (match e
        case Runtime(_, _, _, _, _, inner) => inner.Some? && Is(inner.value, target)
        case RateLimit(inner) => inner.Some? && Is(inner.value, target)
        case Wrapped(cause) => Is(cause, target)
        case Joined(parts) => IsAny(parts, target)
        case _ => false)
  }

  predicate IsAny(parts: seq<Err>, target: Err)
    decreases parts
  {
    parts != [] && (Is(parts[0], target) || IsAny(parts[1..], target))
  }

  predicate HasRateLimit(e: Err)
    decreases e
  {
    match e
    case RateLimit(_) => true
    case NilRateLimit => true
    case Runtime(_, _, _, _, _, inner) => inner.Some? && HasRateLimit(inner.value)
    case Wrapped(cause) => HasRateLimit(cause)
    case Joined(parts) => HasRateLimitAny(parts)
    case _ => false
  }

  predicate HasRateLimitAny(parts: seq<Err>)
    decreases parts
  {
    parts != [] && (HasRateLimit(parts[0]) || HasRateLimitAny(parts[1..]))
  }

  function RuntimeErrorFrom(err: Option<Err>): (r: Option<Err>)
    ensures r.Some? ==> r.value.Runtime?
  {
    if err.None? then None
    else
      var found := AsRuntime(err.value);
      if found.Some? && found.value.Runtime? then found else None
  }

  predicate IsRateLimitError(err: Option<Err>) {
    err.Some? && (Is(err.value, RATE_LIMITED) || HasRateLimit(err.value))
  }

  predicate IsRetryableError(err: Option<Err>) {
    var r := RuntimeErrorFrom(err);
    r.Some? && (r.value.retryable || r.value.kind == RETRYABLE)
  }

  predicate IsFatalError(err: Option<Err>) {
    var r := RuntimeErrorFrom(err);
    r.Some? && (r.value.fatal || r.value.kind == FATAL)
  }

  predicate IsIgnoredError(err: Option<Err>) {
    var r := RuntimeErrorFrom(err);
    r.Some? && (r.value.ignore || r.value.kind == IGNORED)
  }

  predicate IsTimeoutError(err: Option<Err>) {
    var r := RuntimeErrorFrom(err);
    r.Some? && r.value.kind == TIMEOUT
  }

  predicate IsDeadLetterError(err: Option<Err>) {
    var r := RuntimeErrorFrom(err);
    r.Some? && r.value.kind == DEAD_LETTER
  }

  function RetryableAfter(retryIn: int, err: Option<Err>): Err {
    Runtime(RETRYABLE, true, false, false, retryIn, err)
  }

  function NewDeadLetterError(err: Option<Err>): Err {
    Runtime(DEAD_LETTER, false, true, false, 0, err)
  }

  // ------------------------------------------------- what the searches look at

  /** Every error of the tree, in the order the searches visit them. */
  function Nodes(e: Err): seq<Err>
    decreases e
  {
    [e] +
    (match e
     case Runtime(_, _, _, _, _, inner) => if inner.Some? then Nodes(inner.value) else []
     case RateLimit(inner) => if inner.Some? then Nodes(inner.value) else []
     case Wrapped(cause) => Nodes(cause)
     case Joined(parts) => NodesAll(parts)
     case _ => [])
  }

  function NodesAll(parts: seq<Err>): seq<Err>
    decreases parts
  {
    if parts == [] then [] else Nodes(parts[0]) + NodesAll(parts[1..])
  }

  predicate RuntimeLike(e: Err) {
    e.Runtime? || e.NilRuntime?
  }

  function FirstRuntime(es: seq<Err>): Option<Err> {
    if es == [] then None else if RuntimeLike(es[0]) then Some(es[0]) else FirstRuntime(es[1..])
  }

  lemma {:induction false} FirstRuntimeConcat(a: seq<Err>, b: seq<Err>)
    ensures FirstRuntime(a + b) == if FirstRuntime(a).Some? then FirstRuntime(a) else FirstRuntime(b)
  {
    if a == [] {
      assert a + b == b;
    } else {
      assert (a + b)[1..] == a[1..] + b;
      FirstRuntimeConcat(a[1..], b);
    }
  }

  /** The classifiers look at one error only: the first runtime error visited. */
  lemma {:induction false} AsIsFirst(e: Err)
    ensures AsRuntime(e) == FirstRuntime(Nodes(e))
    decreases e
  {
    match e
    case RateLimit(inner) => if inner.Some? { AsIsFirst(inner.value); }
    case Wrapped(cause) => AsIsFirst(cause);
    case Joined(parts) => AsAnyIsFirst(parts);
    case _ =>
  }

  lemma {:induction false} AsAnyIsFirst(parts: seq<Err>)
    ensures AsRuntimeAny(parts) == FirstRuntime(NodesAll(parts))
    decreases parts
  {
    if parts != [] {
      AsIsFirst(parts[0]);
      AsAnyIsFirst(parts[1..]);
      FirstRuntimeConcat(Nodes(parts[0]), NodesAll(parts[1..]));
    }
  }

  /** The other searches look for one error anywhere. */
  lemma {:induction false} IsAnywhere(e: Err, target: Err)
    ensures Is(e, target) <==> target in Nodes(e)
    ensures HasRateLimit(e) <==> exists n :: n in Nodes(e) && (n.RateLimit? || n.NilRateLimit?)
    decreases e
  {
    match e
    case Runtime(_, _, _, _, _, inner) => if inner.Some? { IsAnywhere(inner.value, target); }
    case RateLimit(inner) => if inner.Some? { IsAnywhere(inner.value, target); } assert e in Nodes(e);
    case Wrapped(cause) => IsAnywhere(cause, target);
    case Joined(parts) => IsAnywhereIn(parts, target);
    case _ => assert e in Nodes(e);
  }

  lemma {:induction false} IsAnywhereIn(parts: seq<Err>, target: Err)
    ensures IsAny(parts, target) <==> target in NodesAll(parts)
    ensures HasRateLimitAny(parts) <==> exists n :: n in NodesAll(parts) && (n.RateLimit? || n.NilRateLimit?)
    decreases parts
  {
    if parts != [] {
      IsAnywhere(parts[0], target);
      IsAnywhereIn(parts[1..], target);
    }
  }

  /** Two errors are classified alike when the runtime errors visited first in them differ only in what they wrap. */
  lemma {:induction false} FirstDecides(e: Err, f: Err)
    requires FirstRuntime(Nodes(e)).Some? && FirstRuntime(Nodes(f)).Some?
    requires FirstRuntime(Nodes(e)).value.Runtime? && FirstRuntime(Nodes(f)).value.Runtime?
    requires FirstRuntime(Nodes(e)).value.(inner := None) == FirstRuntime(Nodes(f)).value.(inner := None)
    ensures IsFatalError(Some(e)) == IsFatalError(Some(f)) && IsRetryableError(Some(e)) == IsRetryableError(Some(f))
    ensures IsIgnoredError(Some(e)) == IsIgnoredError(Some(f)) && IsTimeoutError(Some(e)) == IsTimeoutError(Some(f))
    ensures IsDeadLetterError(Some(e)) == IsDeadLetterError(Some(f))
  {
    hide Nodes, FirstRuntime, AsRuntime;
    AsIsFirst(e);
    AsIsFirst(f);
    var x, y := FirstRuntime(Nodes(e)).value, FirstRuntime(Nodes(f)).value;
    assert x.kind == x.(inner := None).kind == y.kind && x.retryable == x.(inner := None).retryable == y.retryable;
    assert x.fatal == x.(inner := None).fatal == y.fatal && x.ignore == x.(inner := None).ignore == y.ignore;
  }

  /** There is no runtime error to classify by exactly when none is visited, or a nil pointer is visited first. */
  lemma {:induction false} NilHides(e: Err)
    ensures RuntimeErrorFrom(Some(e)) == None <==> FirstRuntime(Nodes(e)) in [None, Some(NilRuntime)]
  {
    AsIsFirst(e);
    FirstIsRuntime(Nodes(e));
  }

  lemma {:induction false} FirstIsRuntime(es: seq<Err>)
    ensures FirstRuntime(es).Some? ==> RuntimeLike(FirstRuntime(es).value)
  {
    if es != [] {
      FirstIsRuntime(es[1..]);
    }
  }
}
