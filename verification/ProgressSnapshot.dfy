/** A progress snapshot, kept up to date event by event, and what it says about the whole history. */
module ProgressSnapshot {
  import opened Prelude
  import opened Text

  /** Details and subjects are printed; a nil map is an empty one; the zero time is 0. */
  datatype Event = Event(
    kind: string, domain: string, operationID: string, operationType: string, refID: string,
    subject: map<string, string>, step: string, progressKey: string, level: string, status: string, percent: int,
    message: string, detail: map<string, string>, at: int)

  datatype Step = Step(
    key: string, step: string, status: string, percent: int, message: string, detail: map<string, string>, updatedAt: int)

  datatype Snapshot = Snapshot(
    operationID: string, operationType: string, domain: string, refID: string, subject: map<string, string>,
    step: string, status: string, percent: int, message: string, terminal: bool, updatedAt: int,
    steps: seq<Step>, recent: seq<Event>)

  const EMPTY := Snapshot("", "", "", "", map[], "", "", 0, "", false, 0, [], [])

  predicate IsTerminal(e: Event) {
    e.kind == "done" || e.kind == "failed" || e.kind == "canceled"
  }

  /** The step an event belongs to, if any: its own key, or the one among its details. */
  function StepKey(e: Event): string {
    var key := TrimSpace(e.progressKey);
    if key != "" then key
    else if "progress_key" in e.detail then TrimSpace(e.detail["progress_key"])
    else ""
  }

  function Stamped(e: Event, now: int): Event {
    e.(at := if e.at == 0 then now else e.at)
  }

  function StepOf(key: string, e: Event): Step {
    Step(key, e.step, e.status, e.percent, e.message, e.detail, e.at)
  }

  // -------------------------------------------------------------- one event at a time

  function PutStep(steps: seq<Step>, step: Step): seq<Step> {
    if steps == [] then [step]
    else if steps[0].key == step.key then [step] + steps[1..]
    else [steps[0]] + PutStep(steps[1..], step)
  }

  function Trimmed(recent: seq<Event>, limit: int): seq<Event> {
    if 0 < limit < |recent| then recent[|recent| - limit..] else recent
  }

  function Or(given: string, before: string): string {
    if given != "" then given else before
  }

  function WithIdentity(s: Snapshot, e: Event): Snapshot {
    s.(operationID := Or(e.operationID, s.operationID), operationType := Or(e.operationType, s.operationType),
       domain := Or(e.domain, s.domain), refID := Or(e.refID, s.refID),
       subject := if e.subject != map[] then e.subject else s.subject)
  }

  function WithState(s: Snapshot, e: Event): Snapshot {
    s.(step := Or(e.step, s.step), status := Or(e.status, s.status), message := Or(e.message, s.message),
       percent := if e.percent >= 0 then e.percent else s.percent,
       updatedAt := e.at, terminal := s.terminal || IsTerminal(e))
  }

  function WithStep(s: Snapshot, e: Event): Snapshot {
    if StepKey(e) != "" then s.(steps := PutStep(s.steps, StepOf(StepKey(e), e))) else s
  }

  function WithRecent(s: Snapshot, e: Event, limit: int): Snapshot {
    if limit > 0 then s.(recent := Trimmed(s.recent + [e], limit)) else s
  }

  function Applied(s: Snapshot, e: Event, limit: int): Snapshot {
    WithRecent(WithStep(WithState(WithIdentity(s, e), e), e), e, limit)
  }

  lemma ConsUpdate(steps: seq<Step>, i: nat, step: Step)
    requires 0 < i < |steps|
    ensures [steps[0]] + steps[1..][i - 1 := step] == steps[i := step]
  {
  }

  lemma {:induction false} PutStepFirst(steps: seq<Step>, step: Step, i: nat)
    requires i <= |steps| && (forall k :: 0 <= k < i ==> steps[k].key != step.key)
    requires i < |steps| ==> steps[i].key == step.key
    ensures PutStep(steps, step) == if i < |steps| then steps[i := step] else steps + [step]
  {
    if i < |steps| {
      assert [steps[0]] + steps[1..] == steps;
    }
    if i > 0 {
      PutStepFirst(steps[1..], step, i - 1);
      if i < |steps| {
        ConsUpdate(steps, i, step);
      }
    }
  }

  class Progress {
    var operationID: string
    var operationType: string
    var domain: string
    var refID: string
    var subject: map<string, string>
    var step: string
    var status: string
    var percent: int
    var message: string
    var terminal: bool
    var updatedAt: int
    var steps: seq<Step>
    var recent: seq<Event>

    constructor (s: Snapshot)
      ensures Value() == s
    {
      operationID, operationType, domain, refID, subject := s.operationID, s.operationType, s.domain, s.refID, s.subject;
      step, status, percent, message, terminal := s.step, s.status, s.percent, s.message, s.terminal;
      updatedAt, steps, recent := s.updatedAt, s.steps, s.recent;
    }

    function Value(): Snapshot
      reads this
    {
      Snapshot(
        operationID, operationType, domain, refID, subject, step, status, percent, message, terminal, updatedAt,
        steps, recent)
    }

    method ApplyStep(key: string, e: Event)
      modifies `steps
      ensures steps == PutStep(old(steps), StepOf(key, e))
    {
      hide PutStep, StepOf;
      var put := StepOf(key, e);
      KeyOfStep(key, e);
      for i := 0 to |steps|
        invariant steps == old(steps)
        invariant forall k :: 0 <= k < i ==> steps[k].key != key
      {
        if steps[i].key == key {
          PutStepFirst(steps, put, i);
          steps := steps[i := put];
          return;
        }
      }
      PutStepFirst(steps, put, |steps|);
      steps := steps + [put];
    }

    method ApplyIdentity(e: Event)
      modifies `operationID, `operationType, `domain, `refID, `subject
      ensures Value() == WithIdentity(old(Value()), e)
    {
      if e.operationID != "" {
        operationID := e.operationID;
      }
      if e.operationType != "" {
        operationType := e.operationType;
      }
      if e.domain != "" {
        domain := e.domain;
      }
      if e.refID != "" {
        refID := e.refID;
      }
      if e.subject != map[] {
        subject := e.subject;
      }
    }

    method ApplyState(e: Event)
      modifies `step, `status, `message, `percent, `updatedAt, `terminal
      ensures Value() == WithState(old(Value()), e)
    {
      hide IsTerminal;
      if e.step != "" {
        step := e.step;
      }
      if e.status != "" {
        status := e.status;
      }
      if e.message != "" {
        message := e.message;
      }
      if e.percent >= 0 {
        percent := e.percent;
      }
      updatedAt := e.at;
      if IsTerminal(e) {
        terminal := true;
      }
    }

    method ApplyRecent(e: Event, recentLimit: int)
      modifies `recent
      ensures Value() == WithRecent(old(Value()), e, recentLimit)
    {
      if recentLimit > 0 {
        recent := recent + [e];
        if |recent| > recentLimit {
          recent := recent[|recent| - recentLimit..];
        }
      }
    }

    method Apply(event: Event, recentLimit: int, now: int)
      modifies this
      ensures Value() == Applied(old(Value()), Stamped(event, now), recentLimit)
    {
      hide StepKey, PutStep, StepOf, WithIdentity, WithState, WithRecent;
      var e := event;
      if e.at == 0 {
        e := e.(at := now);
      }
      ApplyIdentity(e);
      ApplyState(e);
      var key := StepKey(e);
      if key != "" {
        ApplyStep(key, e);
      }
      ApplyRecent(e, recentLimit);
    }
  }

  /** The snapshot after a history of stamped events. */
  function After(es: seq<Event>, limit: int): Snapshot {
    if es == [] then EMPTY else Applied(After(es[..|es| - 1], limit), es[|es| - 1], limit)
  }

  // --------------------------------------------------------------- the whole history

  datatype Field = OperationID | OperationType | Domain | RefID | StepName | Status | Message

  function FieldOf(e: Event, f: Field): string {
    match f
    case OperationID => e.operationID
    case OperationType => e.operationType
    case Domain => e.domain
    case RefID => e.refID
    case StepName => e.step
    case Status => e.status
    case Message => e.message
  }

  function Shown(s: Snapshot, f: Field): string {
    match f
    case OperationID => s.operationID
    case OperationType => s.operationType
    case Domain => s.domain
    case RefID => s.refID
    case StepName => s.step
    case Status => s.status
    case Message => s.message
  }

  /** The value is that of the last event that gives one, or empty when none does. */
  ghost predicate LastGiven(es: seq<Event>, f: Field, value: string) {
    || (value == "" && forall i :: 0 <= i < |es| ==> FieldOf(es[i], f) == "")
    || (value != "" && exists i :: 0 <= i < |es| && FieldOf(es[i], f) == value && NoneAfter(es, f, i))
  }

  predicate NoneAfter(es: seq<Event>, f: Field, i: int) {
    forall j :: 0 <= j < |es| && i < j ==> FieldOf(es[j], f) == ""
  }

  ghost predicate LastPercent(es: seq<Event>, value: int) {
    || (value == 0 && forall i :: 0 <= i < |es| ==> es[i].percent < 0)
    || exists i :: 0 <= i < |es| && es[i].percent == value && value >= 0 && NoPercentAfter(es, i)
  }

  predicate NoPercentAfter(es: seq<Event>, i: int) {
    forall j :: 0 <= j < |es| && i < j ==> es[j].percent < 0
  }

  ghost predicate LastSubject(es: seq<Event>, value: map<string, string>) {
    || (value == map[] && forall i :: 0 <= i < |es| ==> es[i].subject == map[])
    || exists i :: 0 <= i < |es| && es[i].subject == value && value != map[] && NoSubjectAfter(es, i)
  }

  predicate NoSubjectAfter(es: seq<Event>, i: int) {
    forall j :: 0 <= j < |es| && i < j ==> es[j].subject == map[]
  }

  /** The step every event reports, with an empty key where it reports none. */
  function Reported(es: seq<Event>): (r: seq<Step>)
    ensures |r| == |es| && forall i :: 0 <= i < |es| ==> r[i] == StepOf(StepKey(es[i]), es[i])
  {
    seq(|es|, i requires 0 <= i < |es| => StepOf(StepKey(es[i]), es[i]))
  }

  /** Where a step key is first reported; the length of the history if never. */
  function FirstSeen(rs: seq<Step>, key: string): (n: nat)
    ensures n <= |rs| && (n < |rs| ==> rs[n].key == key)
    ensures forall k :: 0 <= k < n ==> rs[k].key != key
  {
    if rs == [] || rs[0].key == key then 0 else 1 + FirstSeen(rs[1..], key)
  }

  /** Where a step key is last reported; -1 if never. */
  function LastSeen(rs: seq<Step>, key: string): (n: int)
    ensures -1 <= n < |rs| && (n >= 0 ==> rs[n].key == key)
    ensures forall k :: n < k < |rs| ==> rs[k].key != key
  {
    if rs == [] then -1
    else if rs[|rs| - 1].key == key then |rs| - 1
    else LastSeen(rs[..|rs| - 1], key)
  }

  /** One step per key, in the order in which the keys were first reported, each as last reported. */
  predicate StepsTell(rs: seq<Step>, steps: seq<Step>) {
    && (forall i :: 0 <= i < |steps| ==>
          steps[i].key != "" && LastSeen(rs, steps[i].key) >= 0 && steps[i] == rs[LastSeen(rs, steps[i].key)])
    && (forall i, j :: 0 <= i < j < |steps| ==> FirstSeen(rs, steps[i].key) < FirstSeen(rs, steps[j].key))
    && (forall k :: 0 <= k < |rs| && rs[k].key != "" ==> HasKey(steps, rs[k].key))
  }

  predicate HasKey(steps: seq<Step>, key: string) {
    exists i :: 0 <= i < |steps| && steps[i].key == key
  }

  /** The last `limit` events, or all when there are fewer. */
  function Latest(es: seq<Event>, limit: int): seq<Event> {
    if limit <= 0 then [] else if |es| <= limit then es else es[|es| - limit..]
  }

  /** What a snapshot says about a history of events. */
  ghost predicate Summarizes(es: seq<Event>, limit: int, s: Snapshot) {
    && (forall f {:trigger Shown(s, f)} :: LastGiven(es, f, Shown(s, f)))
    && LastPercent(es, s.percent)
    && LastSubject(es, s.subject)
    && (s.terminal <==> exists i :: 0 <= i < |es| && IsTerminal(es[i]))
    && s.updatedAt == (if es == [] then 0 else es[|es| - 1].at)
    && s.recent == Latest(es, limit)
    && StepsTell(Reported(es), s.steps)
  }

  lemma GivenMore(es: seq<Event>, e: Event, f: Field, value: string)
    requires LastGiven(es, f, value)
    ensures LastGiven(es + [e], f, Or(FieldOf(e, f), value))
  {
    if FieldOf(e, f) != "" {
      assert NoneAfter(es + [e], f, |es|);
    } else if value != "" {
      var i :| 0 <= i < |es| && FieldOf(es[i], f) == value && NoneAfter(es, f, i);
      assert (es + [e])[i] == es[i] && NoneAfter(es + [e], f, i);
    }
  }

  lemma PercentMore(es: seq<Event>, e: Event, value: int)
    requires LastPercent(es, value)
    ensures LastPercent(es + [e], if e.percent >= 0 then e.percent else value)
  {
    if e.percent >= 0 {
      assert NoPercentAfter(es + [e], |es|);
    } else if i :| 0 <= i < |es| && es[i].percent == value && value >= 0 && NoPercentAfter(es, i) {
      assert (es + [e])[i] == es[i] && NoPercentAfter(es + [e], i);
    }
  }

  lemma SubjectMore(es: seq<Event>, e: Event, value: map<string, string>)
    requires LastSubject(es, value)
    ensures LastSubject(es + [e], if e.subject != map[] then e.subject else value)
  {
    if e.subject != map[] {
      assert NoSubjectAfter(es + [e], |es|);
    } else if i :| 0 <= i < |es| && es[i].subject == value && value != map[] && NoSubjectAfter(es, i) {
      assert (es + [e])[i] == es[i] && NoSubjectAfter(es + [e], i);
    }
  }

  /** The step put in is the only one that changes; a new key comes last. */
  lemma {:induction false} PutStepAt(steps: seq<Step>, step: Step)
    ensures
      var put := PutStep(steps, step);
      if HasKey(steps, step.key) then
        && |put| == |steps|
        && exists i :: 0 <= i < |steps| && steps[i].key == step.key && put == steps[i := step]
      else put == steps + [step]
  {
    hide PutStep;
    var i := FirstSeen(steps, step.key);
    PutStepFirst(steps, step, i);
    if HasKey(steps, step.key) {
      var k :| 0 <= k < |steps| && steps[k].key == step.key;
    }
  }

  lemma SeenMore(rs: seq<Step>, r: Step, key: string)
    ensures LastSeen(rs + [r], key) == if r.key == key then |rs| else LastSeen(rs, key)
    ensures FirstSeen(rs + [r], key) ==
      if FirstSeen(rs, key) < |rs| || r.key == key then FirstSeen(rs, key) else |rs| + 1
    ensures LastSeen(rs, key) >= 0 <==> FirstSeen(rs, key) < |rs|
  {
    assert (rs + [r])[..|rs|] == rs;
    var n, m := FirstSeen(rs + [r], key), FirstSeen(rs, key);
    assert n < |rs| ==> (rs + [r])[n] == rs[n];
    assert m < |rs| ==> (rs + [r])[m] == rs[m];
    assert (rs + [r])[|rs|] == r;
  }

  lemma {:induction false} StepsMore(rs: seq<Step>, r: Step, steps: seq<Step>)
    requires StepsTell(rs, steps)
    ensures StepsTell(rs + [r], if r.key != "" then PutStep(steps, r) else steps)
  {
    hide FirstSeen, LastSeen, PutStep;
    forall i | 0 <= i < |steps|
      ensures FirstSeen(rs + [r], steps[i].key) == FirstSeen(rs, steps[i].key) < |rs|
      ensures LastSeen(rs + [r], steps[i].key) == if r.key == steps[i].key then |rs| else LastSeen(rs, steps[i].key)
    {
      SeenMore(rs, r, steps[i].key);
    }
    if r.key != "" {
      StepPut(rs, r, steps);
    }
  }

  /** The keys are where they were, and only that of the new report is reported again. */
  predicate SeenAgain(rs: seq<Step>, r: Step, steps: seq<Step>) {
    forall i :: 0 <= i < |steps| ==>
      && FirstSeen(rs + [r], steps[i].key) == FirstSeen(rs, steps[i].key) < |rs|
      && LastSeen(rs + [r], steps[i].key) == if r.key == steps[i].key then |rs| else LastSeen(rs, steps[i].key)
  }

  lemma {:induction false} StepPut(rs: seq<Step>, r: Step, steps: seq<Step>)
    requires StepsTell(rs, steps) && r.key != "" && SeenAgain(rs, r, steps)
    ensures StepsTell(rs + [r], PutStep(steps, r))
  {
    hide FirstSeen, LastSeen, PutStep, StepsTell, SeenAgain;
    PutStepAt(steps, r);
    if HasKey(steps, r.key) {
      var at :| 0 <= at < |steps| && steps[at].key == r.key && PutStep(steps, r) == steps[at := r];
      StepReplaced(rs, r, steps, at);
    } else {
      StepAdded(rs, r, steps);
    }
  }

  lemma KeyReported(rs: seq<Step>, r: Step, steps: seq<Step>, put: seq<Step>)
    requires StepsTell(rs, steps) && HasKey(put, r.key)
    requires forall key :: HasKey(steps, key) ==> HasKey(put, key)
    ensures forall k :: 0 <= k < |rs + [r]| && (rs + [r])[k].key != "" ==> HasKey(put, (rs + [r])[k].key)
  {
    hide FirstSeen, LastSeen, HasKey;
    forall k | 0 <= k < |rs + [r]| && (rs + [r])[k].key != "" ensures HasKey(put, (rs + [r])[k].key) {
      if k < |rs| {
        assert (rs + [r])[k] == rs[k];
      }
    }
  }

  lemma StepReplaced(rs: seq<Step>, r: Step, steps: seq<Step>, at: nat)
    requires StepsTell(rs, steps) && r.key != "" && SeenAgain(rs, r, steps)
    requires at < |steps| && steps[at].key == r.key
    ensures StepsTell(rs + [r], steps[at := r])
  {
    hide FirstSeen, LastSeen, HasKey;
    var put := steps[at := r];
    SameKeys(steps, put);
    assert HasKey(put, put[at].key) by { SomeKey(put, at); }
    KeyReported(rs, r, steps, put);
    forall i | 0 <= i < |put| ensures put[i].key == steps[i].key && put[i] == (rs + [r])[LastSeen(rs + [r], put[i].key)] {
      if steps[i].key == r.key {
        OneStepPerKey(rs, steps, at, i);
      }
    }
  }

  lemma SomeKey(steps: seq<Step>, i: nat)
    requires i < |steps|
    ensures HasKey(steps, steps[i].key)
  {
  }

  lemma SameKeys(a: seq<Step>, b: seq<Step>)
    requires |a| <= |b| && forall i :: 0 <= i < |a| ==> b[i].key == a[i].key
    ensures forall key :: HasKey(a, key) ==> HasKey(b, key)
  {
    forall key | HasKey(a, key) ensures HasKey(b, key) {
      var i :| 0 <= i < |a| && a[i].key == key;
      assert b[i].key == key;
    }
  }

  lemma StepAdded(rs: seq<Step>, r: Step, steps: seq<Step>)
    requires StepsTell(rs, steps) && r.key != "" && SeenAgain(rs, r, steps) && !HasKey(steps, r.key)
    ensures StepsTell(rs + [r], steps + [r])
  {
    hide FirstSeen, LastSeen, HasKey;
    var put := steps + [r];
    NeverSeen(rs, steps, r.key);
    SeenMore(rs, r, r.key);
    SameKeys(steps, put);
    assert put[|steps|] == r;
    SomeKey(put, |steps|);
    KeyReported(rs, r, steps, put);
    forall i | 0 <= i < |steps| ensures put[i] == (rs + [r])[LastSeen(rs + [r], put[i].key)] {
      assert steps[i].key != r.key by { SomeKey(steps, i); }
    }
  }

  lemma OneStepPerKey(rs: seq<Step>, steps: seq<Step>, i: nat, j: nat)
    requires StepsTell(rs, steps) && i < |steps| && j < |steps| && steps[i].key == steps[j].key
    ensures i == j
  {
    hide FirstSeen, LastSeen;
  }

  lemma NeverSeen(rs: seq<Step>, steps: seq<Step>, key: string)
    requires StepsTell(rs, steps) && !HasKey(steps, key) && key != ""
    ensures FirstSeen(rs, key) == |rs|
  {
    hide HasKey;
  }

  /** The snapshot kept event by event is the summary of the whole history. */
  lemma {:induction false} SnapshotSummarizes(es: seq<Event>, limit: int)
    ensures Summarizes(es, limit, After(es, limit))
  {
    hide LastGiven, LastPercent, LastSubject, StepsTell, StepKey, PutStep, StepOf, Applied, Summarizes;
    if es == [] {
      NothingSummarized(limit);
    } else {
      var front, e := es[..|es| - 1], es[|es| - 1];
      assert es == front + [e];
      SnapshotSummarizes(front, limit);
      SummaryMore(front, e, limit, After(front, limit));
    }
  }

  lemma NothingSummarized(limit: int)
    ensures Summarizes([], limit, EMPTY)
  {
    hide StepKey, StepOf;
    forall f ensures LastGiven([], f, Shown(EMPTY, f)) {
    }
  }

  lemma AppliedFields(s: Snapshot, e: Event, limit: int)
    ensures
      var next := Applied(s, e, limit);
      && (forall f :: Shown(next, f) == Or(FieldOf(e, f), Shown(s, f)))
      && next.percent == (if e.percent >= 0 then e.percent else s.percent)
      && next.subject == (if e.subject != map[] then e.subject else s.subject)
      && next.terminal == (s.terminal || IsTerminal(e))
      && next.updatedAt == e.at
      && next.recent == (if limit > 0 then Trimmed(s.recent + [e], limit) else s.recent)
      && next.steps == (if StepKey(e) != "" then PutStep(s.steps, StepOf(StepKey(e), e)) else s.steps)
  {
    hide Or, IsTerminal, Trimmed, StepKey, PutStep, StepOf;
  }

  lemma {:induction false} SummaryMore(es: seq<Event>, e: Event, limit: int, s: Snapshot)
    requires Summarizes(es, limit, s)
    ensures Summarizes(es + [e], limit, Applied(s, e, limit))
  {
    hide LastGiven, LastPercent, LastSubject, StepsTell, StepKey, PutStep, StepOf, IsTerminal, Or, Applied, Shown;
    hide FieldOf, Latest, Trimmed, Reported;
    AppliedFields(s, e, limit);
    var next := Applied(s, e, limit);
    forall f ensures LastGiven(es + [e], f, Shown(next, f)) {
      GivenMore(es, e, f, Shown(s, f));
    }
    PercentMore(es, e, s.percent);
    SubjectMore(es, e, s.subject);
    var r := StepOf(StepKey(e), e);
    ReportedMore(es, e);
    LatestMore(es, e, limit);
    KeyOfStep(StepKey(e), e);
    StepsMore(Reported(es), r, s.steps);
    TerminalMore(es, e);
  }

  lemma LatestMore(es: seq<Event>, e: Event, limit: int)
    ensures Latest(es + [e], limit) == if limit > 0 then Trimmed(Latest(es, limit) + [e], limit) else Latest(es, limit)
  {
  }

  lemma ReportedMore(es: seq<Event>, e: Event)
    ensures Reported(es + [e]) == Reported(es) + [StepOf(StepKey(e), e)]
  {
    hide StepOf, StepKey;
  }

  lemma KeyOfStep(key: string, e: Event)
    ensures StepOf(key, e).key == key
  {
  }

  lemma TerminalMore(es: seq<Event>, e: Event)
    ensures (exists i :: 0 <= i < |es + [e]| && IsTerminal((es + [e])[i])) <==>
      (exists i :: 0 <= i < |es| && IsTerminal(es[i])) || IsTerminal(e)
  {
    hide IsTerminal;
    if i :| 0 <= i < |es| && IsTerminal(es[i]) {
      assert (es + [e])[i] == es[i];
    }
    assert (es + [e])[|es|] == e;
  }

  // -------------------------------------------------------- steps, event by event

  /** The step an event reports: under its own key, or else under the one among its details. */
  predicate Belongs(e: Event, key: string) {
    && key != ""
    && (|| TrimSpace(e.progressKey) == key
        || (TrimSpace(e.progressKey) == "" && "progress_key" in e.detail && TrimSpace(e.detail["progress_key"]) == key))
  }

  predicate Shows(step: Step, e: Event) {
    && step.step == e.step && step.status == e.status && step.percent == e.percent && step.message == e.message
    && step.detail == e.detail && step.updatedAt == e.at
  }

  predicate LastReport(es: seq<Event>, key: string, i: int) {
    0 <= i < |es| && Belongs(es[i], key) && forall j :: i < j < |es| ==> !Belongs(es[j], key)
  }

  lemma KeyBelongs(e: Event, key: string)
    requires key != ""
    ensures Belongs(e, key) <==> StepKey(e) == key
  {
    hide TrimSpace;
  }

  /** Every step shows the last event that reports its key, and every reported key has one. */
  lemma {:induction false} StepsShow(es: seq<Event>, limit: int, key: string)
    requires key != ""
    ensures forall step :: step in After(es, limit).steps && step.key == key ==>
      exists i :: LastReport(es, key, i) && Shows(step, es[i])
    ensures forall i :: 0 <= i < |es| && Belongs(es[i], key) ==> HasKey(After(es, limit).steps, key)
    ensures forall a, b :: a in After(es, limit).steps && b in After(es, limit).steps && a.key == b.key ==> a == b
  {
    hide After, StepKey, Belongs, LastGiven, LastPercent, LastSubject, Latest, FirstSeen, HasKey, Reported, LastSeen;
    SnapshotSummarizes(es, limit);
    var rs, steps := Reported(es), After(es, limit).steps;
    forall i | 0 <= i < |es| ensures Belongs(es[i], key) <==> rs[i].key == key {
      KeyBelongs(es[i], key);
      KeyOfStep(StepKey(es[i]), es[i]);
    }
    forall step | step in steps && step.key == key ensures exists i :: LastReport(es, key, i) && Shows(step, es[i]) {
      var i := LastSeen(rs, key);
      assert LastReport(es, key, i) && Shows(step, es[i]);
    }
  }

  // ------------------------------------------------------------------------ the sink

  datatype Op = Handled(event: Event, now: int) | CleanedUp(event: Event)

  /** The stamped events that a key's snapshot was made from: those handled since it was last cleaned up. */
  function Since(ops: seq<Op>, keyOf: Event -> string, key: string): seq<Event> {
    if ops == [] then []
    else
      var before, op := Since(ops[..|ops| - 1], keyOf, key), ops[|ops| - 1];
      if TrimSpace(keyOf(op.event)) != key then before
      else if op.Handled? then before + [Stamped(op.event, op.now)]
      else if IsTerminal(op.event) then []
      else before
  }

  datatype Saved = Saved(snapshot: Snapshot, ttl: int)

  datatype Limits = Limits(runningTTL: int, terminalTTL: int, recent: int)

  function TTL(s: Snapshot, limits: Limits): int {
    if s.terminal then limits.terminalTTL else limits.runningTTL
  }

  /** What the store holds for a key: the snapshot of its events; nothing for no events, or no key. */
  predicate Keeps(store: map<string, Saved>, key: string, es: seq<Event>, limits: Limits) {
    if key == "" || es == [] then key !in store
    else key in store && store[key] == Saved(After(es, limits.recent), TTL(After(es, limits.recent), limits))
  }

  /** The store behind a snapshot sink and a cleanup sink with the same key function; nothing expires in it. */
  class Sink {
    const keyOf: Event -> string
    const limits: Limits
    var store: map<string, Saved>
    ghost var history: seq<Op>

    constructor (keyOf: Event -> string, limits: Limits)
      ensures Valid() && history == [] && store == map[] && this.keyOf == keyOf && this.limits == limits
    {
      this.keyOf, this.limits, store, history := keyOf, limits, map[], [];
    }

    ghost predicate Valid()
      reads this
    {
      forall key {:trigger Since(history, keyOf, key)} :: Keeps(store, key, Since(history, keyOf, key), limits)
    }

    method Handle(event: Event, now: int)
      requires Valid()
      modifies this
      ensures Valid() && history == old(history) + [Handled(event, now)]
    {
      hide Keeps, Applied, Since, TrimSpace, Stamped, TTL;
      ghost var before, was := store, history;
      var key := TrimSpace(keyOf(event));
      if key != "" {
        var start := if key in store then store[key].snapshot else EMPTY.(operationID := event.operationID);
        var snapshot := new Progress(start);
        snapshot.Apply(event, limits.recent, now);
        store := store[key := Saved(snapshot.Value(), TTL(snapshot.Value(), limits))];
        KeptPut(before, key, Since(was, keyOf, key), event, now, limits);
      }
      history := history + [Handled(event, now)];
      forall k ensures Keeps(store, k, Since(history, keyOf, k), limits) {
        SinceMore(was, Handled(event, now), keyOf, k);
        if k != key || key == "" {
          KeptSame(before, store, k, Since(was, keyOf, k), Since(history, keyOf, k), limits);
        }
      }
    }

    /** Deletes the snapshot of an operation that has ended. */
    method CleanUp(event: Event)
      requires Valid()
      modifies this
      ensures Valid() && history == old(history) + [CleanedUp(event)]
    {
      hide Since, TrimSpace, IsTerminal, After;
      ghost var before, was := store, history;
      var key := TrimSpace(keyOf(event));
      if IsTerminal(event) && key != "" {
        store := store - {key};
      }
      history := history + [CleanedUp(event)];
      forall k ensures Keeps(store, k, Since(history, keyOf, k), limits) {
        SinceMore(was, CleanedUp(event), keyOf, k);
        assert Keeps(before, k, Since(was, keyOf, k), limits);
      }
    }
  }

  /** An operation is cleaned up by an event of its key that ends it. */
  predicate CleansUp(op: Op, keyOf: Event -> string, key: string) {
    && op.CleanedUp? && TrimSpace(keyOf(op.event)) == key
    && (op.event.kind == "done" || op.event.kind == "failed" || op.event.kind == "canceled")
  }

  predicate KeptFrom(ops: seq<Op>, keyOf: Event -> string, key: string, i: int) {
    && 0 <= i < |ops| && ops[i].Handled? && TrimSpace(keyOf(ops[i].event)) == key
    && forall j :: i < j < |ops| ==> !CleansUp(ops[j], keyOf, key)
  }

  /** The events behind a snapshot: those handled for its key and not cleaned up since, stamped if they had no time. */
  lemma {:induction false} SinceTells(ops: seq<Op>, keyOf: Event -> string, key: string, e: Event)
    ensures e in Since(ops, keyOf, key) <==>
      exists i :: KeptFrom(ops, keyOf, key, i)
        && e == ops[i].event.(at := if ops[i].event.at == 0 then ops[i].now else ops[i].event.at)
  {
    hide TrimSpace;
    if ops != [] {
      var n := |ops| - 1;
      var front := ops[..n];
      SinceTells(front, keyOf, key, e);
      forall i | 0 <= i < n
        ensures KeptFrom(ops, keyOf, key, i) <==> KeptFrom(front, keyOf, key, i) && !CleansUp(ops[n], keyOf, key)
      {
        KeptOn(ops, keyOf, key, i);
      }
    }
  }

  lemma KeptOn(ops: seq<Op>, keyOf: Event -> string, key: string, i: nat)
    requires i < |ops| - 1
    ensures
      KeptFrom(ops, keyOf, key, i) <==>
        KeptFrom(ops[..|ops| - 1], keyOf, key, i) && !CleansUp(ops[|ops| - 1], keyOf, key)
  {
    hide TrimSpace;
  }

  /** A snapshot is kept for the longer or shorter time according to whether one of its events ended the operation. */
  lemma {:induction false} LifetimeTells(store: map<string, Saved>, key: string, es: seq<Event>, limits: Limits)
    requires Keeps(store, key, es, limits) && key != "" && es != []
    ensures key in store && store[key].snapshot == After(es, limits.recent)
    ensures store[key].ttl ==
      if exists e :: e in es && (e.kind == "done" || e.kind == "failed" || e.kind == "canceled") then limits.terminalTTL
      else limits.runningTTL
  {
    hide After, LastGiven, LastPercent, LastSubject, Latest, StepsTell, Reported;
    SnapshotSummarizes(es, limits.recent);
    assert forall i :: 0 <= i < |es| ==> es[i] in es;
  }

  lemma SinceMore(ops: seq<Op>, op: Op, keyOf: Event -> string, key: string)
    ensures Since(ops + [op], keyOf, key) ==
      var before := Since(ops, keyOf, key);
      if TrimSpace(keyOf(op.event)) != key then before
      else if op.Handled? then before + [Stamped(op.event, op.now)]
      else if IsTerminal(op.event) then []
      else before
  {
    hide TrimSpace;
    assert (ops + [op])[..|ops|] == ops;
  }

  lemma KeptSame(
    before: map<string, Saved>, after: map<string, Saved>, k: string, es: seq<Event>, more: seq<Event>, limits: Limits)
    requires Keeps(before, k, es, limits) && (es == more || k == "")
    requires (k in after <==> k in before) && (k in after ==> after[k] == before[k])
    ensures Keeps(after, k, more, limits)
  {
    hide After, TTL;
  }

  lemma {:induction false} KeptPut(
    before: map<string, Saved>, key: string, es: seq<Event>, event: Event, now: int, limits: Limits)
    requires Keeps(before, key, es, limits) && key != ""
    ensures
      var start := if key in before then before[key].snapshot else EMPTY.(operationID := event.operationID);
      var next := Applied(start, Stamped(event, now), limits.recent);
      Keeps(before[key := Saved(next, TTL(next, limits))], key, es + [Stamped(event, now)], limits)
  {
    hide TTL, Applied, After;
    AfterMore(es, Stamped(event, now), limits.recent);
    FirstApplied(Stamped(event, now), limits.recent);
    AfterNone(limits.recent);
  }

  lemma AfterNone(limit: int)
    ensures After([], limit) == EMPTY
  {
  }

  lemma AfterMore(es: seq<Event>, e: Event, limit: int)
    ensures After(es + [e], limit) == Applied(After(es, limit), e, limit)
  {
    hide Applied;
    assert (es + [e])[..|es|] == es;
  }

  /** A new snapshot that starts with the operation's id is one that starts empty. */
  lemma FirstApplied(e: Event, limit: int)
    ensures Applied(EMPTY.(operationID := e.operationID), e, limit) == Applied(EMPTY, e, limit)
  {
    hide StepKey, PutStep, StepOf, Trimmed, IsTerminal;
  }

  // ----------------------------------------------------- a history has one summary

  lemma KeyNotEarlier(rs: seq<Step>, a: seq<Step>, b: seq<Step>, n: nat, i: nat)
    requires StepsTell(rs, a) && n < |a| && n <= |b| && a[..n] == b[..n]
    requires i < |b| && b[i].key == a[n].key
    ensures n <= i
  {
    hide FirstSeen, LastSeen, HasKey;
    assert forall k :: 0 <= k < n ==> b[..n][k] == b[k] && a[..n][k] == a[k];
  }

  lemma NextNotLater(rs: seq<Step>, a: seq<Step>, b: seq<Step>, n: nat)
    requires StepsTell(rs, a) && StepsTell(rs, b)
    requires n < |a| && n <= |b| && a[..n] == b[..n]
    ensures n < |b| && FirstSeen(rs, b[n].key) <= FirstSeen(rs, a[n].key)
  {
    hide FirstSeen, LastSeen, StepsTell;
    var i := SameKey(rs, a, b, n);
    KeyNotEarlier(rs, a, b, n, i);
    KeysInOrder(rs, b, n, i);
  }

  /** A key in one account of a history is in every other. */
  lemma SameKey(rs: seq<Step>, a: seq<Step>, b: seq<Step>, n: nat) returns (i: nat)
    requires StepsTell(rs, a) && StepsTell(rs, b) && n < |a|
    ensures i < |b| && b[i].key == a[n].key
  {
    hide FirstSeen, LastSeen;
    assert HasKey(b, rs[LastSeen(rs, a[n].key)].key);
    i :| i < |b| && b[i].key == a[n].key;
  }

  lemma KeysInOrder(rs: seq<Step>, steps: seq<Step>, i: nat, j: nat)
    requires StepsTell(rs, steps) && i <= j < |steps|
    ensures FirstSeen(rs, steps[i].key) <= FirstSeen(rs, steps[j].key)
  {
    hide FirstSeen, LastSeen, HasKey;
  }

  lemma NextStep(rs: seq<Step>, a: seq<Step>, b: seq<Step>, n: nat)
    requires StepsTell(rs, a) && StepsTell(rs, b)
    requires n < |a| && n <= |b| && a[..n] == b[..n]
    ensures n < |b| && a[n] == b[n]
  {
    hide FirstSeen, LastSeen, HasKey;
    NextNotLater(rs, a, b, n);
    NextNotLater(rs, b, a, n);
    SeenMore(rs, a[n], a[n].key);
    assert a[n].key == rs[FirstSeen(rs, a[n].key)].key == b[n].key;
  }

  lemma {:induction false} StepsUnique(rs: seq<Step>, a: seq<Step>, b: seq<Step>)
    requires StepsTell(rs, a) && StepsTell(rs, b)
    ensures a == b
  {
    hide StepsTell;
    StepsWithin(rs, a, b);
    StepsWithin(rs, b, a);
  }

  lemma {:induction false} StepsWithin(rs: seq<Step>, a: seq<Step>, b: seq<Step>)
    requires StepsTell(rs, a) && StepsTell(rs, b)
    ensures |a| <= |b| && a == b[..|a|]
  {
    hide StepsTell;
    for n := 0 to |a|
      invariant n <= |b| && a[..n] == b[..n]
    {
      NextStep(rs, a, b, n);
    }
  }

  lemma GivenUnique(es: seq<Event>, f: Field, a: string, b: string)
    requires LastGiven(es, f, a) && LastGiven(es, f, b)
    ensures a == b
  {
    hide FieldOf;
  }

  lemma PercentUnique(es: seq<Event>, a: int, b: int)
    requires LastPercent(es, a) && LastPercent(es, b)
    ensures a == b
  {
  }

  lemma SubjectUnique(es: seq<Event>, a: map<string, string>, b: map<string, string>)
    requires LastSubject(es, a) && LastSubject(es, b)
    ensures a == b
  {
  }

  /** The snapshot is exactly what its history determines. */
  lemma {:induction false} OneSummary(es: seq<Event>, limit: int, s: Snapshot)
    ensures Summarizes(es, limit, s) <==> s == After(es, limit)
  {
    hide LastGiven, LastPercent, LastSubject, StepsTell, After, IsTerminal, Shown, FieldOf;
    SnapshotSummarizes(es, limit);
    if Summarizes(es, limit, s) {
      var t := After(es, limit);
      forall f ensures Shown(s, f) == Shown(t, f) {
        GivenUnique(es, f, Shown(s, f), Shown(t, f));
      }
      PercentUnique(es, s.percent, t.percent);
      SubjectUnique(es, s.subject, t.subject);
      StepsUnique(Reported(es), s.steps, t.steps);
      SameSnapshot(s, t);
    }
  }

  lemma SameSnapshot(s: Snapshot, t: Snapshot)
    requires forall f :: Shown(s, f) == Shown(t, f)
    requires s.percent == t.percent && s.subject == t.subject && s.terminal == t.terminal && s.updatedAt == t.updatedAt
    requires s.steps == t.steps && s.recent == t.recent
    ensures s == t
  {
    assert Shown(s, OperationID) == Shown(t, OperationID) && Shown(s, OperationType) == Shown(t, OperationType);
    assert Shown(s, Domain) == Shown(t, Domain) && Shown(s, RefID) == Shown(t, RefID);
    assert Shown(s, StepName) == Shown(t, StepName) && Shown(s, Status) == Shown(t, Status);
    assert Shown(s, Message) == Shown(t, Message);
  }
}
