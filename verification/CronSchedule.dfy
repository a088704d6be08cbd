/** Reloading a cron schedule only when the printed jobs changed. */
module CronSchedule {
  import opened Prelude
  import opened Text

  datatype Job = Job(
    id: string, name: string, spec: string, source: string, mode: string, queue: string, taskType: string,
    lockKey: string, timeout: int, enabled: bool, payload: string)

  const LF := '\n'

  // ---------------------------------------------------------------- decimals

  function DigitOf(d: nat): char
    requires d < 10
  {
    '0' + d as char
  }

  function DecimalNat(n: nat): (s: string)
    ensures s != "" && forall c :: c in s ==> '0' <= c <= '9'
  {
    if n < 10 then [DigitOf(n)] else DecimalNat(n / 10) + [DigitOf(n % 10)]
  }

  /** `%d`. */
  function Decimal(n: int): (s: string)
    ensures forall c :: c in s ==> '0' <= c <= '9' || c == '-'
  {
    if n < 0 then "-" + DecimalNat(-n) else DecimalNat(n)
  }

  lemma {:induction false} DecimalNatTellsApart(m: nat, n: nat)
    requires DecimalNat(m) == DecimalNat(n)
    ensures m == n
  {
    var s := DecimalNat(m);
    assert s[|s| - 1] == DigitOf(m % 10) == DigitOf(n % 10);
    if m >= 10 && n >= 10 {
      assert DecimalNat(m / 10) == s[..|s| - 1] == DecimalNat(n / 10);
      DecimalNatTellsApart(m / 10, n / 10);
    }
  }

  lemma {:induction false} DecimalTellsApart(m: int, n: int)
    requires Decimal(m) == Decimal(n)
    ensures m == n
  {
    if m < 0 && n < 0 {
      assert Decimal(m)[1..] == DecimalNat(-m) && Decimal(n)[1..] == DecimalNat(-n);
      DecimalNatTellsApart(-m, -n);
    } else if m >= 0 && n >= 0 {
      DecimalNatTellsApart(m, n);
    } else {
      var p := if m < 0 then n else m;
      assert Decimal(m)[0] == '-' && DecimalNat(p)[0] in DecimalNat(p);
      assert false;
    }
  }

  // --------------------------------------------------------------- signatures

  /** The fields a job is printed with. */
  datatype Printed = Printed(
    id: string, name: string, spec: string, source: string, mode: string, queue: string, taskType: string,
    lockKey: string, timeout: int)

  function PrintedOf(j: Job): Printed {
    Printed(j.id, j.name, j.spec, j.source, j.mode, j.queue, j.taskType, j.lockKey, j.timeout)
  }

  predicate Runs(j: Job) {
    j.enabled && j.spec != ""
  }

  function Tail(p: Printed): string {
    p.taskType + [NUL] + (p.lockKey + [NUL] + (Decimal(p.timeout) + [LF]))
  }

  function Line(p: Printed): string {
    p.id + [NUL] + (p.name + [NUL] + (p.spec + [NUL] + (p.source + [NUL] + (p.mode + [NUL] + (p.queue + [NUL] + Tail(p))))))
  }

  function PrintedJobs(jobs: seq<Job>): seq<Printed> {
    if jobs == [] then []
    else PrintedJobs(jobs[..|jobs| - 1]) + (if Runs(jobs[|jobs| - 1]) then [PrintedOf(jobs[|jobs| - 1])] else [])
  }

  function Lines(ps: seq<Printed>): string {
    if ps == [] then "" else Line(ps[0]) + Lines(ps[1..])
  }

  function Signature(jobs: seq<Job>): string {
    Lines(PrintedJobs(jobs))
  }

  lemma {:induction false} LinesAppend(ps: seq<Printed>, p: Printed)
    ensures Lines(ps + [p]) == Lines(ps) + Line(p)
  {
    if ps == [] {
      assert ps + [p] == [p] && [p][1..] == [];
      assert Line(p) + "" == "" + Line(p);
    } else {
      assert (ps + [p])[1..] == ps[1..] + [p];
      LinesAppend(ps[1..], p);
      assert Line(ps[0]) + (Lines(ps[1..]) + Line(p)) == Line(ps[0]) + Lines(ps[1..]) + Line(p);
    }
  }

  method JobsSignature(jobs: seq<Job>) returns (b: string)
    ensures b == Signature(jobs)
  {
    b := "";
    for i := 0 to |jobs|
      invariant b == Signature(jobs[..i])
    {
      assert jobs[..i + 1][..i] == jobs[..i];
      var job := jobs[i];
      if !job.enabled || job.spec == "" {
        assert PrintedJobs(jobs[..i + 1]) == PrintedJobs(jobs[..i]);
        continue;
      }
      LinesAppend(PrintedJobs(jobs[..i]), PrintedOf(job));
      b := b + Line(PrintedOf(job));
    }
    assert jobs[..|jobs|] == jobs;
  }

  predicate NoNul(p: Printed) {
    && NUL !in p.id && NUL !in p.name && NUL !in p.spec && NUL !in p.source && NUL !in p.mode
    && NUL !in p.queue && NUL !in p.taskType && NUL !in p.lockKey
  }

  predicate AllNoNul(ps: seq<Printed>) {
    forall p :: p in ps ==> NoNul(p)
  }

  /** Concatenation is associative, one field at a time. */
  lemma Regroup(field: string, sep: char, rest: string, more: string)
    ensures field + [sep] + rest + more == field + [sep] + (rest + more)
  {
  }

  lemma {:induction false} TailTellsApart(p: Printed, q: Printed, s: string, t: string)
    requires NoNul(p) && NoNul(q) && Tail(p) + s == Tail(q) + t
    ensures p.taskType == q.taskType && p.lockKey == q.lockKey && p.timeout == q.timeout && s == t
  {
    hide Decimal;
    var dp, dq := Decimal(p.timeout), Decimal(q.timeout);
    Regroup(p.taskType, NUL, p.lockKey + [NUL] + (dp + [LF]), s);
    Regroup(q.taskType, NUL, q.lockKey + [NUL] + (dq + [LF]), t);
    FirstField(p.taskType, p.lockKey + [NUL] + (dp + [LF]) + s, q.taskType, q.lockKey + [NUL] + (dq + [LF]) + t, NUL);
    Regroup(p.lockKey, NUL, dp + [LF], s);
    Regroup(q.lockKey, NUL, dq + [LF], t);
    FirstField(p.lockKey, dp + [LF] + s, q.lockKey, dq + [LF] + t, NUL);
    assert LF !in dp && LF !in dq;
    FirstField(dp, s, dq, t, LF);
    DecimalTellsApart(p.timeout, q.timeout);
  }

  /** The first line can be told from whatever follows it. */
  lemma {:induction false} LineTellsApart(p: Printed, q: Printed, s: string, t: string)
    requires NoNul(p) && NoNul(q) && Line(p) + s == Line(q) + t
    ensures p == q && s == t
  {
    hide Tail;
    var p6, q6 := p.queue + [NUL] + Tail(p), q.queue + [NUL] + Tail(q);
    var p5, q5 := p.mode + [NUL] + p6, q.mode + [NUL] + q6;
    var p4, q4 := p.source + [NUL] + p5, q.source + [NUL] + q5;
    var p3, q3 := p.spec + [NUL] + p4, q.spec + [NUL] + q4;
    var p2, q2 := p.name + [NUL] + p3, q.name + [NUL] + q3;
    PeelField(p.id, p2, s, q.id, q2, t);
    PeelField(p.name, p3, s, q.name, q3, t);
    PeelField(p.spec, p4, s, q.spec, q4, t);
    PeelField(p.source, p5, s, q.source, q5, t);
    PeelField(p.mode, p6, s, q.mode, q6, t);
    PeelField(p.queue, Tail(p), s, q.queue, Tail(q), t);
    TailTellsApart(p, q, s, t);
  }

  lemma {:induction false} PeelField(a: string, rest: string, s: string, a': string, rest': string, t: string)
    requires NUL !in a && NUL !in a' && a + [NUL] + rest + s == a' + [NUL] + rest' + t
    ensures a == a' && rest + s == rest' + t
  {
    Regroup(a, NUL, rest, s);
    Regroup(a', NUL, rest', t);
    FirstField(a, rest + s, a', rest' + t, NUL);
  }

  lemma {:induction false} LinesTellApart(ps: seq<Printed>, qs: seq<Printed>)
    requires AllNoNul(ps) && AllNoNul(qs) && Lines(ps) == Lines(qs)
    ensures ps == qs
  {
    hide Line, NoNul;
    if ps == [] || qs == [] {
      if ps != [] { LineNotEmpty(ps[0]); }
      if qs != [] { LineNotEmpty(qs[0]); }
    } else {
      assert ps[0] in ps && qs[0] in qs;
      LineTellsApart(ps[0], qs[0], Lines(ps[1..]), Lines(qs[1..]));
      LinesTellApart(ps[1..], qs[1..]);
    }
  }

  lemma LineNotEmpty(p: Printed)
    ensures Line(p) != ""
  {
  }

  /** Without NUL characters, the signature tells any two schedules apart by their printed fields. */
  lemma {:induction false} SignatureTellsApart(a: seq<Job>, b: seq<Job>)
    requires AllNoNul(PrintedJobs(a)) && AllNoNul(PrintedJobs(b))
    ensures Signature(a) == Signature(b) <==> PrintedJobs(a) == PrintedJobs(b)
  {
    if Signature(a) == Signature(b) {
      LinesTellApart(PrintedJobs(a), PrintedJobs(b));
    }
  }

  // ------------------------------------------------- schedules with a double

  /** A printed job that some schedule can have: jobs without a spec are not printed. */
  predicate HasSpec(p: Printed) {
    p.spec != ""
  }

  predicate AllHaveSpecs(ps: seq<Printed>) {
    forall p :: p in ps ==> HasSpec(p)
  }

  /** NUL-free but for the spec. */
  predicate PlainAround(p: Printed) {
    NoNul(p.(spec := ""))
  }

  /** What follows the spec in a line. */
  function Behind(p: Printed): string {
    p.source + [NUL] + (p.mode + [NUL] + (p.queue + [NUL] + Tail(p)))
  }

  lemma LineParts(p: Printed)
    ensures Line(p) == p.id + [NUL] + (p.name + [NUL] + (p.spec + [NUL] + Behind(p)))
  {
  }

  lemma {:induction false} DoubleInFront(p: Printed) returns (q: Printed)
    requires NUL in p.id || NUL in p.name
    ensures q != p && Line(q) == Line(p) && q.spec == p.spec && q.timeout == p.timeout
  {
    hide Line, Tail;
    LineParts(p);
    var rest := p.spec + [NUL] + Behind(p);
    if NUL in p.id {
      var u, v := CutAtNul(p.id);
      q := p.(id := u, name := v + [NUL] + p.name);
      assert Behind(q) == Behind(p) by { SameBehind(p, q); }
      LineParts(q);
      MoveBoundary(u, v, p.name, rest);
    } else {
      var u, v := CutAtNul(p.name);
      q := p.(id := p.id + [NUL] + u, name := v);
      assert Behind(q) == Behind(p) by { SameBehind(p, q); }
      LineParts(q);
      MoveBoundary(p.id, u, v, rest);
      assert |q.name| < |p.name|;
    }
  }

  lemma SameBehind(p: Printed, q: Printed)
    requires q == p.(id := q.id, name := q.name, spec := q.spec)
    ensures Behind(q) == Behind(p)
  {
  }

  lemma {:induction false} DoubleBehind(p: Printed) returns (q: Printed)
    requires NUL in p.source || NUL in p.mode || NUL in p.queue || NUL in p.taskType || NUL in p.lockKey
    ensures q != p && Line(q) == Line(p) && q.spec == p.spec && q.timeout == p.timeout
  {
    hide Line, Decimal;
    var end := Decimal(p.timeout) + [LF];
    if NUL in p.source {
      var u, v := CutAtNul(p.source);
      q := p.(source := u, mode := v + [NUL] + p.mode);
      MoveBoundary(u, v, p.mode, p.queue + [NUL] + Tail(p));
    } else if NUL in p.mode {
      var u, v := CutAtNul(p.mode);
      q := p.(mode := u, queue := v + [NUL] + p.queue);
      MoveBoundary(u, v, p.queue, Tail(p));
    } else if NUL in p.queue {
      var u, v := CutAtNul(p.queue);
      q := p.(queue := u, taskType := v + [NUL] + p.taskType);
      MoveBoundary(u, v, p.taskType, p.lockKey + [NUL] + end);
    } else if NUL in p.taskType {
      var u, v := CutAtNul(p.taskType);
      q := p.(taskType := u, lockKey := v + [NUL] + p.lockKey);
      MoveBoundary(u, v, p.lockKey, end);
    } else {
      var u, v := CutAtNul(p.lockKey);
      q := p.(taskType := p.taskType + [NUL] + u, lockKey := v);
      MoveBoundary(p.taskType, u, v, end);
      assert |q.lockKey| < |p.lockKey|;
    }
    assert Behind(q) == Behind(p);
    LineParts(p);
    LineParts(q);
  }

  /** A printed job with a NUL outside its spec has a double with the same spec. */
  lemma {:induction false} Double(p: Printed) returns (q: Printed)
    requires !PlainAround(p)
    ensures q != p && Line(q) == Line(p) && q.spec == p.spec && q.timeout == p.timeout
  {
    if NUL in p.id || NUL in p.name {
      q := DoubleInFront(p);
    } else {
      q := DoubleBehind(p);
    }
  }

  /** A spec with a NUL and something else around it can give up the part before or after the NUL. */
  lemma {:induction false} SpecDouble(p: Printed) returns (q: Printed)
    requires NUL in p.spec && p.spec != [NUL]
    ensures q != p && Line(q) == Line(p) && HasSpec(q)
  {
    hide Line;
    var u, v := CutAtNul(p.spec);
    LineParts(p);
    if v != "" {
      q := p.(id := p.id + [NUL] + p.name, name := u, spec := v);
      assert Behind(q) == Behind(p) by { SameBehind(p, q); }
      LineParts(q);
      MoveBoundary(p.name, u, v, Behind(p));
      MoveBoundary(p.id, p.name, u, v + [NUL] + Behind(p));
      assert |v| < |p.spec|;
    } else {
      var rest := p.mode + [NUL] + (p.queue + [NUL] + Tail(p));
      q := p.(spec := u, source := v + [NUL] + p.source);
      LineParts(q);
      MoveBoundary(u, v, p.source, rest);
      assert Behind(p) == p.source + [NUL] + rest && Behind(q) == q.source + [NUL] + rest;
      assert |u| < |p.spec|;
    }
  }

  /** Any two lines are also one: the first may stand in front of the second's id. */
  lemma {:induction false} TwoLinesAreOne(p: Printed, q: Printed)
    ensures Line(p) + Line(q) == Line(q.(id := Line(p) + q.id))
  {
    hide Line, Tail;
    var merged := q.(id := Line(p) + q.id);
    SameBehind(q, merged);
    LineParts(q);
    LineParts(merged);
    var rest := q.name + [NUL] + (q.spec + [NUL] + Behind(q));
    assert Line(p) + (q.id + [NUL] + rest) == (Line(p) + q.id) + [NUL] + rest;
  }

  // ------------------------------------------- schedules without a double

  function InnerNuls(p: Printed): nat {
    Nuls(p.id) + Nuls(p.name) + Nuls(p.spec) + Nuls(p.source) + Nuls(p.mode) + Nuls(p.queue) + Nuls(p.taskType)
    + Nuls(p.lockKey)
  }

  lemma {:induction false} NulsLine(p: Printed)
    ensures Nuls(Line(p)) == InnerNuls(p) + 8
  {
    hide Nuls, Decimal;
    var end := Decimal(p.timeout) + [LF];
    NoNuls(end);
    assert NUL !in end;
    NulsField(p.lockKey, end);
    NulsField(p.taskType, p.lockKey + [NUL] + end);
    NulsField(p.queue, Tail(p));
    NulsField(p.mode, p.queue + [NUL] + Tail(p));
    NulsField(p.source, p.mode + [NUL] + (p.queue + [NUL] + Tail(p)));
    LineParts(p);
    NulsField(p.spec, Behind(p));
    NulsField(p.name, p.spec + [NUL] + Behind(p));
    NulsField(p.id, p.name + [NUL] + (p.spec + [NUL] + Behind(p)));
  }

  lemma {:induction false} NulsLines(ps: seq<Printed>)
    ensures Nuls(Lines(ps)) >= 8 * |ps|
  {
    hide Line, InnerNuls;
    if ps != [] {
      NulsLines(ps[1..]);
      NulsLine(ps[0]);
      NulsConcat(Line(ps[0]), Lines(ps[1..]));
    }
  }

  lemma {:induction false} OneLineOnly(p: Printed, qs: seq<Printed>)
    requires InnerNuls(p) < 8 && Lines(qs) == Line(p)
    ensures |qs| == 1 && Line(qs[0]) == Line(p) && InnerNuls(qs[0]) == InnerNuls(p)
  {
    hide Line, InnerNuls, Nuls;
    NulsLine(p);
    NulsLines(qs);
    LineNotEmpty(p);
    assert |qs| == 1;
    assert qs[1..] == [] && Lines(qs[1..]) == "";
    assert Line(qs[0]) + "" == Line(qs[0]);
    NulsLine(qs[0]);
  }

  lemma {:induction false} PlainIsAlone(p: Printed, q: Printed)
    requires NoNul(p) && Line(q) == Line(p) && InnerNuls(q) == InnerNuls(p)
    ensures q == p
  {
    hide Line;
    FieldNuls(p);
    FieldNuls(q);
    assert Line(p) + "" == Line(p);
    LineTellsApart(p, q, "", "");
  }

  lemma FieldNuls(p: Printed)
    ensures NoNul(p) <==> InnerNuls(p) == 0
  {
    hide Nuls;
    NoNuls(p.id);
    NoNuls(p.name);
    NoNuls(p.spec);
    NoNuls(p.source);
    NoNuls(p.mode);
    NoNuls(p.queue);
    NoNuls(p.taskType);
    NoNuls(p.lockKey);
  }

  /** A spec that is one NUL cannot move: on either side of it there would be no spec left. */
  lemma {:induction false} LoneNulIsAlone(p: Printed, q: Printed)
    requires PlainAround(p) && p.spec == [NUL]
    requires Line(q) == Line(p) && InnerNuls(q) == InnerNuls(p) && HasSpec(q)
    ensures q == p
  {
    hide Line, Nuls, Behind, NoNul;
    LineParts(p);
    LineParts(q);
    FieldNuls(p.(spec := ""));
    FieldNuls(q.(spec := ""));
    SpecNuls(p);
    SpecNuls(q);
    NulOfOne();
    NoNuls(q.spec);
    NoNuls(q.id);
    NoNuls(q.name);
    LoneNulFront(p, q);
    var x, y := p.(spec := ""), q.(spec := "");
    SameBehind(p, x);
    SameBehind(q, y);
    LineParts(x);
    LineParts(y);
    assert Line(x) + "" == Line(x) && Line(y) + "" == Line(y);
    LineTellsApart(x, y, "", "");
  }

  lemma NulOfOne()
    ensures Nuls([NUL]) == 1 && Nuls("") == 0
  {
    assert [NUL][1..] == "";
  }

  lemma SpecNuls(p: Printed)
    ensures InnerNuls(p) == InnerNuls(p.(spec := "")) + Nuls(p.spec)
  {
  }

  /** The first four pieces of the line decide that the spec is the lone NUL. */
  lemma {:induction false} LoneNulFront(p: Printed, q: Printed)
    requires NoNul(p.(spec := "")) && p.spec == [NUL] && q.spec != ""
    requires p.id + [NUL] + (p.name + [NUL] + ([NUL] + [NUL] + Behind(p))) ==
      q.id + [NUL] + (q.name + [NUL] + (q.spec + [NUL] + Behind(q)))
    requires Nuls(q.id) + Nuls(q.name) + Nuls(q.spec) <= 1
    ensures q.id == p.id && q.name == p.name && q.spec == [NUL] && Behind(q) == Behind(p)
  {
    hide Nuls, Behind;
    NoNuls(q.id);
    NoNuls(q.name);
    NoNuls(q.spec);
    var behind := q.spec + [NUL] + Behind(q);
    assert p.name + [NUL] + ([NUL] + [NUL] + Behind(p)) == p.name + [NUL] + ("" + [NUL] + ("" + [NUL] + Behind(p)));
    if NUL in q.id {
      var u, v := CutOnce(q.id);
      assert q.id + [NUL] + (q.name + [NUL] + behind) == u + [NUL] + (v + [NUL] + (q.name + [NUL] + behind));
      var after := p.name + [NUL] + ("" + [NUL] + ("" + [NUL] + Behind(p)));
      FirstField(p.id, after, u, v + [NUL] + (q.name + [NUL] + behind), NUL);
      FirstField(p.name, "" + [NUL] + ("" + [NUL] + Behind(p)), v, q.name + [NUL] + behind, NUL);
      FirstField("", "" + [NUL] + Behind(p), q.name, behind, NUL);
      FirstField("", Behind(p), q.spec, Behind(q), NUL);
      assert false;
    }
    FirstField(p.id, p.name + [NUL] + ("" + [NUL] + ("" + [NUL] + Behind(p))), q.id, q.name + [NUL] + behind, NUL);
    if NUL in q.name {
      var u, v := CutOnce(q.name);
      assert q.name + [NUL] + behind == u + [NUL] + (v + [NUL] + behind);
      FirstField(p.name, "" + [NUL] + ("" + [NUL] + Behind(p)), u, v + [NUL] + behind, NUL);
      FirstField("", "" + [NUL] + Behind(p), v, behind, NUL);
      FirstField("", Behind(p), q.spec, Behind(q), NUL);
      assert false;
    }
    FirstField(p.name, "" + [NUL] + ("" + [NUL] + Behind(p)), q.name, behind, NUL);
    LoneNulSpec(Behind(p), q.spec, Behind(q));
  }

  lemma {:induction false} CutOnce(s: string) returns (u: string, v: string)
    requires NUL in s && Nuls(s) <= 1
    ensures s == u + [NUL] + v && NUL !in u && NUL !in v
  {
    hide Nuls;
    u, v := CutAtNul(s);
    NulsField(u, v);
    NoNuls(v);
  }

  lemma {:induction false} LoneNulSpec(rest: string, spec: string, behind: string)
    requires "" + [NUL] + ("" + [NUL] + rest) == spec + [NUL] + behind && spec != "" && Nuls(spec) <= 1
    ensures spec == [NUL] && behind == rest
  {
    hide Nuls;
    if NUL in spec {
      var u, v := CutOnce(spec);
      assert spec + [NUL] + behind == u + [NUL] + (v + [NUL] + behind);
      FirstField("", "" + [NUL] + rest, u, v + [NUL] + behind, NUL);
      FirstField("", rest, v, behind, NUL);
      assert spec == "" + [NUL] + "";
    } else {
      FirstField("", "" + [NUL] + rest, spec, behind, NUL);
      assert false;
    }
  }

  // ------------------------------------------------------------ the exact condition

  /** A printed schedule that no other shares its signature with. */
  ghost predicate Alone(ps: seq<Printed>) {
    forall qs :: AllHaveSpecs(qs) && Lines(qs) == Lines(ps) ==> qs == ps
  }

  predicate AtMostOnePlain(ps: seq<Printed>) {
    ps == [] || (|ps| == 1 && (NoNul(ps[0]) || (PlainAround(ps[0]) && ps[0].spec == [NUL])))
  }

  lemma {:induction false} LinesOfOne(p: Printed)
    ensures Lines([p]) == Line(p)
  {
    hide Line;
    assert [p][1..] == [] && Line(p) + "" == Line(p);
  }

  /** Two lines or more are also one line less, with the specs of the others. */
  lemma {:induction false} MergeFirstTwo(ps: seq<Printed>) returns (qs: seq<Printed>)
    requires |ps| >= 2 && AllHaveSpecs(ps)
    ensures |qs| == |ps| - 1 && Lines(qs) == Lines(ps)
    ensures forall q :: q in qs ==> exists p :: p in ps && p.spec == q.spec
  {
    hide Line;
    var merged := ps[1].(id := Line(ps[0]) + ps[1].id);
    qs := [merged] + ps[2..];
    TwoLinesAreOne(ps[0], ps[1]);
    assert qs[1..] == ps[2..] && ps[1..][1..] == ps[2..];
    assert Line(ps[0]) + (Line(ps[1]) + Lines(ps[2..])) == Line(merged) + Lines(ps[2..]);
    forall q | q in qs ensures exists p :: p in ps && p.spec == q.spec {
      if q == merged {
        assert ps[1] in ps;
      }
    }
  }

  /** Every schedule but one of no or one plain job has a double; outside specs the double keeps the specs. */
  lemma {:induction false} ScheduleDouble(ps: seq<Printed>) returns (qs: seq<Printed>)
    requires AllHaveSpecs(ps) && !AtMostOnePlain(ps)
    ensures AllHaveSpecs(qs) && qs != ps && Lines(qs) == Lines(ps)
    ensures (forall p :: p in ps ==> NUL !in p.spec) ==> forall q :: q in qs ==> exists p :: p in ps && p.spec == q.spec
  {
    hide Line, NoNul;
    if |ps| >= 2 {
      qs := MergeFirstTwo(ps);
      forall q | q in qs ensures HasSpec(q) {
        var p :| p in ps && p.spec == q.spec;
      }
    } else {
      assert ps == [ps[0]] && ps[0] in ps;
      var q;
      if !PlainAround(ps[0]) {
        q := Double(ps[0]);
      } else {
        SpecOrPlain(ps[0]);
        q := SpecDouble(ps[0]);
      }
      qs := [q];
      LinesOfOne(ps[0]);
      LinesOfOne(q);
    }
  }

  /** A double of one job makes a double of its schedule. */
  lemma {:induction false} DoubleInPlace(ps: seq<Printed>, i: nat) returns (qs: seq<Printed>)
    requires i < |ps| && !PlainAround(ps[i])
    ensures |qs| == |ps| && qs != ps && Lines(qs) == Lines(ps)
    ensures forall k :: 0 <= k < |ps| ==> qs[k].spec == ps[k].spec && qs[k].timeout == ps[k].timeout
  {
    hide Line, PlainAround;
    if i == 0 {
      var q := Double(ps[0]);
      qs := [q] + ps[1..];
      assert qs[1..] == ps[1..] && qs[0] != ps[0];
    } else {
      var rest := DoubleInPlace(ps[1..], i - 1);
      qs := [ps[0]] + rest;
      assert qs[1..] == rest;
    }
  }

  lemma SpecOrPlain(p: Printed)
    requires PlainAround(p) && !NoNul(p)
    ensures NUL in p.spec
  {
  }

  /**
   * No other schedule shares a schedule's signature exactly when it prints no job, or one job without NUL
   * characters (or with a single NUL for a spec).
   */
  lemma {:induction false} AloneIff(ps: seq<Printed>)
    requires AllHaveSpecs(ps)
    ensures Alone(ps) <==> AtMostOnePlain(ps)
  {
    hide Line, InnerNuls, NoNul;
    if !AtMostOnePlain(ps) {
      var qs := ScheduleDouble(ps);
    } else {
      forall qs | AllHaveSpecs(qs) && Lines(qs) == Lines(ps) ensures qs == ps {
        if ps == [] {
          if qs != [] { LineNotEmpty(qs[0]); }
        } else {
          assert ps == [ps[0]];
          LinesOfOne(ps[0]);
          FewNuls(ps[0]);
          OneLineOnly(ps[0], qs);
          assert qs[0] in qs && qs == [qs[0]] && ps == [ps[0]];
          if NoNul(ps[0]) {
            PlainIsAlone(ps[0], qs[0]);
          } else {
            LoneNulIsAlone(ps[0], qs[0]);
          }
        }
      }
    }
  }

  lemma FewNuls(p: Printed)
    requires NoNul(p) || (PlainAround(p) && p.spec == [NUL])
    ensures InnerNuls(p) < 8
  {
    hide Nuls;
    FieldNuls(p);
    FieldNuls(p.(spec := ""));
    SpecNuls(p);
    NulOfOne();
  }

  // ---------------------------------------------------------------- scheduler

  /** One cron engine: the jobs it was given, and whether it is running them. */
  class Cron {
    const entries: seq<Job>
    var started: bool

    constructor (jobs: seq<Job>)
      ensures entries == jobs && !started
    {
      entries, started := jobs, false;
    }
  }

  function Installable(jobs: seq<Job>): (r: seq<Job>)
    ensures forall j :: j in r <==> j in jobs && Runs(j)
  {
    if jobs == [] then []
    else Installable(jobs[..|jobs| - 1]) + (if Runs(jobs[|jobs| - 1]) then [jobs[|jobs| - 1]] else [])
  }

  predicate AllParse(jobs: seq<Job>, valid: string -> bool) {
    forall j :: j in jobs && Runs(j) ==> valid(j.spec)
  }

  lemma ParseNone(valid: string -> bool)
    ensures AllParse([], valid)
  {
  }

  lemma ParseStep(jobs: seq<Job>, i: nat, valid: string -> bool)
    requires i < |jobs|
    ensures AllParse(jobs[..i + 1], valid) <==> AllParse(jobs[..i], valid) && (Runs(jobs[i]) ==> valid(jobs[i].spec))
    ensures Runs(jobs[i]) && !valid(jobs[i].spec) ==> !AllParse(jobs, valid)
  {
    assert jobs[..i + 1] == jobs[..i] + [jobs[i]];
  }

  datatype Op = Start | Stop | Reload(jobs: seq<Job>)

  /** What a scheduler is, as a value: the installed jobs, and whether they run. */
  datatype State = State(installed: Option<seq<Job>>, running: bool, signature: string)

  const IDLE := State(None, false, "")

  predicate Unchanged(s: State, jobs: seq<Job>) {
    s.installed.Some? && Signature(jobs) == s.signature
  }

  predicate Accepts(s: State, jobs: seq<Job>, valid: string -> bool) {
    Unchanged(s, jobs) || AllParse(jobs, valid)
  }

  function After(s: State, op: Op, valid: string -> bool): State {
    match op
    case Start => s.(running := s.running || s.installed.Some?)
    case Stop => s.(running := false)
    case Reload(jobs) =>
      if Unchanged(s, jobs) || !AllParse(jobs, valid) then s
      else State(Some(Installable(jobs)), s.running, Signature(jobs))
  }

  function Ran(ops: seq<Op>, valid: string -> bool): State {
    if ops == [] then IDLE else After(Ran(ops[..|ops| - 1], valid), ops[|ops| - 1], valid)
  }

  class Scheduler {
    const validSpec: string -> bool
    var cron: Cron?
    var running: bool
    var signature: string
    ghost var history: seq<Op>
    ghost var replaced: set<Cron>

    constructor (valid: string -> bool)
      ensures Valid() && validSpec == valid && history == [] && replaced == {}
    {
      validSpec, cron, running, signature, history, replaced := valid, null, false, "", [], {};
    }

    ghost function Value(): State
      reads this
    {
      State(if cron == null then None else Some(cron.entries), running, signature)
    }

    /** The scheduler is what its history makes it; only the installed engine may be running. */
    ghost predicate Valid()
      reads this, cron, replaced
    {
      && Value() == Ran(history, validSpec)
      && (cron == null ==> !running)
      && (cron != null ==> cron !in replaced && cron.started == running)
      && (forall c :: c in replaced ==> !c.started)
    }

    method Start()
      requires Valid()
      modifies `running, `history, cron
      ensures Valid() && history == old(history) + [Op.Start]
      ensures if cron == null then !running else running && cron.started
    {
      if cron != null && !running {
        cron.started := true;
        running := true;
      }
      history := history + [Op.Start];
      assert history[..|history| - 1] == old(history);
    }

    method Stop()
      requires Valid()
      modifies `running, `history, cron
      ensures Valid() && history == old(history) + [Op.Stop]
      ensures !running && (cron != null ==> !cron.started)
    {
      if cron != null && running {
        cron.started := false;
        running := false;
      }
      history := history + [Op.Stop];
      assert history[..|history| - 1] == old(history);
    }

    /** Installs the jobs on a new engine, unless no printed field changed. On a bad schedule nothing changes. */
    method Reload(jobs: seq<Job>) returns (ok: bool)
      requires Valid()
      modifies this, cron
      ensures Valid() && history == old(history) + [Op.Reload(jobs)]
      ensures ok <==> Accepts(old(Value()), jobs, validSpec)
      ensures running == old(running)
      ensures !ok ==> Value() == old(Value()) && cron == old(cron) && replaced == old(replaced)
      ensures ok && Unchanged(old(Value()), jobs) ==> cron == old(cron)
      ensures cron != old(cron) ==> fresh(cron) && (old(cron) != null ==> old(cron) in replaced)
      ensures !Unchanged(old(Value()), jobs) && AllParse(jobs, validSpec) ==>
        cron != old(cron) && cron != null && cron.entries == Installable(jobs) && signature == Signature(jobs)
    {
      hide PrintedJobs, Lines, Signature, Installable, Ran, AllParse;
      RanMore(history, Op.Reload(jobs), validSpec);
      history := history + [Op.Reload(jobs)];
      var s := JobsSignature(jobs);
      if cron != null && s == signature {
        return true;
      }
      InstallableNone(jobs);
      ParseNone(validSpec);
      var entries: seq<Job> := [];
      for i := 0 to |jobs|
        invariant entries == Installable(jobs[..i]) && AllParse(jobs[..i], validSpec)
        modifies {}
      {
        var j := jobs[i];
        InstallableStep(jobs, i);
        ParseStep(jobs, i, validSpec);
        if !j.enabled || j.spec == "" {
          continue;
        }
        if !validSpec(j.spec) {
          return false;
        }
        entries := entries + [j];
      }
      assert jobs[..|jobs|] == jobs;
      var c := new Cron(entries);
      var wasRunning := running;
      if cron != null && running {
        cron.started := false;
        running := false;
      }
      if cron != null {
        replaced := replaced + {cron};
      }
      cron := c;
      signature := s;
      if wasRunning {
        cron.started := true;
        running := true;
      }
      return true;
    }
  }

  lemma RanMore(ops: seq<Op>, op: Op, valid: string -> bool)
    ensures Ran(ops + [op], valid) == After(Ran(ops, valid), op, valid)
  {
    assert (ops + [op])[..|ops|] == ops;
  }

  ghost predicate GoodReload(ops: seq<Op>, i: nat, valid: string -> bool)
    requires i < |ops|
  {
    ops[i].Reload? && AllParse(ops[i].jobs, valid)
  }

  /** The call at `i` starts an engine, as a good reload came before it, and no Stop came after it. */
  ghost predicate StartsAt(ops: seq<Op>, i: nat, valid: string -> bool)
    requires i < |ops|
  {
    ops[i].Start? && (exists j :: 0 <= j < i && GoodReload(ops, j, valid))
    && forall j :: i < j < |ops| ==> !ops[j].Stop?
  }

  ghost predicate SomeGoodReload(ops: seq<Op>, valid: string -> bool) {
    exists i :: 0 <= i < |ops| && GoodReload(ops, i, valid)
  }

  /** Something is installed once a schedule has parsed. */
  lemma {:induction false} InstalledIff(ops: seq<Op>, valid: string -> bool)
    ensures Ran(ops, valid).installed.Some? <==> SomeGoodReload(ops, valid)
  {
    hide AllParse, Signature, Installable;
    if ops != [] {
      var n := |ops| - 1;
      var front := ops[..n];
      InstalledIff(front, valid);
      if i :| 0 <= i < n && GoodReload(front, i, valid) {
        assert GoodReload(ops, i, valid);
      }
      if i :| 0 <= i < |ops| && GoodReload(ops, i, valid) && i < n {
        assert GoodReload(front, i, valid);
      }
      assert GoodReload(ops, n, valid) ==> SomeGoodReload(ops, valid);
    }
  }

  /** What is installed runs from a Start on until the next Stop, reloads included. */
  lemma {:induction false} RunsIff(ops: seq<Op>, valid: string -> bool)
    ensures Ran(ops, valid).running <==> exists i :: 0 <= i < |ops| && StartsAt(ops, i, valid)
  {
    hide AllParse, Signature, Installable, StartsAt, SomeGoodReload;
    if ops != [] {
      var n := |ops| - 1;
      var front := ops[..n];
      RunsIff(front, valid);
      InstalledIff(front, valid);
      StartsLast(ops, valid);
      if i :| 0 <= i < n && StartsAt(front, i, valid) {
        StartsOn(ops, i, valid);
      }
      if i :| 0 <= i < |ops| && StartsAt(ops, i, valid) && i < n {
        StartsOn(ops, i, valid);
      }
      if ops[n].Stop? {
        forall i | 0 <= i < |ops| ensures !StartsAt(ops, i, valid) {
          if i < n {
            StartsOn(ops, i, valid);
          }
        }
      }
    }
  }

  lemma StartsLast(ops: seq<Op>, valid: string -> bool)
    requires ops != []
    ensures StartsAt(ops, |ops| - 1, valid) <==> ops[|ops| - 1].Start? && SomeGoodReload(ops[..|ops| - 1], valid)
  {
    hide AllParse;
    var front := ops[..|ops| - 1];
    assert forall j :: 0 <= j < |front| ==> (GoodReload(front, j, valid) <==> GoodReload(ops, j, valid));
  }

  lemma StartsOn(ops: seq<Op>, i: nat, valid: string -> bool)
    requires i < |ops| - 1
    ensures StartsAt(ops, i, valid) <==> StartsAt(ops[..|ops| - 1], i, valid) && !ops[|ops| - 1].Stop?
  {
    hide AllParse;
    var front := ops[..|ops| - 1];
    assert forall j :: 0 <= j < |front| ==> (GoodReload(front, j, valid) <==> GoodReload(ops, j, valid));
  }

  /** The jobs of the last reload whose schedules all parse. */
  function LastGood(ops: seq<Op>, valid: string -> bool): Option<seq<Job>> {
    if ops == [] then None
    else
      var op := ops[|ops| - 1];
      if op.Reload? && AllParse(op.jobs, valid) then Some(op.jobs) else LastGood(ops[..|ops| - 1], valid)
  }

  predicate Printable(ops: seq<Op>) {
    forall op :: op in ops && op.Reload? ==> AllNoNul(PrintedJobs(op.jobs))
  }

  predicate Agrees(s: State, good: Option<seq<Job>>) {
    match good
    case None => s == IDLE
    case Some(jobs) =>
      && s.installed.Some?
      && PrintedJobs(s.installed.value) == PrintedJobs(jobs)
      && s.signature == Signature(jobs)
  }

  /**
   * After any sequence of calls, the installed jobs have the printed fields of the last good schedule, in
   * order; and a reload is accepted exactly when its schedules parse, skipped or not.
   */
  lemma {:induction false} InstalledIsLastGood(ops: seq<Op>, valid: string -> bool)
    requires Printable(ops)
    ensures Agrees(Ran(ops, valid), LastGood(ops, valid))
    ensures LastGood(ops, valid).Some? ==> AllNoNul(PrintedJobs(LastGood(ops, valid).value))
    ensures LastGood(ops, valid).Some? ==> AllParse(LastGood(ops, valid).value, valid)
  {
    hide PrintedJobs, Lines, Signature, Installable, AllNoNul, AllParse;
    if ops != [] {
      var front, op := ops[..|ops| - 1], ops[|ops| - 1];
      assert op in ops;
      InstalledIsLastGood(front, valid);
      if op.Reload? {
        InstalledPrinted(op.jobs);
        AcceptedParses(Ran(front, valid), LastGood(front, valid), op.jobs, valid);
      }
    }
  }

  /** A reload that is skipped as unchanged would have parsed: the schedules are among the printed fields. */
  lemma {:induction false} AcceptedParses(s: State, good: Option<seq<Job>>, jobs: seq<Job>, valid: string -> bool)
    requires Agrees(s, good) && AllNoNul(PrintedJobs(jobs))
    requires good.Some? ==> AllNoNul(PrintedJobs(good.value)) && AllParse(good.value, valid)
    ensures Accepts(s, jobs, valid) <==> AllParse(jobs, valid)
    ensures Unchanged(s, jobs) ==> good.Some? && PrintedJobs(good.value) == PrintedJobs(jobs)
  {
    hide PrintedJobs, Lines, Signature, AllNoNul, AllParse;
    if Unchanged(s, jobs) {
      SignatureTellsApart(good.value, jobs);
      ParseIsPrinted(good.value, valid);
      ParseIsPrinted(jobs, valid);
    }
  }

  lemma {:induction false} ParseIsPrinted(jobs: seq<Job>, valid: string -> bool)
    ensures AllParse(jobs, valid) <==> forall p :: p in PrintedJobs(jobs) ==> valid(p.spec)
  {
    if jobs != [] {
      var front, last := jobs[..|jobs| - 1], jobs[|jobs| - 1];
      ParseIsPrinted(front, valid);
      assert jobs == front + [last];
      assert Runs(last) ==> PrintedOf(last) in PrintedJobs(jobs);
    }
  }

  lemma {:induction false} InstalledPrinted(jobs: seq<Job>)
    ensures PrintedJobs(Installable(jobs)) == PrintedJobs(jobs)
  {
    if jobs != [] {
      var front, last := jobs[..|jobs| - 1], jobs[|jobs| - 1];
      InstalledPrinted(front);
      if Runs(last) {
        assert Installable(jobs) == Installable(front) + [last];
        assert (Installable(front) + [last])[..|Installable(front)|] == Installable(front);
      } else {
        assert Installable(jobs) == Installable(front);
      }
    }
  }

  lemma InstallableNone(jobs: seq<Job>)
    ensures Installable(jobs[..0]) == []
  {
  }

  lemma InstallableStep(jobs: seq<Job>, i: nat)
    requires i < |jobs|
    ensures Installable(jobs[..i + 1]) ==
      if Runs(jobs[i]) then Installable(jobs[..i]) + [jobs[i]] else Installable(jobs[..i])
  {
    assert jobs[..i + 1][..i] == jobs[..i];
  }

  // ---------------------------------------------------------- reloading a double

  function JobsOf(ps: seq<Printed>): (jobs: seq<Job>)
    ensures |jobs| == |ps|
  {
    seq(|ps|, i requires 0 <= i < |ps| =>
      var p := ps[i];
      Job(p.id, p.name, p.spec, p.source, p.mode, p.queue, p.taskType, p.lockKey, p.timeout, true, ""))
  }

  lemma {:induction false} PrintedJobsOf(ps: seq<Printed>)
    requires AllHaveSpecs(ps)
    ensures PrintedJobs(JobsOf(ps)) == ps
  {
    if ps != [] {
      var front, last := ps[..|ps| - 1], ps[|ps| - 1];
      assert last in ps;
      PrintedJobsOf(front);
      assert JobsOf(ps)[..|ps| - 1] == JobsOf(front);
    }
  }

  lemma {:induction false} PrintedHaveSpecs(jobs: seq<Job>)
    ensures AllHaveSpecs(PrintedJobs(jobs))
  {
    if jobs != [] {
      PrintedHaveSpecs(jobs[..|jobs| - 1]);
    }
  }

  /** No schedule that prints differently has the same signature exactly when at most one plain job is printed. */
  lemma {:induction false} SignatureAloneIff(a: seq<Job>)
    ensures (forall b :: Signature(b) == Signature(a) ==> PrintedJobs(b) == PrintedJobs(a)) <==>
      AtMostOnePlain(PrintedJobs(a))
  {
    hide PrintedJobs, Lines, AtMostOnePlain;
    var ps := PrintedJobs(a);
    PrintedHaveSpecs(a);
    AloneIff(ps);
    if Alone(ps) {
      forall b | Signature(b) == Signature(a) ensures PrintedJobs(b) == ps {
        PrintedHaveSpecs(b);
      }
    } else {
      var qs :| AllHaveSpecs(qs) && Lines(qs) == Lines(ps) && qs != ps;
      PrintedJobsOf(qs);
      assert Signature(JobsOf(qs)) == Signature(a);
    }
  }

  /** Specs with a NUL do not parse. */
  ghost predicate PlainSpecs(valid: string -> bool) {
    forall spec :: valid(spec) ==> NUL !in spec
  }

  /** A reload with a double that parses is accepted, and the jobs installed before stay. */
  lemma {:induction false} DoubleIsSkipped(t: State, a: seq<Job>, valid: string -> bool) returns (b: seq<Job>)
    requires Agrees(t, Some(a)) && AllParse(a, valid) && PlainSpecs(valid) && !AtMostOnePlain(PrintedJobs(a))
    ensures AllParse(b, valid) && PrintedJobs(b) != PrintedJobs(a)
    ensures Accepts(t, b, valid) && After(t, Op.Reload(b), valid) == t
  {
    hide PrintedJobs, Lines, AtMostOnePlain, AllParse;
    var ps := PrintedJobs(a);
    PrintedHaveSpecs(a);
    ParseIsPrinted(a, valid);
    var qs := ScheduleDouble(ps);
    b := JobsOf(qs);
    PrintedJobsOf(qs);
    forall q | q in qs ensures valid(q.spec) {
      var p :| p in ps && p.spec == q.spec;
    }
    ParseIsPrinted(b, valid);
    assert Signature(b) == Signature(a);
  }

  /**
   * With a schedule installed, every reload that parses is followed exactly when that schedule prints at most one
   * plain job; otherwise some reload is accepted and changes nothing.
   */
  lemma {:induction false} ReloadFollowsIff(t: State, a: seq<Job>, valid: string -> bool)
    requires Agrees(t, Some(a)) && AllParse(a, valid) && PlainSpecs(valid)
    ensures (forall b :: AllParse(b, valid) ==> Agrees(After(t, Op.Reload(b), valid), Some(b))) <==>
      AtMostOnePlain(PrintedJobs(a))
  {
    hide PrintedJobs, Lines, AtMostOnePlain, AllParse, Installable;
    if AtMostOnePlain(PrintedJobs(a)) {
      SignatureAloneIff(a);
      forall b | AllParse(b, valid) ensures Agrees(After(t, Op.Reload(b), valid), Some(b)) {
        InstalledPrinted(b);
      }
    } else {
      var b := DoubleIsSkipped(t, a, valid);
    }
  }
}
