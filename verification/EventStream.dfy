/** Reading the progress events of an archive job from a server-sent event stream. */
module EventStream {
  import opened Prelude
  import opened Text

  datatype Event<J> = Event(name: string, id: string, job: J)

  datatype End = Completed | ProtocolFault | HandlerFault | ReadFault | Interrupted | UnexpectedEof

  /** How data is decoded, and whether the handler accepts the last of the events it was given. */
  datatype Client<!J> = Client(decode: string -> Option<J>, accepts: seq<Event<J>> -> bool)

  // ------------------------------------------------------------------ lines

  function DropCr(line: string): string {
    if line != [] && line[|line| - 1] == '\r' then line[..|line| - 1] else line
  }

  function DropCrs(lines: seq<string>): (r: seq<string>)
    ensures |r| == |lines| && forall i :: 0 <= i < |r| ==> r[i] == DropCr(lines[i])
  {
    seq(|lines|, i requires 0 <= i < |lines| => DropCr(lines[i]))
  }

  /** The lines without an empty one at the end. */
  function Closed(parts: seq<string>): seq<string>
    requires parts != []
  {
    if parts[|parts| - 1] == "" then parts[..|parts| - 1] else parts
  }

  /** What the line scanner yields: each line without its end, and a last line only if it is not empty. */
  function ScanLines(text: string): seq<string> {
    DropCrs(Closed(Split(text, '\n')))
  }

  /** `strings.Cut` at the first colon. */
  function Cut(line: string): (r: (string, Option<string>))
    ensures ':' !in r.0
    ensures line == r.0 + if r.1.Some? then [':'] + r.1.value else []
  {
    if line == [] then ("", None)
    else if line[0] == ':' then ("", Some(line[1..]))
    else
      var (field, value) := Cut(line[1..]);
      ([line[0]] + field, value)
  }

  lemma {:induction false} CutAt(field: string, value: string)
    requires ':' !in field
    ensures Cut(field + [':'] + value) == (field, Some(value))
  {
    var line := field + [':'] + value;
    if field == [] {
      assert line[1..] == value;
    } else {
      assert line[0] == field[0] && line[1..] == field[1..] + [':'] + value;
      CutAt(field[1..], value);
      assert [field[0]] + field[1..] == field;
    }
  }

  function Value(value: Option<string>): string {
    if value.None? then ""
    else if value.value != "" && value.value[0] == ' ' then value.value[1..]
    else value.value
  }

  // ------------------------------------------------------- the reader, as a fold

  datatype Reader<J> =
    | Reading(name: string, id: string, data: seq<string>, delivered: seq<Event<J>>)
    | Stopped(delivered: seq<Event<J>>, end: End)

  function Fresh<J>(delivered: seq<Event<J>>): Reader<J> {
    Reading("message", "", [], delivered)
  }

  /** A blank line hands the collected event over. */
  function Dispatch<J>(c: Client<J>, r: Reader<J>): Reader<J>
    requires r.Reading?
  {
    if r.data == [] then Fresh(r.delivered)
    else
      var job := c.decode(Join(r.data, '\n'));
      if job.None? then Stopped(r.delivered, ProtocolFault)
      else
        var delivered := r.delivered + [Event(r.name, r.id, job.value)];
        if !c.accepts(delivered) then Stopped(delivered, HandlerFault)
        else if r.name == "complete" then Stopped(delivered, Completed)
        else Fresh(delivered)
  }

  function Feed<J>(c: Client<J>, r: Reader<J>, scanned: string): Reader<J> {
    var line := DropCr(scanned);
    if r.Stopped? then r
    else if line == "" then Dispatch(c, r)
    else if line[0] == ':' then r
    else
      var (field, value) := Cut(line);
      match field
      case "event" => r.(name := Value(value))
      case "id" => r.(id := Value(value))
      case "data" => r.(data := r.data + [Value(value)])
      case _ => r
  }

  function FeedAll<J>(c: Client<J>, r: Reader<J>, lines: seq<string>): Reader<J> {
    if lines == [] then r else Feed(c, FeedAll(c, r, lines[..|lines| - 1]), lines[|lines| - 1])
  }

  /** What is returned when the lines run out. */
  function Finish<J>(c: Client<J>, r: Reader<J>, readFails: bool, contextDone: bool): Reader<J> {
    if r.Stopped? then r
    else if readFails then Stopped(r.delivered, if contextDone then Interrupted else ReadFault)
    else
      var last := if r.data == [] then r else Dispatch(c, r);
      if last.Stopped? then last else Stopped(last.delivered, if contextDone then Interrupted else UnexpectedEof)
  }

  /** The reading loop; `readFails` and `contextDone` say how the stream ends. */
  method ConsumeArchiveJobEvents<J>(c: Client<J>, text: string, readFails: bool, contextDone: bool)
    returns (delivered: seq<Event<J>>, end: End)
    ensures Stopped(delivered, end) == Finish(c, FeedAll(c, Fresh([]), ScanLines(text)), readFails, contextDone)
  {
    hide Join, Cut, Value, ScanLines, FeedAll;
    var lines := ScanLines(text);
    var name, id, data := "message", "", [];
    delivered := [];
    FeedNone(c, Fresh([]), lines);
    for i := 0 to |lines|
      invariant FeedAll(c, Fresh([]), lines[..i]) == Reading(name, id, data, delivered)
    {
      FeedNext(c, Fresh([]), lines, i);
      var line := DropCr(lines[i]);
      if line == "" {
        if data == [] {
          name, id := "message", "";
          continue;
        }
        var job := c.decode(Join(data, '\n'));
        if job.None? {
          StoppedStays(c, Fresh([]), lines, i + 1);
          return delivered, ProtocolFault;
        }
        delivered := delivered + [Event(name, id, job.value)];
        if !c.accepts(delivered) {
          StoppedStays(c, Fresh([]), lines, i + 1);
          return delivered, HandlerFault;
        }
        if name == "complete" {
          StoppedStays(c, Fresh([]), lines, i + 1);
          return delivered, Completed;
        }
        name, id, data := "message", "", [];
        continue;
      }
      if line[0] == ':' {
        continue;
      }
      var (field, value) := Cut(line);
      match field {
        case "event" => name := Value(value);
        case "id" => id := Value(value);
        case "data" => data := data + [Value(value)];
        case _ =>
      }
    }
    assert lines[..|lines|] == lines;
    if readFails {
      return delivered, if contextDone then Interrupted else ReadFault;
    }
    if |data| > 0 {
      var job := c.decode(Join(data, '\n'));
      if job.None? {
        return delivered, ProtocolFault;
      }
      delivered := delivered + [Event(name, id, job.value)];
      if !c.accepts(delivered) {
        return delivered, HandlerFault;
      }
      if name == "complete" {
        return delivered, Completed;
      }
    }
    return delivered, if contextDone then Interrupted else UnexpectedEof;
  }

  lemma FeedNone<J>(c: Client<J>, r: Reader<J>, lines: seq<string>)
    ensures FeedAll(c, r, lines[..0]) == r
  {
  }

  lemma FeedNext<J>(c: Client<J>, r: Reader<J>, lines: seq<string>, i: nat)
    requires i < |lines|
    ensures FeedAll(c, r, lines[..i + 1]) == Feed(c, FeedAll(c, r, lines[..i]), lines[i])
  {
    assert lines[..i + 1][..i] == lines[..i];
  }

  lemma {:induction false} StoppedStays<J>(c: Client<J>, r: Reader<J>, lines: seq<string>, i: nat)
    requires i <= |lines| && FeedAll(c, r, lines[..i]).Stopped?
    ensures FeedAll(c, r, lines) == FeedAll(c, r, lines[..i])
    decreases |lines|
  {
    if i == |lines| {
      assert lines[..i] == lines;
    } else {
      var front := lines[..|lines| - 1];
      assert front[..i] == lines[..i];
      StoppedStays(c, r, front, i);
    }
  }

  lemma {:induction false} FeedConcat<J>(c: Client<J>, r: Reader<J>, a: seq<string>, b: seq<string>)
    ensures FeedAll(c, r, a + b) == FeedAll(c, FeedAll(c, r, a), b)
  {
    hide Feed;
    if b == [] {
      assert a + b == a;
    } else {
      var front := b[..|b| - 1];
      FeedConcat(c, r, a, front);
      assert (a + b)[..|a + b| - 1] == a + front && (a + b)[|a + b| - 1] == b[|b| - 1];
    }
  }

  // -------------------------------------------------------------- what is ignored

  /** A comment, or a field that is none of event, id and data. */
  predicate Ignorable(line: string) {
    DropCr(line) != "" && (DropCr(line)[0] == ':' || Cut(DropCr(line)).0 !in ["event", "id", "data"])
  }

  /** Comments and unknown fields change nothing, wherever they stand. */
  lemma {:induction false} IgnorableLines<J>(c: Client<J>, before: seq<string>, line: string, after: seq<string>)
    requires Ignorable(line)
    ensures FeedAll(c, Fresh([]), before + [line] + after) == FeedAll(c, Fresh([]), before + after)
  {
    FeedConcat(c, Fresh([]), before + [line], after);
    FeedConcat(c, Fresh([]), before, [line]);
    FeedConcat(c, Fresh([]), before, after);
    assert [line][..0] == [];
  }

  // ----------------------------------------------------------------- the wire form

  predicate OneLine(s: string) {
    '\r' !in s && '\n' !in s
  }

  function DataLines(data: string): (lines: seq<string>)
    ensures |lines| >= 1
  {
    var parts := Split(data, '\n');
    seq(|parts|, i requires 0 <= i < |parts| => "data: " + parts[i])
  }

  function WireEvent<J>(encode: J -> string, e: Event<J>): seq<string> {
    ["event: " + e.name, "id: " + e.id] + DataLines(encode(e.job)) + [""]
  }

  function WireLines<J>(encode: J -> string, events: seq<Event<J>>): seq<string> {
    if events == [] then []
    else WireLines(encode, events[..|events| - 1]) + WireEvent(encode, events[|events| - 1])
  }

  /** Lines as text, each followed by the line end `eol`. */
  function Written(lines: seq<string>, eol: string): string {
    if lines == [] then "" else Written(lines[..|lines| - 1], eol) + lines[|lines| - 1] + eol
  }

  /** What can be written: one-line names and ids, and jobs whose encoding has no carriage return and
      decodes to the job. */
  ghost predicate Writable<J>(c: Client<J>, encode: J -> string, e: Event<J>) {
    OneLine(e.name) && OneLine(e.id) && '\r' !in encode(e.job) && c.decode(encode(e.job)) == Some(e.job)
  }

  /** What a reader of these events ends with: everything up to the first one refused or complete. */
  ghost function Expected<J>(c: Client<J>, events: seq<Event<J>>): Reader<J> {
    if events == [] then Fresh([])
    else
      var r := Expected(c, events[..|events| - 1]);
      if r.Stopped? then r
      else
        var e := events[|events| - 1];
        var delivered := r.delivered + [e];
        if !c.accepts(delivered) then Stopped(delivered, HandlerFault)
        else if e.name == "complete" then Stopped(delivered, Completed)
        else Fresh(delivered)
  }

  lemma {:induction false} FieldText(field: string, value: string)
    requires field in ["event", "id", "data"] && '\r' !in value
    ensures
      var line := field + ": " + value;
      line != "" && line[0] != ':' && DropCr(line) == line && Cut(line) == (field, Some(" " + value))
    ensures Value(Some(" " + value)) == value
  {
    hide Cut;
    var line := field + ": " + value;
    assert line == field + [':'] + (" " + value);
    CutAt(field, " " + value);
    assert (" " + value)[1..] == value;
    assert line[|line| - 1] == if value == "" then ' ' else value[|value| - 1];
    assert value != "" ==> value[|value| - 1] in value;
  }

  /** A field line without carriage returns sets its field to the value, whatever the value holds. */
  lemma {:induction false} FieldLine<J>(c: Client<J>, r: Reader<J>, field: string, value: string)
    requires r.Reading? && field in ["event", "id", "data"] && '\r' !in value
    ensures Feed(c, r, field + ": " + value) ==
      if field == "event" then r.(name := value)
      else if field == "id" then r.(id := value)
      else r.(data := r.data + [value])
  {
    hide Cut, Value, DropCr;
    FieldText(field, value);
  }

  lemma {:induction false} DataLinesCollect<J>(c: Client<J>, r: Reader<J>, parts: seq<string>, lines: seq<string>)
    requires r.Reading? && |parts| == |lines|
    requires forall i :: 0 <= i < |parts| ==> lines[i] == "data: " + parts[i] && '\r' !in parts[i]
    ensures FeedAll(c, r, lines) == r.(data := r.data + parts)
  {
    hide Feed;
    if lines != [] {
      var n := |lines| - 1;
      DataLinesCollect(c, r, parts[..n], lines[..n]);
      FieldLine(c, r.(data := r.data + parts[..n]), "data", parts[n]);
      assert "data" + ": " == "data: ";
      assert r.data + parts == r.data + parts[..n] + [parts[n]];
    } else {
      assert r.data + parts == r.data;
    }
  }

  lemma {:induction false} FeedTwo<J>(c: Client<J>, r: Reader<J>, x: string, y: string)
    ensures FeedAll(c, r, [x, y]) == Feed(c, Feed(c, r, x), y)
    ensures FeedAll(c, r, [x]) == Feed(c, r, x)
  {
    hide Feed;
    FeedNone(c, r, [x]);
    FeedNext(c, r, [x], 0);
    assert [x][..1] == [x] && [x, y][..1] == [x] && [x, y][..2] == [x, y];
    FeedNext(c, r, [x, y], 1);
  }

  lemma {:induction false} SplitHasNoCr(s: string)
    requires '\r' !in s
    ensures forall p :: p in Split(s, '\n') ==> '\r' !in p
  {
    if s != [] {
      SplitHasNoCr(s[1..]);
      var rest := Split(s[1..], '\n');
      assert rest[0] in rest;
    }
  }

  lemma {:induction false} ReadEvent<J>(c: Client<J>, encode: J -> string, delivered: seq<Event<J>>, e: Event<J>)
    requires Writable(c, encode, e)
    ensures FeedAll(c, Fresh(delivered), WireEvent(encode, e)) ==
      var all := delivered + [e];
      if !c.accepts(all) then Stopped(all, HandlerFault)
      else if e.name == "complete" then Stopped(all, Completed)
      else Fresh(all)
  {
    hide Feed, FeedAll, Split, Join;
    var data := encode(e.job);
    var parts := Split(data, '\n');
    var head, body := ["event: " + e.name, "id: " + e.id], DataLines(data);
    FeedConcat(c, Fresh(delivered), head + body, [""]);
    FeedConcat(c, Fresh(delivered), head, body);
    FeedTwo(c, Fresh(delivered), head[0], head[1]);
    FieldLine(c, Fresh(delivered), "event", e.name);
    FieldLine(c, Fresh(delivered).(name := e.name), "id", e.id);
    assert "event" + ": " == "event: " && "id" + ": " == "id: ";
    SplitHasNoCr(data);
    var r := Reading(e.name, e.id, [], delivered);
    DataLinesCollect(c, r, parts, body);
    assert r.data + parts == parts;
    JoinSplit(data, '\n');
    assert WireEvent(encode, e) == head + body + [""];
    assert head == [head[0], head[1]];
    FeedTwo(c, r.(data := parts), "", "");
    FeedBlank(c, r.(data := parts));
  }

  lemma FeedBlank<J>(c: Client<J>, r: Reader<J>)
    requires r.Reading?
    ensures Feed(c, r, "") == Dispatch(c, r)
  {
  }

  lemma {:induction false} ReadLines<J>(c: Client<J>, encode: J -> string, events: seq<Event<J>>)
    requires forall e :: e in events ==> Writable(c, encode, e)
    ensures FeedAll(c, Fresh([]), WireLines(encode, events)) == Expected(c, events)
    ensures Expected(c, events).Reading? ==> Expected(c, events) == Fresh(Expected(c, events).delivered)
  {
    if events != [] {
      var front, e := events[..|events| - 1], events[|events| - 1];
      ReadLines(c, encode, front);
      FeedConcat(c, Fresh([]), WireLines(encode, front), WireEvent(encode, e));
      var r := Expected(c, front);
      if r.Reading? {
        ReadEvent(c, encode, r.delivered, e);
      } else {
        assert WireEvent(encode, e)[..0] == [];
        StoppedStays(c, r, WireEvent(encode, e), 0);
      }
    }
  }

  // ------------------------------------------------------------------ as text

  lemma DropCrsCons(line: string, lines: seq<string>)
    ensures DropCrs([line] + lines) == [DropCr(line)] + DropCrs(lines)
  {
    hide DropCr;
  }

  lemma ClosedCons(part: string, parts: seq<string>)
    requires parts != []
    ensures Closed([part] + parts) == [part] + Closed(parts)
  {
    var all := [part] + parts;
    assert all[|all| - 1] == parts[|parts| - 1];
    assert all[..|all| - 1] == [part] + parts[..|parts| - 1];
  }

  lemma {:induction false} ScanBody(text: string, body: string)
    requires '\n' !in body
    ensures ScanLines(body + ['\n'] + text) == [DropCr(body)] + ScanLines(text)
  {
    hide Split, DropCr, DropCrs, Closed;
    SplitFirst(body, '\n', text);
    var rest := Split(text, '\n');
    ClosedCons(body, rest);
    DropCrsCons(body, Closed(rest));
  }

  lemma {:induction false} ScanFirst(text: string, line: string, eol: string)
    requires OneLine(line) && (eol == "\n" || eol == "\r\n")
    ensures ScanLines(line + eol + text) == [line] + ScanLines(text)
  {
    hide ScanLines;
    if eol == "\n" {
      assert line + eol + text == line + ['\n'] + text;
      assert DropCr(line) == line by { assert line != "" ==> line[|line| - 1] in line; }
      ScanBody(text, line);
    } else {
      var body := line + ['\r'];
      assert line + eol + text == body + ['\n'] + text;
      assert DropCr(body) == line;
      ScanBody(text, body);
    }
  }

  lemma {:induction false} WrittenFront(lines: seq<string>, eol: string)
    requires lines != []
    ensures Written(lines, eol) == lines[0] + eol + Written(lines[1..], eol)
  {
    var n := |lines| - 1;
    if n == 0 {
      assert lines[..0] == [] && lines[1..] == [];
      assert Written([], eol) == "";
      assert lines[0] + eol + "" == "" + lines[0] + eol;
    } else {
      WrittenFront(lines[..n], eol);
      assert lines[..n][1..] == lines[1..][..n - 1];
      var middle := Written(lines[1..][..n - 1], eol);
      assert lines[0] + eol + middle + lines[n] + eol == lines[0] + eol + (middle + lines[n] + eol);
    }
  }

  lemma {:induction false} ScanWritten(lines: seq<string>, eol: string)
    requires forall l :: l in lines ==> OneLine(l)
    requires eol == "\n" || eol == "\r\n"
    ensures ScanLines(Written(lines, eol)) == lines
  {
    hide Written, OneLine, ScanLines;
    if lines == [] {
      WrittenNone(eol);
    } else {
      WrittenFront(lines, eol);
      assert lines == [lines[0]] + lines[1..];
      ScanWritten(lines[1..], eol);
      ScanFirst(Written(lines[1..], eol), lines[0], eol);
    }
  }

  lemma WrittenNone(eol: string)
    ensures Written([], eol) == "" && ScanLines("") == []
  {
  }

  lemma OneLineConcat(a: string, b: string)
    requires OneLine(a) && OneLine(b)
    ensures OneLine(a + b)
  {
  }

  lemma {:induction false} SplitHasNoLf(s: string)
    requires '\r' !in s
    ensures forall p :: p in Split(s, '\n') ==> OneLine(p)
  {
    SplitHasNoCr(s);
  }

  lemma {:induction false} EventIsLines<J>(c: Client<J>, encode: J -> string, e: Event<J>)
    requires Writable(c, encode, e)
    ensures forall l :: l in WireEvent(encode, e) ==> OneLine(l)
  {
    OneLineConcat("event: ", e.name);
    OneLineConcat("id: ", e.id);
    var parts := Split(encode(e.job), '\n');
    SplitHasNoLf(encode(e.job));
    forall l | l in DataLines(encode(e.job)) ensures OneLine(l) {
      var i :| 0 <= i < |parts| && l == "data: " + parts[i];
      assert parts[i] in parts;
      OneLineConcat("data: ", parts[i]);
    }
  }

  lemma {:induction false} WireIsLines<J>(c: Client<J>, encode: J -> string, events: seq<Event<J>>)
    requires forall e :: e in events ==> Writable(c, encode, e)
    ensures forall l :: l in WireLines(encode, events) ==> OneLine(l)
  {
    hide Writable, WireEvent, OneLine;
    if events != [] {
      assert events[|events| - 1] in events;
      WireIsLines(c, encode, events[..|events| - 1]);
      EventIsLines(c, encode, events[|events| - 1]);
    }
  }

  /** Reading the wire form of any events, with either line end, delivers exactly those events in order,
      up to and including the first one that is complete (or refused by the handler). Without one the
      stream ends unexpectedly. */
  lemma {:induction false} ReadsWhatWasWritten<J>(c: Client<J>, encode: J -> string, events: seq<Event<J>>, eol: string)
    requires forall e :: e in events ==> Writable(c, encode, e)
    requires eol == "\n" || eol == "\r\n"
    ensures Finish(c, FeedAll(c, Fresh([]), ScanLines(Written(WireLines(encode, events), eol))), false, false) ==
      var r := Expected(c, events);
      if r.Stopped? then r else Stopped(events, UnexpectedEof)
  {
    hide Feed, ScanLines, Written, WireLines;
    WireIsLines(c, encode, events);
    ScanWritten(WireLines(encode, events), eol);
    ReadLines(c, encode, events);
    ExpectedDelivers(c, events);
  }

  /** Every event so far was accepted and none of them was complete. */
  ghost predicate AllPass<J>(c: Client<J>, events: seq<Event<J>>) {
    forall i :: 0 < i <= |events| ==> c.accepts(events[..i]) && events[i - 1].name != "complete"
  }

  /** What is delivered is a prefix. It stops short exactly at the first refused or complete event. */
  lemma {:induction false} ExpectedDelivers<J>(c: Client<J>, events: seq<Event<J>>)
    ensures
      match Expected(c, events)
      case Reading(_, _, _, _) => Expected(c, events) == Fresh(events) && AllPass(c, events)
      case Stopped(delivered, end) =>
        && delivered != [] && delivered <= events
        && AllPass(c, delivered[..|delivered| - 1])
        && (if !c.accepts(delivered) then end == HandlerFault
            else end == Completed && delivered[|delivered| - 1].name == "complete")
  {
    hide AllPass;
    if events == [] {
      PassNone(c);
    } else {
      var n := |events| - 1;
      ExpectedDelivers(c, events[..n]);
      assert events[..n] + [events[n]] == events;
      if Expected(c, events[..n]).Reading? {
        PassOneMore(c, events);
      }
    }
  }

  lemma PassNone<J>(c: Client<J>)
    ensures AllPass(c, [])
  {
  }

  lemma {:induction false} PassOneMore<J>(c: Client<J>, events: seq<Event<J>>)
    requires events != [] && AllPass(c, events[..|events| - 1])
    ensures c.accepts(events) && events[|events| - 1].name != "complete" ==> AllPass(c, events)
  {
    var front := events[..|events| - 1];
    forall i | 0 < i <= |front| ensures c.accepts(events[..i]) && events[i - 1].name != "complete" {
      assert events[..i] == front[..i];
    }
    assert events[..|events|] == events;
  }
}
