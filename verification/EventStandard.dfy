/** Where the event reader agrees with sections 9.2.5 and 9.2.6 of the WHATWG HTML Standard, and where it does not. */
module EventStandard {
  import opened Prelude
  import opened Text
  import opened EventStream

  /** An event as it is dispatched, before its data is decoded. */
  datatype Raw = Raw(name: string, id: string, data: seq<string>)

  // ------------------------------------------------------- the standard, line by line

  /** The standard's buffers: the id outlives a dispatch, the name and the data do not. */
  datatype Buffers = Buffers(name: string, id: string, data: seq<string>, dispatched: seq<Raw>)

  const START := Buffers("", "", [], [])

  function StandardFeed(b: Buffers, line: string): Buffers {
    if line == "" then
      if b.data == [] then b.(name := "")
      else
        var name := if b.name == "" then "message" else b.name;
        Buffers("", b.id, [], b.dispatched + [Raw(name, b.id, b.data)])
    else if line[0] == ':' then b
    else
      var (field, value) := Cut(line);
      match field
      case "event" => b.(name := Value(value))
      case "id" => if NUL in Value(value) then b else b.(id := Value(value))
      case "data" => b.(data := b.data + [Value(value)])
      case _ => b
  }

  function StandardAll(lines: seq<string>): Buffers {
    if lines == [] then START else StandardFeed(StandardAll(lines[..|lines| - 1]), lines[|lines| - 1])
  }

  /** What is still open at the end is discarded. */
  function StandardDispatches(lines: seq<string>): seq<Raw> {
    StandardAll(lines).dispatched
  }

  // ----------------------------------------------------------------- lines in blocks

  /** The values that the lines up to a blank line give to each field. */
  datatype Block = Block(names: seq<string>, ids: seq<string>, data: seq<string>)

  const NOTHING := Block([], [], [])

  datatype Parsed = Parsed(closed: seq<Block>, open: Block)

  function ParseLine(p: Parsed, line: string): Parsed {
    if line == "" then Parsed(p.closed + [p.open], NOTHING)
    else if line[0] == ':' then p
    else
      var (field, value) := Cut(line);
      match field
      case "event" => p.(open := p.open.(names := p.open.names + [Value(value)]))
      case "id" => p.(open := p.open.(ids := p.open.ids + [Value(value)]))
      case "data" => p.(open := p.open.(data := p.open.data + [Value(value)]))
      case _ => p
  }

  function Parse(lines: seq<string>): Parsed {
    if lines == [] then Parsed([], NOTHING) else ParseLine(Parse(lines[..|lines| - 1]), lines[|lines| - 1])
  }

  function LastOr(values: seq<string>, none: string): string {
    if values == [] then none else values[|values| - 1]
  }

  // --------------------------------------------------------- the reader, block by block

  function CodeEvent(b: Block): Raw {
    Raw(LastOr(b.names, "message"), LastOr(b.ids, ""), b.data)
  }

  function CodeEvents(blocks: seq<Block>): seq<Raw> {
    if blocks == [] then []
    else
      var b := blocks[|blocks| - 1];
      CodeEvents(blocks[..|blocks| - 1]) + (if b.data == [] then [] else [CodeEvent(b)])
  }

  /** What the reader dispatches, a block left open at the end included. */
  function CodeDispatches(lines: seq<string>): seq<Raw> {
    var p := Parse(lines);
    CodeEvents(p.closed) + (if p.open.data == [] then [] else [CodeEvent(p.open)])
  }

  /** Decoding and handing over dispatched events, up to the first that stops the reader. */
  function Consume<J>(c: Client<J>, raws: seq<Raw>): Reader<J> {
    if raws == [] then Fresh([])
    else
      var r, raw := Consume(c, raws[..|raws| - 1]), raws[|raws| - 1];
      if r.Stopped? || raw.data == [] then r else Dispatch(c, Reading(raw.name, raw.id, raw.data, r.delivered))
  }

  lemma {:induction false} ConsumeFresh<J>(c: Client<J>, raws: seq<Raw>)
    ensures Consume(c, raws).Reading? ==> Consume(c, raws) == Fresh(Consume(c, raws).delivered)
  {
    if raws != [] {
      ConsumeFresh(c, raws[..|raws| - 1]);
    }
  }

  lemma ConsumeMore<J>(c: Client<J>, raws: seq<Raw>, raw: Raw)
    requires raw.data != []
    ensures Consume(c, raws + [raw]) ==
      var r := Consume(c, raws);
      if r.Stopped? then r else Dispatch(c, Reading(raw.name, raw.id, raw.data, r.delivered))
  {
    hide Dispatch;
    assert (raws + [raw])[..|raws|] == raws;
  }

  /** Where the reader is after some lines, by the blocks they form. */
  function At<J>(c: Client<J>, p: Parsed): Reader<J> {
    var r := Consume(c, CodeEvents(p.closed));
    if r.Stopped? then r
    else Reading(LastOr(p.open.names, "message"), LastOr(p.open.ids, ""), p.open.data, r.delivered)
  }

  lemma {:induction false} FeedIsBlocks<J>(c: Client<J>, scanned: seq<string>)
    ensures FeedAll(c, Fresh([]), scanned) == At(c, Parse(DropCrs(scanned)))
  {
    hide Feed, ParseLine, At, DropCr;
    if scanned == [] {
      AtStart(c);
    } else {
      var front, last := scanned[..|scanned| - 1], scanned[|scanned| - 1];
      FeedIsBlocks(c, front);
      FeedStep(c, Parse(DropCrs(front)), last);
      assert DropCrs(scanned)[..|scanned| - 1] == DropCrs(front);
    }
  }

  lemma AtStart<J>(c: Client<J>)
    ensures At(c, Parsed([], NOTHING)) == Fresh([])
  {
  }

  lemma {:induction false} FeedStep<J>(c: Client<J>, p: Parsed, scanned: string)
    ensures Feed(c, At(c, p), scanned) == At(c, ParseLine(p, DropCr(scanned)))
  {
    if DropCr(scanned) == "" {
      hide Dispatch, At;
      CloseBlock(c, p);
    } else {
      FieldStep(c, p, scanned);
    }
  }

  lemma FieldStep<J>(c: Client<J>, p: Parsed, scanned: string)
    requires DropCr(scanned) != ""
    ensures Feed(c, At(c, p), scanned) == At(c, ParseLine(p, DropCr(scanned)))
  {
    hide Cut, Value, Dispatch, Consume, DropCr, CodeEvents;
  }

  lemma {:induction false} CloseBlock<J>(c: Client<J>, p: Parsed)
    ensures Feed(c, At(c, p), "") == At(c, Parsed(p.closed + [p.open], NOTHING))
  {
    hide Consume;
    assert (p.closed + [p.open])[..|p.closed|] == p.closed;
    var raws := CodeEvents(p.closed);
    ConsumeFresh(c, raws);
    if p.open.data == [] {
      assert raws + [] == raws;
    } else {
      ConsumeMore(c, raws, CodeEvent(p.open));
      ConsumeFresh(c, raws + [CodeEvent(p.open)]);
    }
  }

  /** For any client: what the reader delivers, and how it ends, is what comes of its dispatches. */
  lemma {:induction false} ReaderConsumes<J>(c: Client<J>, scanned: seq<string>, contextDone: bool)
    ensures Finish(c, FeedAll(c, Fresh([]), scanned), false, contextDone) ==
      Ended(Consume(c, CodeDispatches(DropCrs(scanned))), contextDone)
  {
    hide Dispatch, Consume, FeedAll, Parse;
    FeedIsBlocks(c, scanned);
    var p := Parse(DropCrs(scanned));
    var raws := CodeEvents(p.closed);
    if p.open.data == [] {
      assert raws + [] == raws;
    } else {
      ConsumeMore(c, raws, CodeEvent(p.open));
    }
  }

  /** When reading fails, the open block is not dispatched; what was dispatched before stands. */
  lemma {:induction false} ReadFailureConsumes<J>(c: Client<J>, scanned: seq<string>, contextDone: bool)
    ensures Finish(c, FeedAll(c, Fresh([]), scanned), true, contextDone) ==
      var r := Consume(c, CodeEvents(Parse(DropCrs(scanned)).closed));
      if r.Stopped? then r else Stopped(r.delivered, if contextDone then Interrupted else ReadFault)
  {
    hide Dispatch, Consume, FeedAll, Parse;
    FeedIsBlocks(c, scanned);
  }

  function Ended<J>(r: Reader<J>, contextDone: bool): Reader<J> {
    if r.Stopped? then r else Stopped(r.delivered, if contextDone then Interrupted else UnexpectedEof)
  }

  // ------------------------------------------------------- the standard, block by block

  /** The last id without NUL, or the one before. */
  function IdAfter(before: string, ids: seq<string>): string {
    if ids == [] then before
    else if NUL in ids[|ids| - 1] then IdAfter(before, ids[..|ids| - 1])
    else ids[|ids| - 1]
  }

  function CarriedId(blocks: seq<Block>): string {
    if blocks == [] then "" else IdAfter(CarriedId(blocks[..|blocks| - 1]), blocks[|blocks| - 1].ids)
  }

  function StandardName(b: Block): string {
    if LastOr(b.names, "") == "" then "message" else LastOr(b.names, "")
  }

  function StandardEvents(blocks: seq<Block>): seq<Raw> {
    if blocks == [] then []
    else
      var b := blocks[|blocks| - 1];
      StandardEvents(blocks[..|blocks| - 1])
      + (if b.data == [] then [] else [Raw(StandardName(b), CarriedId(blocks), b.data)])
  }

  function BuffersAt(p: Parsed): Buffers {
    Buffers(LastOr(p.open.names, ""), IdAfter(CarriedId(p.closed), p.open.ids), p.open.data, StandardEvents(p.closed))
  }

  lemma {:induction false} StandardIsBlocks(lines: seq<string>)
    ensures StandardAll(lines) == BuffersAt(Parse(lines))
  {
    hide StandardFeed, ParseLine;
    if lines != [] {
      StandardIsBlocks(lines[..|lines| - 1]);
      StandardStep(Parse(lines[..|lines| - 1]), lines[|lines| - 1]);
    }
  }

  lemma {:induction false} StandardStep(p: Parsed, line: string)
    ensures StandardFeed(BuffersAt(p), line) == BuffersAt(ParseLine(p, line))
  {
    hide Cut, Value, StandardEvents, CarriedId;
    if line == "" {
      StandardCloses(p);
    } else if line[0] != ':' {
      IdMore(CarriedId(p.closed), p.open.ids, Value(Cut(line).1));
    }
  }

  lemma StandardCloses(p: Parsed)
    ensures StandardFeed(BuffersAt(p), "") == BuffersAt(Parsed(p.closed + [p.open], NOTHING))
  {
    hide IdAfter;
    assert (p.closed + [p.open])[..|p.closed|] == p.closed;
    IdNone(IdAfter(CarriedId(p.closed), p.open.ids));
  }

  lemma IdNone(before: string)
    ensures IdAfter(before, []) == before
  {
  }

  lemma IdMore(before: string, ids: seq<string>, id: string)
    ensures IdAfter(before, ids + [id]) == if NUL in id then IdAfter(before, ids) else id
  {
    assert (ids + [id])[..|ids|] == ids;
  }

  // ---------------------------------------------------------------- where they agree

  /**
   * A block is read alike if it has no data, or the last name it gives, if any, is not empty, and the last id it gives
   * has no NUL; if it gives no id, the id carried on from the blocks before it must be empty.
   */
  predicate Conforms(blocks: seq<Block>, k: nat)
    requires k < |blocks|
  {
    var b := blocks[k];
    b.data == [] ||
    (&& (b.names != [] ==> b.names[|b.names| - 1] != "")
     && (if b.ids == [] then CarriedId(blocks[..k]) == "" else NUL !in b.ids[|b.ids| - 1]))
  }

  predicate AllConform(blocks: seq<Block>) {
    forall k :: 0 <= k < |blocks| ==> Conforms(blocks, k)
  }

  lemma {:induction false} BlocksAlike(blocks: seq<Block>)
    ensures |CodeEvents(blocks)| == |StandardEvents(blocks)|
    ensures CodeEvents(blocks) == StandardEvents(blocks) <==> AllConform(blocks)
  {
    if blocks != [] {
      hide Conforms;
      var n := |blocks| - 1;
      var front, b := blocks[..n], blocks[n];
      BlocksAlike(front);
      forall k | 0 <= k < n ensures Conforms(blocks, k) == Conforms(front, k) {
        SameConforms(blocks, front, k);
      }
      assert AllConform(blocks) <==> AllConform(front) && Conforms(blocks, n);
      LastBlock(blocks);
      LastsDiffer(CodeEvents(front), StandardEvents(front),
                  if b.data == [] then [] else [CodeEvent(b)],
                  if b.data == [] then [] else [Raw(StandardName(b), CarriedId(blocks), b.data)]);
    }
  }

  lemma SameConforms(blocks: seq<Block>, front: seq<Block>, k: nat)
    requires k < |front| <= |blocks| && front == blocks[..|front|]
    ensures Conforms(blocks, k) == Conforms(front, k)
  {
    assert front[..k] == blocks[..k];
  }

  lemma {:induction false} LastBlock(blocks: seq<Block>)
    requires blocks != []
    ensures
      var n := |blocks| - 1;
      var b := blocks[n];
      Conforms(blocks, n) <==> b.data == [] || CodeEvent(b) == Raw(StandardName(b), CarriedId(blocks), b.data)
  {
    hide IdAfter;
    var n := |blocks| - 1;
    CarriedIsPlain(blocks[..n]);
    if blocks[n].ids == [] {
      IdNone(CarriedId(blocks[..n]));
    } else {
      IdIsGiven(CarriedId(blocks[..n]), blocks[n].ids);
    }
  }

  /** An id with a NUL never becomes the standard's. */
  lemma {:induction false} IdIsGiven(before: string, ids: seq<string>)
    requires NUL !in before && ids != []
    ensures IdAfter(before, ids) == ids[|ids| - 1] <==> NUL !in ids[|ids| - 1]
  {
    AfterIsPlain(before, ids);
  }

  lemma {:induction false} AfterIsPlain(before: string, ids: seq<string>)
    requires NUL !in before
    ensures NUL !in IdAfter(before, ids)
  {
    if ids != [] {
      AfterIsPlain(before, ids[..|ids| - 1]);
    }
  }

  lemma {:induction false} CarriedIsPlain(blocks: seq<Block>)
    ensures NUL !in CarriedId(blocks)
  {
    if blocks != [] {
      CarriedIsPlain(blocks[..|blocks| - 1]);
      AfterIsPlain(CarriedId(blocks[..|blocks| - 1]), blocks[|blocks| - 1].ids);
    }
  }

  lemma LastsDiffer(a: seq<Raw>, b: seq<Raw>, x: seq<Raw>, y: seq<Raw>)
    requires |a| == |b| && |x| == |y|
    ensures a + x == b + y <==> a == b && x == y
  {
    if a + x == b + y {
      assert a == (a + x)[..|a|] && b == (b + y)[..|a|];
      assert x == (a + x)[|a|..] && y == (b + y)[|a|..];
    }
  }

  /**
   * The reader dispatches the same events as the standard exactly when every block conforms that a blank line closes,
   * and no block with data is left open at the end.
   */
  lemma {:induction false} DispatchedAlikeIff(lines: seq<string>)
    ensures CodeDispatches(lines) == StandardDispatches(lines) <==>
      AllConform(Parse(lines).closed) && Parse(lines).open.data == []
  {
    hide Parse, CodeEvents, StandardEvents, AllConform, StandardAll;
    StandardIsBlocks(lines);
    var p := Parse(lines);
    BlocksAlike(p.closed);
    assert CodeEvents(p.closed) + [] == CodeEvents(p.closed);
  }

  // ------------------------------------------------------------------ where they part

  lemma {:induction false} ParseField(p: Parsed, field: string, value: string)
    requires field in ["event", "id", "data"]
    ensures ParseLine(p, field + ": " + value) == p.(open :=
      if field == "event" then p.open.(names := p.open.names + [value])
      else if field == "id" then p.open.(ids := p.open.ids + [value])
      else p.open.(data := p.open.data + [value]))
  {
    hide Cut;
    assert field + ": " + value == field + [':'] + (" " + value);
    CutAt(field, " " + value);
    assert (" " + value)[1..] == value;
  }

  lemma ParseMore(lines: seq<string>, line: string)
    ensures Parse(lines + [line]) == ParseLine(Parse(lines), line)
  {
    hide ParseLine;
    assert (lines + [line])[..|lines|] == lines;
  }

  /** The lines of a block with these fields, closed. */
  function BlockLines(fields: seq<(string, string)>): seq<string> {
    if fields == [] then []
    else BlockLines(fields[..|fields| - 1]) + [fields[|fields| - 1].0 + ": " + fields[|fields| - 1].1]
  }

  function Gathered(fields: seq<(string, string)>): Block {
    if fields == [] then NOTHING
    else
      var b, (field, value) := Gathered(fields[..|fields| - 1]), fields[|fields| - 1];
      if field == "event" then b.(names := b.names + [value])
      else if field == "id" then b.(ids := b.ids + [value])
      else b.(data := b.data + [value])
  }

  lemma {:induction false} ParseBlock(lines: seq<string>, fields: seq<(string, string)>)
    requires Parse(lines).open == NOTHING
    requires forall f :: f in fields ==> f.0 in ["event", "id", "data"]
    ensures Parse(lines + BlockLines(fields)) == Parsed(Parse(lines).closed, Gathered(fields))
  {
    hide Parse, ParseLine;
    if fields == [] {
      assert lines + [] == lines;
    } else {
      var front, f := fields[..|fields| - 1], fields[|fields| - 1];
      assert f in fields;
      ParseBlock(lines, front);
      ParseMore(lines + BlockLines(front), f.0 + ": " + f.1);
      assert lines + BlockLines(fields) == lines + BlockLines(front) + [f.0 + ": " + f.1];
      ParseField(Parsed(Parse(lines).closed, Gathered(front)), f.0, f.1);
    }
  }

  lemma {:induction false} ParseClosed(lines: seq<string>, fields: seq<(string, string)>)
    requires Parse(lines).open == NOTHING
    requires forall f :: f in fields ==> f.0 in ["event", "id", "data"]
    ensures Parse(lines + BlockLines(fields) + [""]) == Parsed(Parse(lines).closed + [Gathered(fields)], NOTHING)
  {
    hide Parse;
    ParseBlock(lines, fields);
    ParseMore(lines + BlockLines(fields), "");
  }

  lemma GatherOne(field: string, value: string)
    ensures Gathered([(field, value)]) ==
      if field == "event" then Block([value], [], [])
      else if field == "id" then Block([], [value], [])
      else Block([], [], [value])
  {
    assert [(field, value)][..0] == [];
  }

  lemma GatherTwo(field: string, value: string, data: string)
    requires field == "event" || field == "id"
    ensures Gathered([(field, value), ("data", data)]) ==
      if field == "event" then Block([value], [], [data]) else Block([], [value], [data])
  {
    GatherOne(field, value);
    assert [(field, value), ("data", data)][..1] == [(field, value)];
  }

  /**
   * Whatever the data: an empty name, an id with a NUL, an id given by an earlier block only, and a block left open
   * are each dispatched differently.
   */
  lemma {:induction false} Departures(data: string, id: string, nul: string)
    requires id != "" && NUL !in id && NUL in nul
    ensures
      var unnamed := BlockLines([("event", ""), ("data", data)]) + [""];
      CodeDispatches(unnamed) != StandardDispatches(unnamed)
    ensures
      var broken := BlockLines([("id", nul), ("data", data)]) + [""];
      CodeDispatches(broken) != StandardDispatches(broken)
    ensures
      var carried := BlockLines([("id", id), ("data", data)]) + [""] + BlockLines([("data", data)]) + [""];
      CodeDispatches(carried) != StandardDispatches(carried)
    ensures
      var open := BlockLines([("data", data)]);
      CodeDispatches(open) != StandardDispatches(open)
  {
    hide Parse, BlockLines, Gathered, CodeDispatches, StandardDispatches, CarriedId;
    NoLines();
    GatherTwo("event", "", data);
    GatherTwo("id", nul, data);
    GatherTwo("id", id, data);
    GatherOne("data", data);
    ClosedFirst([("event", ""), ("data", data)]);
    ClosedFirst([("id", nul), ("data", data)]);
    ClosedFirst([("id", id), ("data", data)]);
    var first := BlockLines([("id", id), ("data", data)]) + [""];
    ParseClosed(first, [("data", data)]);
    ParseBlock([], [("data", data)]);
    assert [] + BlockLines([("data", data)]) == BlockLines([("data", data)]);
    DispatchedAlikeIff(BlockLines([("event", ""), ("data", data)]) + [""]);
    DispatchedAlikeIff(BlockLines([("id", nul), ("data", data)]) + [""]);
    DispatchedAlikeIff(first + BlockLines([("data", data)]) + [""]);
    DispatchedAlikeIff(BlockLines([("data", data)]));
    OneUnlike(Block([""], [], [data]));
    OneUnlike(Block([], [nul], [data]));
    CarriedUnlike(id, data);
  }

  lemma NoLines()
    ensures Parse([]) == Parsed([], NOTHING)
  {
  }

  lemma {:induction false} ClosedFirst(fields: seq<(string, string)>)
    requires forall f :: f in fields ==> f.0 in ["event", "id", "data"]
    ensures Parse(BlockLines(fields) + [""]) == Parsed([Gathered(fields)], NOTHING)
  {
    hide Parse, BlockLines, Gathered;
    NoLines();
    ParseClosed([], fields);
    assert [] + BlockLines(fields) == BlockLines(fields);
    assert [] + [Gathered(fields)] == [Gathered(fields)];
  }

  lemma OneUnlike(b: Block)
    requires b.data != []
    requires b.names == [""] || (|b.ids| == 1 && NUL in b.ids[0])
    ensures !AllConform([b])
  {
    assert !Conforms([b], 0);
  }

  lemma CarriedUnlike(id: string, data: string)
    requires id != "" && NUL !in id
    ensures !AllConform([Block([], [id], [data])] + [Block([], [], [data])])
  {
    var first := Block([], [id], [data]);
    var blocks := [first] + [Block([], [], [data])];
    assert blocks[..1] == [first] && [first][..0] == [];
    assert CarriedId([first]) == id;
    assert !Conforms(blocks, 1);
  }

  // ------------------------------------------------------------------------ line ends

  const BOM := '\U{FEFF}'

  /** Where the first line ends: at the first carriage return or line feed. */
  function LineLength(s: string): (n: nat)
    ensures n <= |s| && (n < |s| ==> s[n] == '\r' || s[n] == '\n')
    ensures OneLine(s[..n])
  {
    if s == "" || s[0] == '\r' || s[0] == '\n' then 0 else 1 + LineLength(s[1..])
  }

  /** The standard's lines end at a carriage return, a line feed, or both. */
  function EndedLines(s: string): seq<string>
    decreases |s|
  {
    if s == "" then []
    else
      var n := LineLength(s);
      if n == |s| then [s]
      else if s[n] == '\r' && n + 1 < |s| && s[n + 1] == '\n' then [s[..n]] + EndedLines(s[n + 2..])
      else [s[..n]] + EndedLines(s[n + 1..])
  }

  predicate LeadingBom(text: string) {
    text != "" && text[0] == BOM
  }

  function StandardLines(text: string): seq<string> {
    EndedLines(if LeadingBom(text) then text[1..] else text)
  }

  /** The lines as the reader takes them in. */
  function CodeLines(text: string): seq<string> {
    DropCrs(ScanLines(text))
  }

  /** A carriage return in front of anything but a line feed. */
  predicate LoneCr(text: string) {
    exists i :: 0 <= i < |text| - 1 && text[i] == '\r' && text[i + 1] != '\n'
  }

  lemma {:induction false} CodeLinesFirst(body: string, rest: string)
    requires '\n' !in body
    ensures CodeLines(body + ['\n'] + rest) == [DropCr(DropCr(body))] + CodeLines(rest)
  {
    hide ScanLines, DropCr;
    ScanBody(rest, body);
  }

  lemma {:induction false} CodeLinesLast(body: string)
    requires '\n' !in body
    ensures CodeLines(body) == if body == "" then [] else [DropCr(DropCr(body))]
  {
    hide DropCr;
    SplitNone(body, '\n');
    assert [body][..0] == [];
  }

  lemma {:induction false} CutAtLf(s: string) returns (n: nat)
    requires '\n' in s
    ensures n < |s| && s[n] == '\n' && '\n' !in s[..n]
  {
    n := 0;
    while s[n] != '\n'
      invariant n < |s| && '\n' !in s[..n] && '\n' in s[n..]
      decreases |s| - n
    {
      assert s[n..] == [s[n]] + s[n + 1..];
      assert s[..n + 1] == s[..n] + [s[n]];
      n := n + 1;
    }
  }

  /** A prefix without a line feed belongs to the first line. */
  lemma {:induction false} CodeLinesPrefix(x: string, s: string)
    requires '\n' !in x && s != ""
    ensures |CodeLines(x + s)| == |CodeLines(s)| && CodeLines(s) != []
    ensures x != "" && '\r' !in x ==> CodeLines(x + s)[0] == x + CodeLines(s)[0]
  {
    hide CodeLines, DropCr;
    if '\n' in s {
      var n := CutAtLf(s);
      var body, rest := s[..n], s[n + 1..];
      assert s == body + ['\n'] + rest;
      assert x + s == (x + body) + ['\n'] + rest;
      CodeLinesFirst(body, rest);
      CodeLinesFirst(x + body, rest);
      DropPrefix(x, body);
    } else {
      CodeLinesLast(s);
      CodeLinesLast(x + s);
      DropPrefix(x, s);
    }
  }

  lemma DropPrefix(x: string, s: string)
    ensures '\r' !in x ==> DropCr(DropCr(x + s)) == x + DropCr(DropCr(s))
  {
    if '\r' !in x {
      DropOnce(x, s);
      DropOnce(x, DropCr(s));
    }
  }

  lemma DropOnce(x: string, s: string)
    requires '\r' !in x
    ensures DropCr(x + s) == x + DropCr(s)
  {
    if s == "" {
      assert x + s == x;
      assert x != "" ==> x[|x| - 1] in x;
    } else {
      assert (x + s)[|x + s| - 1] == s[|s| - 1];
      assert (x + s)[..|x + s| - 1] == x + s[..|s| - 1];
    }
  }

  lemma DropPlain(s: string)
    requires OneLine(s)
    ensures DropCr(DropCr(s)) == s && DropCr(DropCr(s + ['\r'])) == s
  {
    assert s != "" ==> s[|s| - 1] in s;
    assert (s + ['\r'])[..|s|] == s;
  }

  lemma LoneCrRest(s: string, k: nat)
    requires k <= |s| && forall i :: 0 <= i < k && i < |s| - 1 ==> !(s[i] == '\r' && s[i + 1] != '\n')
    ensures LoneCr(s) <==> LoneCr(s[k..])
  {
    if LoneCr(s) {
      var i :| 0 <= i < |s| - 1 && s[i] == '\r' && s[i + 1] != '\n';
      assert s[k..][i - k] == s[i] && s[k..][i - k + 1] == s[i + 1];
    }
    if LoneCr(s[k..]) {
      var i :| 0 <= i < |s[k..]| - 1 && s[k..][i] == '\r' && s[k..][i + 1] != '\n';
      assert s[k + i] == '\r' && s[k + i + 1] != '\n';
    }
  }

  /** The first line, also with a carriage return after it, is a line for both. */
  lemma FirstLine(s: string, n: nat)
    requires n <= |s| && OneLine(s[..n])
    ensures forall i :: 0 <= i < n ==> s[i] != '\r'
    ensures '\r' !in s[..n] && '\n' !in s[..n] && '\n' !in s[..n] + ['\r']
    ensures DropCr(DropCr(s[..n])) == s[..n] && DropCr(DropCr(s[..n] + ['\r'])) == s[..n]
  {
    hide DropCr;
    DropPlain(s[..n]);
    assert forall i :: 0 <= i < n ==> s[i] == s[..n][i] && s[i] in s[..n];
  }

  lemma PartsAt(s: string, n: nat)
    requires n < |s|
    ensures s == s[..n] + [s[n]] + s[n + 1..]
    ensures n + 1 == |s| ==> s == s[..n] + [s[n]]
    ensures n + 1 < |s| ==> s == (s[..n] + [s[n]]) + [s[n + 1]] + s[n + 2..]
  {
  }

  /** Without a lone carriage return both split alike; with one, the standard finds more lines. */
  lemma {:induction false} LinesAlike(s: string)
    ensures |EndedLines(s)| >= |CodeLines(s)|
    ensures if LoneCr(s) then |EndedLines(s)| > |CodeLines(s)| else EndedLines(s) == CodeLines(s)
    decreases |s|
  {
    hide CodeLines, DropCr, LoneCr, LineLength, OneLine;
    var n := LineLength(s);
    var line := s[..n];
    FirstLine(s, n);
    if n < |s| {
      PartsAt(s, n);
    }
    if n == |s| {
      assert s == line;
      CodeLinesLast(s);
      LoneCrRest(s, n);
      NoLoneCr(s[n..]);
    } else if s[n] == '\n' {
      var rest := s[n + 1..];
      CodeLinesFirst(line, rest);
      LoneCrRest(s, n + 1);
      LinesAlike(rest);
    } else if n + 1 == |s| {
      assert s[n + 1..] == "";
      CodeLinesLast(s);
      LoneCrRest(s, n + 1);
      NoLoneCr(s[n + 1..]);
    } else if s[n + 1] == '\n' {
      var rest := s[n + 2..];
      CodeLinesFirst(line + ['\r'], rest);
      LoneCrRest(s, n + 2);
      LinesAlike(rest);
    } else {
      var rest := s[n + 1..];
      CodeLinesPrefix(line + ['\r'], rest);
      LinesAlike(rest);
      LoneCrAt(s, n);
    }
  }

  lemma NoLoneCr(s: string)
    requires s == ""
    ensures !LoneCr(s)
  {
  }

  lemma LoneCrAt(s: string, n: nat)
    requires n + 1 < |s| && s[n] == '\r' && s[n + 1] != '\n'
    ensures LoneCr(s)
  {
  }

  /** Text is split into the standard's lines exactly when it has no lone carriage return and no leading BOM. */
  lemma {:induction false} LinesAlikeIff(text: string)
    ensures CodeLines(text) == StandardLines(text) <==> !LoneCr(text) && !LeadingBom(text)
  {
    hide CodeLines, EndedLines, LoneCr;
    if LeadingBom(text) {
      var rest := text[1..];
      assert text == [BOM] + rest;
      LinesAlike(rest);
      if rest == "" {
        CodeLinesLast(text);
        CodeLinesLast("");
        NoLoneCr(rest);
      } else {
        CodeLinesPrefix([BOM], rest);
      }
    } else {
      LinesAlike(text);
    }
  }

  lemma {:induction false} FirstLineEnds(body: string, s: string)
    requires OneLine(body) && s != "" && (s[0] == '\r' || s[0] == '\n')
    ensures LineLength(body + s) == |body|
  {
    if body == "" {
      assert body + s == s;
    } else {
      assert (body + s)[0] == body[0] && body[0] in body && (body + s)[1..] == body[1..] + s;
      FirstLineEnds(body[1..], s);
    }
  }

  lemma {:induction false} EndedFirst(body: string, eol: char, rest: string)
    requires OneLine(body) && (eol == '\n' || (eol == '\r' && (rest == "" || rest[0] != '\n')))
    ensures EndedLines(body + [eol] + rest) == [body] + EndedLines(rest)
  {
    var s := body + [eol] + rest;
    assert s == body + ([eol] + rest);
    FirstLineEnds(body, [eol] + rest);
    assert s[..|body|] == body && s[|body| + 1..] == rest;
  }

  /** The text of one event with two data lines, the first of which ends in `eol`. */
  function TwoDataLines(x: string, eol: char, y: string): string {
    "data: " + x + [eol] + ("data: " + y + ['\n'] + (['\n'] + ""))
  }

  lemma {:induction false} DispatchData(fields: seq<string>)
    ensures
      var lines := DataFields(fields) + [""];
      var expected := if fields == [] then [] else [Raw("message", "", fields)];
      CodeDispatches(lines) == expected && StandardDispatches(lines) == expected
  {
    hide Parse, StandardAll, ParseLine;
    DataOpen(fields);
    ParseMore(DataFields(fields), "");
    CloseData(fields);
    StandardIsBlocks(DataFields(fields) + [""]);
  }

  lemma CloseData(fields: seq<string>)
    ensures ParseLine(Parsed([], Block([], [], fields)), "") == Parsed([Block([], [], fields)], NOTHING)
    ensures CodeEvents([Block([], [], fields)]) == StandardEvents([Block([], [], fields)]) ==
      if fields == [] then [] else [Raw("message", "", fields)]
  {
    var blocks := [Block([], [], fields)];
    assert [] + [blocks[0]] == blocks && blocks[..0] == [];
    assert CodeEvents(blocks[..0]) == [] && StandardEvents(blocks[..0]) == [] && CarriedId(blocks[..0]) == "";
    IdNone("");
    assert CodeEvent(blocks[0]) == Raw("message", "", fields) == Raw(StandardName(blocks[0]), CarriedId(blocks), fields);
  }

  function DataFields(fields: seq<string>): seq<string> {
    if fields == [] then [] else DataFields(fields[..|fields| - 1]) + ["data: " + fields[|fields| - 1]]
  }

  lemma {:induction false} DataOpen(fields: seq<string>)
    ensures Parse(DataFields(fields)) == Parsed([], Block([], [], fields))
  {
    hide Parse, ParseLine;
    NoLines();
    if fields != [] {
      var front, last := fields[..|fields| - 1], fields[|fields| - 1];
      DataOpen(front);
      ParseMore(DataFields(front), "data: " + last);
      assert "data" + ": " == "data: ";
      ParseField(Parsed([], Block([], [], front)), "data", last);
      assert front + [last] == fields;
    }
  }

  /** A lone carriage return ends the standard's line, and not the reader's: two data lines become one. */
  lemma {:induction false} LoneCrJoins(x: string, y: string)
    requires OneLine(x) && OneLine(y)
    ensures StandardDispatches(StandardLines(TwoDataLines(x, '\r', y))) == [Raw("message", "", [x, y])]
    ensures CodeDispatches(CodeLines(TwoDataLines(x, '\r', y))) == [Raw("message", "", [x + ['\r'] + "data: " + y])]
  {
    hide EndedLines, CodeLines, CodeDispatches, StandardDispatches, DropCr;
    var text, dx, dy := TwoDataLines(x, '\r', y), "data: " + x, "data: " + y;
    OneLineConcat("data: ", x);
    OneLineConcat("data: ", y);
    EndedFirst(dx, '\r', dy + ['\n'] + (['\n'] + ""));
    EndedFirst(dy, '\n', ['\n'] + "");
    assert "" + ['\n'] + "" == ['\n'] + "";
    EndedFirst("", '\n', "");
    EndedNone();
    assert [dx] + ([dy] + ([""] + [])) == [dx, dy] + [""];
    assert DataFields([x, y]) == [dx, dy] by { DataTwo(x, y); }
    DispatchData([x, y]);
    var joined := x + ['\r'] + "data: " + y;
    assert text == ("data: " + joined) + ['\n'] + (['\n'] + "");
    CodeLinesFirst("data: " + joined, ['\n'] + "");
    CodeLinesFirst("", "");
    CodeLinesLast("");
    NoCrAtEnd(dx + ['\r'], dy);
    assert "data: " + joined == dx + ['\r'] + dy;
    DropPlain("");
    assert DataFields([joined]) == ["data: " + joined] by { DataOne(joined); }
    assert ["data: " + joined] + ([""] + []) == ["data: " + joined] + [""];
    DispatchData([joined]);
  }

  lemma EndedNone()
    ensures EndedLines("") == []
  {
  }

  lemma DataOne(x: string)
    ensures DataFields([x]) == ["data: " + x]
  {
    assert [x][..0] == [];
  }

  lemma DataTwo(x: string, y: string)
    ensures DataFields([x, y]) == ["data: " + x, "data: " + y]
  {
    DataOne(x);
    assert [x, y][..1] == [x];
  }

  lemma NoCrAtEnd(x: string, s: string)
    requires s != "" && OneLine(s)
    ensures DropCr(DropCr(x + s)) == x + s
  {
    assert (x + s)[|x + s| - 1] == s[|s| - 1] && s[|s| - 1] in s;
  }

  /** A leading BOM hides the first field from the reader. */
  lemma {:induction false} BomHides(x: string)
    requires OneLine(x)
    ensures
      var text := [BOM] + ("data: " + x + ['\n'] + (['\n'] + ""));
      && StandardDispatches(StandardLines(text)) == [Raw("message", "", [x])]
      && CodeDispatches(CodeLines(text)) == []
  {
    hide EndedLines, CodeLines, CodeDispatches, StandardDispatches, DropCr, Cut, DataFields;
    var line := "data: " + x;
    var rest := line + ['\n'] + (['\n'] + "");
    var text := [BOM] + rest;
    assert text[1..] == rest;
    OneLineConcat("data: ", x);
    EndedFirst(line, '\n', ['\n'] + "");
    assert "" + ['\n'] + "" == ['\n'] + "";
    EndedFirst("", '\n', "");
    EndedNone();
    DataOne(x);
    assert [line] + ([""] + []) == [line] + [""];
    DispatchData([x]);
    var marked := [BOM] + line;
    assert text == marked + ['\n'] + (['\n'] + "");
    CodeLinesFirst(marked, ['\n'] + "");
    CodeLinesFirst("", "");
    CodeLinesLast("");
    NoCrAtEnd([BOM], line);
    DropPlain("");
    assert marked == ([BOM] + "data") + [':'] + (" " + x);
    CutAt([BOM] + "data", " " + x);
    UnknownDispatchesNothing(marked);
    assert [marked] + ([""] + []) == [] + [marked] + [""];
  }

  lemma {:induction false} UnknownDispatchesNothing(line: string)
    requires line != "" && line[0] != ':' && Cut(line).0 !in ["event", "id", "data"]
    ensures CodeDispatches([] + [line] + [""]) == []
  {
    hide Cut, Parse;
    NoLines();
    ParseMore([], line);
    ParseMore([] + [line], "");
    CloseData([]);
  }

  /** From such text both dispatch the same events exactly when its blocks conform and none with data is left open. */
  lemma {:induction false} TextDispatchedAlikeIff(text: string)
    requires !LoneCr(text) && !LeadingBom(text)
    ensures CodeDispatches(DropCrs(ScanLines(text))) == StandardDispatches(StandardLines(text)) <==>
      AllConform(Parse(StandardLines(text)).closed) && Parse(StandardLines(text)).open.data == []
  {
    hide Parse, AllConform, CodeDispatches, StandardDispatches, LoneCr, ScanLines, StandardLines;
    LinesAlikeIff(text);
    DispatchedAlikeIff(StandardLines(text));
  }

  /** Then every client is given what the standard's dispatches give it. */
  lemma {:induction false} DeliveredAlike<J>(c: Client<J>, text: string, contextDone: bool)
    requires !LoneCr(text) && !LeadingBom(text)
    requires AllConform(Parse(StandardLines(text)).closed) && Parse(StandardLines(text)).open.data == []
    ensures Finish(c, FeedAll(c, Fresh([]), ScanLines(text)), false, contextDone) ==
      Ended(Consume(c, StandardDispatches(StandardLines(text))), contextDone)
  {
    hide Finish, FeedAll, Consume, Parse, AllConform, CodeDispatches, StandardDispatches, LoneCr, ScanLines, StandardLines;
    TextDispatchedAlikeIff(text);
    ReaderConsumes(c, ScanLines(text), contextDone);
  }
}
