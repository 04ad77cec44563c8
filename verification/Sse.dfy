/**
 Draining server-sent events from a text buffer (clients/vscode/protocol.js,
 `drainSse` and `reduceEventCursor`), a reduced form of the event stream of
 section 9.2 of the WHATWG HTML Standard. `JSON.parse`, and `Number` on text that is
 not a plain decimal numeral, are parameters.
 */
module Sse {
  import opened Wrappers
  import opened Lines
  import opened Decimals

  /** A JavaScript number, as far as `Number.isSafeInteger` tells numbers apart. */
  datatype JsNumber = Safe(n: int) | NotSafe

  const MAX_SAFE := 9007199254740991

  datatype Reader<!J> = Reader(json: string -> Option<J>, otherNumber: string -> JsNumber)

  datatype SseEvent<J> = SseEvent(id: JsNumber, kind: string, envelope: J)

  // ----- trim and Number

  predicate IsSpace(c: char) {
    var n := c as int;
    || 9 <= n <= 13 || n == 0x20 || n == 0xA0 || n == 0x1680 || 0x2000 <= n <= 0x200A
    || n == 0x2028 || n == 0x2029 || n == 0x202F || n == 0x205F || n == 0x3000 || n == 0xFEFF
  }

  function TrimLeft(s: string): string {
    if s != "" && IsSpace(s[0]) then TrimLeft(s[1..]) else s
  }

  function TrimRight(s: string): string {
    if s != "" && IsSpace(s[|s| - 1]) then TrimRight(s[..|s| - 1]) else s
  }

  function Trim(s: string): string { TrimRight(TrimLeft(s)) }

  function Number<J>(reader: Reader<J>, s: string): JsNumber {
    if AllDigits(s) then (if Value(s) <= MAX_SAFE then Safe(Value(s)) else NotSafe) else reader.otherNumber(s)
  }

  // ----- One frame

  datatype Fields = Fields(id: JsNumber, kind: string, data: string)

  function ReadField<J>(reader: Reader<J>, fields: Fields, line: string): Fields {
    if "id:" <= line then fields.(id := Number(reader, Trim(line[3..])))
    else if "event:" <= line then fields.(kind := Trim(line[6..]))
    else if "data:" <= line then fields.(data := fields.data + Trim(line[5..]))
    else fields
  }

  function ReadFields<J>(reader: Reader<J>, fields: Fields, lines: seq<string>): Fields
    decreases lines
  {
    if lines == [] then fields else ReadFields(reader, ReadField(reader, fields, lines[0]), lines[1..])
  }

  const NO_FIELDS := Fields(Safe(0), "message", "")

  /** The events of one frame: none without data, and an error when the data is not JSON. */
  function FrameEvents<J>(reader: Reader<J>, block: string): Result<seq<SseEvent<J>>, string> {
    var fields := ReadFields(reader, NO_FIELDS, Split(block));
    if fields.data == "" then Ok([])
    else
      match reader.json(fields.data)
      case None => Err(fields.data)
      case Some(envelope) => Ok([SseEvent(fields.id, fields.kind, envelope)])
  }

  // ----- Draining

  predicate BoundaryAt(s: string, i: int) {
    0 <= i && i + 2 <= |s| && s[i] == '\n' && s[i + 1] == '\n'
  }

  ghost predicate NoBoundary(s: string) {
    forall i :: !BoundaryAt(s, i)
  }

  /** `buffer.indexOf("\n\n")` from `from` on. */
  function BoundaryFrom(s: string, from: nat): (r: Option<nat>)
    requires from <= |s|
    ensures r.Some? ==> from <= r.value && BoundaryAt(s, r.value)
    ensures r.Some? ==> forall i :: from <= i < r.value ==> !BoundaryAt(s, i)
    ensures r.None? ==> forall i :: from <= i ==> !BoundaryAt(s, i)
    decreases |s| - from
  {
    if BoundaryAt(s, from) then Some(from)
    else if from == |s| then None
    else BoundaryFrom(s, from + 1)
  }

  datatype Drained<J> = Drained(events: seq<SseEvent<J>>, remainder: string)

  function Prepend<J>(events: seq<SseEvent<J>>, r: Result<Drained<J>, string>): Result<Drained<J>, string> {
    match r
    case Err(e) => Err(e)
    case Ok(d) => Ok(Drained(events + d.events, d.remainder))
  }

  function Drain<J>(reader: Reader<J>, buffer: string): Result<Drained<J>, string>
    decreases |buffer|
  {
    match BoundaryFrom(buffer, 0)
    case None => Ok(Drained([], buffer))
    case Some(i) =>
      match FrameEvents(reader, buffer[..i])
      case Err(e) => Err(e)
      case Ok(events) => Prepend(events, Drain(reader, buffer[i + 2..]))
  }

  /** The field loop of one frame. */
  method ReadFrame<J>(reader: Reader<J>, block: string) returns (r: Result<seq<SseEvent<J>>, string>)
    ensures r == FrameEvents(reader, block)
  {
    var lines := Split(block);
    var fields := NO_FIELDS;
    for k := 0 to |lines|
      invariant ReadFields(reader, fields, lines[k..]) == ReadFields(reader, NO_FIELDS, lines)
    {
      assert lines[k..][1..] == lines[k + 1..];
      fields := ReadField(reader, fields, lines[k]);
    }
    if fields.data == "" { return Ok([]); }
    var envelope := reader.json(fields.data);
    return if envelope.None? then Err(fields.data) else Ok([SseEvent(fields.id, fields.kind, envelope.value)]);
  }

  method DrainSse<J>(reader: Reader<J>, text: string) returns (r: Result<Drained<J>, string>)
    ensures r == Drain(reader, text)
    ensures r.Ok? ==> NoBoundary(r.value.remainder)
  {
    var events: seq<SseEvent<J>> := [];
    var buffer := text;
    var boundary := BoundaryFrom(buffer, 0);
    PrependNothing(Drain(reader, text));
    while boundary.Some?
      invariant boundary == BoundaryFrom(buffer, 0)
      invariant Prepend(events, Drain(reader, buffer)) == Drain(reader, text)
      decreases |buffer|
    {
      var frame := ReadFrame(reader, buffer[..boundary.value]);
      if frame.Err? { return Err(frame.error); }
      PrependTwice(events, frame.value, Drain(reader, buffer[boundary.value + 2..]));
      buffer := buffer[boundary.value + 2..];
      events := events + frame.value;
      boundary := BoundaryFrom(buffer, 0);
    }
    assert events + [] == events;
    return Ok(Drained(events, buffer));
  }

  lemma PrependTwice<J>(a: seq<SseEvent<J>>, b: seq<SseEvent<J>>, r: Result<Drained<J>, string>)
    ensures Prepend(a, Prepend(b, r)) == Prepend(a + b, r)
  {
    if r.Ok? { assert a + (b + r.value.events) == a + b + r.value.events; }
  }

  lemma PrependNothing<J>(r: Result<Drained<J>, string>)
    ensures Prepend([], r) == r
  {
    if r.Ok? { assert [] + r.value.events == r.value.events; }
  }

  /** No remainder contains a frame boundary. */
  lemma {:induction false} RemainderHasNoBoundary<J>(reader: Reader<J>, buffer: string)
    ensures Drain(reader, buffer).Ok? ==> NoBoundary(Drain(reader, buffer).value.remainder)
    decreases |buffer|
  {
    match BoundaryFrom(buffer, 0) {
      case None =>
      case Some(i) => RemainderHasNoBoundary(reader, buffer[i + 2..]);
    }
  }

  // ----- Chunk independence

  /** Draining `a`, carrying the remainder into `b`, and draining again. */
  function DrainThen<J>(reader: Reader<J>, a: string, b: string): Result<Drained<J>, string> {
    match Drain(reader, a)
    case Err(e) => Err(e)
    case Ok(d) => Prepend(d.events, Drain(reader, d.remainder + b))
  }

  lemma BoundaryOfPrefix(a: string, b: string, i: nat)
    requires BoundaryFrom(a, 0) == Some(i)
    ensures BoundaryFrom(a + b, 0) == Some(i)
  {
    assert BoundaryAt(a + b, i);
    forall k | 0 <= k < i
      ensures !BoundaryAt(a + b, k)
    {
      assert !BoundaryAt(a, k);
    }
  }

  lemma {:induction false} DrainConcat<J>(reader: Reader<J>, a: string, b: string)
    ensures Drain(reader, a + b) == DrainThen(reader, a, b)
    decreases |a|
  {
    match BoundaryFrom(a, 0) {
      case None =>
        PrependNothing(Drain(reader, a + b));
      case Some(i) =>
        BoundaryOfPrefix(a, b, i);
        assert (a + b)[..i] == a[..i] && (a + b)[i + 2..] == a[i + 2..] + b;
        DrainConcat(reader, a[i + 2..], b);
        match FrameEvents(reader, a[..i]) {
          case Err(_) =>
          case Ok(events) =>
            match Drain(reader, a[i + 2..]) {
              case Err(_) =>
              case Ok(d) => PrependTwice(events, d.events, Drain(reader, d.remainder + b));
            }
        }
    }
  }

  function Concat(chunks: seq<string>): string {
    if chunks == [] then "" else chunks[0] + Concat(chunks[1..])
  }

  /** The reader loop of a connection: each chunk is drained behind the carried remainder. */
  function DrainChunks<J>(reader: Reader<J>, carried: string, chunks: seq<string>): Result<Drained<J>, string>
    decreases chunks
  {
    if chunks == [] then Ok(Drained([], carried))
    else
      match Drain(reader, carried + chunks[0])
      case Err(e) => Err(e)
      case Ok(d) => Prepend(d.events, DrainChunks(reader, d.remainder, chunks[1..]))
  }

  /** However a stream is cut into chunks, draining them gives the events and the remainder of the whole. */
  lemma {:induction false} ChunkingIsInvisible<J>(reader: Reader<J>, carried: string, chunks: seq<string>)
    requires NoBoundary(carried)
    ensures DrainChunks(reader, carried, chunks) == Drain(reader, carried + Concat(chunks))
    decreases chunks
  {
    if chunks == [] {
      assert carried + "" == carried;
    } else {
      var a, b := carried + chunks[0], Concat(chunks[1..]);
      assert carried + Concat(chunks) == a + b;
      DrainConcat(reader, a, b);
      RemainderHasNoBoundary(reader, a);
      match Drain(reader, a) {
        case Err(_) =>
        case Ok(d) => ChunkingIsInvisible(reader, d.remainder, chunks[1..]);
      }
    }
  }

  // ----- What the daemon writes

  /** A frame of the stream: an event, or the comment that keeps the connection open. */
  datatype Frame = Event(id: nat, kind: string, data: string) | KeepAlive

  function FrameLines(f: Frame): seq<string> {
    match f
    case Event(id, kind, data) => ["id: " + ToDecimal(id), "event: " + kind, "data: " + data]
    case KeepAlive => [":"]
  }

  function Encode(frames: seq<Frame>): string {
    if frames == [] then "" else Join(FrameLines(frames[0])) + "\n\n" + Encode(frames[1..])
  }

  /** An event the daemon can write: one JSON line, no blanks around it, a safe positive id. */
  predicate Writable<J>(reader: Reader<J>, f: Frame) {
    f.Event? ==>
      && 0 < f.id <= MAX_SAFE
      && NEWLINE !in f.kind && Trim(f.kind) == f.kind
      && NEWLINE !in f.data && Trim(f.data) == f.data && f.data != ""
      && reader.json(f.data).Some?
  }

  function EventOf<J>(reader: Reader<J>, f: Frame): SseEvent<J>
    requires f.Event? && Writable(reader, f)
  {
    SseEvent(Safe(f.id), f.kind, reader.json(f.data).value)
  }

  ghost predicate AllWritable<J>(reader: Reader<J>, frames: seq<Frame>) {
    forall f :: f in frames ==> Writable(reader, f)
  }

  ghost function EventsOf<J>(reader: Reader<J>, frames: seq<Frame>): seq<SseEvent<J>>
    requires AllWritable(reader, frames)
  {
    if frames == [] then []
    else (if frames[0].Event? then [EventOf(reader, frames[0])] else []) + EventsOf(reader, frames[1..])
  }

  lemma TrimTight(s: string)
    requires s != "" ==> !IsSpace(s[0]) && !IsSpace(s[|s| - 1])
    ensures Trim(s) == s
  {
  }

  lemma TrimBlank(s: string)
    ensures Trim([' '] + s) == Trim(s)
  {
    assert ([' '] + s)[1..] == s;
  }

  lemma DecimalIsTight(n: nat)
    ensures Trim(ToDecimal(n)) == ToDecimal(n)
  {
    var s := ToDecimal(n);
    assert s[0] in s && s[|s| - 1] in s;
    TrimTight(s);
  }

  lemma ReadIdLine<J>(reader: Reader<J>, fields: Fields, id: nat)
    requires id <= MAX_SAFE
    ensures ReadField(reader, fields, "id: " + ToDecimal(id)) == fields.(id := Safe(id))
  {
    var line := "id: " + ToDecimal(id);
    assert line[..3] == "id:" && line[3..] == [' '] + ToDecimal(id);
    TrimBlank(ToDecimal(id));
    DecimalIsTight(id);
    ValueOfDecimal(id);
  }

  lemma ReadKindLine<J>(reader: Reader<J>, fields: Fields, kind: string)
    requires Trim(kind) == kind
    ensures ReadField(reader, fields, "event: " + kind) == fields.(kind := kind)
  {
    var line := "event: " + kind;
    assert line[0] == 'e' && line[..6] == "event:" && line[6..] == [' '] + kind;
    TrimBlank(kind);
  }

  lemma ReadDataLine<J>(reader: Reader<J>, fields: Fields, data: string)
    requires Trim(data) == data
    ensures ReadField(reader, fields, "data: " + data) == fields.(data := fields.data + data)
  {
    var line := "data: " + data;
    assert line[0] == 'd' && line[..5] == "data:" && line[5..] == [' '] + data;
    TrimBlank(data);
  }

  lemma ReadThree<J>(reader: Reader<J>, fields: Fields, a: string, b: string, c: string)
    ensures ReadFields(reader, fields, [a, b, c])
            == ReadField(reader, ReadField(reader, ReadField(reader, fields, a), b), c)
  {
    assert [a, b, c][1..] == [b, c] && [b, c][1..] == [c] && [c][1..] == [];
    var fa := ReadField(reader, fields, a);
    var fb := ReadField(reader, fa, b);
    assert ReadFields(reader, fb, [c]) == ReadField(reader, fb, c);
    assert ReadFields(reader, fa, [b, c]) == ReadFields(reader, fb, [c]);
  }

  lemma ReadEventLines<J>(reader: Reader<J>, f: Frame)
    requires f.Event? && Writable(reader, f)
    ensures ReadFields(reader, NO_FIELDS, FrameLines(f)) == Fields(Safe(f.id), f.kind, f.data)
  {
    ReadThree(reader, NO_FIELDS, "id: " + ToDecimal(f.id), "event: " + f.kind, "data: " + f.data);
    ReadIdLine(reader, NO_FIELDS, f.id);
    ReadKindLine(reader, NO_FIELDS.(id := Safe(f.id)), f.kind);
    ReadDataLine(reader, NO_FIELDS.(id := Safe(f.id), kind := f.kind), f.data);
    assert "" + f.data == f.data;
  }

  lemma FrameLinesAreLines<J>(reader: Reader<J>, f: Frame)
    requires Writable(reader, f)
    ensures FrameLines(f) != []
    ensures forall line :: line in FrameLines(f) ==> line != "" && NEWLINE !in line
  {
    if f.Event? {
      var digits := ToDecimal(f.id);
      assert NEWLINE !in digits by { assert !IsDigit(NEWLINE); }
      assert NEWLINE !in "id: " + digits;
      assert NEWLINE !in "event: " + f.kind;
      assert NEWLINE !in "data: " + f.data;
    }
  }

  lemma FrameReads<J>(reader: Reader<J>, f: Frame)
    requires Writable(reader, f)
    ensures FrameEvents(reader, Join(FrameLines(f))) == Ok(if f.Event? then [EventOf(reader, f)] else [])
  {
    FrameLinesAreLines(reader, f);
    SplitJoin(FrameLines(f));
    if f.Event? {
      ReadEventLines(reader, f);
    } else {
      assert [":"][1..] == [];
      assert ReadField(reader, NO_FIELDS, ":") == NO_FIELDS;
      assert ReadFields(reader, NO_FIELDS, [":"]) == NO_FIELDS;
    }
  }

  /** Non-empty lines join to a block without an empty line in it or at its end. */
  lemma {:induction false} BlockHasNoBoundary(lines: seq<string>)
    requires lines != [] && forall line :: line in lines ==> line != "" && NEWLINE !in line
    ensures Join(lines) != "" && Join(lines)[0] != NEWLINE && Join(lines)[|Join(lines)| - 1] != NEWLINE
    ensures NoBoundary(Join(lines))
  {
    var first := lines[0];
    assert first in lines && first[0] in first && first[|first| - 1] in first;
    if |lines| > 1 {
      assert forall line :: line in lines[1..] ==> line in lines;
      BlockHasNoBoundary(lines[1..]);
      var rest := Join(lines[1..]);
      var s := first + [NEWLINE] + rest;
      forall i
        ensures !BoundaryAt(s, i)
      {
        if 0 <= i < |first| {
          assert s[i] == first[i] && first[i] in first;
        } else if i > |first| && i + 2 <= |s| {
          assert s[i] == rest[i - |first| - 1] && s[i + 1] == rest[i - |first|];
          assert !BoundaryAt(rest, i - |first| - 1);
        }
      }
    } else {
      forall i
        ensures !BoundaryAt(first, i)
      {
        if 0 <= i < |first| { assert first[i] in first; }
      }
    }
  }

  lemma BoundaryAfterBlock(block: string, rest: string)
    requires block != "" && NoBoundary(block) && block[|block| - 1] != NEWLINE
    ensures BoundaryFrom(block + "\n\n" + rest, 0) == Some(|block|)
  {
    var s := block + "\n\n" + rest;
    assert BoundaryAt(s, |block|);
    forall i | 0 <= i < |block|
      ensures !BoundaryAt(s, i)
    {
      assert s[i] == block[i];
      assert !BoundaryAt(block, i);
    }
  }

  /** Draining what the daemon wrote gives its events, one for each event frame, and leaves nothing. */
  lemma {:induction false} DrainEncoded<J>(reader: Reader<J>, frames: seq<Frame>)
    requires AllWritable(reader, frames)
    ensures Drain(reader, Encode(frames)) == Ok(Drained(EventsOf(reader, frames), ""))
  {
    if frames != [] {
      var f := frames[0];
      assert f in frames;
      DrainEncoded(reader, frames[1..]);
      FrameLinesAreLines(reader, f);
      BlockHasNoBoundary(FrameLines(f));
      var block, rest := Join(FrameLines(f)), Encode(frames[1..]);
      var s := block + "\n\n" + rest;
      BoundaryAfterBlock(block, rest);
      assert s[..|block|] == block && s[|block| + 2..] == rest;
      FrameReads(reader, f);
    }
  }

  /** A stream cut anywhere and delivered in any chunks yields a prefix of its events. */
  lemma CutStream<J>(reader: Reader<J>, frames: seq<Frame>, chunks: seq<string>)
    requires AllWritable(reader, frames)
    requires Concat(chunks) <= Encode(frames)
    ensures DrainChunks(reader, "", chunks).Ok?
    ensures DrainChunks(reader, "", chunks).value.events <= EventsOf(reader, frames)
  {
    var received, missing := Concat(chunks), Encode(frames)[|Concat(chunks)|..];
    ChunkingIsInvisible(reader, "", chunks);
    assert "" + received == received && received + missing == Encode(frames);
    DrainEncoded(reader, frames);
    DrainConcat(reader, received, missing);
  }

  // ----- The cursor

  datatype Reduction = Reduction(accepted: bool, cursor: int)

  predicate IsSafeInteger(n: int) { -MAX_SAFE <= n <= MAX_SAFE }

  function ReduceEventCursor(cursor: int, sequence: JsNumber): (r: Option<Reduction>)
    ensures r.Some? <==> cursor >= 0 && IsSafeInteger(cursor) && sequence.Safe? && 0 < sequence.n <= MAX_SAFE
    ensures r.Some? ==> r.value.cursor >= cursor && (r.value.accepted <==> r.value.cursor > cursor)
  {
    if !IsSafeInteger(cursor) || cursor < 0 || sequence.NotSafe? || sequence.n <= 0 || sequence.n > MAX_SAFE then None
    else if sequence.n <= cursor then Some(Reduction(false, cursor))
    else Some(Reduction(true, sequence.n))
  }
}
