/**
 The event stream between daemon and web client: the server prints one frame per event with
 keep-alive comments in between, the client feeds whatever chunks arrive to a frame parser. The
 frames are the subset of server-sent events (WHATWG HTML Living Standard, sections 9.2.4 to 9.2.6)
 in which lines end in a line feed and values are trimmed.
 */
module Sse {
  import opened Wrappers
  import opened Delimited
  import opened Decimal
  import opened Cursor
  import Codec

  // ---- the server ----

  const BLANK := "\n\n"
  const PING := ": ping"

  /** What makes the server write: its keep-alive timer or an event from the subscription. */
  datatype Incoming = KeepAlive | Event(event: CursorEvent)

  /** How the subscription ended. */
  datatype Ending = Finished | CursorLost(requested: nat, oldest: nat) | Gone(reason: string) | Broken(message: string)

  function EventAndData(event: Option<string>, data: string): string {
    (if event.Some? then "event: " + event.value + "\n" else "") + ("data: " + data)
  }

  /** The lines of one frame, without the blank line that ends it. */
  function Block(id: Option<nat>, event: Option<string>, data: string): string {
    (if id.Some? then "id: " + Print(id.value) + "\n" else "")
    + EventAndData(event, data)
  }

  function Frame(e: CursorEvent, isMarker: bool): string {
    Block(Some(e.id), if isMarker then Some("terminated") else None, e.data)
  }

  /** An error after the headers are out is one last frame. */
  function EndingEvent(ending: Ending): Option<(string, string)> {
    match ending
    case Finished => None
    case CursorLost(requested, oldest) =>
      Some(("cursor_lost", "{\"requested\":" + Print(requested) + ",\"oldestAvailable\":" + Print(oldest) + "}"))
    case Gone(reason) => Some(("terminated", "{\"reason\":" + Codec.Quote(reason) + "}"))
    case Broken(message) => Some(("error", "{\"message\":" + Codec.Quote(message) + "}"))
  }

  function EndingFrame(ending: Ending): Option<string> {
    match EndingEvent(ending)
    case None => None
    case Some((name, data)) => Some(Block(None, Some(name), data))
  }

  function Written(one: Incoming, isMarker: string -> bool): string {
    match one
    case KeepAlive => PING
    case Event(e) => Frame(e, isMarker(e.data))
  }

  function Wire(pieces: seq<string>): string {
    if pieces == [] then "" else pieces[0] + BLANK + Wire(pieces[1..])
  }

  predicate IsExit(one: Incoming, isMarker: string -> bool) { one.Event? && isMarker(one.event.data) }

  /** What is written: everything up to and including the first exit marker, or to the end and then how it ended. */
  function Sent(incoming: seq<Incoming>, ending: Ending, isMarker: string -> bool): seq<string>
    decreases |incoming|
  {
    if incoming == [] then match EndingFrame(ending) case None => [] case Some(last) => [last]
    else
      [Written(incoming[0], isMarker)] +
      (if IsExit(incoming[0], isMarker) then [] else Sent(incoming[1..], ending, isMarker))
  }

  lemma WireFirst(incoming: seq<Incoming>, ending: Ending, isMarker: string -> bool, before: string)
    requires incoming != []
    ensures before + Wire(Sent(incoming, ending, isMarker))
         == (before + (Written(incoming[0], isMarker) + BLANK))
            + (if IsExit(incoming[0], isMarker) then "" else Wire(Sent(incoming[1..], ending, isMarker)))
  {
    hide EndingFrame, Written;
    var first := Written(incoming[0], isMarker);
    var rest := if IsExit(incoming[0], isMarker) then [] else Sent(incoming[1..], ending, isMarker);
    assert ([first] + rest)[1..] == rest;
    assert before + (first + BLANK + Wire(rest)) == (before + (first + BLANK)) + Wire(rest);
  }

  method WriteEvent(e: CursorEvent, isTerminated: bool) returns (text: string)
    ensures text == Frame(e, isTerminated) + BLANK
  {
    hide Print;
    if isTerminated {
      return "id: " + Print(e.id) + "\nevent: terminated\ndata: " + e.data + "\n\n";
    }
    return "id: " + Print(e.id) + "\ndata: " + e.data + "\n\n";
  }

  /** The loop that writes frames until the exit marker, the end of the subscription or an error. */
  method StreamEvents(incoming: seq<Incoming>, ending: Ending, isMarker: string -> bool) returns (response: string)
    ensures response == Wire(Sent(incoming, ending, isMarker))
  {
    response := "";
    for i := 0 to |incoming|
      invariant Wire(Sent(incoming, ending, isMarker)) == response + Wire(Sent(incoming[i..], ending, isMarker))
    {
      hide Sent, Print, Wire, Frame;
      assert incoming[i..][0] == incoming[i] && incoming[i..][1..] == incoming[i + 1..];
      WireFirst(incoming[i..], ending, isMarker, response);
      match incoming[i]
      case KeepAlive => response := response + (PING + "\n\n");
      case Event(e) =>
        var text := WriteEvent(e, isMarker(e.data));
        response := response + text;
        if isMarker(e.data) {
          return;
        }
    }
    hide EndingFrame;
    assert incoming[|incoming|..] == [];
    var last := EndingFrame(ending);
    if last.Some? {
      assert Wire([last.value]) == last.value + BLANK + Wire([]);
      response := response + (last.value + "\n\n");
    }
  }

  /** Where to resume: no header or an empty one means from the start; anything but a number is an error. */
  function ResumeFrom(lastEventId: Option<string>): (from: Option<nat>)
    ensures lastEventId == None || lastEventId == Some("") ==> from == Some(0)
    ensures from == None <==>
      && lastEventId.Some? && lastEventId.value != ""
      && (ParseInt(lastEventId.value) == None || ParseInt(lastEventId.value).value < 0)
    ensures lastEventId.Some? && lastEventId.value != "" && from.Some? ==>
      ParseInt(lastEventId.value) == Some(from.value)
  {
    if lastEventId == None || lastEventId == Some("") then Some(0)
    else match ParseInt(lastEventId.value)
      case None => None
      case Some(n) => if n < 0 then None else Some(n)
  }

  // ---- the client ----

  datatype SseFrame = SseFrame(id: Option<nat>, event: Option<string>, data: string)

  /** What parsing the lines of a frame has found so far. */
  datatype Fields = Fields(id: Option<nat>, event: Option<string>, dataLines: seq<string>)

  predicate StartsWith(s: string, prefix: string) { prefix <= s }

  function AddLine(f: Fields, line: string): Fields {
    if StartsWith(line, "id:") then
      match ParseInt(Trim(line[3..]))
      case Some(n) => if n >= 0 then f.(id := Some(n)) else f
      case None => f
    else if StartsWith(line, "event:") then f.(event := Some(Trim(line[6..])))
    else if StartsWith(line, "data:") then f.(dataLines := f.dataLines + [Trim(line[5..])])
    else f
  }

  function AddLines(f: Fields, lines: seq<string>): Fields
    decreases |lines|
  {
    if lines == [] then f else AddLines(AddLine(f, lines[0]), lines[1..])
  }

  function Lines(raw: string): seq<string> {
    Cut(raw, "\n").done + [Cut(raw, "\n").rest]
  }

  function JoinLines(lines: seq<string>): string {
    if lines == [] then "" else if |lines| == 1 then lines[0] else lines[0] + "\n" + JoinLines(lines[1..])
  }

  function ParsedFrame(raw: string): Option<SseFrame> {
    var f := AddLines(Fields(None, None, []), Lines(raw));
    if f == Fields(None, None, []) then None else Some(SseFrame(f.id, f.event, JoinLines(f.dataLines)))
  }

  /** Blank pieces and comments are skipped. */
  function FrameOf(raw: string): seq<SseFrame> {
    if raw == "" || StartsWith(raw, ": ") then []
    else match ParsedFrame(raw)
      case None => []
      case Some(f) => [f]
  }

  function FramesOf(pieces: seq<string>): seq<SseFrame> {
    if pieces == [] then [] else FramesOf(pieces[..|pieces| - 1]) + FrameOf(pieces[|pieces| - 1])
  }

  method ParseFrame(raw: string) returns (frame: Option<SseFrame>)
    ensures frame == ParsedFrame(raw)
  {
    var id: Option<nat>, event: Option<string>, dataLines := None, None, [];
    var lines := Lines(raw);
    for i := 0 to |lines|
      invariant AddLines(Fields(None, None, []), lines) == AddLines(Fields(id, event, dataLines), lines[i..])
    {
      var line := lines[i];
      if StartsWith(line, "id:") {
        var parsed := ParseInt(Trim(line[3..]));
        if parsed.Some? && parsed.value >= 0 {
          id := Some(parsed.value);
        }
      } else if StartsWith(line, "event:") {
        event := Some(Trim(line[6..]));
      } else if StartsWith(line, "data:") {
        dataLines := dataLines + [Trim(line[5..])];
      }
      assert lines[i..][1..] == lines[i + 1..];
    }
    if id == None && event == None && |dataLines| == 0 {
      return None;
    }
    return Some(SseFrame(id, event, JoinLines(dataLines)));
  }

  class SseFrameParser {
    var buffer: string
    var pending: seq<SseFrame>

    constructor ()
      ensures buffer == "" && pending == []
    {
      buffer, pending := "", [];
    }

    method Push(chunk: string)
      modifies this
      ensures buffer == Cut(old(buffer) + chunk, BLANK).rest
      ensures pending == old(pending) + FramesOf(Cut(old(buffer) + chunk, BLANK).done)
    {
      hide FrameOf, FramesOf, Cut, ParsedFrame, IndexOf;
      NoFrames();
      buffer := buffer + chunk;
      ghost var text, done: seq<string> := buffer, [];
      var blank := IndexOf(buffer, BLANK);
      while blank.Some?
        invariant blank == IndexOf(buffer, BLANK)
        invariant Cut(text, BLANK).done == done + Cut(buffer, BLANK).done
        invariant Cut(text, BLANK).rest == Cut(buffer, BLANK).rest
        invariant pending == old(pending) + FramesOf(done)
        decreases |buffer|
      {
        CutFirst(buffer, BLANK, blank.value);
        var raw := buffer[..blank.value];
        buffer := buffer[blank.value + 2..];
        FramesSnoc(done, raw);
        FrameOfRaw(raw);
        done := done + [raw];
        blank := IndexOf(buffer, BLANK);
        if raw == "" || StartsWith(raw, ": ") {
          continue;
        }
        var frame := ParseFrame(raw);
        if frame.Some? {
          pending := pending + [frame.value];
        }
      }
      CutNone(buffer, BLANK);
      assert done + [] == done;
    }

    method Take() returns (frames: seq<SseFrame>)
      modifies this
      ensures frames == old(pending) && pending == [] && buffer == old(buffer)
    {
      frames := pending;
      pending := [];
    }
  }

  lemma NoFrames()
    ensures FramesOf([]) == []
  {
  }

  lemma FramesSnoc(pieces: seq<string>, raw: string)
    ensures FramesOf(pieces + [raw]) == FramesOf(pieces) + FrameOf(raw)
  {
    assert (pieces + [raw])[..|pieces|] == pieces;
  }

  lemma FrameOfRaw(raw: string)
    ensures FrameOf(raw)
         == if raw == "" || StartsWith(raw, ": ") || ParsedFrame(raw) == None then [] else [ParsedFrame(raw).value]
  {
  }

  /** The client's read loop: every chunk is pushed and the completed frames are taken. */
  method ReadStream(chunks: seq<string>) returns (frames: seq<SseFrame>)
    ensures frames == FramesOf(Cut(Concat(chunks), BLANK).done)
  {
    hide FrameOf, Cut;
    var parser := new SseFrameParser();
    frames := [];
    ghost var done: seq<string> := [];
    assert "" + Concat(chunks) == Concat(chunks) && chunks[0..] == chunks;
    for i := 0 to |chunks|
      invariant parser.pending == [] && !Contains(parser.buffer, BLANK)
      invariant frames == FramesOf(done)
      invariant Cut(Concat(chunks), BLANK).done == done + Cut(parser.buffer + Concat(chunks[i..]), BLANK).done
    {
      ghost var now, later := Cut(parser.buffer + chunks[i], BLANK), Concat(chunks[i + 1..]);
      assert chunks[i..][1..] == chunks[i + 1..];
      assert parser.buffer + Concat(chunks[i..]) == (parser.buffer + chunks[i]) + later;
      CutAppend(parser.buffer + chunks[i], later, BLANK);
      FramesAppend(done, now.done);
      parser.Push(chunks[i]);
      var some := parser.Take();
      frames := frames + some;
      done := done + now.done;
    }
    assert parser.buffer + Concat(chunks[|chunks|..]) == parser.buffer;
    CutNone(parser.buffer, BLANK);
    assert done + [] == done;
  }

  lemma {:induction false} FramesAppend(a: seq<string>, b: seq<string>)
    ensures FramesOf(a + b) == FramesOf(a) + FramesOf(b)
    decreases |b|
  {
    hide FrameOf;
    if b == [] {
      assert a + b == a;
    } else {
      assert (a + b)[..|a + b| - 1] == a + b[..|b| - 1];
      FramesAppend(a, b[..|b| - 1]);
    }
  }

  // ---- what is written is what is read ----

  /** Data on one line without outer white space, as JSON is. */
  predicate Clean(data: string) { '\n' !in data && Trimmed(data) }

  lemma TrimValue(s: string)
    requires Trimmed(s)
    ensures Trim(" " + s) == s
  {
    assert (" " + s)[1..] == s;
    assert TrimStart(s) == s;
  }

  lemma LinesFirst(line: string, rest: string)
    requires '\n' !in line
    ensures Lines(line + "\n" + rest) == [line] + Lines(rest)
  {
    CutPiece(line, "\n", rest);
  }

  lemma PrintIsTrimmed(n: nat)
    ensures Trimmed(Print(n))
  {
    assert Print(n)[0] in Print(n) && Print(n)[|Print(n)| - 1] in Print(n);
  }

  lemma AddIdLine(f: Fields, n: nat)
    ensures AddLine(f, "id: " + Print(n)) == f.(id := Some(n))
  {
    hide Print, Trim, ParseInt;
    PrintIsTrimmed(n);
    TrimValue(Print(n));
    ParsePrint(n, "");
    assert Print(n) + "" == Print(n);
    assert ("id: " + Print(n))[3..] == " " + Print(n);
  }

  lemma AddEventLine(f: Fields, value: string)
    requires Trimmed(value)
    ensures AddLine(f, "event: " + value) == f.(event := Some(value))
  {
    var line := "event: " + value;
    TrimValue(value);
    assert line[0] == 'e' && line[6..] == " " + value;
  }

  lemma AddDataLine(f: Fields, value: string)
    requires Trimmed(value)
    ensures AddLine(f, "data: " + value) == f.(dataLines := f.dataLines + [value])
  {
    var line := "data: " + value;
    TrimValue(value);
    assert line[0] == 'd' && line[5..] == " " + value;
  }

  /** No blank line inside, none at the end: the first blank line after it ends the piece. */
  predicate Solid(s: string) {
    s != "" && forall j | 0 <= j < |s| && s[j] == '\n' :: j + 1 < |s| && s[j + 1] != '\n'
  }

  lemma SolidLine(line: string, rest: string)
    requires '\n' !in line && Solid(rest) && rest[0] != '\n'
    ensures Solid(line + "\n" + rest)
  {
    var s := line + "\n" + rest;
    forall j | 0 <= j < |s| && s[j] == '\n' ensures j + 1 < |s| && s[j + 1] != '\n' {
      if j > |line| {
        assert s[j] == rest[j - |line| - 1];
      }
    }
  }

  lemma DataParses(f: Fields, data: string)
    requires Clean(data)
    ensures var line := "data: " + data;
      Solid(line) && line[0] == 'd' && AddLines(f, Lines(line)) == f.(dataLines := f.dataLines + [data])
  {
    var line := "data: " + data;
    NotContained(line, "\n");
    assert Lines(line) == [line];
    AddDataLine(f, data);
    assert AddLines(AddLine(f, line), []) == AddLine(f, line);
  }

  lemma EventAndDataParse(f: Fields, event: Option<string>, data: string)
    requires Clean(data) && (event.Some? ==> Clean(event.value)) && f.event == None
    ensures var text := EventAndData(event, data);
      && Solid(text) && (text[0] == 'd' || text[0] == 'e')
      && AddLines(f, Lines(text)) == f.(event := event, dataLines := f.dataLines + [data])
  {
    hide Solid, Lines, AddLine;
    var rest := "data: " + data;
    DataParses(f.(event := event), data);
    if event.Some? {
      var line := "event: " + event.value;
      assert EventAndData(event, data) == line + "\n" + rest;
      LinesFirst(line, rest);
      SolidLine(line, rest);
      AddEventLine(f, event.value);
      assert ([line] + Lines(rest))[1..] == Lines(rest);
    } else {
      assert EventAndData(event, data) == rest;
    }
  }

  /** A frame is one solid piece, and parses to what it was printed from. */
  lemma BlockParses(id: Option<nat>, event: Option<string>, data: string)
    requires Clean(data) && (event.Some? ==> Clean(event.value))
    ensures Solid(Block(id, event, data))
    ensures FrameOf(Block(id, event, data)) == [SseFrame(id, event, data)]
  {
    hide Solid, Lines, AddLine;
    var empty := Fields(None, None, []);
    var tail := EventAndData(event, data);
    EventAndDataParse(empty.(id := id), event, data);
    assert JoinLines([data]) == data && [] + [data] == [data];
    if id.Some? {
      var line := "id: " + Print(id.value);
      assert forall c | c in Print(id.value) :: IsDigit(c);
      assert Block(id, event, data) == line + "\n" + tail;
      LinesFirst(line, tail);
      SolidLine(line, tail);
      AddIdLine(empty, id.value);
      assert ([line] + Lines(tail))[1..] == Lines(tail);
    } else {
      assert Block(id, event, data) == tail;
    }
    assert Block(id, event, data)[0] != ": "[0];
  }

  lemma EndingIsClean(ending: Ending)
    requires EndingEvent(ending).Some?
    ensures Clean(EndingEvent(ending).value.0) && Clean(EndingEvent(ending).value.1)
  {
    match ending
    case CursorLost(requested, oldest) =>
      assert forall c | c in Print(requested) :: IsDigit(c);
      assert forall c | c in Print(oldest) :: IsDigit(c);
    case Gone(reason) => Codec.EscapeHasNoNewline(reason);
    case Broken(message) => Codec.EscapeHasNoNewline(message);
  }

  /** The frames a client should get. */
  function Expected(incoming: seq<Incoming>, ending: Ending, isMarker: string -> bool): seq<SseFrame>
    decreases |incoming|
  {
    if incoming == [] then
      match ending
      case Finished => []
      case CursorLost(requested, oldest) =>
        var data := "{\"requested\":" + Print(requested) + ",\"oldestAvailable\":" + Print(oldest) + "}";
        [SseFrame(None, Some("cursor_lost"), data)]
      case Gone(reason) => [SseFrame(None, Some("terminated"), "{\"reason\":" + Codec.Quote(reason) + "}")]
      case Broken(message) => [SseFrame(None, Some("error"), "{\"message\":" + Codec.Quote(message) + "}")]
    else match incoming[0]
      case KeepAlive => Expected(incoming[1..], ending, isMarker)
      case Event(e) =>
        if isMarker(e.data) then [SseFrame(Some(e.id), Some("terminated"), e.data)]
        else [SseFrame(Some(e.id), None, e.data)] + Expected(incoming[1..], ending, isMarker)
  }

  lemma EndingIsExpected(ending: Ending, isMarker: string -> bool)
    ensures Expected([], ending, isMarker)
         == match EndingEvent(ending) case None => [] case Some((name, data)) => [SseFrame(None, Some(name), data)]
  {
    hide Print, Codec.Quote;
  }

  ghost predicate AllClean(incoming: seq<Incoming>) {
    forall one | one in incoming && one.Event? :: Clean(one.event.data)
  }

  lemma {:induction false} SentParses(incoming: seq<Incoming>, ending: Ending, isMarker: string -> bool)
    requires AllClean(incoming)
    ensures forall piece | piece in Sent(incoming, ending, isMarker) :: Solid(piece)
    ensures FramesOf(Sent(incoming, ending, isMarker)) == Expected(incoming, ending, isMarker)
    decreases |incoming|
  {
    hide FrameOf, Block, Solid, Clean;
    if incoming == [] {
      if EndingEvent(ending).Some? {
        EndingIsClean(ending);
        EndingIsExpected(ending, isMarker);
        hide EndingEvent, Expected;
        BlockParses(None, Some(EndingEvent(ending).value.0), EndingEvent(ending).value.1);
      }
    } else {
      var first, rest := Written(incoming[0], isMarker), Sent(incoming[1..], ending, isMarker);
      SentParses(incoming[1..], ending, isMarker);
      FramesAppend([first], rest);
      match incoming[0]
      case KeepAlive => PingIsSkipped();
      case Event(e) =>
        TerminatedIsClean();
        BlockParses(Some(e.id), if isMarker(e.data) then Some("terminated") else None, e.data);
    }
  }

  lemma PingIsSkipped()
    ensures Solid(PING) && FrameOf(PING) == []
  {
  }

  lemma TerminatedIsClean()
    ensures Clean("terminated")
  {
  }

  /** The first blank line after a solid piece is its own. */
  lemma SolidIndex(piece: string, tail: string)
    requires Solid(piece)
    ensures IndexOf(piece + BLANK + tail, BLANK) == Some(|piece|)
  {
    var text := piece + BLANK + tail;
    forall j: nat | j < |piece| ensures !OccursAt(text, BLANK, j) {
      assert text[j] == piece[j];
      if j + 1 < |piece| {
        assert text[j + 1] == piece[j + 1];
      }
      assert text[j..j + 2] == [text[j], text[j + 1]];
    }
    assert OccursAt(text, BLANK, |piece|);
    IndexIs(text, BLANK, |piece|);
  }

  lemma CutSolid(piece: string, tail: string)
    requires Solid(piece)
    ensures Cut(piece + BLANK + tail, BLANK).done == [piece] + Cut(tail, BLANK).done
  {
    hide Solid;
    var text := piece + BLANK + tail;
    SolidIndex(piece, tail);
    CutFirst(text, BLANK, |piece|);
    assert text[..|piece|] == piece && text[|piece| + 2..] == tail;
  }

  lemma WireOf(pieces: seq<string>, rest: string)
    ensures Wire(pieces) + rest == if pieces == [] then rest else pieces[0] + BLANK + (Wire(pieces[1..]) + rest)
  {
    if pieces == [] {
      assert Wire(pieces) + rest == rest;
    }
  }

  lemma {:induction false} WireCut(pieces: seq<string>, rest: string)
    requires forall piece | piece in pieces :: Solid(piece)
    ensures Cut(Wire(pieces) + rest, BLANK).done == pieces + Cut(rest, BLANK).done
    decreases |pieces|
  {
    hide Solid, Cut, Wire;
    WireOf(pieces, rest);
    if pieces == [] {
      assert pieces + Cut(rest, BLANK).done == Cut(rest, BLANK).done;
    } else {
      var piece, tail := pieces[0], Wire(pieces[1..]) + rest;
      assert pieces[0] in pieces;
      WireCut(pieces[1..], rest);
      CutSolid(piece, tail);
      var later := Cut(rest, BLANK).done;
      assert Cut(Wire(pieces) + rest, BLANK).done == [piece] + (pieces[1..] + later);
      assert [piece] + (pieces[1..] + later) == ([piece] + pieces[1..]) + later;
      assert [piece] + pieces[1..] == pieces;
    }
  }

  /**
   Feeding the server's response to the client, in whatever chunks it arrives, yields exactly the
   events with their ids, the exit marker as a `terminated` frame with nothing after it, and the
   frame that says how the subscription ended. Keep-alive comments leave no trace.
   */
  lemma {:induction false} StreamRoundTrip(incoming: seq<Incoming>, ending: Ending, isMarker: string -> bool,
                                           chunks: seq<string>)
    requires AllClean(incoming)
    requires Concat(chunks) == Wire(Sent(incoming, ending, isMarker))
    ensures FramesOf(Cut(Concat(chunks), BLANK).done) == Expected(incoming, ending, isMarker)
  {
    var pieces := Sent(incoming, ending, isMarker);
    SentParses(incoming, ending, isMarker);
    WireCut(pieces, "");
    assert Wire(pieces) + "" == Wire(pieces) && pieces + [] == pieces;
  }

  /** A connection cut off anywhere gives the client a beginning of those frames. */
  lemma {:induction false} CutOffStream(incoming: seq<Incoming>, ending: Ending, isMarker: string -> bool, k: nat)
    requires AllClean(incoming) && k <= |Wire(Sent(incoming, ending, isMarker))|
    ensures FramesOf(Cut(Wire(Sent(incoming, ending, isMarker))[..k], BLANK).done)
         <= Expected(incoming, ending, isMarker)
  {
    var text := Wire(Sent(incoming, ending, isMarker));
    assert text[..k] + text[k..] == text;
    CutAppend(text[..k], text[k..], BLANK);
    FramesAppend(Cut(text[..k], BLANK).done, Cut(Cut(text[..k], BLANK).rest + text[k..], BLANK).done);
    assert Concat([text]) == text + Concat([]) == text;
    StreamRoundTrip(incoming, ending, isMarker, [text]);
  }

  /** The id a client sends back is the cursor the server resumes from. */
  lemma {:induction false} ResumeIdRoundTrip(id: nat)
    ensures ResumeFrom(Some(Print(id))) == Some(id)
  {
    ParsePrint(id, "");
    assert Print(id) + "" == Print(id);
  }
}
