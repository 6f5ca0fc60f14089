/**
 The JSONL log of one session: reading it in chunks with tolerant or strict recovery, and
 appending batches behind a cached tail. A text stands for the file; a missing file reads as
 the empty text. A failed write may leave any beginning of its payload in the file.
 */
module EventLog {
  import opened Wrappers
  import opened Schema
  import opened Codec
  import opened Delimited

  datatype Mode = Strict | SkipTrailingPartial
  datatype LogError = InvalidLine(lineNumber: nat) | NotIncreasing

  /** The events a reader yielded and the error that ended the read, if any. */
  datatype Reading = Reading(events: seq<AgentEvent>, error: Option<LogError>)

  // ---- order ----

  predicate Increasing(events: seq<AgentEvent>) {
    forall i, j | 0 <= i < j < |events| :: events[i].sequence < events[j].sequence
  }

  predicate Above(e: AgentEvent, previous: Option<AgentEvent>) {
    previous.Some? ==> previous.value.sequence < e.sequence
  }

  function Last(events: seq<AgentEvent>): Option<AgentEvent> {
    if events == [] then None else Some(events[|events| - 1])
  }

  method ValidateEventOrder(events: seq<AgentEvent>) returns (ok: bool)
    ensures ok <==> Increasing(events)
  {
    var index := 1;
    while index < |events|
      invariant 1 <= index
      invariant forall i, j | 0 <= i < j < index && j < |events| :: events[i].sequence < events[j].sequence
    {
      var previous, current := events[index - 1], events[index];
      if current.sequence <= previous.sequence {
        return false;
      }
      index := index + 1;
    }
    return true;
  }

  // ---- reading ----

  function Extend(events: seq<AgentEvent>, r: Reading): Reading {
    Reading(events + r.events, r.error)
  }

  lemma ExtendTwice(a: seq<AgentEvent>, b: seq<AgentEvent>, r: Reading)
    ensures Extend(a, Extend(b, r)) == Extend(a + b, r)
  {
    assert a + (b + r.events) == (a + b) + r.events;
  }

  /** One line, decoded and checked against the event before it. */
  function Take(line: string, lineNumber: nat, previous: Option<AgentEvent>): Result<AgentEvent, LogError> {
    match DecodeLine(line)
    case None => Failure(InvalidLine(lineNumber))
    case Some(e) => if Above(e, previous) then Success(e) else Failure(NotIncreasing)
  }

  /** Reads complete lines, the first of them being line `n + 1`. */
  function ReadLines(lines: seq<string>, n: nat, previous: Option<AgentEvent>): Reading {
    if lines == [] then Reading([], None)
    else match Take(lines[0], n + 1, previous)
      case Failure(error) => Reading([], Some(error))
      case Success(e) => Extend([e], ReadLines(lines[1..], n + 1, Some(e)))
  }

  function ReadFrom(text: string, n: nat, previous: Option<AgentEvent>, mode: Mode): Reading {
    var pieces := Cut(text, "\n");
    var tail := if mode == Strict && pieces.rest != "" then [pieces.rest] else [];
    ReadLines(pieces.done + tail, n, previous)
  }

  /** What reading the file yields, said without chunks or buffers. */
  function Read(text: string, mode: Mode): Reading { ReadFrom(text, 0, None, mode) }

  /** The lines a reader decides on: the terminated ones, and in strict mode an unterminated rest. */
  function Lines(text: string, mode: Mode): seq<string> {
    var pieces := Cut(text, "\n");
    pieces.done + (if mode == Strict && pieces.rest != "" then [pieces.rest] else [])
  }

  lemma {:induction false} LinesTell(lines: seq<string>, n: nat, previous: Option<AgentEvent>)
    ensures var (r, k) := (ReadLines(lines, n, previous), |ReadLines(lines, n, previous).events|);
      && k <= |lines| && Increasing(r.events)
      && (k > 0 ==> Above(r.events[0], previous))
      && (forall i | 0 <= i < k :: DecodeLine(lines[i]) == Some(r.events[i]))
      && match r.error
         case None => k == |lines|
         case Some(InvalidLine(line)) => k < |lines| && line == n + k + 1 && DecodeLine(lines[k]) == None
         case Some(NotIncreasing) =>
           k < |lines| && DecodeLine(lines[k]).Some?
           && var last := if k > 0 then Some(r.events[k - 1]) else previous;
              last.Some? && DecodeLine(lines[k]).value.sequence <= last.value.sequence
    decreases |lines|
  {
    hide DecodeLine;
    if lines != [] && Take(lines[0], n + 1, previous).Success? {
      LinesTell(lines[1..], n + 1, Some(Take(lines[0], n + 1, previous).value));
    }
  }

  /**
   What reading any file yields: the events of its first lines, strictly increasing. It ends with the last
   line, or at the first line that is no event, or at the first event that is not above the one before it.
   */
  lemma ReadTells(text: string, mode: Mode)
    ensures var (r, lines) := (Read(text, mode), Lines(text, mode));
      var k := |r.events|;
      && k <= |lines| && Increasing(r.events)
      && (forall i | 0 <= i < k :: DecodeLine(lines[i]) == Some(r.events[i]))
      && match r.error
         case None => k == |lines|
         case Some(InvalidLine(line)) => k < |lines| && line == k + 1 && DecodeLine(lines[k]) == None
         case Some(NotIncreasing) =>
           0 < k < |lines| && DecodeLine(lines[k]).Some?
           && DecodeLine(lines[k]).value.sequence <= r.events[k - 1].sequence
  {
    hide DecodeLine, ReadLines;
    LinesTell(Lines(text, mode), 0, None);
  }

  lemma ReadLine(line: string, tail: string, n: nat, previous: Option<AgentEvent>, mode: Mode)
    requires '\n' !in line
    ensures ReadFrom(line + "\n" + tail, n, previous, mode)
         == match Take(line, n + 1, previous)
            case Failure(error) => Reading([], Some(error))
            case Success(e) => Extend([e], ReadFrom(tail, n + 1, Some(e), mode))
  {
    CutPiece(line, "\n", tail);
    var pieces := Cut(tail, "\n");
    var last := if mode == Strict && pieces.rest != "" then [pieces.rest] else [];
    assert ([line] + pieces.done + last)[1..] == pieces.done + last;
  }

  lemma ReadRest(rest: string, n: nat, previous: Option<AgentEvent>, mode: Mode)
    requires '\n' !in rest
    ensures mode == SkipTrailingPartial || rest == "" ==> ReadFrom(rest, n, previous, mode) == Reading([], None)
    ensures mode == Strict && rest != "" ==> ReadFrom(rest, n, previous, mode) == ReadLines([rest], n, previous)
  {
    NotContained(rest, "\n");
    assert [] + [rest] == [rest];
  }

  /** The chunked reader. Its result is a function of the whole text: chunk boundaries do not matter. */
  method Replay(chunks: seq<string>, mode: Mode) returns (events: seq<AgentEvent>, error: Option<LogError>)
    ensures Reading(events, error) == Read(Concat(chunks), mode)
  {
    hide DecodeLine; hide ReadFrom; hide Cut;
    events, error := [], None;
    var buffer, lineNumber, previous := "", 0, None;
    assert "" + Concat(chunks[0..]) == Concat(chunks);
    for i := 0 to |chunks|
      invariant '\n' !in buffer
      invariant Read(Concat(chunks), mode)
             == Extend(events, ReadFrom(buffer + Concat(chunks[i..]), lineNumber, previous, mode))
    {
      ghost var later := Concat(chunks[i + 1..]);
      assert chunks[i..][1..] == chunks[i + 1..];
      assert buffer + Concat(chunks[i..]) == (buffer + chunks[i]) + later;
      buffer := buffer + chunks[i];
      var at := IndexOf(buffer, "\n");
      while at.Some?
        invariant at == IndexOf(buffer, "\n")
        invariant Read(Concat(chunks), mode)
               == Extend(events, ReadFrom(buffer + later, lineNumber, previous, mode))
        decreases |buffer|
      {
        var line := buffer[..at.value];
        var next := buffer[at.value + 1..];
        CutLine(buffer, at.value);
        assert buffer + later == line + "\n" + (next + later);
        ReadLine(line, next + later, lineNumber, previous, mode);
        buffer, lineNumber := next, lineNumber + 1;
        match Take(line, lineNumber, previous) {
        case Failure(reason) =>
          error := Some(reason);
          return;
        case Success(event) =>
          ExtendTwice(events, [event], ReadFrom(next + later, lineNumber, Some(event), mode));
          previous, events := Some(event), events + [event];
        }
        at := IndexOf(buffer, "\n");
      }
      NotContained(buffer, "\n");
    }
    assert buffer + Concat(chunks[|chunks|..]) == buffer;
    ReadRest(buffer, lineNumber, previous, mode);
    if buffer != "" && mode == Strict {
      match Take(buffer, lineNumber + 1, previous)
      case Failure(reason) => error := Some(reason);
      case Success(event) => events := events + [event];
    }
  }

  lemma CutLine(buffer: string, at: nat)
    requires IndexOf(buffer, "\n") == Some(at)
    ensures '\n' !in buffer[..at] && buffer == buffer[..at] + "\n" + buffer[at + 1..]
  {
    forall j: nat | j < at ensures buffer[j] != '\n' {
      assert !OccursAt(buffer, "\n", j);
      assert buffer[j..j + 1] == [buffer[j]];
    }
    assert buffer[at..at + 1] == "\n";
  }

  lemma {:induction false} ReadEncoded(events: seq<AgentEvent>, part: string, n: nat, previous: Option<AgentEvent>,
                                       mode: Mode)
    requires Increasing(events) && (events != [] ==> Above(events[0], previous))
    ensures ReadFrom(EncodeAll(events) + part, n, previous, mode)
         == Extend(events, ReadFrom(part, n + |events|, if events == [] then previous else Last(events), mode))
    decreases |events|
  {
    hide EncodeLine, DecodeLine, ReadLines, EncodeAll, ReadFrom;
    if events == [] {
      EncodeNone(part);
    } else {
      var e, rest := events[0], events[1..];
      EncodeAllFirst(events, part);
      LineHasNoNewline(e);
      DecodeOwnLine(e);
      ReadLine(EncodeLine(e), EncodeAll(rest) + part, n, previous, mode);
      ReadEncoded(rest, part, n + 1, Some(e), mode);
      ExtendTwice([e], rest, ReadFrom(part, n + |events|, Last(events), mode));
      assert [e] + rest == events;
    }
  }

  // ---- recovery from a cut ----

  function Newlines(text: string): nat {
    if text == "" then 0 else (if text[0] == '\n' then 1 else 0) + Newlines(text[1..])
  }

  /** Where a cut after `k` characters falls: after `lines` whole lines and `extra` characters of the next. */
  datatype Landing = Landing(lines: nat, extra: nat)

  function Land(events: seq<AgentEvent>, k: nat): (r: Landing)
    ensures r.lines <= |events|
    ensures r.extra > 0 ==> r.lines < |events| && r.extra <= |EncodeLine(events[r.lines])|
    decreases |events|
  {
    if events == [] then Landing(0, 0)
    else if k < |Encode(events[0])| then Landing(0, k)
    else
      var r := Land(events[1..], k - |Encode(events[0])|);
      Landing(r.lines + 1, r.extra)
  }

  /** The characters of the unfinished line. */
  function Part(events: seq<AgentEvent>, at: Landing): string
    requires at.extra > 0 ==> at.lines < |events| && at.extra <= |EncodeLine(events[at.lines])|
  {
    if at.extra == 0 then "" else EncodeLine(events[at.lines])[..at.extra]
  }

  lemma {:induction false} LandSplits(events: seq<AgentEvent>, k: nat)
    requires k <= |EncodeAll(events)|
    ensures EncodeAll(events)[..k]
         == EncodeAll(events[..Land(events, k).lines]) + Part(events, Land(events, k))
    decreases |events|
  {
    hide EncodeLine, EncodeAll;
    var at := Land(events, k);
    EncodeNone("");
    if events == [] {
      assert events[..0] == events;
    } else {
      var e, rest := events[0], events[1..];
      EncodeAllStep(events);
      if k < |Encode(e)| {
        assert events[..0] == [];
      } else {
        var j := k - |Encode(e)|;
        LandSplits(rest, j);
        EncodeAllStep(events[..at.lines]);
        assert events[..at.lines][1..] == rest[..at.lines - 1];
        assert EncodeAll(events)[..k] == Encode(e) + EncodeAll(rest)[..j];
        assert Part(events, at) == Part(rest, Land(rest, j));
      }
    }
  }

  lemma {:induction false} NewlinesAppend(a: string, b: string)
    ensures Newlines(a + b) == Newlines(a) + Newlines(b)
  {
    if a == "" {
      assert a + b == b;
    } else {
      assert (a + b)[1..] == a[1..] + b;
      NewlinesAppend(a[1..], b);
    }
  }

  lemma {:induction false} NoNewlines(text: string)
    requires '\n' !in text
    ensures Newlines(text) == 0
  {
    if text != "" {
      NoNewlines(text[1..]);
    }
  }

  lemma {:induction false} NewlinesOfEncoded(events: seq<AgentEvent>)
    ensures Newlines(EncodeAll(events)) == |events|
  {
    hide EncodeLine;
    if events != [] {
      var line := EncodeLine(events[0]);
      EncodeAllFirst(events, "");
      assert EncodeAll(events) + "" == EncodeAll(events) && EncodeAll(events[1..]) + "" == EncodeAll(events[1..]);
      LineHasNoNewline(events[0]);
      NoNewlines(line);
      NewlinesAppend(line + "\n", EncodeAll(events[1..]));
      NewlinesAppend(line, "\n");
      NewlinesOfEncoded(events[1..]);
    }
  }

  lemma PartHasNoNewline(events: seq<AgentEvent>, k: nat)
    ensures '\n' !in Part(events, Land(events, k))
  {
    var at := Land(events, k);
    if at.extra > 0 {
      LineHasNoNewline(events[at.lines]);
    }
  }

  /**
   Crash recovery. However the file is cut, a tolerant reader gets exactly the events whose
   newline survived. A strict reader succeeds exactly when the cut is at a line boundary or just
   before a newline, and in the second case also yields the event of that unterminated line.
   */
  lemma {:induction false} Recovery(events: seq<AgentEvent>, k: nat)
    requires Increasing(events) && k <= |EncodeAll(events)|
    ensures var text, at := EncodeAll(events)[..k], Land(events, k);
      && at.lines == Newlines(text)
      && Read(text, SkipTrailingPartial) == Reading(events[..at.lines], None)
      && Read(text, Strict) ==
           if at.extra == 0 then Reading(events[..at.lines], None)
           else if at.extra == |EncodeLine(events[at.lines])| then Reading(events[..at.lines + 1], None)
           else Reading(events[..at.lines], Some(InvalidLine(at.lines + 1)))
  {
    hide EncodeLine, DecodeLine, EncodeAll, Read, Land, Newlines;
    var at := Land(events, k);
    var whole, part := events[..at.lines], Part(events, at);
    LandSplits(events, k);
    PartHasNoNewline(events, k);
    NewlinesOfEncoded(whole);
    NoNewlines(part);
    NewlinesAppend(EncodeAll(whole), part);
    ReadUnfinished(whole, part);
    if at.extra > 0 {
      var e := events[at.lines];
      if at.extra == |EncodeLine(e)| {
        assert part == EncodeLine(e);
        DecodeOwnLine(e);
        assert whole + [e] == events[..at.lines + 1];
      } else {
        DecodePrefix(e, at.extra);
      }
    }
  }

  /** Reading well-formed lines followed by an unterminated rest. */
  lemma ReadUnfinished(events: seq<AgentEvent>, rest: string)
    requires Increasing(events) && '\n' !in rest
    ensures Read(EncodeAll(events) + rest, SkipTrailingPartial) == Reading(events, None)
    ensures Read(EncodeAll(events) + rest, Strict)
         == if rest == "" then Reading(events, None)
            else match Take(rest, |events| + 1, Last(events))
              case Failure(error) => Reading(events, Some(error))
              case Success(e) => Reading(events + [e], None)
  {
    hide DecodeLine; hide EncodeAll; hide EncodeLine;
    ReadEncoded(events, rest, 0, None, SkipTrailingPartial);
    ReadEncoded(events, rest, 0, None, Strict);
    ReadRest(rest, |events|, Last(events), SkipTrailingPartial);
    ReadRest(rest, |events|, Last(events), Strict);
  }

  // ---- appending ----

  /** The file together with the writer's cached tail. */
  datatype LogState = LogState(file: string, tail: Option<AgentEvent>, loaded: bool)

  /** How the operating system performs one append. */
  datatype Write = Whole | Breaks(landed: nat)

  datatype AppendResult = Appended | OutOfOrder | UnreadableLog(error: LogError) | WriteFailed

  function LoadTail(s: LogState): Result<LogState, LogError> {
    if s.loaded then Success(s)
    else
      var r := Read(s.file, Strict);
      match r.error
      case Some(error) => Failure(error)
      case None => Success(LogState(s.file, Last(r.events), true))
  }

  /** The part of an append before anything is written: load the tail and compare with it. */
  function Admit(s: LogState, first: AgentEvent): (LogState, AppendResult) {
    match LoadTail(s)
    case Failure(error) => (s, UnreadableLog(error))
    case Success(t) => (t, if Above(first, t.tail) then Appended else OutOfOrder)
  }

  /** The part after the write returned. */
  function Finish(s: LogState, last: AgentEvent, ok: bool): LogState {
    if ok then LogState(s.file, Some(last), true) else LogState(s.file, None, false)
  }

  function Landed(payload: string, write: Write): string {
    match write
    case Whole => payload
    case Breaks(n) => if n <= |payload| then payload[..n] else payload
  }

  function AfterBatch(s: LogState, events: seq<AgentEvent>, write: Write): (LogState, AppendResult)
    requires events != []
  {
    var (t, admission) := Admit(s, events[0]);
    if admission != Appended then (t, admission)
    else
      var written := t.(file := t.file + Landed(EncodeAll(events), write));
      (Finish(written, events[|events| - 1], write.Whole?), if write.Whole? then Appended else WriteFailed)
  }

  function AfterCall(s: LogState, events: seq<AgentEvent>, write: Write): (LogState, AppendResult) {
    if !Increasing(events) then (s, OutOfOrder)
    else if events == [] then (s, Appended)
    else AfterBatch(s, events, write)
  }

  class JsonlEventLog {
    var file: string
    var tailEvent: Option<AgentEvent>
    var tailLoaded: bool

    function State(): LogState
      reads this
    {
      LogState(file, tailEvent, tailLoaded)
    }

    constructor (file: string)
      ensures State() == LogState(file, None, false)
    {
      this.file, tailEvent, tailLoaded := file, None, false;
    }

    method LoadTailIfNeeded(chunks: seq<string>) returns (error: Option<LogError>)
      requires Concat(chunks) == file
      modifies `tailEvent, `tailLoaded
      ensures match LoadTail(old(State()))
              case Failure(reason) => error == Some(reason) && State() == old(State())
              case Success(s) => error == None && State() == s
    {
      if tailLoaded {
        return None;
      }
      var events;
      events, error := Replay(chunks, Strict);
      if error == None {
        tailEvent, tailLoaded := Last(events), true;
      }
    }

    method AppendBatchInternal(events: seq<AgentEvent>, chunks: seq<string>, write: Write)
        returns (result: AppendResult)
      requires events != [] && Concat(chunks) == file
      modifies this
      ensures (State(), result) == AfterBatch(old(State()), events, write)
    {
      var error := LoadTailIfNeeded(chunks);
      if error.Some? {
        return UnreadableLog(error.value);
      }
      if !Above(events[0], tailEvent) {
        return OutOfOrder;
      }
      var payload := EncodeAll(events);
      file := file + Landed(payload, write);
      if write.Breaks? {
        tailLoaded, tailEvent := false, None;
        return WriteFailed;
      }
      tailEvent, tailLoaded := Some(events[|events| - 1]), true;
      return Appended;
    }

    method AppendMany(events: seq<AgentEvent>, chunks: seq<string>, write: Write)
        returns (result: AppendResult)
      requires Concat(chunks) == file
      modifies this
      ensures (State(), result) == AfterCall(old(State()), events, write)
    {
      var ordered := ValidateEventOrder(events);
      if !ordered {
        return OutOfOrder;
      }
      if events == [] {
        return Appended;
      }
      result := AppendBatchInternal(events, chunks, write);
    }
  }

  // ---- what a sequence of appends leaves behind ----

  /** The file holds exactly `events`, and a loaded tail is the last of them. */
  predicate Sound(s: LogState, events: seq<AgentEvent>) {
    && s.file == EncodeAll(events)
    && Increasing(events)
    && (s.loaded ==> s.tail == Last(events))
  }

  lemma AdmitSound(s: LogState, events: seq<AgentEvent>, first: AgentEvent)
    requires Sound(s, events)
    ensures Admit(s, first) == (LogState(s.file, Last(events), true),
                                if Above(first, Last(events)) then Appended else OutOfOrder)
  {
    hide Read;
    ReadUnfinished(events, "");
    assert EncodeAll(events) + "" == EncodeAll(events);
  }

  lemma JoinIncreasing(a: seq<AgentEvent>, b: seq<AgentEvent>)
    requires Increasing(a) && Increasing(b) && b != []
    ensures Increasing(a + b) <==> Above(b[0], Last(a))
  {
    if a != [] && !Above(b[0], Last(a)) {
      assert (a + b)[|a| - 1] == a[|a| - 1] && (a + b)[|a|] == b[0];
    }
  }

  lemma IncreasingParts(a: seq<AgentEvent>, b: seq<AgentEvent>)
    requires Increasing(a + b)
    ensures Increasing(a) && Increasing(b)
  {
    forall i, j | 0 <= i < j < |b| ensures b[i].sequence < b[j].sequence {
      assert (a + b)[|a| + i] == b[i] && (a + b)[|a| + j] == b[j];
    }
    forall i, j | 0 <= i < j < |a| ensures a[i].sequence < a[j].sequence {
      assert (a + b)[i] == a[i] && (a + b)[j] == a[j];
    }
  }

  /** A batch enters the log iff the log stays increasing with it; otherwise nothing changes. */
  lemma AppendKeepsSound(s: LogState, events: seq<AgentEvent>, batch: seq<AgentEvent>)
    requires Sound(s, events)
    ensures var (t, result) := AfterCall(s, batch, Whole);
      if Increasing(events + batch) then result == Appended && Sound(t, events + batch)
      else result == OutOfOrder && Sound(t, events) && t.file == s.file
  {
    hide Read; hide EncodeAll;
    if !Increasing(batch) {
      if Increasing(events + batch) {
        IncreasingParts(events, batch);
      }
    } else if batch == [] {
      assert events + batch == events;
    } else {
      AdmitSound(s, events, batch[0]);
      JoinIncreasing(events, batch);
      EncodeAllAppend(events, batch);
    }
  }

  function Calls(s: LogState, batches: seq<seq<AgentEvent>>): (LogState, seq<AppendResult>) {
    if batches == [] then (s, [])
    else
      var n := |batches| - 1;
      var (before, results) := Calls(s, batches[..n]);
      var (after, result) := AfterCall(before, batches[n], Whole);
      (after, results + [result])
  }

  /** The events of the batches that keep the log increasing, in call order. */
  function Accepted(batches: seq<seq<AgentEvent>>): seq<AgentEvent> {
    if batches == [] then []
    else
      var n := |batches| - 1;
      var before := Accepted(batches[..n]);
      if Increasing(before + batches[n]) then before + batches[n] else before
  }

  /**
   Without write errors the file is the accepted batches in call order, strictly increasing, and a
   loaded tail is the last event of the file.
   */
  lemma {:induction false} CallsSound(batches: seq<seq<AgentEvent>>)
    ensures Sound(Calls(LogState("", None, false), batches).0, Accepted(batches))
  {
    if batches == [] {
      assert EncodeAll([]) == "";
    } else {
      hide EncodeAll; hide Read; hide AfterCall; hide Increasing; hide Last; hide Sound;
      var n := |batches| - 1;
      CallsSound(batches[..n]);
      AppendKeepsSound(Calls(LogState("", None, false), batches[..n]).0, Accepted(batches[..n]), batches[n]);
    }
  }

  /** A call succeeds exactly when its batch is accepted; a refused batch does not stop later ones. */
  lemma {:induction false} CallsResults(batches: seq<seq<AgentEvent>>, i: nat)
    requires i < |batches|
    ensures |Calls(LogState("", None, false), batches).1| == |batches|
    ensures Calls(LogState("", None, false), batches).1[i]
         == if Increasing(Accepted(batches[..i]) + batches[i]) then Appended else OutOfOrder
  {
    hide EncodeAll; hide Read; hide AfterCall; hide Increasing; hide Last; hide Sound;
    var n := |batches| - 1;
    var before := batches[..n];
    if n > 0 {
      CallsResults(before, if i < n then i else 0);
    }
    if i < n {
      assert before[..i] == batches[..i];
    } else {
      CallsSound(before);
      AppendKeepsSound(Calls(LogState("", None, false), before).0, Accepted(before), batches[n]);
    }
  }

  // ---- after a failed write ----

  datatype Damage = Clean | LostNewline | Torn

  /** What a failed write of `batch` leaves at the end of the file. */
  function DamageOf(batch: seq<AgentEvent>, landed: nat): Damage {
    var at := Land(batch, landed);
    if at.extra == 0 then Clean
    else if at.extra == |EncodeLine(batch[at.lines])| then LostNewline
    else Torn
  }

  /** The log after a write of `batch` failed with `landed` characters in the file. */
  lemma FailedWrite(s: LogState, events: seq<AgentEvent>, batch: seq<AgentEvent>, landed: nat)
    requires Sound(s, events) && batch != [] && Increasing(events + batch)
    requires landed <= |EncodeAll(batch)|
    ensures var at := Land(batch, landed);
      AfterCall(s, batch, Breaks(landed))
      == (LogState(EncodeAll(events + batch[..at.lines]) + Part(batch, at), None, false), WriteFailed)
  {
    hide Read, EncodeAll, EncodeLine, Part, AfterCall, Increasing, Sound, Land;
    BreakLands(s, events, batch, landed);
    LandSplits(batch, landed);
    var whole, part := batch[..Land(batch, landed).lines], Part(batch, Land(batch, landed));
    EncodeAllAppend(events, whole);
    assert EncodeAll(events) + (EncodeAll(whole) + part) == (EncodeAll(events) + EncodeAll(whole)) + part;
  }

  lemma BreakLands(s: LogState, events: seq<AgentEvent>, batch: seq<AgentEvent>, landed: nat)
    requires Sound(s, events) && batch != [] && Increasing(events + batch)
    requires landed <= |EncodeAll(batch)|
    ensures AfterCall(s, batch, Breaks(landed))
         == (LogState(EncodeAll(events) + EncodeAll(batch)[..landed], None, false), WriteFailed)
  {
    hide Read, EncodeAll, EncodeLine, Increasing;
    IncreasingParts(events, batch);
    JoinIncreasing(events, batch);
    AdmitSound(s, events, batch[0]);
  }

  /**
   The next batch after a failed write, for every way the write can fail. Nothing torn: the batch
   is appended and the log is sound again. Torn inside a line: it is refused and the file stays as it
   is. Only the newline lost: it is appended, but glued to the unterminated line, and no reader gets
   past that line. What any number of further calls does is in FailedWrites.
   */
  lemma {:induction false} AfterFailedWrite(s: LogState, events: seq<AgentEvent>, batch: seq<AgentEvent>, landed: nat,
                                            next: seq<AgentEvent>)
    requires Sound(s, events) && batch != [] && next != []
    requires Increasing(events + batch) && Increasing(events + batch + next)
    requires landed <= |EncodeAll(batch)|
    ensures var broken := AfterCall(s, batch, Breaks(landed)).0;
      var (t, result) := AfterCall(broken, next, Whole);
      var kept := events + batch[..Land(batch, landed).lines];
      match DamageOf(batch, landed)
      case Clean => result == Appended && Sound(t, kept + next)
      case Torn => t.file == broken.file && result == UnreadableLog(InvalidLine(|kept| + 1))
      case LostNewline =>
        && result == Appended
        && forall mode :: Read(t.file, mode) == Reading(kept, Some(InvalidLine(|kept| + 1)))
  {
    hide EncodeLine, DecodeLine, Read, EncodeAll, Land, AfterCall;
    var at := Land(batch, landed);
    var kept, part := events + batch[..at.lines], Part(batch, at);
    FailedWrite(s, events, batch, landed);
    assert forall i | 0 <= i < |next| :: next[i] == (events + batch + next)[|events + batch| + i];
    assert forall i | 0 <= i < |kept| :: kept[i] == (events + batch)[i];
    if at.extra == 0 {
      JoinKept(events, batch, at.lines, next);
      assert EncodeAll(kept) + "" == EncodeAll(kept);
      AppendKeepsSound(LogState(EncodeAll(kept), None, false), kept, next);
    } else {
      var e := batch[at.lines];
      assert e == (events + batch + next)[|kept|] && next[0] == (events + batch + next)[|events + batch|];
      assert kept != [] ==> kept[|kept| - 1] == (events + batch + next)[|kept| - 1];
      assert kept + [e] == (events + batch)[..|kept| + 1];
      if at.extra == |EncodeLine(e)| {
        assert part == EncodeLine(e);
        WholeLineGlues(kept, e, next);
      } else {
        TornLineRefuses(kept, e, at.extra, next);
      }
    }
  }

  /** A strict reader takes a whole last line without its newline, so the next batch is appended to it. */
  lemma WholeLineGlues(kept: seq<AgentEvent>, e: AgentEvent, next: seq<AgentEvent>)
    requires Increasing(kept + [e]) && Increasing(kept) && Increasing(next) && next != [] && Above(next[0], Some(e))
    ensures var (t, result) := AfterCall(LogState(EncodeAll(kept) + EncodeLine(e), None, false), next, Whole);
      && result == Appended
      && forall mode :: Read(t.file, mode) == Reading(kept, Some(InvalidLine(|kept| + 1)))
  {
    hide EncodeLine, DecodeLine, Read, EncodeAll, Increasing;
    LineHasNoNewline(e);
    DecodeOwnLine(e);
    LastIsBelow(kept, e);
    ReadUnfinished(kept, EncodeLine(e));
    forall mode ensures Read(EncodeAll(kept) + EncodeLine(e) + EncodeAll(next), mode)
                     == Reading(kept, Some(InvalidLine(|kept| + 1))) {
      Glued(kept, e, next, mode);
    }
  }

  /** A strict reader stops at a torn last line, so no batch is appended to it. */
  lemma TornLineRefuses(kept: seq<AgentEvent>, e: AgentEvent, n: nat, next: seq<AgentEvent>)
    requires Increasing(kept) && Increasing(next) && next != [] && 0 < n < |EncodeLine(e)|
    ensures var s := LogState(EncodeAll(kept) + EncodeLine(e)[..n], None, false);
      AfterCall(s, next, Whole) == (s, UnreadableLog(InvalidLine(|kept| + 1)))
  {
    hide EncodeLine, DecodeLine, Read, EncodeAll, Increasing;
    LineHasNoNewline(e);
    DecodePrefix(e, n);
    ReadUnfinished(kept, EncodeLine(e)[..n]);
  }

  lemma LastIsBelow(kept: seq<AgentEvent>, e: AgentEvent)
    requires Increasing(kept + [e])
    ensures Above(e, Last(kept))
  {
    var all := kept + [e];
    if kept != [] {
      assert all[|kept| - 1] == kept[|kept| - 1] && all[|kept|] == e;
    }
  }

  lemma JoinKept(events: seq<AgentEvent>, batch: seq<AgentEvent>, n: nat, next: seq<AgentEvent>)
    requires n <= |batch| && Increasing(events + batch + next)
    ensures Increasing(events + batch[..n] + next)
  {
    var all, some, gap := events + batch + next, events + batch[..n] + next, |batch| - n;
    forall i, j | 0 <= i < j < |some| ensures some[i].sequence < some[j].sequence {
      var i', j' := if i < |events| + n then i else i + gap, if j < |events| + n then j else j + gap;
      assert some[i] == all[i'] && some[j] == all[j'];
    }
  }

  /** Two events on one line: no reader gets past it. */
  lemma Glued(kept: seq<AgentEvent>, e: AgentEvent, next: seq<AgentEvent>, mode: Mode)
    requires Increasing(kept) && next != []
    ensures Read(EncodeAll(kept) + EncodeLine(e) + EncodeAll(next), mode)
         == Reading(kept, Some(InvalidLine(|kept| + 1)))
  {
    hide EncodeLine; hide DecodeLine; hide EncodeAll;
    var line := EncodeLine(e) + EncodeLine(next[0]);
    var tail := EncodeAll(next[1..]);
    EncodeAllFirst(next, "");
    assert EncodeAll(next) + "" == EncodeAll(next) && tail + "" == tail;
    LineHasNoNewline(e);
    LineHasNoNewline(next[0]);
    LineStarts(next[0]);
    DecodeExact(e, EncodeLine(next[0]));
    assert EncodeAll(kept) + EncodeLine(e) + EncodeAll(next) == EncodeAll(kept) + (line + "\n" + tail);
    ReadEncoded(kept, line + "\n" + tail, 0, None, mode);
    ReadLine(line, tail, |kept|, Last(kept), mode);
  }

  /** A run that breaks: the first event loses only its newline, and the next append hides both events. */
  lemma {:induction false} GluedRun(first: AgentEvent, second: AgentEvent)
    requires first.sequence == 1 && second.sequence == 2
    ensures var broken := AfterCall(LogState("", None, false), [first], Breaks(|EncodeLine(first)|)).0;
      var (t, result) := AfterCall(broken, [second], Whole);
      && Read(broken.file, Strict) == Reading([first], None)
      && result == Appended
      && Read(t.file, SkipTrailingPartial) == Reading([], Some(InvalidLine(1)))
  {
    hide EncodeLine; hide DecodeLine; hide AfterCall; hide Read;
    var n := |EncodeLine(first)|;
    var one, two := [first], [first] + [second];
    EncodeAllOne(first);
    LineHasNoNewline(first);
    assert EncodeAll([]) == "" && Increasing(two);
    assert [] + one == one && [] + one + [second] == two && one[..0] == [] && one[..1] == one;
    assert EncodeAll(one)[..n] == EncodeLine(first);
    assert Land(one, n) == Landing(0, n);
    hide EncodeAll; hide Increasing; hide Land; hide Newlines;
    Recovery(one, n);
    AfterFailedWrite(LogState("", None, false), [], one, n, [second]);
    FailedWrite(LogState("", None, false), [], one, n);
    assert EncodeLine(first)[..n] == EncodeLine(first) && "" + EncodeLine(first) == EncodeLine(first);
    assert [] + one[..0] == [] && |[] + one[..0]| + 1 == 1;
  }
}
