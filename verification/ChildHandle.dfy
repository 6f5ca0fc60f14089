/**
 The daemon's end of one child process: requests go out with ids that count up, lines come back in
 arbitrary chunks, and each line either settles a request, is a notification, or is dropped.
 */
module ChildHandle {
  import opened Wrappers
  import Decimal
  import Delimited

  datatype FrameId = NumberId(value: int) | OtherId

  /** A parsed line. A frame without a method has the empty one. */
  datatype Frame = Frame(id: FrameId, method_: string, body: string)

  datatype Settlement = Resolved(frame: Frame) | Rejected

  /** What a handle has done so far; `settled` holds the promises that are no longer pending. */
  datatype State = State(nextId: nat, pending: set<nat>, settled: map<nat, Settlement>, notified: seq<Frame>,
                         buffer: string, exited: bool, exitEvents: nat, kills: nat, uncaught: nat)

  const STARTED := State(1, {}, map[], [], "", false, 0, 0, 0)

  type Parser = string -> Option<Frame>

  /** The line `null` parses, but not to a frame: routing it throws. */
  function FrameOf(parse: Parser, line: string): Option<Frame> {
    if line == "null" then None else parse(line)
  }

  // ---- what each event does ----

  /** A request on an exited handle is refused and gets no id; one that cannot be written is rejected. */
  function Requested(s: State, written: bool): State {
    if s.exited then s
    else if written then s.(nextId := s.nextId + 1, pending := s.pending + {s.nextId})
    else s.(nextId := s.nextId + 1, pending := s.pending - {s.nextId}, settled := s.settled[s.nextId := Rejected])
  }

  function Routed(s: State, f: Frame): State {
    if f.id.NumberId? && f.id.value >= 0 && f.id.value in s.pending then
      s.(pending := s.pending - {f.id.value}, settled := s.settled[f.id.value := Resolved(f)])
    else if f.method_ != "" then s.(notified := s.notified + [f])
    else s
  }

  function AllRejected(s: State): State {
    s.(settled := map id | id in s.settled.Keys + s.pending ::
         if id in s.pending then Rejected else s.settled[id],
       pending := {})
  }

  function Exited(s: State): State {
    AllRejected(s).(exited := true, exitEvents := s.exitEvents + 1)
  }

  /** An error to spawn counts as an exit, once. */
  function Failed(s: State): State {
    if s.exited then s else Exited(s)
  }

  /** A line without a frame ends the taking: it kills the child, or is an uncaught exception. */
  function Stopped(s: State, line: string): State {
    if line == "null" then s.(uncaught := s.uncaught + 1) else s.(kills := s.kills + 1)
  }

  /** Takes whole lines off the buffer, up to one without a frame. */
  function Drained(parse: Parser, s: State): State
    decreases |s.buffer|
  {
    match Delimited.IndexOf(s.buffer, "\n")
    case None => s
    case Some(i) =>
      var line, rest := Decimal.Trim(s.buffer[..i]), s.(buffer := s.buffer[i + 1..]);
      if line == "" then Drained(parse, rest)
      else match FrameOf(parse, line)
        case None => Stopped(rest, line)
        case Some(f) => Drained(parse, Routed(rest, f))
  }

  function Received(parse: Parser, s: State, chunk: string): State {
    Drained(parse, s.(buffer := s.buffer + chunk))
  }

  class Handle {
    const parse: Parser
    var pending: set<nat>
    var settled: map<nat, Settlement>
    var notified: seq<Frame>
    var nextId: nat
    var buffer: string
    var exited: bool
    var exitEvents: nat
    var kills: nat
    var uncaught: nat

    function Now(): State
      reads this
    {
      State(nextId, pending, settled, notified, buffer, exited, exitEvents, kills, uncaught)
    }

    constructor (parse: Parser)
      ensures this.parse == parse && Now() == STARTED
    {
      this.parse, pending, settled, notified, nextId := parse, {}, map[], [], 1;
      buffer, exited, exitEvents, kills, uncaught := "", false, 0, 0, 0;
    }

    /** None: refused at once. Otherwise the id under which the promise waits or was rejected. */
    method Request(written: bool) returns (id: Option<nat>)
      modifies this
      ensures Now() == Requested(old(Now()), written)
      ensures id == if old(exited) then None else Some(old(nextId))
    {
      if exited {
        return None;
      }
      id := Some(nextId);
      nextId := nextId + 1;
      pending := pending + {id.value};
      if !written {
        pending := pending - {id.value};
        settled := settled[id.value := Rejected];
      }
    }

    method OnExit()
      modifies this
      ensures Now() == Exited(old(Now()))
    {
      exited := true;
      RejectAll();
      exitEvents := exitEvents + 1;
    }

    method OnError()
      modifies this
      ensures Now() == Failed(old(Now()))
    {
      if !exited {
        exited := true;
        RejectAll();
        exitEvents := exitEvents + 1;
      }
    }

    method RejectAll()
      modifies this
      ensures Now() == AllRejected(old(Now()))
    {
      var left := pending;
      while left != {}
        invariant left <= old(pending) && exited == old(exited) && pending == old(pending)
        invariant Now() == old(Now()).(settled := settled)
        invariant settled.Keys == old(settled).Keys + (old(pending) - left)
        invariant forall id | id in settled ::
          settled[id] == if id in old(pending) - left then Rejected else old(settled)[id]
        decreases left
      {
        var id :| id in left;
        settled := settled[id := Rejected];
        left := left - {id};
      }
      pending := {};
    }

    method RouteMessage(msg: Frame)
      modifies this
      ensures Now() == Routed(old(Now()), msg)
    {
      if msg.id.NumberId? && msg.id.value >= 0 && msg.id.value in pending {
        pending := pending - {msg.id.value};
        settled := settled[msg.id.value := Resolved(msg)];
        return;
      }
      if msg.method_ != "" {
        notified := notified + [msg];
      }
    }

    method OnStdout(chunk: string)
      modifies this
      ensures Now() == Received(parse, old(Now()), chunk)
    {
      hide Routed, Decimal.Trim, Delimited.IndexOf;
      buffer := buffer + chunk;
      var nl := Delimited.IndexOf(buffer, "\n");
      while nl.Some?
        invariant nl == Delimited.IndexOf(buffer, "\n")
        invariant Drained(parse, Now()) == Received(parse, old(Now()), chunk)
        decreases |buffer|
      {
        var line := Decimal.Trim(buffer[..nl.value]);
        buffer := buffer[nl.value + 1..];
        if line != "" {
          if line == "null" {
            uncaught := uncaught + 1;
            return;
          }
          var msg := parse(line);
          if msg == None {
            kills := kills + 1;
            return;
          }
          RoutedBuffer(Now(), msg.value, "");
          RouteMessage(msg.value);
        }
        nl := Delimited.IndexOf(buffer, "\n");
      }
    }
  }

  // ---- every run ----

  datatype Step = Request(written: bool) | Stdout(chunk: string) | Exit | Error

  function Next(parse: Parser, s: State, step: Step): State {
    match step
    case Request(written) => Requested(s, written)
    case Stdout(chunk) => Received(parse, s, chunk)
    case Exit => Exited(s)
    case Error => Failed(s)
  }

  function Run(parse: Parser, steps: seq<Step>): State {
    if steps == [] then STARTED else Next(parse, Run(parse, steps[..|steps| - 1]), steps[|steps| - 1])
  }

  /** The ids given out are those pending and those settled, and after an exit none is pending. */
  ghost predicate Accounted(s: State) {
    && s.nextId >= 1
    && s.pending !! s.settled.Keys
    && (forall id: nat :: id in s.pending || id in s.settled <==> 1 <= id < s.nextId)
    && (s.exited ==> s.pending == {})
    && (s.exited <==> s.exitEvents > 0)
    && (forall id | id in s.settled && s.settled[id].Resolved? :: s.settled[id].frame.id == NumberId(id))
  }

  /** Nothing that was settled or notified is ever taken back, and an exit is for good. */
  ghost predicate Since(s: State, t: State) {
    && s.settled.Keys <= t.settled.Keys
    && (forall id | id in s.settled :: t.settled[id] == s.settled[id])
    && s.notified <= t.notified && s.nextId <= t.nextId
    && (s.exited ==> t.exited && t.settled == s.settled && t.nextId == s.nextId)
  }

  lemma SinceOn(s: State, t: State, u: State)
    requires Since(s, t) && Since(t, u)
    ensures Since(s, u)
  {
  }

  lemma RoutedKeeps(s: State, f: Frame)
    requires Accounted(s)
    ensures Accounted(Routed(s, f)) && Since(s, Routed(s, f))
  {
  }

  lemma {:induction false} DrainedKeeps(parse: Parser, s: State)
    requires Accounted(s)
    ensures Accounted(Drained(parse, s)) && Since(s, Drained(parse, s))
    decreases |s.buffer|
  {
    hide Accounted, Since, Routed, FrameOf, Decimal.Trim, Delimited.IndexOf;
    SameIsSince(s);
    match Delimited.IndexOf(s.buffer, "\n")
    case None =>
    case Some(i) =>
      var line, rest := Decimal.Trim(s.buffer[..i]), s.(buffer := s.buffer[i + 1..]);
      OnlyBuffer(s, s.buffer[i + 1..]);
      if line == "" {
        DrainedKeeps(parse, rest);
        SinceOn(s, rest, Drained(parse, rest));
      } else if FrameOf(parse, line).Some? {
        var f := FrameOf(parse, line).value;
        RoutedKeeps(rest, f);
        RoutedBuffer(rest, f, "");
        DrainedKeeps(parse, Routed(rest, f));
        SinceOn(s, rest, Routed(rest, f));
        SinceOn(s, Routed(rest, f), Drained(parse, Routed(rest, f)));
      } else {
        OnlyStops(rest, line);
        SinceOn(s, rest, Stopped(rest, line));
      }
  }

  lemma SameIsSince(s: State)
    ensures Since(s, s)
  {
  }

  lemma OnlyBuffer(s: State, buffer: string)
    requires Accounted(s)
    ensures Accounted(s.(buffer := buffer)) && Since(s, s.(buffer := buffer))
  {
  }

  lemma OnlyStops(s: State, line: string)
    requires Accounted(s)
    ensures Accounted(Stopped(s, line)) && Since(s, Stopped(s, line))
  {
  }

  lemma NextKeeps(parse: Parser, s: State, step: Step)
    requires Accounted(s)
    ensures Accounted(Next(parse, s, step)) && Since(s, Next(parse, s, step))
  {
    if step.Stdout? {
      var t := s.(buffer := s.buffer + step.chunk);
      assert Accounted(t) && Since(s, t);
      DrainedKeeps(parse, t);
    }
  }

  /**
   In every run the ids given out so far are exactly those pending and those settled, no id is in both,
   none is pending after an exit, and a request is resolved only with a frame of its own id.
   */
  lemma {:induction false} EveryRequestIsAccounted(parse: Parser, steps: seq<Step>)
    ensures Accounted(Run(parse, steps))
  {
    hide Accounted, Next;
    if steps == [] {
      StartsAccounted();
    } else {
      EveryRequestIsAccounted(parse, steps[..|steps| - 1]);
      NextKeeps(parse, Run(parse, steps[..|steps| - 1]), steps[|steps| - 1]);
    }
  }

  lemma StartsAccounted()
    ensures Accounted(STARTED)
  {
  }

  /** A request settles once: what it is settled with at some point of a run it keeps to the end. */
  lemma {:induction false} SettlesOnce(parse: Parser, steps: seq<Step>, n: nat)
    requires n <= |steps|
    ensures Since(Run(parse, steps[..n]), Run(parse, steps))
    decreases |steps| - n
  {
    if n == |steps| {
      assert steps[..n] == steps;
    } else {
      assert steps[..n + 1][..n] == steps[..n];
      EveryRequestIsAccounted(parse, steps[..n]);
      NextKeeps(parse, Run(parse, steps[..n]), steps[n]);
      SettlesOnce(parse, steps, n + 1);
      SinceOn(Run(parse, steps[..n]), Run(parse, steps[..n + 1]), Run(parse, steps));
    }
  }

  // ---- what a text does, line by line ----

  predicate Parses(parse: Parser, line: string) { Decimal.Trim(line) == "" || FrameOf(parse, Decimal.Trim(line)).Some? }

  function Frames(parse: Parser, lines: seq<string>): seq<Frame> {
    if lines == [] then []
    else
      var line := Decimal.Trim(lines[0]);
      (if line != "" && FrameOf(parse, line).Some? then [FrameOf(parse, line).value] else [])
        + Frames(parse, lines[1..])
  }

  function RoutedAll(s: State, frames: seq<Frame>): State
    decreases |frames|
  {
    if frames == [] then s else RoutedAll(Routed(s, frames[0]), frames[1..])
  }

  /** The first frame with this id. */
  function AnswerIn(frames: seq<Frame>, id: nat): Option<Frame> {
    if frames == [] then None
    else if frames[0].id == NumberId(id) then Some(frames[0])
    else AnswerIn(frames[1..], id)
  }

  lemma CutAt(text: string, i: nat)
    requires Delimited.IndexOf(text, "\n") == Some(i)
    ensures var (cut, tail) := (Delimited.Cut(text, "\n"), Delimited.Cut(text[i + 1..], "\n"));
      cut.done == [text[..i]] + tail.done && cut.done[1..] == tail.done && cut.rest == tail.rest
  {
  }

  /** When every line parses, draining is routing the frames of the whole lines, in order. */
  lemma {:induction false} DrainedIsRouted(parse: Parser, s: State)
    requires forall k | 0 <= k < |Delimited.Cut(s.buffer, "\n").done| ::
         Parses(parse, Delimited.Cut(s.buffer, "\n").done[k])
    ensures var cut := Delimited.Cut(s.buffer, "\n");
      Drained(parse, s) == RoutedAll(s.(buffer := cut.rest), Frames(parse, cut.done))
    decreases |s.buffer|
  {
    hide Drained, Delimited.Cut, Routed, FrameOf, Decimal.Trim, Delimited.IndexOf;
    var cut := Delimited.Cut(s.buffer, "\n");
    match Delimited.IndexOf(s.buffer, "\n")
    case None =>
      Delimited.CutNone(s.buffer, "\n");
      DrainedNone(parse, s);
    case Some(i) =>
      var rest := s.(buffer := s.buffer[i + 1..]);
      var tail := Delimited.Cut(rest.buffer, "\n");
      CutAt(s.buffer, i);
      DrainedStep(parse, s, i);
      assert Parses(parse, cut.done[0]);
      forall k | 0 <= k < |tail.done| ensures Parses(parse, tail.done[k]) {
        assert tail.done[k] == cut.done[k + 1];
      }
      var line := Decimal.Trim(s.buffer[..i]);
      if line == "" {
        DrainedIsRouted(parse, rest);
        assert [] + Frames(parse, tail.done) == Frames(parse, tail.done);
      } else {
        var f := FrameOf(parse, line).value;
        RoutedBuffer(rest, f, tail.rest);
        DrainedIsRouted(parse, Routed(rest, f));
        assert ([f] + Frames(parse, tail.done))[1..] == Frames(parse, tail.done);
      }
  }

  lemma DrainedNone(parse: Parser, s: State)
    requires Delimited.IndexOf(s.buffer, "\n") == None
    ensures Drained(parse, s) == s
  {
  }

  lemma RoutedBuffer(s: State, f: Frame, buffer: string)
    ensures Routed(s.(buffer := buffer), f) == Routed(s, f).(buffer := buffer)
    ensures Routed(s, f).buffer == s.buffer
  {
  }

  /** Each pending request is resolved with the first frame of its id, and stays pending without one. */
  lemma {:induction false} FirstAnswerResolves(s: State, frames: seq<Frame>, id: nat)
    requires id in s.pending
    ensures var (t, answer) := (RoutedAll(s, frames), AnswerIn(frames, id));
      if answer.Some? then id !in t.pending && id in t.settled && t.settled[id] == Resolved(answer.value)
      else id in t.pending
    decreases |frames|
  {
    if frames != [] {
      if frames[0].id == NumberId(id) {
        Kept(Routed(s, frames[0]), frames[1..], id);
      } else {
        FirstAnswerResolves(Routed(s, frames[0]), frames[1..], id);
      }
    }
  }

  lemma {:induction false} Kept(s: State, frames: seq<Frame>, id: nat)
    requires id in s.settled && id !in s.pending
    ensures var t := RoutedAll(s, frames); id in t.settled && t.settled[id] == s.settled[id] && id !in t.pending
    decreases |frames|
  {
    if frames != [] {
      Kept(Routed(s, frames[0]), frames[1..], id);
    }
  }

  /** The frames that are forwarded: those with a method whose id no pending request waits for. */
  function Notices(pending: set<nat>, frames: seq<Frame>): seq<Frame>
    decreases |frames|
  {
    if frames == [] then []
    else
      var f, rest := frames[0], frames[1..];
      if f.id.NumberId? && f.id.value >= 0 && f.id.value in pending then Notices(pending - {f.id.value}, rest)
      else (if f.method_ == "" then [] else [f]) + Notices(pending, rest)
  }

  /** Every frame answers a pending request, or is forwarded if it has a method, in the order of the lines. */
  lemma {:induction false} NoticesAreForwarded(s: State, frames: seq<Frame>)
    ensures var t := RoutedAll(s, frames);
      && t.notified == s.notified + Notices(s.pending, frames)
      && (t.nextId, t.buffer, t.exited, t.exitEvents) == (s.nextId, s.buffer, s.exited, s.exitEvents)
      && (t.kills, t.uncaught) == (s.kills, s.uncaught)
    decreases |frames|
  {
    if frames != [] {
      NoticesAreForwarded(Routed(s, frames[0]), frames[1..]);
    } else {
      assert s.notified + [] == s.notified;
    }
  }

  /**
   A line without a frame, after lines that are blank, ends what a chunk does: `null` is an uncaught exception,
   any other such line kills the child, and the text after it stays in the buffer.
   */
  lemma BadLineStops(parse: Parser, s: State, line: string, rest: string)
    requires '\n' !in line && !Parses(parse, line) && s.buffer == line + "\n" + rest
    ensures Drained(parse, s)
         == if Decimal.Trim(line) == "null" then s.(buffer := rest, uncaught := s.uncaught + 1)
            else s.(buffer := rest, kills := s.kills + 1)
  {
    hide Decimal.Trim, Routed;
    forall j: nat | j < |line| ensures !Delimited.OccursAt(s.buffer, "\n", j) {
      assert s.buffer[j..j + 1] == [line[j]];
    }
    assert s.buffer[|line|..|line| + 1] == "\n";
    Delimited.IndexIs(s.buffer, "\n", |line|);
    assert s.buffer[..|line|] == line && s.buffer[|line| + 1..] == rest;
  }

  /** What the other events do to the promises: an exit or a failed start rejects all that are pending, once. */
  lemma PromisesTell(parse: Parser, s: State, written: bool)
    requires Accounted(s)
    ensures var t := Next(parse, s, Step.Request(written));
      if s.exited then t == s
      else
        && t.nextId == s.nextId + 1 && t.notified == s.notified
        && (if written then s.nextId in t.pending else s.nextId in t.settled && t.settled[s.nextId] == Rejected)
    ensures forall t | t in {Next(parse, s, Exit), Next(parse, s, Error)} ::
      && t.exited && t.pending == {} && t.notified == s.notified
      && forall id | id in s.pending :: id in t.settled && t.settled[id] == Rejected
    ensures Next(parse, s, Exit).exitEvents == s.exitEvents + 1
    ensures Next(parse, s, Error).exitEvents == if s.exited then s.exitEvents else s.exitEvents + 1
  {
  }

  // ---- chunks ----

  function ReceivedAll(parse: Parser, s: State, chunks: seq<string>): State
    decreases |chunks|
  {
    if chunks == [] then s else ReceivedAll(parse, Received(parse, s, chunks[0]), chunks[1..])
  }

  /** No whole line comes after one without a frame. */
  predicate Clean(parse: Parser, text: string)
    decreases |text|
  {
    match Delimited.IndexOf(text, "\n")
    case None => true
    case Some(i) =>
      if Parses(parse, text[..i]) then Clean(parse, text[i + 1..]) else !Delimited.Contains(text[i + 1..], "\n")
  }

  predicate AllButLastParse(parse: Parser, lines: seq<string>) {
    forall k | 0 <= k < |lines| - 1 :: Parses(parse, lines[k])
  }

  lemma AllButLastStep(parse: Parser, line: string, more: seq<string>)
    ensures AllButLastParse(parse, [line] + more)
         <==> more == [] || (Parses(parse, line) && AllButLastParse(parse, more))
  {
    var done := [line] + more;
    if AllButLastParse(parse, done) && more != [] {
      assert Parses(parse, done[0]);
      forall k | 0 <= k < |more| - 1 ensures Parses(parse, more[k]) {
        assert Parses(parse, done[k + 1]);
      }
    }
  }

  /** Clean, told from the lines: all but the last parse. */
  lemma {:induction false} CleanLines(parse: Parser, text: string)
    ensures Clean(parse, text) <==> AllButLastParse(parse, Delimited.Cut(text, "\n").done)
    decreases |text|
  {
    match Delimited.IndexOf(text, "\n")
    case None =>
    case Some(i) =>
      var tail := text[i + 1..];
      var more := Delimited.Cut(tail, "\n").done;
      CutAt(text, i);
      CleanLines(parse, tail);
      AllButLastStep(parse, text[..i], more);
      assert more == [] <==> !Delimited.Contains(tail, "\n");
  }

  // ---- a text in pieces ----

  lemma DrainedStep(parse: Parser, s: State, i: nat)
    requires Delimited.IndexOf(s.buffer, "\n") == Some(i)
    ensures var (line, rest) := (Decimal.Trim(s.buffer[..i]), s.(buffer := s.buffer[i + 1..]));
      Drained(parse, s)
      == if line == "" then Drained(parse, rest)
         else if FrameOf(parse, line) == None then Stopped(rest, line)
         else Drained(parse, Routed(rest, FrameOf(parse, line).value))
  {
    hide Routed, Decimal.Trim, Delimited.IndexOf, Delimited.OccursAt;
  }

  lemma CleanStep(parse: Parser, text: string, i: nat)
    requires Delimited.IndexOf(text, "\n") == Some(i)
    ensures Clean(parse, text)
         == if Parses(parse, text[..i]) then Clean(parse, text[i + 1..]) else !Delimited.Contains(text[i + 1..], "\n")
  {
  }

  lemma NoneInPart(a: string, b: string)
    requires !Delimited.Contains(a + b, "\n")
    ensures !Delimited.Contains(a, "\n")
  {
    if Delimited.Contains(a, "\n") {
      Delimited.IndexAppend(a, b, "\n", Delimited.IndexOf(a, "\n").value);
    }
  }

  /** Draining early makes no difference to a clean text. */
  lemma {:induction false} DrainedEarly(parse: Parser, s: State, more: string)
    requires Clean(parse, s.buffer + more)
    ensures var early := Drained(parse, s);
      && Drained(parse, early.(buffer := early.buffer + more)) == Drained(parse, s.(buffer := s.buffer + more))
      && Clean(parse, early.buffer + more) && !Delimited.Contains(early.buffer, "\n")
    decreases |s.buffer|
  {
    match Delimited.IndexOf(s.buffer, "\n")
    case None =>
    case Some(i) =>
      var rest, all := s.(buffer := s.buffer[i + 1..]), s.(buffer := s.buffer + more);
      Delimited.IndexAppend(s.buffer, more, "\n", i);
      assert all.buffer[..i] == s.buffer[..i] && all.buffer[i + 1..] == rest.buffer + more;
      DrainedStep(parse, s, i);
      DrainedStep(parse, all, i);
      CleanStep(parse, all.buffer, i);
      var line := Decimal.Trim(s.buffer[..i]);
      if line != "" && FrameOf(parse, line) == None {
        assert !Delimited.Contains(rest.buffer + more, "\n");
        NoneInPart(rest.buffer, more);
      } else {
        hide Drained, Routed, Clean, Decimal.Trim, Delimited.IndexOf, Delimited.Contains;
        var next := if line == "" then rest else Routed(rest, FrameOf(parse, line).value);
        if line != "" {
          RoutedBuffer(rest, FrameOf(parse, line).value, rest.buffer + more);
        }
        DrainedEarly(parse, next, more);
      }
  }

  lemma {:induction false} ChunksAreOne(parse: Parser, s: State, chunks: seq<string>)
    requires !Delimited.Contains(s.buffer, "\n") && Clean(parse, s.buffer + Delimited.Concat(chunks))
    ensures ReceivedAll(parse, s, chunks) == Received(parse, s, Delimited.Concat(chunks))
    decreases |chunks|
  {
    if chunks == [] {
      assert s.buffer + "" == s.buffer;
    } else {
      var more := Delimited.Concat(chunks[1..]);
      var t := Received(parse, s, chunks[0]);
      assert s.buffer + Delimited.Concat(chunks) == (s.buffer + chunks[0]) + more;
      hide Drained, Clean;
      DrainedEarly(parse, s.(buffer := s.buffer + chunks[0]), more);
      ChunksAreOne(parse, t, chunks[1..]);
    }
  }

  /** Where a text that is not clean stops being drained: after the newline of its first bad line. */
  function FirstBad(parse: Parser, text: string): (p: nat)
    requires !Clean(parse, text)
    ensures 0 < p <= |text| && text[p - 1] == '\n' && Delimited.Contains(text[p..], "\n")
    decreases |text|
  {
    var i := Delimited.IndexOf(text, "\n").value;
    if Parses(parse, text[..i]) then
      var tail := text[i + 1..];
      var p := FirstBad(parse, tail);
      assert tail[p..] == text[i + 1 + p..];
      i + 1 + p
    else i + 1
  }

  lemma FirstBadStep(parse: Parser, text: string, i: nat)
    requires !Clean(parse, text) && Delimited.IndexOf(text, "\n") == Some(i)
    ensures if Parses(parse, text[..i])
            then !Clean(parse, text[i + 1..]) && FirstBad(parse, text) == i + 1 + FirstBad(parse, text[i + 1..])
            else FirstBad(parse, text) == i + 1
  {
    hide Parses, Delimited.IndexOf;
  }

  lemma FoundInPart(a: string, b: string, i: nat)
    requires Delimited.IndexOf(a + b, "\n") == Some(i) && i < |a|
    ensures Delimited.IndexOf(a, "\n") == Some(i)
  {
    forall j: nat | j <= i ensures Delimited.OccursAt(a + b, "\n", j) <==> Delimited.OccursAt(a, "\n", j) {
      assert (a + b)[j..j + 1] == a[j..j + 1];
    }
    Delimited.IndexIs(a, "\n", i);
  }

  lemma HasLine(parse: Parser, text: string)
    requires !Clean(parse, text)
    ensures Delimited.IndexOf(text, "\n").Some?
  {
  }

  lemma Slices(text: string, i: nat, p: nat)
    requires i < p <= |text|
    ensures text[..p][..i] == text[..i] && text[..p][i + 1..] == text[i + 1..][..p - i - 1]
    ensures text[i + 1..][p - i - 1..] == text[p..] && text[..p] + text[p..] == text
  {
  }

  lemma {:induction false} StopsAtBad(parse: Parser, s: State)
    requires !Clean(parse, s.buffer)
    ensures var p := FirstBad(parse, s.buffer);
      && Drained(parse, s).buffer == s.buffer[p..]
      && Drained(parse, s.(buffer := s.buffer[..p])).buffer == ""
    decreases |s.buffer|
  {
    hide Drained, Routed, FirstBad, Clean, Decimal.Trim, Delimited.IndexOf, Delimited.Contains;
    HasLine(parse, s.buffer);
    var i := Delimited.IndexOf(s.buffer, "\n").value;
    var p, rest := FirstBad(parse, s.buffer), s.(buffer := s.buffer[i + 1..]);
    var part := s.(buffer := s.buffer[..p]);
    FirstBadStep(parse, s.buffer, i);
    Slices(s.buffer, i, p);
    FoundInPart(s.buffer[..p], s.buffer[p..], i);
    DrainedStep(parse, s, i);
    DrainedStep(parse, part, i);
    var line := Decimal.Trim(s.buffer[..i]);
    if Parses(parse, s.buffer[..i]) {
      var q := FirstBad(parse, rest.buffer);
      assert p == i + 1 + q;
      var next := if line == "" then rest else Routed(rest, FrameOf(parse, line).value);
      if line != "" {
        RoutedBuffer(rest, FrameOf(parse, line).value, rest.buffer[..q]);
      }
      StopsAtBad(parse, next);
    } else {
      assert p == i + 1 && part.buffer[i + 1..] == "";
    }
  }

  lemma {:induction false} DrainedShrinks(parse: Parser, s: State)
    ensures |Drained(parse, s).buffer| <= |s.buffer|
    ensures Delimited.Contains(s.buffer, "\n") ==> |Drained(parse, s).buffer| < |s.buffer|
    decreases |s.buffer|
  {
    match Delimited.IndexOf(s.buffer, "\n")
    case None =>
    case Some(i) =>
      var line, rest := Decimal.Trim(s.buffer[..i]), s.(buffer := s.buffer[i + 1..]);
      DrainedStep(parse, s, i);
      hide Drained, Decimal.Trim, Delimited.IndexOf, Delimited.Contains;
      if line == "" {
        DrainedShrinks(parse, rest);
      } else if FrameOf(parse, line).Some? {
        DrainedShrinks(parse, Routed(rest, FrameOf(parse, line).value));
      }
  }

  /** A text that is not clean has a cut that changes what the handle does with it. */
  lemma CutMatters(parse: Parser, s: State, text: string) returns (chunks: seq<string>)
    requires !Delimited.Contains(s.buffer, "\n") && !Clean(parse, s.buffer + text)
    ensures Delimited.Concat(chunks) == text && ReceivedAll(parse, s, chunks) != Received(parse, s, text)
  {
    var all := s.(buffer := s.buffer + text);
    var p := FirstBad(parse, all.buffer);
    NoNewline(s.buffer);
    assert forall k | 0 <= k < |s.buffer| :: all.buffer[k] in s.buffer;
    var q := p - |s.buffer|;
    chunks := [text[..q], text[q..]];
    TwoChunks(parse, s, text[..q], text[q..]);
    assert text[..q] + text[q..] == text;
    StopsAtBad(parse, all);
    assert all.buffer[..p] == s.buffer + text[..q] && all.buffer[p..] == text[q..];
    var t := Received(parse, s, text[..q]);
    hide Drained, Clean, Delimited.IndexOf;
    assert t.buffer == "" && t.buffer + text[q..] == text[q..];
    DrainedShrinks(parse, t.(buffer := text[q..]));
  }

  lemma NoNewline(text: string)
    requires !Delimited.Contains(text, "\n")
    ensures '\n' !in text
  {
    if '\n' in text {
      var k :| 0 <= k < |text| && text[k] == '\n';
      assert Delimited.OccursAt(text, "\n", k);
    }
  }

  lemma TwoChunks(parse: Parser, s: State, a: string, b: string)
    ensures ReceivedAll(parse, s, [a, b]) == Received(parse, Received(parse, s, a), b)
    ensures Delimited.Concat([a, b]) == a + b
  {
    hide Received;
    var t := Received(parse, s, a);
    assert [a, b][1..] == [b] && [b][1..] == [];
    assert ReceivedAll(parse, t, [b]) == ReceivedAll(parse, Received(parse, t, b), []) == Received(parse, t, b);
    assert Delimited.Concat([b]) == b + Delimited.Concat([]) == b;
  }

  /**
   What the handle does with a text is the same for every way of cutting it into chunks exactly when
   every line of it but the last whole one parses.
   */
  lemma ChunksDoNotMatterIff(parse: Parser, s: State, text: string)
    requires !Delimited.Contains(s.buffer, "\n")
    ensures (forall chunks | Delimited.Concat(chunks) == text ::
         ReceivedAll(parse, s, chunks) == Received(parse, s, text))
       <==> AllButLastParse(parse, Delimited.Cut(s.buffer + text, "\n").done)
  {
    CleanLines(parse, s.buffer + text);
    hide Received, Clean, Delimited.Cut, Delimited.Concat, ReceivedAll;
    if Clean(parse, s.buffer + text) {
      forall chunks | Delimited.Concat(chunks) == text
        ensures ReceivedAll(parse, s, chunks) == Received(parse, s, text)
      {
        ChunksAreOne(parse, s, chunks);
      }
    } else {
      var chunks := CutMatters(parse, s, text);
    }
  }
}
