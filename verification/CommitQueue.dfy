/**
 Concurrent commits of one session over one log. `commitEvent` reads the next sequence number,
 queues an append and, when the append has settled, bumps the number only on success; the log
 runs its queue one append at a time and refuses a number that is not above its tail. Each step
 below is one block of that code between two awaits; a run is any sequence of steps, so it covers
 every interleaving of any number of callers, among them tools that emit late.
 */
module CommitQueue {
  import opened Wrappers
  import opened Schema
  import opened Codec
  import opened Delimited
  import opened EventLog

  /** Everything of an event but its sequence number. */
  datatype Draft = Draft(id: string, sessionId: string, turnId: Option<string>, timestamp: string, payload: Payload)

  function Stamp(d: Draft, sequence: nat): AgentEvent {
    AgentEvent(d.id, d.sessionId, d.turnId, sequence, d.timestamp, d.payload)
  }

  datatype Phase = Idle | Writing(event: AgentEvent, written: nat)

  /** An append whose promise has settled while its caller has not resumed yet. */
  datatype Settled = Settled(event: AgentEvent, stored: bool)

  datatype System = System(
    log: LogState,
    created: bool,              // createSession has been called
    registered: bool,           // its append succeeded, so runTurn knows the session
    nextSequence: nat,
    queue: seq<AgentEvent>,     // appends waiting for their turn
    phase: Phase,               // the append at the head of the queue
    settled: seq<Settled>,
    returned: seq<AgentEvent>)  // what callers have been given, in order

  /**
   Commit: a caller reads the counter and queues its event; the first call is createSession, which
   uses number 1 and must succeed before there is a session to commit to.
   Begin: the queue's next append loads the tail and is refused or starts to write.
   WriteSome, EndWrite: characters reach the file; the write returns.
   Resume: a caller waiting for a settled append goes on.
   */
  datatype Step =
    | Commit(draft: Draft)
    | Begin
    | WriteSome(n: nat)
    | EndWrite(ok: bool)
    | Resume(i: nat)

  function Initial(): System {
    System(LogState("", None, false), false, false, 1, [], Idle, [], [])
  }

  /** A step that is not possible changes nothing. */
  function Next(s: System, step: Step): System {
    match step
    case Commit(draft) =>
      if s.created && !s.registered then s
      else s.(created := true, queue := s.queue + [Stamp(draft, s.nextSequence)])
    case Begin =>
      if s.phase != Idle || s.queue == [] then s
      else
        var e := s.queue[0];
        var (log, admission) := Admit(s.log, e);
        if admission == Appended then s.(log := log, queue := s.queue[1..], phase := Writing(e, 0))
        else s.(log := log, queue := s.queue[1..], settled := s.settled + [Settled(e, false)])
    case WriteSome(n) =>
      if s.phase.Idle? || s.phase.written + n > |Encode(s.phase.event)| then s
      else
        var w := s.phase.written;
        s.(log := s.log.(file := s.log.file + Encode(s.phase.event)[w..w + n]),
           phase := s.phase.(written := w + n))
    case EndWrite(ok) =>
      if s.phase.Idle? || s.phase.written > |Encode(s.phase.event)| then s
      else
        var e := s.phase.event;
        var file := if ok then s.log.file + Encode(e)[s.phase.written..] else s.log.file;
        s.(log := Finish(s.log.(file := file), e, ok), phase := Idle, settled := s.settled + [Settled(e, ok)])
    case Resume(i) =>
      if i >= |s.settled| then s
      else
        var done := s.settled[i];
        var t := s.(settled := s.settled[..i] + s.settled[i + 1..]);
        if done.stored then
          t.(registered := true, nextSequence := done.event.sequence + 1, returned := s.returned + [done.event])
        else t
  }

  function Run(s: System, steps: seq<Step>): System {
    if steps == [] then s else Next(Run(s, steps[..|steps| - 1]), steps[|steps| - 1])
  }

  // ---- the invariant ----

  /** Sequence numbers are exactly 1, 2, 3, ... */
  predicate Numbered(events: seq<AgentEvent>) {
    forall i | 0 <= i < |events| :: events[i].sequence == i + 1
  }

  function Stored(settled: seq<Settled>): seq<AgentEvent> {
    if settled == [] then []
    else (if settled[0].stored then [settled[0].event] else []) + Stored(settled[1..])
  }

  /** Every event is stored whole and acknowledged to its caller; perhaps the next one is being written. */
  predicate Even(s: System, events: seq<AgentEvent>) {
    && s.nextSequence == |events| + 1
    && Stored(s.settled) == []
    && match s.phase
       case Idle => Sound(s.log, events)
       case Writing(e, w) =>
         && e.sequence == s.nextSequence
         && w <= |Encode(e)|
         && s.log == LogState(EncodeAll(events) + Encode(e)[..w], Last(events), true)
  }

  /** The last event is stored but its caller has not resumed, so the counter still shows its number. */
  predicate Ahead(s: System, events: seq<AgentEvent>) {
    && s.phase == Idle
    && |events| == s.nextSequence >= 1
    && Stored(s.settled) == [events[|events| - 1]]
    && s.log == LogState(EncodeAll(events), Last(events), true)
  }

  /** A failed write of event `e` left its first `k` characters in the file. */
  predicate Jammed(s: System, events: seq<AgentEvent>, e: AgentEvent, k: nat) {
    && s.phase == Idle
    && e.sequence == s.nextSequence == |events| + 1
    && Stored(s.settled) == []
    && 0 < k <= |Encode(e)|
    && s.log.file == EncodeAll(events) + Encode(e)[..k]
    && (s.log.loaded ==> s.log.tail == Some(e))
  }

  ghost predicate Inv(s: System, events: seq<AgentEvent>) {
    && Numbered(events)
    && 1 <= s.nextSequence <= |events| + 1
    && s.returned == events[..s.nextSequence - 1]
    && (forall q | q in s.queue :: 1 <= q.sequence <= s.nextSequence)
    && (Even(s, events) || Ahead(s, events) || exists e, k :: Jammed(s, events, e, k))
  }

  lemma NumberedIncreasing(events: seq<AgentEvent>)
    requires Numbered(events)
    ensures Increasing(events)
  {
  }

  lemma {:induction false} StoredAppend(a: seq<Settled>, b: seq<Settled>)
    ensures Stored(a + b) == Stored(a) + Stored(b)
  {
    if a == [] {
      assert a + b == b;
    } else {
      assert (a + b)[1..] == a[1..] + b && (a + b)[0] == a[0];
      var first := if a[0].stored then [a[0].event] else [];
      assert Stored(a + b) == first + Stored(a[1..] + b) && Stored(a) == first + Stored(a[1..]);
      hide Stored;
      StoredAppend(a[1..], b);
      assert first + (Stored(a[1..]) + Stored(b)) == (first + Stored(a[1..])) + Stored(b);
    }
  }

  lemma StoredOne(x: Settled)
    ensures Stored([x]) == if x.stored then [x.event] else []
  {
  }

  lemma StoredAround(a: seq<Settled>, x: Settled, b: seq<Settled>)
    ensures Stored(a + [x] + b) == Stored(a) + (if x.stored then [x.event] else []) + Stored(b)
    ensures Stored(a + b) == Stored(a) + Stored(b)
  {
    hide Stored;
    StoredAppend(a + [x], b);
    StoredAppend(a, [x]);
    StoredAppend(a, b);
    StoredOne(x);
  }

  /** A number that is not above the jammed line is refused or the tail cannot be read at all. */
  lemma JammedRefuses(s: System, events: seq<AgentEvent>, e: AgentEvent, k: nat, q: AgentEvent)
    requires Numbered(events) && Jammed(s, events, e, k) && q.sequence <= s.nextSequence
    ensures var (log, admission) := Admit(s.log, q);
      admission != Appended && log.file == s.log.file && (log.loaded ==> log.tail == Some(e))
  {
    hide EncodeLine; hide DecodeLine; hide EncodeAll;
    if !s.log.loaded {
      NumberedIncreasing(events);
      LineHasNoNewline(e);
      DecodeOwnLine(e);
      if k == |Encode(e)| {
        var all := events + [e];
        EncodeAllAppend(events, [e]);
        EncodeAllOne(e);
        assert Encode(e)[..k] == Encode(e);
        ReadUnfinished(all, "");
        assert EncodeAll(all) + "" == EncodeAll(all);
      } else {
        assert Encode(e)[..k] == EncodeLine(e)[..k];
        ReadUnfinished(events, EncodeLine(e)[..k]);
        if k < |EncodeLine(e)| {
          DecodePrefix(e, k);
        } else {
          assert EncodeLine(e)[..k] == EncodeLine(e);
        }
      }
    }
  }

  // ---- every step keeps the invariant ----

  lemma BeginKeeps(s: System, events: seq<AgentEvent>)
    requires Inv(s, events)
    ensures Inv(Next(s, Begin), events)
  {
    hide EncodeLine; hide EncodeAll; hide Read;
    if s.phase == Idle && s.queue != [] {
      var q := s.queue[0];
      NumberedIncreasing(events);
      assert forall x | x in s.queue[1..] :: x in s.queue;
      StoredAppend(s.settled, [Settled(q, false)]);
      if Even(s, events) {
        AdmitSound(s.log, events, q);
        if Above(q, Last(events)) {
          assert Encode(q)[..0] == "" && EncodeAll(events) + "" == EncodeAll(events);
          assert Even(Next(s, Begin), events);
        }
      } else if Ahead(s, events) {
        assert Ahead(Next(s, Begin), events);
      } else {
        var e, k :| Jammed(s, events, e, k);
        JammedRefuses(s, events, e, k, q);
        assert Jammed(Next(s, Begin), events, e, k);
      }
    }
  }

  lemma MoreWritten(file: string, text: string, w: nat, n: nat)
    requires w + n <= |text|
    ensures file + text[..w] + text[w..w + n] == file + text[..w + n]
  {
    assert text[..w + n] == text[..w] + text[w..w + n];
  }

  lemma WriteEnds(s: System, events: seq<AgentEvent>)
    requires Even(s, events) && s.phase.Writing?
    ensures Ahead(Next(s, EndWrite(true)), events + [s.phase.event])
  {
    hide EncodeLine, EncodeAll, Stored, Read;
    var e, w := s.phase.event, s.phase.written;
    var text := Encode(e);
    StoredAppend(s.settled, [Settled(e, true)]);
    StoredOne(Settled(e, true));
    EncodeAllAppend(events, [e]);
    EncodeAllOne(e);
    assert text == text[..w] + text[w..];
    assert EncodeAll(events) + text[..w] + text[w..] == EncodeAll(events) + (text[..w] + text[w..]);
  }

  lemma WriteBreaks(s: System, events: seq<AgentEvent>)
    requires Numbered(events) && Even(s, events) && s.phase.Writing?
    ensures var t := Next(s, EndWrite(false));
      if s.phase.written == 0 then Even(t, events) else Jammed(t, events, s.phase.event, s.phase.written)
  {
    hide EncodeLine, EncodeAll, Stored, Read;
    var e := s.phase.event;
    StoredAppend(s.settled, [Settled(e, false)]);
    StoredOne(Settled(e, false));
    if s.phase.written == 0 {
      NumberedIncreasing(events);
      assert Encode(e)[..0] == "" && EncodeAll(events) + "" == EncodeAll(events);
    }
  }

  lemma EndWriteKeeps(s: System, events: seq<AgentEvent>, ok: bool) returns (after: seq<AgentEvent>)
    requires Inv(s, events)
    ensures Inv(Next(s, EndWrite(ok)), after)
  {
    hide Ahead, Encode, Finish, Stored;
    after := events;
    if s.phase.Writing? {
      NotWritingOtherwise(s, events);
      if ok {
        after := events + [s.phase.event];
        WriteEnds(s, events);
      } else {
        WriteBreaks(s, events);
      }
    }
  }

  lemma NotWritingOtherwise(s: System, events: seq<AgentEvent>)
    requires Inv(s, events) && s.phase.Writing?
    ensures Even(s, events) && s.nextSequence == |events| + 1
  {
  }

  /** Resuming a refused or failed caller takes nothing stored away; resuming a stored one leaves nothing. */
  lemma ResumeStored(s: System, i: nat)
    requires i < |s.settled| && |Stored(s.settled)| <= 1
    ensures s.settled[i].stored ==>
              Stored(s.settled) == [s.settled[i].event] && Stored(Next(s, Resume(i)).settled) == []
    ensures !s.settled[i].stored ==> Stored(Next(s, Resume(i)).settled) == Stored(s.settled)
  {
    hide Stored, Encode, Admit;
    var a, b := s.settled[..i], s.settled[i + 1..];
    assert s.settled == a + [s.settled[i]] + b;
    StoredAround(a, s.settled[i], b);
  }

  lemma ResumeKeeps(s: System, events: seq<AgentEvent>, i: nat)
    requires Inv(s, events)
    ensures Inv(Next(s, Resume(i)), events)
  {
    hide EncodeLine; hide EncodeAll; hide Stored;
    if i < |s.settled| {
      var t := Next(s, Resume(i));
      ResumeStored(s, i);
      if s.settled[i].stored {
        assert Ahead(s, events);
        NumberedIncreasing(events);
        assert t.returned == events;
        assert Even(t, events);
      } else if Even(s, events) {
        assert Even(t, events);
      } else if Ahead(s, events) {
        assert Ahead(t, events);
      } else {
        var e, k :| Jammed(s, events, e, k);
        assert Jammed(t, events, e, k);
      }
    }
  }

  lemma {:induction false} NextKeeps(s: System, events: seq<AgentEvent>, step: Step) returns (after: seq<AgentEvent>)
    requires Inv(s, events)
    ensures Inv(Next(s, step), after)
  {
    hide Encode, EncodeAll, Stored, Finish, Admit;
    after := events;
    match step
    case Commit(draft) =>
      var t := Next(s, step);
      if Even(s, events) {
        assert Even(t, events);
      } else if Ahead(s, events) {
        assert Ahead(t, events);
      } else {
        var e, k :| Jammed(s, events, e, k);
        assert Jammed(t, events, e, k);
      }
    case Begin => BeginKeeps(s, events);
    case WriteSome(n) =>
      if s.phase.Writing? {
        NotWritingOtherwise(s, events);
        if s.phase.written + n <= |Encode(s.phase.event)| {
          MoreWritten(EncodeAll(events), Encode(s.phase.event), s.phase.written, n);
        }
        assert Even(Next(s, step), events);
      }
    case EndWrite(ok) => after := EndWriteKeeps(s, events, ok);
    case Resume(i) => ResumeKeeps(s, events, i);
  }

  lemma {:induction false} Reachable(steps: seq<Step>) returns (events: seq<AgentEvent>)
    ensures Inv(Run(Initial(), steps), events)
  {
    if steps == [] {
      events := [];
      assert EncodeAll([]) == "";
      assert Even(Initial(), []);
    } else {
      hide Inv; hide Next;
      var before := Reachable(steps[..|steps| - 1]);
      events := NextKeeps(Run(Initial(), steps[..|steps| - 1]), before, steps[|steps| - 1]);
    }
  }

  /** The events readers see once the invariant's extra text is cut off. */
  lemma FileOf(s: System, events: seq<AgentEvent>) returns (seen: seq<AgentEvent>, part: string)
    requires Inv(s, events)
    ensures Numbered(seen) && |seen| <= s.nextSequence && events <= seen
    ensures '\n' !in part && s.log.file == EncodeAll(seen) + part
  {
    hide EncodeLine; hide EncodeAll; hide DecodeLine;
    seen, part := events, "";
    var e, k: nat;
    if Even(s, events) && s.phase.Writing? {
      e, k := s.phase.event, s.phase.written;
    } else if Even(s, events) || Ahead(s, events) {
      assert EncodeAll(events) + "" == EncodeAll(events);
      return;
    } else {
      e, k :| Jammed(s, events, e, k);
    }
    LineHasNoNewline(e);
    if k == |Encode(e)| {
      seen := events + [e];
      EncodeAllAppend(events, [e]);
      EncodeAllOne(e);
      assert Encode(e)[..k] == Encode(e) && EncodeAll(seen) + "" == EncodeAll(seen);
    } else {
      part := EncodeLine(e)[..k];
      assert Encode(e)[..k] == part;
    }
  }

  /**
   Safety of the log in every run. At every moment, even in the middle of a write and after any
   failures, the file is whole lines numbered 1..t and at most one unterminated line; a tolerant
   reader gets exactly those t events; the counter is t or t + 1; and callers have been given
   exactly the events 1..counter-1, all of them already in the file.
   */
  lemma {:induction false} LogIsContiguous(steps: seq<Step>)
    ensures var s := Run(Initial(), steps);
      var r := Read(s.log.file, SkipTrailingPartial);
      var t := |r.events|;
      && r.error == None
      && Numbered(r.events)
      && s.nextSequence - 1 <= t <= s.nextSequence
      && 1 <= s.nextSequence && s.returned == r.events[..s.nextSequence - 1]
      && s.log.file == EncodeAll(r.events) + Cut(s.log.file, "\n").rest
  {
    hide EncodeLine; hide EncodeAll; hide DecodeLine; hide Next; hide Run;
    var s := Run(Initial(), steps);
    var events := Reachable(steps);
    var seen, part := FileOf(s, events);
    NumberedIncreasing(seen);
    ReadUnfinished(seen, part);
    assert events[..s.nextSequence - 1] == seen[..s.nextSequence - 1];
    RestOfEncoded(seen, part);
  }

  lemma {:induction false} RestOfEncoded(events: seq<AgentEvent>, part: string)
    requires '\n' !in part
    ensures Cut(EncodeAll(events) + part, "\n").rest == part
  {
    if events == [] {
      assert EncodeAll(events) + part == part;
      NotContained(part, "\n");
    } else {
      hide EncodeLine; hide EncodeAll;
      EncodeAllFirst(events, part);
      LineHasNoNewline(events[0]);
      CutPiece(EncodeLine(events[0]), "\n", EncodeAll(events[1..]) + part);
      RestOfEncoded(events[1..], part);
    }
  }
}
