/** What a failed append does to its session, and how the blocks of one append add up. */
module Retry {
  import opened Schema
  import opened Codec
  import opened EventLog
  import opened CommitQueue

  lemma JamStep(s: System, events: seq<AgentEvent>, e: AgentEvent, k: nat, step: Step)
    requires Inv(s, events) && Jammed(s, events, e, k)
    ensures var t := Next(s, step);
      t.log.file == s.log.file && t.returned == s.returned && Inv(t, events) && Jammed(t, events, e, k)
  {
    hide EncodeLine, EncodeAll, Encode, Read, Stored, Admit, Finish, Even, Ahead;
    var t := Next(s, step);
    match step {
    case Commit(draft) =>
    case Begin =>
      if s.queue != [] {
        JammedRefuses(s, events, e, k, s.queue[0]);
        StoredAppend(s.settled, [Settled(s.queue[0], false)]);
        StoredOne(Settled(s.queue[0], false));
        assert forall x | x in s.queue[1..] :: x in s.queue;
      }
    case WriteSome(_) =>
    case EndWrite(_) =>
    case Resume(i) =>
      if i < |s.settled| {
        ResumeStored(s, i);
      }
    }
    assert Jammed(t, events, e, k);
  }

  lemma {:induction false} JamPersists(s: System, events: seq<AgentEvent>, e: AgentEvent, k: nat, steps: seq<Step>)
    requires Inv(s, events) && Jammed(s, events, e, k)
    ensures var t := Run(s, steps);
      && t.log.file == s.log.file
      && t.returned == s.returned
      && Inv(t, events) && Jammed(t, events, e, k)
  {
    hide Inv, Jammed, Next;
    if steps != [] {
      var n := |steps| - 1;
      JamPersists(s, events, e, k, steps[..n]);
      JamStep(Run(s, steps[..n]), events, e, k, steps[n]);
    }
  }

  /** The position of the first queued event with this number, or the end of the queue. */
  function FirstOf(queue: seq<AgentEvent>, number: nat): (k: nat)
    ensures k <= |queue|
    ensures k < |queue| ==> queue[k].sequence == number
    ensures forall i | 0 <= i < k :: queue[i].sequence != number
  {
    if queue == [] || queue[0].sequence == number then 0 else 1 + FirstOf(queue[1..], number)
  }

  function Begins(s: System, n: nat): System
    decreases n
  {
    if n == 0 then s else Begins(Next(s, Begin), n - 1)
  }

  /** An even log refuses every queued event but one with the next number, and stays as it is. */
  lemma BeginEven(s: System, events: seq<AgentEvent>)
    requires Numbered(events) && Even(s, events) && s.phase == Idle && s.queue != []
    requires 1 <= s.queue[0].sequence <= s.nextSequence
    ensures var t := Next(s, Begin);
      if s.queue[0].sequence == s.nextSequence then t.phase == Writing(s.queue[0], 0) && t.queue == s.queue[1..]
      else
        && t.phase == Idle && Even(t, events) && t.log.file == s.log.file && t.queue == s.queue[1..]
        && t.nextSequence == s.nextSequence && t.registered == s.registered && t.created == s.created
  {
    hide EncodeLine, EncodeAll, Read;
    NumberedIncreasing(events);
    StoredAppend(s.settled, [Settled(s.queue[0], false)]);
    AdmitSound(s.log, events, s.queue[0]);
  }

  lemma {:induction false} BeginsEven(s: System, events: seq<AgentEvent>, n: nat)
    requires Numbered(events) && Even(s, events) && s.phase == Idle
    requires forall q | q in s.queue :: 1 <= q.sequence <= s.nextSequence
    requires n <= FirstOf(s.queue, s.nextSequence)
    ensures var t := Begins(s, n);
      && t.phase == Idle && Even(t, events) && t.log.file == s.log.file && t.queue == s.queue[n..]
      && t.nextSequence == s.nextSequence && t.registered == s.registered && t.created == s.created
    decreases n
  {
    hide Even, Numbered, EncodeAll, EncodeLine;
    if n > 0 {
      BeginEven(s, events);
      var t := Next(s, Begin);
      hide Next;
      assert forall q | q in t.queue :: q in s.queue;
      BeginsEven(t, events, n - 1);
    }
  }

  /**
   What a failed append does to its number, whatever else is queued. If any of its characters reached the
   file, no later step of any run changes the file or gives another event to a caller. If none did, the
   number is free: the appends queued before the first of that number are refused, that one is written,
   and if none is queued then the next commit of the session is.
   */
  lemma {:induction false} RetryReusesNumber(steps: seq<Step>, draft: Draft, later: seq<Step>)
    requires Run(Initial(), steps).phase.Writing?
    ensures var s := Run(Initial(), steps);
      var (failed, number) := (Next(s, EndWrite(false)), s.phase.event.sequence);
      if s.phase.written > 0 then
        Run(failed, later).log.file == failed.log.file && Run(failed, later).returned == failed.returned
      else
        var k := FirstOf(failed.queue, number);
        var t := Begins(failed, k);
        && t.phase == Idle && t.log.file == failed.log.file && t.queue == failed.queue[k..]
        && (k < |failed.queue| ==> Next(t, Begin).phase == Writing(failed.queue[k], 0))
        && (k == |failed.queue| && s.registered ==>
              Next(Next(t, Commit(draft)), Begin).phase == Writing(Stamp(draft, number), 0))
  {
    hide EncodeLine, EncodeAll, Read, Run;
    var s := Run(Initial(), steps);
    var events := Reachable(steps);
    var failed := Next(s, EndWrite(false));
    var after := EndWriteKeeps(s, events, false);
    assert Even(s, events);
    StoredAppend(s.settled, [Settled(s.phase.event, false)]);
    if s.phase.written > 0 {
      assert Jammed(failed, events, s.phase.event, s.phase.written);
      assert Inv(failed, events);
      JamPersists(failed, events, s.phase.event, s.phase.written, later);
    } else {
      NothingLanded(s, events);
      NumberIsFree(failed, events, draft);
    }
  }

  lemma NothingLanded(s: System, events: seq<AgentEvent>)
    requires Inv(s, events) && Even(s, events) && s.phase.Writing? && s.phase.written == 0
    ensures var failed := Next(s, EndWrite(false));
      && Numbered(events) && Even(failed, events) && failed.phase == Idle
      && failed.nextSequence == s.phase.event.sequence && failed.registered == s.registered
      && failed.created == s.created && failed.queue == s.queue
  {
    hide EncodeLine, EncodeAll, Read;
    NumberedIncreasing(events);
    StoredAppend(s.settled, [Settled(s.phase.event, false)]);
    assert Encode(s.phase.event)[..0] == "" && EncodeAll(events) + "" == EncodeAll(events);
  }

  lemma NumberIsFree(failed: System, events: seq<AgentEvent>, draft: Draft)
    requires Numbered(events) && Even(failed, events) && failed.phase == Idle
    requires forall q | q in failed.queue :: 1 <= q.sequence <= failed.nextSequence
    ensures var k := FirstOf(failed.queue, failed.nextSequence);
      var t := Begins(failed, k);
      && t.phase == Idle && t.log.file == failed.log.file && t.queue == failed.queue[k..]
      && (k < |failed.queue| ==> Next(t, Begin).phase == Writing(failed.queue[k], 0))
      && (k == |failed.queue| && failed.registered ==>
            Next(Next(t, Commit(draft)), Begin).phase == Writing(Stamp(draft, failed.nextSequence), 0))
  {
    hide EncodeAll, EncodeLine, Read, Begins;
    var k := FirstOf(failed.queue, failed.nextSequence);
    BeginsEven(failed, events, k);
    var t := Begins(failed, k);
    if k < |failed.queue| {
      BeginEven(t, events);
    } else if failed.registered {
      var u := Next(t, Commit(draft));
      assert u.queue == [] + [Stamp(draft, t.nextSequence)];
      assert Even(u, events);
      BeginEven(u, events);
    }
  }

  // ---- the blocks put together ----

  /** An append run without a break is the log's own append of that one event. */
  lemma BlocksAreAppend(s: System, e: AgentEvent, write: Write)
    requires s.phase == Idle && s.queue == [e]
    requires write.Breaks? ==> write.landed <= |Encode(e)|
    ensures var begun := Next(s, Begin);
      var landed := if write.Whole? then 0 else write.landed;
      var ended := if begun.phase == Idle then begun else Next(Next(begun, WriteSome(landed)), EndWrite(write.Whole?));
      && ended.log == AfterCall(s.log, [e], write).0
      && ended.settled == s.settled + [Settled(e, AfterCall(s.log, [e], write).1 == Appended)]
  {
    hide EncodeLine; hide EncodeAll; hide Read;
    EncodeAllOne(e);
    var text := Encode(e);
    assert text[0..0] == "" && text[0..] == text;
    if write.Breaks? {
      assert text[0..write.landed] == text[..write.landed];
    }
    assert forall file: string :: file + "" == file;
  }

  /** The first append breaks off after one character: no commit of any later run is stored or returned. */
  lemma {:induction false} StuckRun(draft: Draft, later: seq<Step>)
    ensures var t := Run(Run(Initial(), [Commit(draft), Begin, WriteSome(1), EndWrite(false)]), later);
      |t.log.file| == 1 && t.returned == []
  {
    hide Next, Stamp, Encode, FirstOf, Begins;
    var steps := [Commit(draft), Begin, WriteSome(1)];
    FirstWrite(draft);
    assert [Commit(draft), Begin, WriteSome(1), EndWrite(false)][..3] == steps;
    assert Run(Initial(), [Commit(draft), Begin, WriteSome(1), EndWrite(false)])
        == Next(Run(Initial(), steps), EndWrite(false));
    RetryReusesNumber(steps, draft, later);
    FirstWriteFails(draft);
  }

  lemma FirstWrite(draft: Draft)
    ensures var s := Run(Initial(), [Commit(draft), Begin, WriteSome(1)]);
      s.phase == Writing(Stamp(draft, 1), 1) && |s.log.file| == 1 && s.returned == []
  {
    hide EncodeLine, Read;
    var steps := [Commit(draft), Begin, WriteSome(1)];
    assert steps[..2] == [Commit(draft), Begin] && steps[..2][..1] == [Commit(draft)];
    var s1, s2 := Run(Initial(), steps[..2][..1]), Run(Initial(), steps[..2]);
    assert steps[..2][..1][..0] == [];
    assert s1 == Next(Run(Initial(), []), Commit(draft)) == Next(Initial(), Commit(draft));
    assert [] + [Stamp(draft, 1)] == [Stamp(draft, 1)];
    assert s1 == Initial().(created := true, queue := [Stamp(draft, 1)]);
    EncodeNone("");
    AdmitSound(Initial().log, [], Stamp(draft, 1));
    assert s2.phase == Writing(Stamp(draft, 1), 0) && s2.log.file == "";
  }

  lemma FirstWriteFails(draft: Draft)
    ensures var s := Run(Initial(), [Commit(draft), Begin, WriteSome(1)]);
      Next(s, EndWrite(false)).log.file == s.log.file && Next(s, EndWrite(false)).returned == s.returned
  {
    hide Run, EncodeLine;
  }
}
