/**
 One client reading a session's events: it connects with the last id it has, gets the buffered
 events one by one and then live events through a queue and a wake-up slot; it may be cut off and
 connect again. Each step is one block of the code between two suspension points, and a run is any
 sequence of steps.
 */
module Subscription {
  import opened Cursor

  /** Where a live subscription is suspended: at a yield, on its wait promise, or with that promise resolved. */
  datatype At = Yield | Wait | Woken

  datatype Stage =
    | Disconnected
    | Replaying(rest: seq<CursorEvent>)
    | Live(queue: seq<CursorEvent>, at: At)

  datatype System = System(
    cursor: CursorState,
    history: seq<string>,           // all events ever pushed
    stage: Stage,
    aborted: bool,                  // the connection's abort signal
    lost: bool,                     // the last connection attempt found its cursor gone
    fromCursor: nat,                // of the current or last connection
    snapshot: nat,                  // how many events existed when the replay was taken
    attach: nat,                    // how many existed when the listener was attached
    delivered: seq<CursorEvent>,    // by this connection
    received: seq<CursorEvent>)     // by all connections, without what was cut off

  /**
   Pull: the consumer asks for the next event. Wake: the resolved wait promise lets the loop go on.
   Leave: the consumer stops at a yield. Cut: of a connection that has ended, the last `n` events it
   delivered never reach the client.
   */
  datatype Step =
    | Push(data: string)
    | Close
    | Connect(fromCursor: nat)
    | Abort
    | Pull
    | Wake
    | Leave
    | Cut(n: nat)

  function Initial(capacity: int): System {
    System(Empty(capacity), [], Disconnected, false, false, 0, 0, 0, [], [])
  }

  function WakeUp(stage: Stage): Stage {
    if stage.Live? && stage.at == Wait then stage.(at := Woken) else stage
  }

  function Deliver(s: System, e: CursorEvent, stage: Stage): System {
    s.(delivered := s.delivered + [e], received := s.received + [e], stage := stage)
  }

  /** The top of the live loop. */
  function Loop(s: System): System
    requires s.stage.Live?
  {
    var queue := s.stage.queue;
    if queue != [] then Deliver(s, queue[0], Live(queue[1..], Yield))
    else if s.aborted || s.cursor.closed then s.(stage := Disconnected)
    else s.(stage := Live([], Wait))
  }

  /** The replay loop, and what follows it. */
  function ReplayLoop(s: System, rest: seq<CursorEvent>): System {
    if rest != [] then
      if s.aborted then s.(stage := Disconnected) else Deliver(s, rest[0], Replaying(rest[1..]))
    else
      var attached := s.(attach := |s.history|);
      if s.cursor.closed then attached.(stage := Disconnected)
      else Loop(attached.(stage := Live([], Yield)))
  }

  function Next(s: System, step: Step): System {
    match step
    case Push(data) =>
      if s.cursor.closed then s
      else
        var stage := if s.stage.Live?
                     then WakeUp(s.stage.(queue := s.stage.queue + [CursorEvent(s.cursor.latest + 1, data)]))
                     else s.stage;
        s.(cursor := Pushed(s.cursor, data), history := s.history + [data], stage := stage)
    case Close => s.(cursor := s.cursor.(closed := true), stage := if s.cursor.closed then s.stage else WakeUp(s.stage))
    case Connect(n) =>
      if !s.stage.Disconnected? then s
      else if !CanResumeFrom(s.cursor, n) then s.(lost := true)
      else
        var connected := s.(aborted := false, lost := false, fromCursor := n,
                        snapshot := |s.history|, attach := |s.history|, delivered := []);
        ReplayLoop(connected, Replayed(s.cursor, n))
    case Abort => s.(aborted := true, stage := WakeUp(s.stage))
    case Pull =>
      (match s.stage
       case Replaying(rest) => ReplayLoop(s, rest)
       case Live(_, Yield) => Loop(s)
       case _ => s)
    case Wake => if s.stage.Live? && s.stage.at == Woken then Loop(s) else s
    case Leave =>
      if s.stage.Replaying? || (s.stage.Live? && s.stage.at == Yield) then s.(stage := Disconnected) else s
    case Cut(n) =>
      if s.stage.Disconnected? && n <= |s.delivered| && n <= |s.received| then
        s.(delivered := s.delivered[..|s.delivered| - n], received := s.received[..|s.received| - n])
      else s
  }

  function Run(s: System, steps: seq<Step>): System {
    if steps == [] then s else Next(Run(s, steps[..|steps| - 1]), steps[|steps| - 1])
  }

  // ---- what the steps of a run say by themselves ----

  /** The data of the pushes before the first close. */
  function PushedBy(steps: seq<Step>): seq<string> {
    if steps == [] then []
    else
      var earlier, step := steps[..|steps| - 1], steps[|steps| - 1];
      PushedBy(earlier) + (if step.Push? && Close !in earlier then [step.data] else [])
  }

  /** Whatever else goes on, the history is every event pushed before the session was closed. */
  lemma {:induction false} HistoryIsPushes(capacity: int, steps: seq<Step>)
    ensures var s := Run(Initial(capacity), steps);
      && s.history == PushedBy(steps) && (s.cursor.closed <==> Close in steps)
      && s.cursor.capacity == if capacity < 1 then 1 else capacity
  {
    if steps != [] {
      hide Next;
      var earlier, step := steps[..|steps| - 1], steps[|steps| - 1];
      HistoryIsPushes(capacity, earlier);
      OnlyPushAndClose(Run(Initial(capacity), earlier), step);
      assert steps == earlier + [step];
    }
  }

  lemma OnlyPushAndClose(s: System, step: Step)
    ensures var t := Next(s, step);
      && t.history == s.history + (if step.Push? && !s.cursor.closed then [step.data] else [])
      && t.cursor.closed == (s.cursor.closed || step == Close) && t.cursor.capacity == s.cursor.capacity
  {
    hide CanResumeFrom, Replayed;
    assert s.history + [] == s.history;
  }

  // ---- one connection ----

  function Min(a: nat, b: nat): nat { if a < b then a else b }

  /** The history after the client's cursor, without the events pushed between the replay and the listener. */
  function Due(s: System): seq<CursorEvent>
    requires s.snapshot <= s.attach <= |s.history|
  {
    DueOf(s.history, Min(s.fromCursor, s.snapshot), s.snapshot, s.attach)
  }

  function DueOf(history: seq<string>, first: nat, snapshot: nat, attach: nat): seq<CursorEvent>
    requires first <= snapshot <= attach <= |history|
  {
    Events(history)[first..snapshot] + Events(history)[attach..]
  }

  ghost predicate Inv(s: System) {
    && Holds(s.cursor, s.history)
    && s.snapshot <= s.attach <= |s.history|
    && match s.stage
       case Disconnected => s.delivered <= Due(s)
       case Replaying(rest) =>
         && s.snapshot == s.attach
         && s.delivered + rest == Events(s.history)[Min(s.fromCursor, s.snapshot)..s.snapshot]
       case Live(queue, at) =>
         && s.delivered + queue == Due(s)
         && (at == Wait ==> queue == [] && !s.aborted && !s.cursor.closed)
  }

  lemma LoopKeeps(s: System)
    requires Inv(s) && s.stage.Live?
    ensures Inv(Loop(s))
  {
    var queue := s.stage.queue;
    if queue != [] {
      assert s.delivered + queue == (s.delivered + [queue[0]]) + queue[1..];
    } else {
      assert s.delivered + queue == s.delivered;
    }
  }

  lemma ReplayLoopKeeps(s: System, rest: seq<CursorEvent>)
    requires Inv(s.(stage := Replaying(rest)))
    ensures Inv(ReplayLoop(s, rest))
  {
    var all := Events(s.history);
    if rest != [] {
      assert s.delivered + rest == (s.delivered + [rest[0]]) + rest[1..];
    } else {
      var attached := s.(attach := |s.history|);
      assert all[attached.attach..] == [];
      assert s.delivered + rest == s.delivered && s.delivered + [] == s.delivered;
      assert Due(attached) == s.delivered;
      if !s.cursor.closed {
        LoopKeeps(attached.(stage := Live([], Yield)));
      }
    }
  }

  lemma DueAfterPush(s: System, data: string)
    requires s.snapshot <= s.attach <= |s.history|
    ensures var e := CursorEvent(|s.history| + 1, data);
      && DueOf(s.history + [data], Min(s.fromCursor, s.snapshot), s.snapshot, s.attach) == Due(s) + [e]
      && Events(s.history + [data])[Min(s.fromCursor, s.snapshot)..s.snapshot]
         == Events(s.history)[Min(s.fromCursor, s.snapshot)..s.snapshot]
  {
    EventsAppend(s.history, data);
    var all, e := Events(s.history), CursorEvent(|s.history| + 1, data);
    assert (all + [e])[s.attach..] == all[s.attach..] + [e];
    var before := all[Min(s.fromCursor, s.snapshot)..s.snapshot];
    assert (all + [e])[Min(s.fromCursor, s.snapshot)..s.snapshot] == before;
    assert before + (all[s.attach..] + [e]) == (before + all[s.attach..]) + [e];
  }

  lemma PushKeeps(s: System, data: string)
    requires Inv(s)
    ensures Inv(Next(s, Push(data)))
  {
    hide Loop, ReplayLoop, Replayed, CanResumeFrom, Pushed, DueOf, Events;
    if !s.cursor.closed {
      var e := CursorEvent(|s.history| + 1, data);
      if s.stage.Live? {
        assert s.delivered + (s.stage.queue + [e]) == (s.delivered + s.stage.queue) + [e];
      }
      PushHolds(s.cursor, s.history, data);
      DueAfterPush(s, data);
    }
  }

  lemma NextKeeps(s: System, step: Step)
    requires Inv(s)
    ensures Inv(Next(s, step))
  {
    hide Loop, ReplayLoop, Replayed, CanResumeFrom;
    match step
    case Push(data) =>
      PushKeeps(s, data);
    case Connect(n) =>
      if s.stage.Disconnected? && CanResumeFrom(s.cursor, n) {
        ReplayIsHistory(s.cursor, s.history, n);
        var rest := Replayed(s.cursor, n);
        assert [] + rest == rest;
        ReplayLoopKeeps(s.(aborted := false, lost := false, fromCursor := n,
                           snapshot := |s.history|, attach := |s.history|, delivered := []), rest);
      }
    case Pull =>
      if s.stage.Replaying? {
        ReplayLoopKeeps(s, s.stage.rest);
      } else if s.stage.Live? && s.stage.at == Yield {
        LoopKeeps(s);
      }
    case Wake =>
      if s.stage.Live? && s.stage.at == Woken {
        LoopKeeps(s);
      }
    case _ =>
  }

  lemma {:induction false} Reachable(capacity: int, steps: seq<Step>)
    ensures Inv(Run(Initial(capacity), steps))
  {
    if steps == [] {
      EmptyHolds(capacity);
    } else {
      hide Inv; hide Next;
      Reachable(capacity, steps[..|steps| - 1]);
      NextKeeps(Run(Initial(capacity), steps[..|steps| - 1]), steps[|steps| - 1]);
    }
  }

  /**
   Handover from replay to live, for every run of pushes, pulls, close, aborts and reconnects. What a
   live connection has delivered, followed by what waits in its queue, is the history after the
   client's cursor without the events pushed between the replay snapshot and the attachment of the
   listener; before that it is a beginning of it. A waiting subscriber never misses a wake-up: its
   queue is empty and nothing has aborted or closed.
   */
  lemma {:induction false} Handover(capacity: int, steps: seq<Step>)
    ensures var s := Run(Initial(capacity), steps);
      && s.snapshot <= s.attach <= |s.history|
      && s.delivered <= Due(s)
      && (s.stage.Live? ==> s.delivered + s.stage.queue == Due(s))
      && (s.stage.Replaying? ==>
            s.delivered + s.stage.rest == Events(s.history)[Min(s.fromCursor, s.snapshot)..s.snapshot])
      && (s.stage.Live? && s.stage.at == Wait ==> s.stage.queue == [] && !s.aborted && !s.cursor.closed)
  {
    Reachable(capacity, steps);
  }

  /**
   An attempt to connect is told that its cursor is lost exactly when more events came after that cursor
   than the ring holds; nothing else tells so, and a lost attempt changes nothing else.
   */
  lemma {:induction false} LostIffGone(capacity: int, steps: seq<Step>, step: Step)
    ensures var s := Run(Initial(capacity), steps);
      var t := Next(s, step);
      if step.Connect? && s.stage.Disconnected? then
        && (t.lost <==> |PushedBy(steps)| - step.fromCursor > if capacity < 1 then 1 else capacity)
        && (if t.lost then t == s.(lost := true)
            else t.fromCursor == step.fromCursor && t.snapshot == |s.history| && !t.aborted)
      else t.lost == s.lost
  {
    hide Run;
    var s := Run(Initial(capacity), steps);
    Reachable(capacity, steps);
    HistoryIsPushes(capacity, steps);
    if step.Connect? && step.fromCursor < |s.history| {
      CanResumeIffKept(s.cursor, s.history, step.fromCursor);
    }
  }

  /** An abort wakes a waiting subscriber and stays until the next connection. */
  lemma AbortIsHeard(s: System, step: Step)
    ensures var t := Next(s, Abort);
      t.aborted && !(t.stage.Live? && t.stage.at == Wait) && t.delivered == s.delivered
    ensures s.aborted && !step.Connect? ==> Next(s, step).aborted
  {
    hide CanResumeFrom, Replayed, Pushed;
  }

  /** An aborted replay ends when the consumer asks again, an aborted live subscriber once its queue is empty. */
  lemma AbortEnds(s: System)
    requires s.aborted
    ensures s.stage.Replaying? ==> Next(s, Pull).stage == Disconnected && Next(s, Pull).delivered == s.delivered
    ensures s.stage.Live? && s.stage.queue == [] && s.stage.at == Yield ==> Next(s, Pull) == s.(stage := Disconnected)
    ensures s.stage.Live? && s.stage.queue == [] && s.stage.at == Woken ==> Next(s, Wake) == s.(stage := Disconnected)
  {
  }

  /** A consumer leaves at a yield only, and takes nothing more with it. */
  lemma LeaveEnds(s: System)
    ensures var atYield := s.stage.Replaying? || (s.stage.Live? && s.stage.at == Yield);
      Next(s, Leave) == if atYield then s.(stage := Disconnected) else s
  {
  }

  /** An event the client lacks is neither delivered nor queued iff it was pushed in that gap. */
  lemma OnlyTheGapIsMissed(capacity: int, steps: seq<Step>, i: nat)
    requires var s := Run(Initial(capacity), steps);
      s.stage.Live? && Min(s.fromCursor, s.snapshot) <= i < |s.history|
    ensures var s := Run(Initial(capacity), steps);
      Events(s.history)[i] !in s.delivered + s.stage.queue <==> s.snapshot <= i < s.attach
  {
    hide Run, Due;
    var s := Run(Initial(capacity), steps);
    Handover(capacity, steps);
    InDue(s, i);
    assert Events(s.history)[i] in s.delivered + s.stage.queue <==> Events(s.history)[i] in Due(s);
  }

  lemma InDue(s: System, i: nat)
    requires s.snapshot <= s.attach <= |s.history| && Min(s.fromCursor, s.snapshot) <= i < |s.history|
    ensures Events(s.history)[i] in Due(s) <==> !(s.snapshot <= i < s.attach)
  {
    var all, first := Events(s.history), Min(s.fromCursor, s.snapshot);
    if i < s.snapshot {
      assert all[i] == Due(s)[i - first];
    } else if i >= s.attach {
      assert all[i] == Due(s)[s.snapshot - first + (i - s.attach)];
    }
  }

  /** A client that connects ahead of the session gets no replay, and its listener is attached at once. */
  predicate AheadIsLive(s: System) {
    s.fromCursor > s.snapshot ==> !s.stage.Replaying? && s.attach == s.snapshot
  }

  lemma {:induction false} AheadAlwaysLive(capacity: int, steps: seq<Step>)
    ensures AheadIsLive(Run(Initial(capacity), steps))
  {
    hide Inv, Next;
    if steps != [] {
      AheadAlwaysLive(capacity, steps[..|steps| - 1]);
      Reachable(capacity, steps[..|steps| - 1]);
      AheadStep(Run(Initial(capacity), steps[..|steps| - 1]), steps[|steps| - 1]);
    }
  }

  lemma AheadStep(s: System, step: Step)
    requires Inv(s) && AheadIsLive(s)
    ensures AheadIsLive(Next(s, step))
  {
    hide Newer, Due, Events;
  }

  /**
   Ids only grow within a connection, and all of them are new to the client exactly when its cursor was
   not ahead of the session as it connected.
   */
  lemma {:induction false} IdsGrow(capacity: int, steps: seq<Step>)
    ensures var s := Run(Initial(capacity), steps);
      && (forall i, j | 0 <= i < j < |s.delivered| :: s.delivered[i].id < s.delivered[j].id)
      && (s.delivered != [] ==> ((forall e | e in s.delivered :: s.fromCursor < e.id) <==> s.fromCursor <= s.snapshot))
  {
    hide Run, Due;
    Handover(capacity, steps);
    AheadAlwaysLive(capacity, steps);
    var s := Run(Initial(capacity), steps);
    forall i | 0 <= i < |s.delivered| ensures s.delivered[i].id == DueId(s, i) {
      DueIds(s, i);
      assert s.delivered[i] == Due(s)[i];
    }
    if s.delivered != [] && s.fromCursor > s.snapshot {
      assert s.delivered[0] in s.delivered && s.delivered[0].id == s.snapshot + 1;
    }
  }

  /** The id of the `i`-th due event. */
  function DueId(s: System, i: nat): int {
    var first := Min(s.fromCursor, s.snapshot);
    if i < s.snapshot - first then first + i + 1 else s.attach + i - (s.snapshot - first) + 1
  }

  lemma DueIds(s: System, i: nat)
    requires s.snapshot <= s.attach <= |s.history| && i < |Due(s)|
    ensures Due(s)[i].id == DueId(s, i)
  {
  }

  /** A client that connects with id 5 to a session without events is then sent event 1. */
  lemma AheadGetsOldId()
    ensures var s := Run(Initial(3), [Connect(5), Push("a"), Wake]);
      s.fromCursor == 5 && s.received == [CursorEvent(1, "a")] && s.stage == Live([], Yield)
  {
    var s := Initial(3);
    ThreeSteps(s, Connect(5), Push("a"), Wake);
    ConnectAhead();
    hide Run, ReplayLoop, CanResumeFrom, Replayed;
    var s1, a := Next(s, Connect(5)), CursorEvent(1, "a");
    var s2 := Next(s1, Push("a"));
    assert s2.stage == Live([a], Woken) && s2.received == [] && s2.fromCursor == 5;
    assert [a][1..] == [] && [] + [a] == [a];
  }

  lemma ConnectAhead()
    ensures var s := Initial(3); Next(s, Connect(5)) == s.(fromCursor := 5, stage := Live([], Wait))
  {
  }

  // ---- after a close ----

  /** A step that lets the subscriber go on: a pull at a yield, or the wake-up of a resolved wait. */
  predicate GoesOn(s: System, step: Step) {
    s.stage.Live? && ((s.stage.at == Yield && step == Pull) || (s.stage.at == Woken && step == Wake))
  }

  function Turns(s: System, steps: seq<Step>): nat {
    if steps == [] then 0
    else
      var n := |steps| - 1;
      Turns(s, steps[..n]) + (if GoesOn(Run(s, steps[..n]), steps[n]) then 1 else 0)
  }

  /** The consumer does not leave, and does not come back once it has reached the end. */
  predicate Stays(steps: seq<Step>) {
    forall step | step in steps :: !step.Connect? && !step.Leave? && !step.Cut?
  }

  /** What is left to deliver after a close, in which `n` is how often the subscriber went on. */
  predicate Draining(s: System, t: System, n: nat)
    requires s.stage.Live?
  {
    && t.cursor.closed
    && if n <= |s.stage.queue| then
         && t.stage.Live? && t.stage.at == (if n == 0 then s.stage.at else Yield)
         && t.stage.queue == s.stage.queue[n..] && t.delivered == s.delivered + s.stage.queue[..n]
       else t.stage == Disconnected && t.delivered == s.delivered + s.stage.queue
  }

  lemma DrainStep(s: System, t: System, n: nat, step: Step)
    requires s.stage.Live? && s.stage.at != Wait && Draining(s, t, n) && !step.Connect? && !step.Leave? && !step.Cut?
    ensures Draining(s, Next(t, step), if GoesOn(t, step) then n + 1 else n)
  {
    hide ReplayLoop;
    var queue := s.stage.queue;
    if GoesOn(t, step) && n < |queue| {
      assert queue[..n + 1] == queue[..n] + [queue[n]] && queue[n..][1..] == queue[n + 1..];
      assert s.delivered + queue[..n + 1] == (s.delivered + queue[..n]) + [queue[n]];
    } else if GoesOn(t, step) {
      assert queue[..n] == queue;
    }
  }

  /**
   After a close, each time the subscriber goes on it delivers the next queued event, and once more than
   there are it ends, whatever pushes, aborts and pulls come between.
   */
  lemma {:induction false} EachTurnDelivers(s: System, steps: seq<Step>)
    requires s.cursor.closed && s.stage.Live? && s.stage.at != Wait && Stays(steps)
    ensures Draining(s, Run(s, steps), Turns(s, steps))
  {
    hide Draining, Next, GoesOn;
    if steps == [] {
      NothingDrained(s);
    } else {
      var n := |steps| - 1;
      EachTurnDelivers(s, steps[..n]);
      assert steps[n] in steps;
      DrainStep(s, Run(s, steps[..n]), Turns(s, steps[..n]), steps[n]);
    }
  }

  lemma NothingDrained(s: System)
    requires s.cursor.closed && s.stage.Live? && s.stage.at != Wait
    ensures Draining(s, s, 0)
  {
    assert s.delivered + s.stage.queue[..0] == s.delivered;
  }

  function Pulls(steps: seq<Step>): nat {
    if steps == [] then 0 else Pulls(steps[..|steps| - 1]) + (if steps[|steps| - 1] == Pull then 1 else 0)
  }

  /** A subscriber at a yield goes on at every pull until it has ended. */
  lemma {:induction false} PullsAreTurns(s: System, steps: seq<Step>)
    requires s.cursor.closed && s.stage.Live? && s.stage.at == Yield && Stays(steps)
    ensures Turns(s, steps) >= Pulls(steps) || Run(s, steps).stage == Disconnected
  {
    hide Next, Draining, GoesOn;
    if steps != [] {
      var n := |steps| - 1;
      assert steps[n] in steps;
      PullsAreTurns(s, steps[..n]);
      EachTurnDelivers(s, steps[..n]);
      PullGoesOn(s, Run(s, steps[..n]), Turns(s, steps[..n]), steps[n]);
    }
  }

  lemma PullGoesOn(s: System, t: System, n: nat, step: Step)
    requires s.stage.Live? && s.stage.at == Yield && Draining(s, t, n) && !step.Connect? && !step.Leave? && !step.Cut?
    ensures (step == Pull ==> GoesOn(t, step)) || (t.stage == Disconnected && Next(t, step).stage == Disconnected)
    ensures t.stage == Disconnected ==> Next(t, step).stage == Disconnected
  {
    hide ReplayLoop, Loop, Pushed;
  }

  lemma {:induction false} RunJoin(s: System, a: seq<Step>, b: seq<Step>)
    ensures Run(s, a + b) == Run(Run(s, a), b)
    decreases |b|
  {
    hide Next;
    if b == [] {
      assert a + b == a;
    } else {
      var n := |b| - 1;
      assert (a + b)[..|a + b| - 1] == a + b[..n];
      RunJoin(s, a, b[..n]);
    }
  }

  /**
   A consumer that does not leave gets everything that was queued before the close, and then the end: if
   it is at a yield, from any steps with enough pulls; if it was waiting, once the wake-up has come
   through, and then from any steps with enough pulls.
   */
  lemma {:induction false} DrainsAfterClose(capacity: int, before: seq<Step>, a: seq<Step>, b: seq<Step>)
    requires var s := Run(Initial(capacity), before);
      s.cursor.closed && s.stage.Live? && Stays(a) && Stays(b) && Pulls(b) > |s.stage.queue|
    ensures var s := Run(Initial(capacity), before);
      var t := Run(s, a + [Wake] + b);
      && t.stage == Disconnected && t.delivered == s.delivered + s.stage.queue
      && (s.stage.at == Yield ==> Run(s, b).stage == Disconnected && Run(s, b).delivered == s.delivered + s.stage.queue)
  {
    var s := Run(Initial(capacity), before);
    Handover(capacity, before);
    hide Next, GoesOn, Due;
    var u, whole := Run(s, a + [Wake]), a + [Wake] + b;
    assert Stays(a + [Wake]) && Stays(whole);
    RunJoin(s, a + [Wake], b);
    TurnsJoin(s, a + [Wake], b);
    EachTurnDelivers(s, whole);
    EachTurnDelivers(s, a + [Wake]);
    AfterWake(s, a);
    if u.stage.Live? {
      PullsAreTurns(u, b);
    }
    if s.stage.at == Yield {
      PullsAreTurns(s, b);
      EachTurnDelivers(s, b);
    }
  }

  /** Once a wake-up was let through, a subscriber that has not ended is at a yield. */
  lemma AfterWake(s: System, a: seq<Step>)
    requires s.cursor.closed && s.stage.Live? && s.stage.at != Wait && Stays(a)
    ensures var u := Run(s, a + [Wake]); u.cursor.closed && (u.stage.Live? ==> u.stage.at == Yield)
  {
    hide Next, Draining, Turns;
    EachTurnDelivers(s, a);
    assert (a + [Wake])[..|a|] == a;
    WakeThrough(s, Run(s, a), Turns(s, a));
  }

  lemma WakeThrough(s: System, t: System, n: nat)
    requires s.stage.Live? && s.stage.at != Wait && Draining(s, t, n)
    ensures var u := Next(t, Wake); u.cursor.closed && (u.stage.Live? ==> u.stage.at == Yield)
  {
    hide ReplayLoop, Pushed;
  }

  lemma {:induction false} TurnsJoin(s: System, a: seq<Step>, b: seq<Step>)
    ensures Turns(s, a + b) == Turns(s, a) + Turns(Run(s, a), b)
    decreases |b|
  {
    hide Next, GoesOn;
    if b == [] {
      assert a + b == a;
    } else {
      var n := |b| - 1;
      assert (a + b)[..|a + b| - 1] == a + b[..n];
      TurnsJoin(s, a, b[..n]);
      RunJoin(s, a, b[..n]);
    }
  }

  // ---- any number of connections ----

  function LastId(received: seq<CursorEvent>): nat {
    if received == [] then 0 else received[|received| - 1].id
  }

  /** Every connection sends the last id the client has got, and nothing is pushed while a replay is under way. */
  predicate Faithful(s: System, steps: seq<Step>) {
    steps == [] ||
    var before, step := Run(s, steps[..|steps| - 1]), steps[|steps| - 1];
    && Faithful(s, steps[..|steps| - 1])
    && (step.Connect? ==> step.fromCursor == LastId(before.received))
    && (step.Push? ==> !before.stage.Replaying?)
  }

  ghost predicate Seamless(s: System) {
    && Inv(s)
    && |s.received| <= |s.history|
    && s.received == Events(s.history)[..|s.received|]
    && (s.stage.Replaying? ==> s.snapshot == |s.history|)
    && (!s.stage.Disconnected? ==>
          && s.snapshot == s.attach && s.fromCursor <= s.snapshot
          && s.fromCursor + |s.delivered| == |s.received|)
  }

  lemma PendingIsNext(s: System)
    requires Seamless(s)
    ensures s.stage.Live? ==> s.stage.queue == Events(s.history)[|s.received|..]
    ensures s.stage.Replaying? ==> s.stage.rest == Events(s.history)[|s.received|..]
  {
    var all := Events(s.history);
    if s.stage.Live? {
      assert Due(s) == all[s.fromCursor..];
      assert s.stage.queue == Due(s)[|s.delivered|..];
    } else if s.stage.Replaying? {
      assert s.stage.rest == (s.delivered + s.stage.rest)[|s.delivered|..];
    }
  }

  lemma LoopSeamless(s: System)
    requires Seamless(s) && s.stage.Live?
    ensures Seamless(Loop(s))
  {
    LoopKeeps(s);
    PendingIsNext(s);
    if s.stage.queue != [] {
      assert Events(s.history)[..|s.received| + 1] == s.received + [s.stage.queue[0]];
    }
  }

  lemma ReplayedSeamless(s: System)
    requires Seamless(s) && s.stage == Replaying([]) && !s.cursor.closed
    ensures Seamless(s.(attach := |s.history|, stage := Live([], Yield)))
  {
    hide Holds, CanResumeFrom;
    PendingIsNext(s);
    var live := s.(attach := |s.history|, stage := Live([], Yield));
    assert s.delivered + [] == s.delivered;
    assert Events(s.history)[s.fromCursor..s.snapshot] + [] == Due(live);
  }

  lemma ReplayLoopSeamless(s: System, rest: seq<CursorEvent>)
    requires Seamless(s.(stage := Replaying(rest)))
    ensures Seamless(ReplayLoop(s, rest))
  {
    hide Due, DueOf, Holds, Loop;
    ReplayLoopKeeps(s, rest);
    PendingIsNext(s.(stage := Replaying(rest)));
    if rest != [] {
      assert Events(s.history)[..|s.received| + 1] == s.received + [rest[0]];
    } else if !s.cursor.closed {
      ReplayedSeamless(s.(stage := Replaying([])));
      LoopSeamless(s.(attach := |s.history|, stage := Live([], Yield)));
    }
  }

  lemma PushSeamless(s: System, data: string)
    requires Seamless(s) && !s.stage.Replaying?
    ensures Seamless(Next(s, Push(data)))
  {
    hide Loop, ReplayLoop, Replayed, CanResumeFrom, Due;
    PushKeeps(s, data);
    if !s.cursor.closed {
      EventsAppend(s.history, data);
    }
  }

  lemma ReplayStarts(s: System, rest: seq<CursorEvent>)
    requires Seamless(s) && CanResumeFrom(s.cursor, LastId(s.received))
    requires rest == Replayed(s.cursor, LastId(s.received))
    ensures Seamless(s.(aborted := false, lost := false, fromCursor := LastId(s.received), snapshot := |s.history|,
                        attach := |s.history|, delivered := [], stage := Replaying(rest)))
  {
    hide Loop, ReplayLoop, Replayed, CanResumeFrom, Holds, Newer, Due, DueOf;
    assert LastId(s.received) == |s.received|;
    ReplayIsHistory(s.cursor, s.history, |s.received|);
    assert [] + rest == rest;
  }

  lemma ConnectSeamless(s: System)
    requires Seamless(s) && s.stage.Disconnected? && CanResumeFrom(s.cursor, LastId(s.received))
    ensures Seamless(Next(s, Connect(LastId(s.received))))
  {
    hide Loop, ReplayLoop, Replayed, CanResumeFrom, Seamless, Events, Holds, Newer;
    var n := LastId(s.received);
    var rest := Replayed(s.cursor, n);
    ReplayStarts(s, rest);
    ReplayLoopSeamless(s.(aborted := false, lost := false, fromCursor := n,
                          snapshot := |s.history|, attach := |s.history|, delivered := []), rest);
  }

  lemma NextSeamless(s: System, step: Step)
    requires Seamless(s)
    requires step.Connect? ==> step.fromCursor == LastId(s.received)
    requires step.Push? ==> !s.stage.Replaying?
    ensures Seamless(Next(s, step))
  {
    hide Loop, ReplayLoop, Replayed, CanResumeFrom, Due;
    NextKeeps(s, step);
    match step
    case Push(data) =>
      PushSeamless(s, data);
    case Connect(n) =>
      if s.stage.Disconnected? && CanResumeFrom(s.cursor, n) {
        ConnectSeamless(s);
      }
    case Pull =>
      if s.stage.Replaying? {
        ReplayLoopSeamless(s, s.stage.rest);
      } else if s.stage.Live? && s.stage.at == Yield {
        LoopSeamless(s);
      }
    case Wake =>
      if s.stage.Live? && s.stage.at == Woken {
        LoopSeamless(s);
      }
    case _ =>
  }

  /**
   Over any number of disconnects, each of which may cut off events on their way, a client that reconnects
   with the last id it got, and has nothing pushed during a replay, has received exactly the first events
   of the session: no gap, no duplicate.
   */
  lemma {:induction false} ReconnectsAreSeamless(capacity: int, steps: seq<Step>)
    requires Faithful(Initial(capacity), steps)
    ensures var s := Run(Initial(capacity), steps);
      && Seamless(s)
      && |s.received| <= |s.history|
      && s.received == Events(s.history)[..|s.received|]
  {
    if steps == [] {
      EmptyHolds(capacity);
    } else {
      hide Seamless; hide Next;
      ReconnectsAreSeamless(capacity, steps[..|steps| - 1]);
      NextSeamless(Run(Initial(capacity), steps[..|steps| - 1]), steps[|steps| - 1]);
    }
    assert Seamless(Run(Initial(capacity), steps));
  }

  lemma ThreeSteps(s: System, a: Step, b: Step, c: Step)
    ensures Run(s, [a, b, c]) == Next(Next(Next(s, a), b), c)
  {
    hide Next;
    assert [a, b, c][..2] == [a, b] && [a, b][..1] == [a] && [a][..0] == [];
    assert Run(s, [a]) == Next(Run(s, []), a);
  }

  lemma FourSteps(s: System, a: Step, b: Step, c: Step, d: Step)
    ensures Run(s, [a, b, c, d]) == Next(Next(Next(Next(s, a), b), c), d)
  {
    hide Next;
    assert [a, b, c, d][..3] == [a, b, c] && [a, b, c][..2] == [a, b] && [a, b][..1] == [a] && [a][..0] == [];
    assert Run(s, [a]) == Next(Run(s, []), a);
    assert Run(s, [a, b]) == Next(Run(s, [a]), b);
  }

  /** The gap is real: the client has event 1, waits for more, and event 2 will never reach it. */
  lemma PushDuringReplayIsLost()
    ensures var s := Run(Initial(3), [Push("a"), Connect(0), Push("b"), Pull]);
      && s.history == ["a", "b"]
      && s.received == [CursorEvent(1, "a")]
      && s.stage == Live([], Wait)
  {
    var s, a := Initial(3), CursorEvent(1, "a");
    FourSteps(s, Push("a"), Connect(0), Push("b"), Pull);
    hide Run;
    var s1 := Next(s, Push("a"));
    var s2 := Next(s1, Connect(0));
    var s3 := Next(s2, Push("b"));
    assert s1.cursor.ring == [a] && s1.history == ["a"];
    assert Newer([a], 0) == [a] && [a][1..] == [];
    assert s2.received == [a] && s2.stage == Replaying([]) && s2.history == ["a"];
    assert s3.received == [a] && s3.stage == Replaying([]) && s3.history == ["a", "b"];
    assert Next(s3, Pull).stage == Live([], Wait);
  }
}
