/** Where the commits of a session are at any moment of a run: none is lost, doubled or overtaken. */
module Conservation {
  import opened Schema
  import opened Codec
  import opened EventLog
  import opened CommitQueue

  /**
   The events of the commits that the session took, in order: its creation, which is the first, and every
   one after an event was returned. Each holds the counter as its caller found it.
   */
  function Taken(steps: seq<Step>): seq<AgentEvent> {
    if steps == [] then []
    else
      var earlier, step := steps[..|steps| - 1], steps[|steps| - 1];
      var s := Run(Initial(), earlier);
      Taken(earlier)
        + if step.Commit? && ((forall e | e in earlier :: !e.Commit?) || s.returned != []) then
            var d := step.draft;
            [AgentEvent(d.id, d.sessionId, d.turnId, s.nextSequence, d.timestamp, d.payload)]
          else []
  }

  /** What callers were told, in the order in which they resumed. */
  function Answers(steps: seq<Step>): seq<Settled> {
    if steps == [] then []
    else
      var earlier, step := steps[..|steps| - 1], steps[|steps| - 1];
      var settled := Run(Initial(), earlier).settled;
      Answers(earlier) + (if step.Resume? && step.i < |settled| then [settled[step.i]] else [])
  }

  function EventsOf(settled: seq<Settled>): multiset<AgentEvent> {
    if settled == [] then multiset{} else multiset{settled[0].event} + EventsOf(settled[1..])
  }

  function InWriting(phase: Phase): multiset<AgentEvent> {
    if phase.Writing? then multiset{phase.event} else multiset{}
  }

  lemma {:induction false} EventsOfJoin(a: seq<Settled>, b: seq<Settled>)
    ensures EventsOf(a + b) == EventsOf(a) + EventsOf(b)
  {
    if a == [] {
      assert a + b == b;
    } else {
      assert (a + b)[1..] == a[1..] + b;
      EventsOfJoin(a[1..], b);
    }
  }

  lemma EventsOfWithout(settled: seq<Settled>, i: nat)
    requires i < |settled|
    ensures EventsOf(settled) == EventsOf(settled[..i] + settled[i + 1..]) + multiset{settled[i].event}
  {
    hide EventsOf;
    var a, x, b := settled[..i], settled[i], settled[i + 1..];
    assert settled == a + [x] + b;
    EventsOfJoin(a + [x], b);
    EventsOfJoin(a, [x]);
    EventsOfJoin(a, b);
    OneEvent(x);
  }

  /** Whatever was taken is queued, in the order in which it came, or being written, settled or answered. */
  predicate Conserved(taken: seq<AgentEvent>, answers: seq<Settled>, s: System) {
    && |s.queue| <= |taken|
    && var n := |taken| - |s.queue|;
    && s.queue == taken[n..]
    && multiset(taken[..n]) == EventsOf(answers) + EventsOf(s.settled) + InWriting(s.phase)
    && s.returned == Stored(answers)
  }

  lemma CommitConserves(taken: seq<AgentEvent>, answers: seq<Settled>, s: System, e: AgentEvent)
    requires Conserved(taken, answers, s)
    ensures Conserved(taken + [e], answers, s.(created := true, queue := s.queue + [e]))
  {
    hide EventsOf, Stored, InWriting;
    var n := |taken| - |s.queue|;
    var all := taken + [e];
    assert all[n..] == taken[n..] + [e] && all[..n] == taken[..n];
  }

  /** Where a step moves the events, whatever it does to the file. */
  lemma Moves(s: System, step: Step)
    ensures var t := Next(s, step);
      match step
      case Commit(d) =>
        t == if s.created && !s.registered then s
             else s.(created := true, queue := s.queue + [Stamp(d, s.nextSequence)])
      case Begin =>
        if s.phase != Idle || s.queue == [] then t == s
        else t.queue == s.queue[1..] && t.returned == s.returned
             && ((t.phase == Writing(s.queue[0], 0) && t.settled == s.settled)
                 || (t.phase == Idle && t.settled == s.settled + [Settled(s.queue[0], false)]))
      case WriteSome(_) =>
        && (t.queue, t.settled, t.returned) == (s.queue, s.settled, s.returned)
        && InWriting(t.phase) == InWriting(s.phase)
      case EndWrite(ok) =>
        && t.queue == s.queue && t.returned == s.returned
        && (t == s || (s.phase.Writing? && t.phase == Idle && t.settled == s.settled + [Settled(s.phase.event, ok)]))
      case Resume(i) =>
        if i >= |s.settled| then t == s
        else
          && t.queue == s.queue && t.phase == s.phase && t.settled == s.settled[..i] + s.settled[i + 1..]
          && t.returned == s.returned + (if s.settled[i].stored then [s.settled[i].event] else [])
    ensures step.Resume? && step.i < |s.settled| && s.settled[step.i].stored ==> Next(s, step).registered
    ensures step.Resume? && step.i < |s.settled| && !s.settled[step.i].stored ==>
      Next(s, step).registered == s.registered
    ensures !step.Resume? ==> Next(s, step).registered == s.registered && Next(s, step).returned == s.returned
    ensures !step.Commit? ==> Next(s, step).created == s.created
  {
    hide Admit, Finish, Encode, Stamp;
    assert s.returned + [] == s.returned;
  }

  lemma BeginConserves(taken: seq<AgentEvent>, answers: seq<Settled>, s: System, t: System)
    requires Conserved(taken, answers, s) && s.phase == Idle && s.queue != [] && t.returned == s.returned
    requires t.queue == s.queue[1..]
    requires || (t.phase == Writing(s.queue[0], 0) && t.settled == s.settled)
             || (t.phase == Idle && t.settled == s.settled + [Settled(s.queue[0], false)])
    ensures Conserved(taken, answers, t)
  {
    hide Stored, EventsOf, InWriting;
    var n := |taken| - |s.queue|;
    var e := s.queue[0];
    assert taken[n] == e && taken[..n + 1] == taken[..n] + [e] && taken[n + 1..] == s.queue[1..];
    assert multiset(taken[..n + 1]) == multiset(taken[..n]) + multiset{e};
    EventsOfJoin(s.settled, [Settled(e, false)]);
    OneEvent(Settled(e, false));
    WritingIs(e);
  }

  lemma WritingIs(e: AgentEvent)
    ensures InWriting(Writing(e, 0)) == multiset{e} && InWriting(Idle) == multiset{}
  {
  }

  lemma OneEvent(x: Settled)
    ensures EventsOf([x]) == multiset{x.event}
  {
  }

  lemma EndWriteConserves(taken: seq<AgentEvent>, answers: seq<Settled>, s: System, t: System, ok: bool)
    requires Conserved(taken, answers, s) && s.phase.Writing? && t.phase == Idle
    requires t.queue == s.queue && t.returned == s.returned && t.settled == s.settled + [Settled(s.phase.event, ok)]
    ensures Conserved(taken, answers, t)
  {
    hide Stored, EventsOf;
    EventsOfJoin(s.settled, [Settled(s.phase.event, ok)]);
    OneEvent(Settled(s.phase.event, ok));
  }

  lemma ResumeConserves(taken: seq<AgentEvent>, answers: seq<Settled>, s: System, t: System, i: nat)
    requires Conserved(taken, answers, s) && i < |s.settled| && t.queue == s.queue && t.phase == s.phase
    requires t.settled == s.settled[..i] + s.settled[i + 1..]
    requires t.returned == s.returned + (if s.settled[i].stored then [s.settled[i].event] else [])
    ensures Conserved(taken, answers + [s.settled[i]], t)
  {
    hide Stored, EventsOf;
    EventsOfWithout(s.settled, i);
    EventsOfJoin(answers, [s.settled[i]]);
    StoredAppend(answers, [s.settled[i]]);
    StoredOne(s.settled[i]);
    OneEvent(s.settled[i]);
  }

  /** The creation is the first commit, and a session is known once an event of it was returned. */
  lemma {:induction false} CreatedByCommit(steps: seq<Step>)
    ensures var s := Run(Initial(), steps);
      && (s.created <==> exists e :: e in steps && e.Commit?)
      && (s.registered <==> s.returned != [])
  {
    hide Next;
    if steps != [] {
      var earlier, step := steps[..|steps| - 1], steps[|steps| - 1];
      CreatedByCommit(earlier);
      Moves(Run(Initial(), earlier), step);
      assert steps == earlier + [step] && step in steps;
    }
  }

  lemma StepConserves(taken: seq<AgentEvent>, answers: seq<Settled>, s: System, step: Step)
    requires Conserved(taken, answers, s)
    ensures var took := step.Commit? && (!s.created || s.registered);
      var told := step.Resume? && step.i < |s.settled|;
      Conserved(taken + (if took then [Stamp(step.draft, s.nextSequence)] else []),
                answers + (if told then [s.settled[step.i]] else []), Next(s, step))
  {
    hide Next, Stamp, Stored, EventsOf, InWriting;
    var t := Next(s, step);
    Moves(s, step);
    assert taken + [] == taken && answers + [] == answers;
    match step {
    case Commit(d) =>
      if !s.created || s.registered {
        CommitConserves(taken, answers, s, Stamp(d, s.nextSequence));
      }
    case Begin =>
      if s.phase == Idle && s.queue != [] {
        BeginConserves(taken, answers, s, t);
      }
    case WriteSome(_) =>
    case EndWrite(ok) =>
      if t != s {
        EndWriteConserves(taken, answers, s, t, ok);
      }
    case Resume(i) =>
      if i < |s.settled| {
        ResumeConserves(taken, answers, s, t, i);
      }
    }
  }

  /**
   No commit is lost, doubled or overtaken in any run. Those that the session took are, in order, the ones
   that have left the queue and those in it; and each that has left it is being written, or settled, or
   its caller was answered. What callers were given is what they were told is stored.
   */
  lemma {:induction false} CommitsAreConserved(steps: seq<Step>)
    ensures Conserved(Taken(steps), Answers(steps), Run(Initial(), steps))
  {
    if steps != [] {
      hide Conserved, Next;
      var earlier, step := steps[..|steps| - 1], steps[|steps| - 1];
      CommitsAreConserved(earlier);
      CreatedByCommit(earlier);
      StepConserves(Taken(earlier), Answers(earlier), Run(Initial(), earlier), step);
    }
  }
}
