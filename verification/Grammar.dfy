/** The order in which a session's events may appear in its log. */
module Grammar {
  import opened Wrappers
  import opened Schema

  datatype Phase =
    | NoSession
    | BetweenTurns
    | Opening
    | InTurn
    | Asked(callId: string, requestId: string, tool: string)
    | Permitted(callId: string, requestId: string, tool: string)
    | Refused(callId: string, tool: string)
    | Running(callId: string, tool: string, deltas: nat)

  /**
   created (started user (delta* block)* completed)*, where a tool block is: failed as unknown;
   requested, denied, failed; or requested, allowed, started, any number of deltas, and then
   completed with that number or failed. The events of a block carry the same ids.
   */
  function After(p: Phase, e: Payload): Option<Phase> {
    match (p, e)
    case (NoSession, SessionCreated(_, _)) => Some(BetweenTurns)
    case (BetweenTurns, TurnStarted(_)) => Some(Opening)
    case (Opening, UserMessage(_)) => Some(InTurn)
    case (InTurn, ModelDelta(_)) => Some(InTurn)
    case (InTurn, TurnCompleted(_, _, _)) => Some(BetweenTurns)
    case (InTurn, ToolFailed(_, _, code, _)) => if code == "not_found" then Some(InTurn) else None
    case (InTurn, PermissionRequested(id, callId, tool, _, _, _, _)) =>
      if callId.Some? then Some(Asked(callId.value, id, tool)) else None
    case (Asked(c, r, t), PermissionResolved(id, callId, tool, outcome, _, _)) =>
      if (id, callId, tool) != (r, Some(c), t) then None
      else if outcome == Allowed then Some(Permitted(c, r, t)) else Some(Refused(c, t))
    case (Refused(c, t), ToolFailed(callId, tool, code, _)) =>
      if (callId, tool, code) == (c, t, "permission_denied") then Some(InTurn) else None
    case (Permitted(c, r, t), ToolStarted(callId, id, tool, _)) =>
      if (callId, id, tool) == (c, r, t) then Some(Running(c, t, 0)) else None
    case (Running(c, t, n), ToolDelta(callId, _, _)) => if callId == c then Some(Running(c, t, n + 1)) else None
    case (Running(c, t, n), ToolCompleted(callId, tool, count, _)) =>
      if (callId, tool, count) == (c, t, n) then Some(InTurn) else None
    case (Running(c, t, n), ToolFailed(callId, tool, _, _)) => if (callId, tool) == (c, t) then Some(InTurn) else None
    case _ => None
  }

  /** The phase after a whole sequence, if the sequence is allowed. */
  function Accept(p: Phase, events: seq<Payload>): Option<Phase> {
    if events == [] then Some(p)
    else match Accept(p, events[..|events| - 1])
      case None => None
      case Some(q) => After(q, events[|events| - 1])
  }

  lemma Nothing()
    ensures WithoutTools([]) == [] && AllTools([]) && forall p :: Accept(p, []) == Some(p)
  {
  }

  lemma AcceptSnoc(p: Phase, events: seq<Payload>, e: Payload)
    ensures Accept(p, events + [e]) == match Accept(p, events) case None => None case Some(q) => After(q, e)
  {
    assert (events + [e])[..|events|] == events;
  }

  lemma {:induction false} AcceptJoin(p: Phase, a: seq<Payload>, b: seq<Payload>)
    ensures Accept(p, a + b) == match Accept(p, a) case None => None case Some(q) => Accept(q, b)
    decreases |b|
  {
    hide After;
    if b == [] {
      assert a + b == a;
    } else {
      assert (a + b)[..|a + b| - 1] == a + b[..|b| - 1];
      AcceptJoin(p, a, b[..|b| - 1]);
    }
  }

  /** The events that `runTurn` yields: all but those of the tools. */
  function WithoutTools(events: seq<Payload>): seq<Payload> {
    if events == [] then []
    else
      var e := events[|events| - 1];
      WithoutTools(events[..|events| - 1]) + (if e.IsTool() then [] else [e])
  }

  lemma WithoutToolsSnoc(events: seq<Payload>, e: Payload)
    ensures WithoutTools(events + [e]) == WithoutTools(events) + (if e.IsTool() then [] else [e])
  {
    assert (events + [e])[..|events|] == events;
  }

  lemma {:induction false} WithoutToolsJoin(a: seq<Payload>, b: seq<Payload>)
    ensures WithoutTools(a + b) == WithoutTools(a) + WithoutTools(b)
    decreases |b|
  {
    if b == [] {
      assert a + b == a;
    } else {
      var c, last := b[..|b| - 1], if b[|b| - 1].IsTool() then [] else [b[|b| - 1]];
      assert (a + b)[..|a + b| - 1] == a + c;
      WithoutToolsJoin(a, c);
      assert WithoutTools(a) + WithoutTools(c) + last == WithoutTools(a) + (WithoutTools(c) + last);
    }
  }

  predicate AllTools(events: seq<Payload>) {
    forall e | e in events :: e.IsTool()
  }

  lemma AllToolsJoin(a: seq<Payload>, b: seq<Payload>)
    requires AllTools(a) && AllTools(b)
    ensures AllTools(a + b)
  {
  }

  lemma AllToolsSnoc(events: seq<Payload>, e: Payload)
    requires AllTools(events) && e.IsTool()
    ensures AllTools(events + [e]) && (events == [] ==> AllTools([e]))
  {
  }

  lemma {:induction false} OnlyTools(events: seq<Payload>)
    requires AllTools(events)
    ensures WithoutTools(events) == []
  {
    if events != [] {
      OnlyTools(events[..|events| - 1]);
    }
  }

  // ---- what an allowed log says about its tools ----

  /** The log ends with a permission request for the call and its resolution. */
  predicate AskedAt(l: seq<Payload>, callId: string, tool: string, outcome: Outcome) {
    && |l| >= 2
    && var (asked, told) := (l[|l| - 2], l[|l| - 1]);
    && asked.PermissionRequested? && asked.callId == Some(callId) && asked.toolName == tool
    && told.PermissionResolved? && told.callId == Some(callId) && told.toolName == tool
    && told.requestId == asked.requestId && told.outcome == outcome
  }

  /** The log ends with one running invocation: asked, allowed, started and `n` deltas. */
  predicate RunsAt(l: seq<Payload>, callId: string, tool: string, n: nat) {
    && n + 3 <= |l|
    && var start := |l| - n - 1;
    && AskedAt(l[..start], callId, tool, Allowed)
    && l[start].ToolStarted? && l[start].toolCallId == callId && l[start].toolName == tool
    && l[start].permissionRequestId == l[start - 1].requestId
    && forall k | start < k < |l| :: l[k].ToolDelta? && l[k].toolCallId == callId
  }

  predicate Trail(p: Phase, l: seq<Payload>) {
    match p
    case Asked(c, r, t) =>
      && l != []
      && var asked := l[|l| - 1];
      && asked.PermissionRequested? && asked.requestId == r && asked.callId == Some(c) && asked.toolName == t
    case Permitted(c, r, t) => AskedAt(l, c, t, Allowed) && l[|l| - 1].requestId == r
    case Refused(c, t) => AskedAt(l, c, t, Denied)
    case Running(c, t, n) => RunsAt(l, c, t, n)
    case _ => true
  }

  predicate Resting(p: Phase) { p in {NoSession, BetweenTurns, InTurn} }

  lemma {:induction false} TrailHolds(p: Phase, l: seq<Payload>)
    requires Resting(p) && Accept(p, l).Some?
    ensures Trail(Accept(p, l).value, l)
  {
    if l != [] {
      TrailHolds(p, l[..|l| - 1]);
      TrailStep(Accept(p, l[..|l| - 1]).value, l[..|l| - 1], l[|l| - 1]);
      assert l == l[..|l| - 1] + [l[|l| - 1]];
    }
  }

  lemma TrailStep(p: Phase, l: seq<Payload>, e: Payload)
    requires Trail(p, l) && After(p, e).Some?
    ensures Trail(After(p, e).value, l + [e])
  {
    var after := l + [e];
    if p.Asked? {
      assert after[|after| - 2] == l[|l| - 1];
    } else if p.Permitted? {
      assert after[..|l|] == l;
    } else if p.Running? {
      assert after[..|l| - p.deltas - 1] == l[..|l| - p.deltas - 1];
    }
  }

  /**
   In every allowed log, finished or not: a tool starts only right after a permission request for that
   very call was allowed, a delta belongs to the running call, a completion counts the deltas since its
   start, and a denial is followed by nothing of that call but its failure.
   */
  lemma NoToolRunsUnasked(p: Phase, l: seq<Payload>, i: nat)
    requires Resting(p) && Accept(p, l).Some? && i < |l|
    ensures l[i].ToolStarted? ==> RunsAt(l[..i + 1], l[i].toolCallId, l[i].toolName, 0)
    ensures l[i].ToolDelta? ==> exists tool, n: nat :: RunsAt(l[..i], l[i].toolCallId, tool, n)
    ensures l[i].ToolCompleted? ==> RunsAt(l[..i], l[i].toolCallId, l[i].toolName, l[i].deltaCount)
    ensures l[i].ToolFailed? && l[i].failureCode == "permission_denied" && i > 0 && l[i - 1].PermissionResolved? ==>
      AskedAt(l[..i], l[i].toolCallId, l[i].toolName, Denied)
    ensures i > 0 && l[i - 1].PermissionResolved? && l[i - 1].outcome == Denied ==>
      l[i].ToolFailed? && l[i].failureCode == "permission_denied"
  {
    hide Accept, After, RunsAt, AskedAt;
    assert l[..i + 1] == l[..i] + [l[i]];
    AcceptSnoc(p, l[..i], l[i]);
    assert l == l[..i + 1] + l[i + 1..];
    AcceptJoin(p, l[..i + 1], l[i + 1..]);
    TrailHolds(p, l[..i]);
    TrailHolds(p, l[..i + 1]);
    StepFrom(Accept(p, l[..i]).value, l[i]);
    if i > 0 {
      assert l[..i] == l[..i - 1] + [l[i - 1]];
      AcceptSnoc(p, l[..i - 1], l[i - 1]);
      StepFrom(Accept(p, l[..i - 1]).value, l[i - 1]);
    }
  }

  lemma StepFrom(p: Phase, e: Payload)
    requires After(p, e).Some?
    ensures e.ToolStarted? ==> After(p, e) == Some(Running(e.toolCallId, e.toolName, 0))
    ensures e.ToolDelta? ==> p.Running? && p.callId == e.toolCallId
    ensures e.ToolCompleted? ==> p == Running(e.toolCallId, e.toolName, e.deltaCount)
    ensures e.PermissionResolved? ==>
      if e.outcome == Denied then After(p, e).value.Refused? else After(p, e).value.Permitted?
    ensures p.Refused? ==> e.ToolFailed? && e == ToolFailed(p.callId, p.tool, "permission_denied", e.message)
    ensures p.Permitted? ==> e.ToolStarted?
  {
  }

  /** What a phase says of the event before it. */
  predicate Follows(p: Phase, l: seq<Payload>) {
    && (p.NoSession? <==> l == [])
    && (p.BetweenTurns? <==> l != [] && (l[|l| - 1].SessionCreated? || l[|l| - 1].TurnCompleted?))
    && (p.Opening? <==> l != [] && l[|l| - 1].TurnStarted?)
  }

  lemma FollowsStep(p: Phase, l: seq<Payload>, e: Payload)
    requires Follows(p, l) && After(p, e).Some?
    ensures Follows(After(p, e).value, l + [e])
  {
  }

  lemma {:induction false} FollowsHolds(l: seq<Payload>)
    requires Accept(NoSession, l).Some?
    ensures Follows(Accept(NoSession, l).value, l)
  {
    hide After, Follows;
    if l == [] {
      NothingFollows();
    } else {
      var before, e := l[..|l| - 1], l[|l| - 1];
      FollowsHolds(before);
      FollowsStep(Accept(NoSession, before).value, before, e);
      assert l == before + [e];
    }
  }

  lemma NothingFollows()
    ensures Follows(NoSession, [])
  {
  }

  /**
   The frame of every allowed log: it is created first and once, a turn starts directly after the creation
   or the completion of the turn before, nothing else comes there, and the user's message comes directly
   after the start of every turn and nowhere else.
   */
  lemma TurnsAreNested(l: seq<Payload>, i: nat)
    requires Accept(NoSession, l).Some? && i < |l|
    ensures l[i].SessionCreated? <==> i == 0
    ensures l[i].TurnStarted? <==> i > 0 && (l[i - 1].SessionCreated? || l[i - 1].TurnCompleted?)
    ensures l[i].UserMessage? <==> i > 0 && l[i - 1].TurnStarted?
  {
    hide Accept, After;
    assert l[..i + 1] == l[..i] + [l[i]] && l == l[..i + 1] + l[i + 1..];
    AcceptSnoc(NoSession, l[..i], l[i]);
    AcceptJoin(NoSession, l[..i + 1], l[i + 1..]);
    FollowsHolds(l[..i]);
    FrameStep(Accept(NoSession, l[..i]).value, l[i]);
    assert i > 0 ==> l[..i][i - 1] == l[i - 1];
  }

  lemma FrameStep(p: Phase, e: Payload)
    requires After(p, e).Some?
    ensures e.SessionCreated? <==> p.NoSession?
    ensures e.TurnStarted? <==> p.BetweenTurns?
    ensures e.UserMessage? <==> p.Opening?
  {
  }

  // ---- whole sessions ----

  function Flat(turns: seq<seq<Payload>>): seq<Payload> {
    if turns == [] then [] else Flat(turns[..|turns| - 1]) + turns[|turns| - 1]
  }

  /** A session whose turns were all exhausted has a complete log. */
  lemma {:induction false} TurnsCompose(created: Payload, turns: seq<seq<Payload>>)
    requires created.SessionCreated?
    requires forall t | t in turns :: Accept(BetweenTurns, t) == Some(BetweenTurns)
    ensures Accept(NoSession, [created] + Flat(turns)) == Some(BetweenTurns)
  {
    if turns == [] {
      assert [created] + Flat(turns) == [] + [created];
      AcceptSnoc(NoSession, [], created);
    } else {
      var before, last := turns[..|turns| - 1], turns[|turns| - 1];
      TurnsCompose(created, before);
      assert [created] + Flat(turns) == ([created] + Flat(before)) + last;
      AcceptJoin(NoSession, [created] + Flat(before), last);
    }
  }
}
