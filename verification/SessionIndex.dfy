/**
 The index over the event logs: a table of sessions and a table of turns, brought up to date one
 event at a time or rebuilt from the log files. The tables are maps; a turn row needs its session
 row (the foreign key), and a failed statement changes nothing.
 */
module SessionIndex {
  import opened Wrappers
  import opened Schema
  import opened EventLog
  import Codec
  import Delimited

  datatype SessionRow = SessionRow(cwd: string, client: string, createdAt: string,
                                   lastSequence: nat, lastEventTimestamp: string, turnCount: nat)

  datatype TurnRow = TurnRow(startedAt: Option<string>, completedAt: Option<string>, stopReason: Option<StopReason>)

  type TurnKey = (string, string)

  datatype Tables = Tables(sessions: map<string, SessionRow>, turns: map<TurnKey, TurnRow>)

  const EMPTY := Tables(map[], map[])

  /** The turn an event starts or completes; an empty turn id counts as none. */
  function TurnOf(e: AgentEvent): Option<string> {
    if (e.payload.TurnStarted? || e.payload.TurnCompleted?) && e.turnId != Some("") then e.turnId else None
  }

  // ---- one event ----

  function SessionUpserted(t: Tables, e: AgentEvent): Tables
    requires e.payload.SessionCreated?
  {
    var p := e.payload;
    var row := if e.sessionId in t.sessions
               then t.sessions[e.sessionId].(cwd := p.cwd, client := p.client, createdAt := e.timestamp)
               else SessionRow(p.cwd, p.client, e.timestamp, e.sequence, e.timestamp, 0);
    t.(sessions := t.sessions[e.sessionId := row])
  }

  /** INSERT OR IGNORE, counting the turn when a row was inserted; None when the foreign key fails. */
  function TurnInserted(t: Tables, e: AgentEvent, turnId: string, row: TurnRow): Option<Tables> {
    if e.sessionId !in t.sessions then None
    else
      var session := t.sessions[e.sessionId];
      Some(Tables(t.sessions[e.sessionId := session.(turnCount := session.turnCount + 1)],
                  t.turns[(e.sessionId, turnId) := row]))
  }

  function TurnUpserted(t: Tables, e: AgentEvent): Option<Tables> {
    match TurnOf(e)
    case None => Some(t)
    case Some(turnId) =>
      var key := (e.sessionId, turnId);
      if e.payload.TurnStarted? then
        if key !in t.turns then TurnInserted(t, e, turnId, TurnRow(Some(e.timestamp), None, None))
        else
          var row := t.turns[key];
          Some(t.(turns := t.turns[key := if row.startedAt == None then row.(startedAt := Some(e.timestamp)) else row]))
      else if e.payload.TurnCompleted? then
        var stop := Some(e.payload.stopReason);
        if key !in t.turns then TurnInserted(t, e, turnId, TurnRow(None, Some(e.timestamp), stop))
        else Some(t.(turns := t.turns[key := t.turns[key].(completedAt := Some(e.timestamp), stopReason := stop)]))
      else Some(t)
  }

  function TailTouched(t: Tables, e: AgentEvent): Tables {
    if e.sessionId !in t.sessions then t
    else t.(sessions := t.sessions[e.sessionId :=
           t.sessions[e.sessionId].(lastSequence := e.sequence, lastEventTimestamp := e.timestamp)])
  }

  /** None: a constraint failed and nothing was changed. */
  function Applied(t: Tables, e: AgentEvent): Option<Tables> {
    if e.payload.SessionCreated? then Some(TailTouched(SessionUpserted(t, e), e))
    else match TurnUpserted(t, e)
      case None => None
      case Some(u) => Some(TailTouched(u, e))
  }

  function ApplyAll(t: Tables, log: seq<AgentEvent>): Option<Tables> {
    if log == [] then Some(t)
    else match ApplyAll(t, log[..|log| - 1])
      case None => None
      case Some(u) => Applied(u, log[|log| - 1])
  }

  // ---- what the tables should say about a log ----

  datatype Query =
    | Any(session: string)
    | Created(session: string)
    | Started(session: string, turn: string)
    | Completed(session: string, turn: string)

  predicate Matches(q: Query, e: AgentEvent) {
    && e.sessionId == q.session
    && match q
       case Any(_) => true
       case Created(_) => e.payload.SessionCreated?
       case Started(_, turn) => e.payload.TurnStarted? && e.turnId == Some(turn) && turn != ""
       case Completed(_, turn) => e.payload.TurnCompleted? && e.turnId == Some(turn) && turn != ""
  }

  function First(log: seq<AgentEvent>, q: Query): Option<AgentEvent> {
    if log == [] then None
    else
      var before, e := First(log[..|log| - 1], q), log[|log| - 1];
      if before.Some? then before else if Matches(q, e) then Some(e) else None
  }

  function Latest(log: seq<AgentEvent>, q: Query): Option<AgentEvent> {
    if log == [] then None
    else
      var e := log[|log| - 1];
      if Matches(q, e) then Some(e) else Latest(log[..|log| - 1], q)
  }

  /** The turns of a session that the log starts or completes. */
  function Turns(log: seq<AgentEvent>, session: string): set<string> {
    if log == [] then {}
    else
      var before, e := Turns(log[..|log| - 1], session), log[|log| - 1];
      if e.sessionId == session && (e.payload.TurnStarted? || e.payload.TurnCompleted?) && e.turnId.Some?
         && e.turnId.value != "" then before + {e.turnId.value}
      else before
  }

  function TimeOf(e: Option<AgentEvent>): Option<string> {
    if e.Some? then Some(e.value.timestamp) else None
  }

  function StopOf(e: Option<AgentEvent>): Option<StopReason> {
    if e.Some? && e.value.payload.TurnCompleted? then Some(e.value.payload.stopReason) else None
  }

  /** Every session's events begin with its creation. */
  ghost predicate Opened(log: seq<AgentEvent>) {
    forall s :: First(log, Any(s)).Some? ==> First(log, Any(s)).value.payload.SessionCreated?
  }

  predicate RowShows(row: SessionRow, log: seq<AgentEvent>, s: string) {
    && Latest(log, Created(s)).Some? && Latest(log, Any(s)).Some?
    && var created, last := Latest(log, Created(s)).value, Latest(log, Any(s)).value;
       && created.payload.SessionCreated?
       && row == SessionRow(created.payload.cwd, created.payload.client, created.timestamp,
                            last.sequence, last.timestamp, |Turns(log, s)|)
  }

  predicate TurnShows(row: TurnRow, log: seq<AgentEvent>, s: string, turn: string) {
    row == TurnRow(TimeOf(First(log, Started(s, turn))), TimeOf(Latest(log, Completed(s, turn))),
                   StopOf(Latest(log, Completed(s, turn))))
  }

  /**
   One row for every session with an event: the data of its latest creation, the number and time of
   its last event and how many turns it has. One row for every turn: when it first started, when it
   last completed and how it ended.
   */
  ghost predicate Shows(t: Tables, log: seq<AgentEvent>) {
    && (forall s :: s in t.sessions <==> First(log, Any(s)).Some?)
    && (forall s | s in t.sessions :: RowShows(t.sessions[s], log, s))
    && (forall s, turn :: (s, turn) in t.turns <==> turn in Turns(log, s))
    && (forall s, turn | (s, turn) in t.turns :: TurnShows(t.turns[(s, turn)], log, s, turn))
  }

  lemma Snoc(log: seq<AgentEvent>, e: AgentEvent, q: Query)
    ensures First(log + [e], q)
         == if First(log, q).Some? then First(log, q) else if Matches(q, e) then Some(e) else None
    ensures Latest(log + [e], q) == if Matches(q, e) then Some(e) else Latest(log, q)
  {
    assert (log + [e])[..|log|] == log;
  }

  lemma SnocTurns(log: seq<AgentEvent>, e: AgentEvent, s: string)
    ensures Turns(log + [e], s)
         == if e.sessionId == s && TurnOf(e).Some? then Turns(log, s) + {TurnOf(e).value} else Turns(log, s)
  {
    assert (log + [e])[..|log|] == log;
  }

  /** The session rows an event changes, and how. */
  predicate SessionsMove(t: Tables, u: Tables, e: AgentEvent) {
    var (own, p) := (e.sessionId, e.payload);
    var counted := TurnOf(e).Some? && (own, TurnOf(e).value) !in t.turns;
    && u.sessions.Keys == t.sessions.Keys + {own}
    && (forall s | s in t.sessions && s != own :: u.sessions[s] == t.sessions[s])
    && var row := u.sessions[own];
    && row.lastSequence == e.sequence && row.lastEventTimestamp == e.timestamp
    && row.turnCount == (if own in t.sessions then t.sessions[own].turnCount else 0) + (if counted then 1 else 0)
    && (p.SessionCreated? ==> row.cwd == p.cwd && row.client == p.client && row.createdAt == e.timestamp)
    && (!p.SessionCreated? ==>
          && own in t.sessions
          && var prior := t.sessions[own];
          row.cwd == prior.cwd && row.client == prior.client && row.createdAt == prior.createdAt)
  }

  /** The turn row it changes, and how. */
  predicate TurnsMove(t: Tables, u: Tables, e: AgentEvent) {
    if TurnOf(e) == None then u.turns == t.turns
    else
      var key := (e.sessionId, TurnOf(e).value);
      && u.turns.Keys == t.turns.Keys + {key}
      && (forall k | k in t.turns && k != key :: u.turns[k] == t.turns[k])
      && var before := if key in t.turns then t.turns[key] else TurnRow(None, None, None);
         u.turns[key] ==
           if e.payload.TurnCompleted? then TurnRow(before.startedAt, Some(e.timestamp), Some(e.payload.stopReason))
           else if before.startedAt == None then before.(startedAt := Some(e.timestamp))
           else before
  }

  lemma AppliedSessionRow(t: Tables, e: AgentEvent)
    requires e.payload.SessionCreated? || e.sessionId in t.sessions
    ensures Applied(t, e).Some? && SessionsMove(t, Applied(t, e).value, e)
  {
  }

  lemma AppliedTurnRow(t: Tables, e: AgentEvent)
    requires e.payload.SessionCreated? || e.sessionId in t.sessions
    ensures Applied(t, e).Some? && TurnsMove(t, Applied(t, e).value, e)
  {
  }

  lemma OwnRowAfter(t: Tables, u: Tables, log: seq<AgentEvent>, e: AgentEvent)
    requires Shows(t, log) && SessionsMove(t, u, e)
    ensures RowShows(u.sessions[e.sessionId], log + [e], e.sessionId)
  {
    hide First, Latest, Turns, TurnShows;
    var s := e.sessionId;
    Snoc(log, e, Any(s));
    Snoc(log, e, Created(s));
    SnocTurns(log, e, s);
    if s in t.sessions {
      assert RowShows(t.sessions[s], log, s);
      if TurnOf(e).Some? {
        assert (s, TurnOf(e).value) in t.turns <==> TurnOf(e).value in Turns(log, s);
        if TurnOf(e).value in Turns(log, s) {
          assert Turns(log, s) + {TurnOf(e).value} == Turns(log, s);
        }
      }
    } else {
      NoTurns(log, s);
    }
  }

  lemma SessionRowAfter(t: Tables, u: Tables, log: seq<AgentEvent>, e: AgentEvent, s: string)
    requires Shows(t, log) && SessionsMove(t, u, e)
    ensures s in u.sessions <==> First(log + [e], Any(s)).Some?
    ensures s in u.sessions ==> RowShows(u.sessions[s], log + [e], s)
  {
    hide First, Latest, Turns, TurnShows;
    OwnRowAfter(t, u, log, e);
    Snoc(log, e, Any(s));
    Snoc(log, e, Created(s));
    SnocTurns(log, e, s);
    if s != e.sessionId && s in t.sessions {
      assert RowShows(t.sessions[s], log, s);
    }
  }

  lemma {:induction false} NoTurns(log: seq<AgentEvent>, s: string)
    requires First(log, Any(s)) == None
    ensures Turns(log, s) == {}
  {
    if log != [] {
      NoTurns(log[..|log| - 1], s);
    }
  }

  lemma TurnRowAfter(t: Tables, u: Tables, log: seq<AgentEvent>, e: AgentEvent, s: string, turn: string)
    requires Shows(t, log) && TurnsMove(t, u, e)
    ensures (s, turn) in u.turns <==> turn in Turns(log + [e], s)
    ensures (s, turn) in u.turns ==> TurnShows(u.turns[(s, turn)], log + [e], s, turn)
  {
    hide First, Latest, Turns, RowShows;
    Snoc(log, e, Started(s, turn));
    Snoc(log, e, Completed(s, turn));
    SnocTurns(log, e, s);
    assert (s, turn) in t.turns <==> turn in Turns(log, s);
    if (s, turn) in t.turns {
      assert TurnShows(t.turns[(s, turn)], log, s, turn);
    } else {
      NoTurn(log, s, turn);
    }
  }

  lemma {:induction false} NoTurn(log: seq<AgentEvent>, s: string, turn: string)
    requires turn !in Turns(log, s)
    ensures First(log, Started(s, turn)) == None && Latest(log, Completed(s, turn)) == None
  {
    if log != [] {
      NoTurn(log[..|log| - 1], s, turn);
    }
  }

  lemma AppliedShows(t: Tables, log: seq<AgentEvent>, e: AgentEvent)
    requires Shows(t, log) && (e.payload.SessionCreated? || First(log, Any(e.sessionId)).Some?)
    ensures Applied(t, e).Some? && Shows(Applied(t, e).value, log + [e])
  {
    hide First, Latest, Turns, Applied, RowShows, TurnShows, SessionsMove, TurnsMove;
    AppliedSessionRow(t, e);
    AppliedTurnRow(t, e);
    var u, all := Applied(t, e).value, log + [e];
    forall s
      ensures s in u.sessions <==> First(all, Any(s)).Some?
      ensures s in u.sessions ==> RowShows(u.sessions[s], all, s)
    {
      SessionRowAfter(t, u, log, e, s);
    }
    forall s, turn
      ensures (s, turn) in u.turns <==> turn in Turns(all, s)
      ensures (s, turn) in u.turns ==> TurnShows(u.turns[(s, turn)], all, s, turn)
    {
      TurnRowAfter(t, u, log, e, s, turn);
    }
  }

  lemma OpenedPrefix(log: seq<AgentEvent>, e: AgentEvent)
    requires Opened(log + [e])
    ensures Opened(log) && (e.payload.SessionCreated? || First(log, Any(e.sessionId)).Some?)
  {
    Snoc(log, e, Any(e.sessionId));
    forall s | First(log, Any(s)).Some? ensures First(log, Any(s)).value.payload.SessionCreated? {
      Snoc(log, e, Any(s));
      assert First(log + [e], Any(s)) == First(log, Any(s));
    }
    assert First(log + [e], Any(e.sessionId)).Some?;
  }

  /** Applying a log in which every session is created first never fails, and the tables show that log. */
  lemma {:induction false} TablesShowLog(log: seq<AgentEvent>)
    requires Opened(log)
    ensures ApplyAll(EMPTY, log).Some? && Shows(ApplyAll(EMPTY, log).value, log)
  {
    if log != [] {
      var before, e := log[..|log| - 1], log[|log| - 1];
      assert before + [e] == log;
      OpenedPrefix(before, e);
      TablesShowLog(before);
      AppliedShows(ApplyAll(EMPTY, before).value, before, e);
    }
  }

  // ---- the tables depend only on each session's own events ----

  /** Two logs that answer every query alike. */
  ghost predicate Alike(a: seq<AgentEvent>, b: seq<AgentEvent>) {
    && (forall q :: First(a, q) == First(b, q) && Latest(a, q) == Latest(b, q))
    && (forall s :: Turns(a, s) == Turns(b, s))
  }

  /** The tables are determined by what they show. */
  lemma ShowsUnique(t: Tables, u: Tables, log: seq<AgentEvent>)
    requires Shows(t, log) && Shows(u, log)
    ensures t == u
  {
    hide First, Latest, Turns;
    forall s | s in t.sessions ensures s in u.sessions && t.sessions[s] == u.sessions[s] {
      assert RowShows(t.sessions[s], log, s) && RowShows(u.sessions[s], log, s);
    }
    forall key: TurnKey | key in t.turns ensures key in u.turns && t.turns[key] == u.turns[key] {
      assert (key.0, key.1) in t.turns && key.1 in Turns(log, key.0) && (key.0, key.1) in u.turns;
      assert TurnShows(t.turns[(key.0, key.1)], log, key.0, key.1)
           && TurnShows(u.turns[(key.0, key.1)], log, key.0, key.1);
    }
    forall key: TurnKey | key in u.turns ensures key in t.turns {
      assert (key.0, key.1) in u.turns && key.1 in Turns(log, key.0);
    }
    assert t.sessions.Keys == u.sessions.Keys && t.turns.Keys == u.turns.Keys;
  }

  lemma AlikeLogsAgree(a: seq<AgentEvent>, b: seq<AgentEvent>)
    requires Opened(a) && Alike(a, b)
    ensures Opened(b) && ApplyAll(EMPTY, a).Some? && ApplyAll(EMPTY, a) == ApplyAll(EMPTY, b)
  {
    hide First, Latest, Turns;
    TablesShowLog(a);
    TablesShowLog(b);
    var t := ApplyAll(EMPTY, a).value;
    forall s | s in t.sessions ensures RowShows(t.sessions[s], b, s) {
      assert RowShows(t.sessions[s], a, s);
    }
    forall s, turn | (s, turn) in t.turns ensures TurnShows(t.turns[(s, turn)], b, s, turn) {
      assert TurnShows(t.turns[(s, turn)], a, s, turn);
    }
    assert Shows(t, b);
    ShowsUnique(t, ApplyAll(EMPTY, b).value, b);
  }

  /** The events of one session, in order. */
  function Project(log: seq<AgentEvent>, s: string): seq<AgentEvent> {
    if log == [] then []
    else
      var e := log[|log| - 1];
      Project(log[..|log| - 1], s) + (if e.sessionId == s then [e] else [])
  }

  lemma {:induction false} ProjectAnswers(log: seq<AgentEvent>, q: Query)
    ensures First(Project(log, q.session), q) == First(log, q)
    ensures Latest(Project(log, q.session), q) == Latest(log, q)
    ensures Turns(Project(log, q.session), q.session) == Turns(log, q.session)
  {
    if log == [] {
      NothingProjected(q.session);
    } else {
      hide First, Latest, Turns, Project;
      var before, e := log[..|log| - 1], log[|log| - 1];
      ProjectAnswers(before, q);
      assert log == before + [e];
      Snoc(before, e, q);
      SnocTurns(before, e, q.session);
      ProjectSnoc(before, e, q.session);
      if e.sessionId == q.session {
        Snoc(Project(before, q.session), e, q);
        SnocTurns(Project(before, q.session), e, q.session);
      } else {
        assert Project(before, q.session) + [] == Project(before, q.session);
      }
    }
  }

  lemma NothingProjected(s: string)
    ensures Project([], s) == []
  {
  }

  lemma ProjectSnoc(log: seq<AgentEvent>, e: AgentEvent, s: string)
    ensures Project(log + [e], s) == Project(log, s) + (if e.sessionId == s then [e] else [])
  {
    assert (log + [e])[..|log|] == log;
  }

  lemma SameProjectionsAlike(a: seq<AgentEvent>, b: seq<AgentEvent>)
    requires forall s :: Project(a, s) == Project(b, s)
    ensures Alike(a, b)
  {
    forall q
      ensures First(a, q) == First(b, q) && Latest(a, q) == Latest(b, q) && Turns(a, q.session) == Turns(b, q.session)
    {
      ProjectAnswers(a, q);
      ProjectAnswers(b, q);
    }
    forall s ensures Turns(a, s) == Turns(b, s) {
      assert Any(s).session == s;
      ProjectAnswers(a, Any(s));
      ProjectAnswers(b, Any(s));
    }
  }

  /** Any two interleavings of the same session logs give the same tables. */
  lemma InterleavingsAgree(a: seq<AgentEvent>, b: seq<AgentEvent>)
    requires Opened(a) && forall s :: Project(a, s) == Project(b, s)
    ensures ApplyAll(EMPTY, a).Some? && ApplyAll(EMPTY, a) == ApplyAll(EMPTY, b)
  {
    SameProjectionsAlike(a, b);
    AlikeLogsAgree(a, b);
  }

  // ---- applying a part of the log again ----

  lemma {:induction false} Join(a: seq<AgentEvent>, b: seq<AgentEvent>, q: Query)
    ensures First(a + b, q) == if First(a, q).Some? then First(a, q) else First(b, q)
    ensures Latest(a + b, q) == if Latest(b, q).Some? then Latest(b, q) else Latest(a, q)
    ensures First(a, q).Some? <==> Latest(a, q).Some?
    ensures Turns(a + b, q.session) == Turns(a, q.session) + Turns(b, q.session)
    decreases |a| + |b|
  {
    if b == [] {
      assert a + b == a;
      if a != [] {
        Join(a[..|a| - 1], [], q);
      }
    } else {
      var c, e := b[..|b| - 1], b[|b| - 1];
      assert a + b == (a + c) + [e] && b == c + [e];
      Join(a, c, q);
      Snoc(a + c, e, q);
      Snoc(c, e, q);
      SnocTurns(a + c, e, q.session);
      SnocTurns(c, e, q.session);
    }
  }

  lemma AgainAnswersAlike(log: seq<AgentEvent>, k: nat, n: nat, q: Query)
    requires k <= n <= |log|
    ensures First(log[..n] + log[k..], q) == First(log, q)
    ensures Latest(log[..n] + log[k..], q) == Latest(log, q)
    ensures Turns(log[..n] + log[k..], q.session) == Turns(log, q.session)
  {
    hide First, Latest, Turns;
    assert log == log[..n] + log[n..] && log == log[..k] + log[k..];
    assert log[..n] == log[..k] + log[k..n] && log[k..] == log[k..n] + log[n..];
    Join(log[..n], log[k..], q);
    Join(log[..n], log[n..], q);
    Join(log[..k], log[k..], q);
    Join(log[..k], log[k..n], q);
    Join(log[k..n], log[n..], q);
  }

  /** Applying an already applied suffix again before going on changes nothing. */
  lemma {:induction false} ReapplyingIsHarmless(log: seq<AgentEvent>, k: nat, n: nat)
    requires Opened(log) && k <= n <= |log|
    ensures ApplyAll(EMPTY, log).Some? && ApplyAll(EMPTY, log[..n] + log[k..]) == ApplyAll(EMPTY, log)
  {
    var again := log[..n] + log[k..];
    forall q ensures First(log, q) == First(again, q) && Latest(log, q) == Latest(again, q) {
      AgainAnswersAlike(log, k, n, q);
    }
    forall s ensures Turns(log, s) == Turns(again, s) {
      assert Any(s).session == s;
      AgainAnswersAlike(log, k, n, Any(s));
    }
    AlikeLogsAgree(log, again);
  }

  // ---- applying anything at all ----

  /** A caller that goes on after every refused event. */
  function ApplyEach(t: Tables, events: seq<AgentEvent>): Tables {
    if events == [] then t
    else
      var before := ApplyEach(t, events[..|events| - 1]);
      match Applied(before, events[|events| - 1])
      case None => before
      case Some(u) => u
  }

  function TurnsOf(t: Tables, s: string): set<string> {
    set key | key in t.turns && key.0 == s :: key.1
  }

  ghost predicate Counted(t: Tables) {
    && (forall key | key in t.turns :: key.0 in t.sessions)
    && (forall s | s in t.sessions :: t.sessions[s].turnCount == |TurnsOf(t, s)|)
  }

  lemma TurnsAfter(t: Tables, e: AgentEvent, s: string)
    requires e.payload.SessionCreated? || e.sessionId in t.sessions
    ensures Applied(t, e).Some?
    ensures TurnsOf(Applied(t, e).value, s)
         == if s == e.sessionId && TurnOf(e).Some? then TurnsOf(t, s) + {TurnOf(e).value} else TurnsOf(t, s)
  {
    AppliedTurnRow(t, e);
    hide Applied;
    var before, after := TurnsOf(t, s), TurnsOf(Applied(t, e).value, s);
    assert forall turn :: turn in before <==> (s, turn) in t.turns;
    assert forall turn :: turn in after <==> (s, turn) in Applied(t, e).value.turns;
  }

  lemma CountAfter(t: Tables, e: AgentEvent, s: string)
    requires Counted(t) && (e.payload.SessionCreated? || e.sessionId in t.sessions)
    requires s in t.sessions || s == e.sessionId
    ensures Applied(t, e).Some? && s in Applied(t, e).value.sessions
    ensures Applied(t, e).value.sessions[s].turnCount == |TurnsOf(Applied(t, e).value, s)|
  {
    AppliedSessionRow(t, e);
    TurnsAfter(t, e, s);
    if s !in t.sessions {
      assert TurnsOf(t, s) == {};
    }
    if s == e.sessionId && TurnOf(e).Some? {
      var turn := TurnOf(e).value;
      assert turn in TurnsOf(t, s) <==> (s, turn) in t.turns;
      hide Applied, TurnsOf;
      if turn in TurnsOf(t, s) {
        assert TurnsOf(t, s) + {turn} == TurnsOf(t, s);
      }
    }
  }

  lemma AppliedCounted(t: Tables, e: AgentEvent)
    requires Counted(t) && Applied(t, e).Some?
    ensures Counted(Applied(t, e).value)
  {
    if e.sessionId in t.sessions || e.payload.SessionCreated? {
      AppliedSessionRow(t, e);
      AppliedTurnRow(t, e);
      var u := Applied(t, e).value;
      hide Applied, TurnsOf;
      forall s | s in u.sessions ensures u.sessions[s].turnCount == |TurnsOf(u, s)| {
        CountAfter(t, e, s);
      }
    }
  }

  /** Whatever is applied, in whatever order, a turn count is the number of that session's turn rows. */
  lemma {:induction false} TurnCountIsRows(events: seq<AgentEvent>)
    ensures Counted(ApplyEach(EMPTY, events))
  {
    if events != [] {
      hide Applied;
      TurnCountIsRows(events[..|events| - 1]);
      var before := ApplyEach(EMPTY, events[..|events| - 1]);
      if Applied(before, events[|events| - 1]).Some? {
        AppliedCounted(before, events[|events| - 1]);
      }
    }
  }

  // ---- rebuilding from the log files ----

  /** The events of the files in order, if every file can be read. */
  function ReadFiles(files: seq<string>): Option<seq<AgentEvent>> {
    if files == [] then Some([])
    else
      var last := Read(files[|files| - 1], SkipTrailingPartial);
      match ReadFiles(files[..|files| - 1])
      case None => None
      case Some(before) => if last.error == None then Some(before + last.events) else None
  }

  function Rebuilt(files: seq<string>): Option<Tables> {
    match ReadFiles(files)
    case None => None
    case Some(events) => ApplyAll(EMPTY, events)
  }

  function Joined(logs: seq<seq<AgentEvent>>): seq<AgentEvent> {
    if logs == [] then [] else Joined(logs[..|logs| - 1]) + logs[|logs| - 1]
  }

  /** Files as the writers leave them: one log each, perhaps with an unterminated line at the end. */
  predicate FilesHold(files: seq<string>, logs: seq<seq<AgentEvent>>, parts: seq<string>) {
    && |files| == |logs| == |parts|
    && forall i | 0 <= i < |files| ::
         Increasing(logs[i]) && '\n' !in parts[i] && files[i] == Codec.EncodeAll(logs[i]) + parts[i]
  }

  lemma {:induction false} FilesRead(files: seq<string>, logs: seq<seq<AgentEvent>>, parts: seq<string>)
    requires FilesHold(files, logs, parts)
    ensures ReadFiles(files) == Some(Joined(logs))
  {
    if files != [] {
      hide Read;
      var n := |files| - 1;
      FilesRead(files[..n], logs[..n], parts[..n]);
      ReadUnfinished(logs[n], parts[n]);
    }
  }

  /**
   However the writers' events were interleaved when they were applied live, rebuilding from the files
   in any order gives the same tables.
   */
  lemma RebuildIsLive(live: seq<AgentEvent>, files: seq<string>, logs: seq<seq<AgentEvent>>, parts: seq<string>)
    requires Opened(live) && FilesHold(files, logs, parts)
    requires forall s :: Project(live, s) == Project(Joined(logs), s)
    ensures Rebuilt(files).Some? && Rebuilt(files) == ApplyAll(EMPTY, live)
  {
    FilesRead(files, logs, parts);
    InterleavingsAgree(live, Joined(logs));
  }

  class SessionIndex {
    var sessions: map<string, SessionRow>
    var turns: map<TurnKey, TurnRow>

    function State(): Tables
      reads this
    {
      Tables(sessions, turns)
    }

    constructor ()
      ensures State() == EMPTY
    {
      sessions, turns := map[], map[];
    }

    method IncrementTurnCount(session: string)
      requires session in sessions
      modifies `sessions
      ensures sessions
           == old(sessions)[session := old(sessions[session]).(turnCount := old(sessions[session]).turnCount + 1)]
    {
      sessions := sessions[session := sessions[session].(turnCount := sessions[session].turnCount + 1)];
    }

    method UpsertTurnStarted(e: AgentEvent) returns (ok: bool)
      requires e.payload.TurnStarted?
      modifies this
      ensures ok == TurnUpserted(old(State()), e).Some?
      ensures State() == if ok then TurnUpserted(old(State()), e).value else old(State())
    {
      if TurnOf(e) == None {
        return true;
      }
      var key := (e.sessionId, TurnOf(e).value);
      if key !in turns {
        if e.sessionId !in sessions {
          return false;
        }
        turns := turns[key := TurnRow(Some(e.timestamp), None, None)];
        IncrementTurnCount(e.sessionId);
      } else if turns[key].startedAt == None {
        turns := turns[key := turns[key].(startedAt := Some(e.timestamp))];
      }
      return true;
    }

    method UpsertTurnCompleted(e: AgentEvent) returns (ok: bool)
      requires e.payload.TurnCompleted?
      modifies this
      ensures ok == TurnUpserted(old(State()), e).Some?
      ensures State() == if ok then TurnUpserted(old(State()), e).value else old(State())
    {
      if TurnOf(e) == None {
        return true;
      }
      var key := (e.sessionId, TurnOf(e).value);
      var stop := Some(e.payload.stopReason);
      if key !in turns {
        if e.sessionId !in sessions {
          return false;
        }
        turns := turns[key := TurnRow(None, Some(e.timestamp), stop)];
        IncrementTurnCount(e.sessionId);
      } else {
        turns := turns[key := turns[key].(completedAt := Some(e.timestamp), stopReason := stop)];
      }
      return true;
    }

    /** False stands for the constraint violation that is thrown. */
    method ApplyInternal(e: AgentEvent) returns (ok: bool)
      modifies this
      ensures ok == Applied(old(State()), e).Some?
      ensures State() == if ok then Applied(old(State()), e).value else old(State())
    {
      match e.payload {
        case SessionCreated(cwd, client) =>
          var row := if e.sessionId in sessions
                     then sessions[e.sessionId].(cwd := cwd, client := client, createdAt := e.timestamp)
                     else SessionRow(cwd, client, e.timestamp, e.sequence, e.timestamp, 0);
          sessions := sessions[e.sessionId := row];
        case TurnStarted(_) =>
          ok := UpsertTurnStarted(e);
          if !ok {
            return;
          }
        case TurnCompleted(_, _, _) =>
          ok := UpsertTurnCompleted(e);
          if !ok {
            return;
          }
        case _ =>
      }
      if e.sessionId in sessions {
        sessions := sessions[e.sessionId :=
          sessions[e.sessionId].(lastSequence := e.sequence, lastEventTimestamp := e.timestamp)];
      }
      return true;
    }

    /** One transaction: all of the batch or nothing. */
    method ApplyMany(events: seq<AgentEvent>) returns (ok: bool)
      modifies this
      ensures ok == ApplyAll(old(State()), events).Some?
      ensures State() == if ok then ApplyAll(old(State()), events).value else old(State())
    {
      var before := State();
      ok := ApplyFrom(events);
      if !ok {
        sessions, turns := before.sessions, before.turns;
      }
    }

    /** Applies events until one is refused. */
    method ApplyFrom(events: seq<AgentEvent>) returns (ok: bool)
      modifies this
      ensures ok == ApplyAll(old(State()), events).Some?
      ensures ok ==> State() == ApplyAll(old(State()), events).value
    {
      hide Applied;
      ok := true;
      for i := 0 to |events|
        invariant ApplyAll(old(State()), events[..i]) == Some(State())
      {
        assert events[..i + 1][..i] == events[..i];
        ok := ApplyInternal(events[i]);
        if !ok {
          RefusedForGood(old(State()), events, i + 1);
          return;
        }
      }
      assert events[..|events|] == events;
      return true;
    }

    method RebuildFromEventLogs(files: seq<string>) returns (ok: bool)
      modifies this
      ensures ok == Rebuilt(files).Some?
      ensures State() == if ok then Rebuilt(files).value else old(State())
    {
      hide Read, ApplyAll, Applied;
      var before := State();
      sessions, turns := map[], map[];
      ok := true;
      var events: seq<AgentEvent> := [];
      assert ApplyAll(EMPTY, events) == Some(EMPTY) by {
        ApplyNothing(EMPTY);
      }
      for i := 0 to |files|
        invariant ok && ReadFiles(files[..i]) == Some(events)
        invariant ApplyAll(EMPTY, events) == Some(State())
      {
        assert files[..i + 1][..i] == files[..i];
        var found, error := Replay([files[i]], SkipTrailingPartial);
        assert Delimited.Concat([files[i]]) == files[i] + Delimited.Concat([]) == files[i];
        ApplyJoin(EMPTY, events, found);
        ok := ApplyFrom(found);
        events := events + found;
        if !ok || error.Some? {
          ok := false;
          RebuildFails(files, i + 1, events);
          sessions, turns := before.sessions, before.turns;
          return;
        }
      }
      assert files[..|files|] == files;
    }
  }

  lemma ApplyNothing(t: Tables)
    ensures ApplyAll(t, []) == Some(t)
  {
  }

  lemma {:induction false} RefusedForGood(t: Tables, events: seq<AgentEvent>, i: nat)
    requires i <= |events| && ApplyAll(t, events[..i]) == None
    ensures ApplyAll(t, events) == None
    decreases |events|
  {
    if i < |events| {
      assert events[..|events| - 1][..i] == events[..i];
      RefusedForGood(t, events[..|events| - 1], i);
    } else {
      assert events[..i] == events;
    }
  }

  lemma {:induction false} ApplyJoin(t: Tables, a: seq<AgentEvent>, b: seq<AgentEvent>)
    ensures ApplyAll(t, a + b) == match ApplyAll(t, a) case None => None case Some(u) => ApplyAll(u, b)
    decreases |b|
  {
    hide Applied;
    if b == [] {
      assert a + b == a;
    } else {
      var c := b[..|b| - 1];
      assert (a + b)[..|a + b| - 1] == a + c;
      ApplyJoin(t, a, c);
    }
  }

  lemma {:induction false} RebuildFails(files: seq<string>, i: nat, events: seq<AgentEvent>)
    requires 0 < i <= |files| && ReadFiles(files[..i - 1]).Some?
    requires var last := Read(files[i - 1], SkipTrailingPartial);
      && events == ReadFiles(files[..i - 1]).value + last.events
      && (last.error.Some? || ApplyAll(EMPTY, events) == None)
    ensures Rebuilt(files) == None
    decreases |files|
  {
    hide Read, Applied, ApplyAll;
    assert files[..i][..i - 1] == files[..i - 1];
    if i == |files| {
      assert files[..i] == files;
    } else {
      var n := |files| - 1;
      assert files[..n][..i - 1] == files[..i - 1] && files[..n][..i] == files[..i];
      RebuildFails(files[..n], i, events);
      if ReadFiles(files).Some? {
        var before := ReadFiles(files[..n]).value;
        ApplyJoin(EMPTY, before, Read(files[n], SkipTrailingPartial).events);
      }
    }
  }
}
