/** The agent process towards its client: one session, written by prompts or replayed once. */
module AcpAgent {
  import opened Wrappers
  import opened Schema
  import opened Grammar
  import opened EventMapper
  import opened EventSink
  import TurnEngine
  import Permissions
  import ToolRouter
  import opened Transcript

  datatype LoadReply = Loaded | AlreadyOwns | ReplayFailed | NoSuchSession

  datatype PromptReply = Replied(stopReason: string,
                                 usage: Option<Usage>) | UnknownId | ReplayOnly | Unsupported | Threw

  function MapStopReason(stop: StopReason): string {
    match stop case Final => "end_turn" case Cancelled => "cancelled" case Error => "refusal"
  }

  /** The reply tells the turn's last event that is no tool's: its completion. */
  predicate Reports(reply: PromptReply, events: seq<Payload>) {
    var told := WithoutTools(events);
    && told != []
    && var last := told[|told| - 1];
    && last.TurnCompleted? && reply.Replied? && reply.usage == last.usage
    && (last.stopReason == Final ==> reply.stopReason == "end_turn")
    && (last.stopReason == Cancelled ==> reply.stopReason == "cancelled")
    && (last.stopReason == Error ==> reply.stopReason == "refusal")
  }

  class Agent {
    const engine: TurnEngine.SessionEngine
    var sessionId: Option<string>
    var replayOnly: bool

    constructor (engine: TurnEngine.SessionEngine, sessionId: Option<string>)
      ensures this.engine == engine && this.sessionId == sessionId && !replayOnly
    {
      this.engine, this.sessionId, replayOnly := engine, sessionId, false;
    }

    /**
     Replays the events of a log, which may break off (`fails`). A process that owns a session refuses;
     any other is bound to the id from then on, even when the replay does not succeed.
     */
    method LoadSession(id: string, events: seq<Payload>, fails: bool) returns (reply: LoadReply, sent: seq<Update>)
      modifies this
      ensures reply == AlreadyOwns <==> old(sessionId).Some?
      ensures reply == AlreadyOwns ==> sent == [] && sessionId == old(sessionId) && replayOnly == old(replayOnly)
      ensures reply != AlreadyOwns ==> sessionId == Some(id) && replayOnly && sent == Updates(events)
      ensures reply != AlreadyOwns ==> (reply == ReplayFailed <==> fails)
      ensures reply == Loaded ==> exists i :: 0 <= i < |events| && events[i].SessionCreated?
      ensures reply == NoSuchSession ==> forall i | 0 <= i < |events| :: !events[i].SessionCreated?
    {
      hide MapEventToUpdate;
      sent := [];
      if sessionId.Some? {
        return AlreadyOwns, sent;
      }
      sessionId, replayOnly := Some(id), true;
      var sawSessionCreated := false;
      for i := 0 to |events|
        invariant sessionId == Some(id) && replayOnly
        invariant sent == Updates(events[..i])
        invariant sawSessionCreated <==> exists k :: 0 <= k < i && events[k].SessionCreated?
      {
        if events[i].SessionCreated? {
          sawSessionCreated := true;
        }
        sent := SendOne(events, i, sent);
      }
      assert events[..|events|] == events;
      reply := if fails then ReplayFailed else if !sawSessionCreated then NoSuchSession else Loaded;
    }

    method SendOne(events: seq<Payload>, i: nat, sent: seq<Update>) returns (after: seq<Update>)
      requires i < |events| && sent == Updates(events[..i])
      ensures after == Updates(events[..i + 1])
    {
      assert events[..i + 1] == events[..i] + [events[i]];
      UpdatesSnoc(events[..i], events[i]);
      var update := MapEventToUpdate(events[i]);
      after := if update.Some? then sent + [update.value] else sent;
    }

    /** Runs a turn and sends what it yields. No text: the prompt holds a block that cannot be represented. */
    method Prompt(id: string, text: Option<string>, preflight: Option<string>, rounds: seq<TurnEngine.Round>,
                  executions: nat -> ToolRouter.Execution, approvals: nat -> Permissions.Approval)
        returns (reply: PromptReply, sent: seq<Update>, ghost events: seq<Payload>)
      requires engine.sink.Valid()
      modifies engine, engine.sink
      ensures reply == UnknownId <==> sessionId != Some(id)
      ensures reply == ReplayOnly <==> sessionId == Some(id) && replayOnly
      ensures reply == Unsupported <==> sessionId == Some(id) && !replayOnly && text == None
      ensures reply in {UnknownId, ReplayOnly, Unsupported} ==> events == []
      ensures engine.sink.Valid() && engine.sink.log == old(engine.sink.log) + events
      ensures Accept(BetweenTurns, events).Some?
      ensures sent == WithoutToolUpdates(Updates(events))
      // what the prompt adds to the log on disk: a refused event may have landed whole
      ensures old(engine.sink.orphan) == None ==>
        TurnEngine.LeftOnDisk(old(engine.sink.Persisted()), engine.sink.Persisted(), events, WithoutTools(events),
                              engine.sink.orphan)
      // it throws exactly when the turn does: by a guard, a refused append, or a tool handler
      ensures sessionId == Some(id) && !replayOnly && text.Some? ==>
        && (!engine.registered || old(engine.currentTurn) ==> reply == Threw && events == [])
        && var env := TurnEngine.Env(engine.Settings(), engine.sink, executions, approvals);
        && (engine.registered && !old(engine.currentTurn) && reply == Threw ==>
              || TurnEngine.RefusedLast(engine.sink, old(engine.sink.ticks), engine.sink.ticks)
              || (preflight == None && TurnEngine.SomeDispatchThrows(env, old(engine.sink.ticks), rounds)))
        && (TurnEngine.Quiet(engine.sink) && engine.registered && !old(engine.currentTurn) ==>
              (reply == Threw <==> preflight == None && TurnEngine.ApproverThrows(env, engine.tools.Some?, rounds)))
      ensures reply.Replied? ==> Accept(BetweenTurns, events) == Some(BetweenTurns) && Reports(reply, events)
    {
      hide Accept, MapEventToUpdate, WithoutToolUpdates, TurnEngine.Conversed, TurnEngine.Stays, TurnEngine.LeavesAt,
           TurnEngine.Inner, TurnEngine.HandlerFailed, TurnEngine.ToldBy, TurnEngine.RefusedLast,
           TurnEngine.LeftOnDisk, TurnEngine.Uncompleted,
           TurnEngine.Opened, TurnEngine.ApproverThrows, TurnEngine.SomeDispatchThrows, TurnEngine.Quiet;
      sent, events := [], [];
      Nothing();
      NothingSent();
      TurnEngine.NothingOnDisk(engine.sink.Persisted());
      if sessionId != Some(id) {
        return UnknownId, sent, events;
      }
      if replayOnly {
        return ReplayOnly, sent, events;
      }
      if text == None {
        return Unsupported, sent, events;
      }
      var end, state, yielded, requests, exchanges, consumed;
      ghost var taken, work;
      ghost var was := engine.sink.Now();
      var stays := (k: nat) => false;
      end, state, yielded, requests, exchanges, consumed, taken, work, events :=
        engine.RunTurn(text.value, preflight, rounds, executions, approvals, stays);
      TurnEngine.NobodyLeaves(stays, |yielded|);
      if end == TurnEngine.Exhausted {
        TurnEngine.ToldEnds(end, text.value, preflight, engine.tools.Some?, rounds, |exchanges|, consumed, taken,
                            yielded, state, engine.sink, engine.sink.ticks);
      }
      if end == TurnEngine.HandlerError {
        TurnEngine.FailedFrom(TurnEngine.Env(engine.Settings(), engine.sink, executions, approvals), was.ticks,
                              engine.tools.Some?, rounds, |exchanges|, taken, work.last);
      }
      var stop, usage := Final, None;
      for i := 0 to |yielded|
        modifies {}
        invariant sent == Updates(yielded[..i])
        invariant i > 0 && yielded[i - 1].TurnCompleted? ==>
             stop == yielded[i - 1].stopReason && usage == yielded[i - 1].usage
      {
        sent := SendOne(yielded, i, sent);
        if yielded[i].TurnCompleted? {
          stop, usage := yielded[i].stopReason, yielded[i].usage;
        }
      }
      assert yielded[..|yielded|] == yielded;
      LiveIsReplayWithoutTools(events);
      reply := if end == TurnEngine.Exhausted then Replied(MapStopReason(stop), usage) else Threw;
    }
  }

  /**
   A client that watched every prompt of a session and one that loads its log show the same text of each
   role, although only the second shows tool cards; if the log ends with an event that was refused but
   landed whole, the second shows that event's text too.
   */
  lemma SameTextLiveAndLoaded(log: seq<Payload>, orphan: Option<Payload>, role: Role)
    requires role != ToolRole
    ensures var (live, loaded) := (Fold(EMPTY_TRANSCRIPT, Updates(WithoutTools(log))),
                                   Fold(EMPTY_TRANSCRIPT, Updates(log + Landed(orphan))));
      && RoleText(live.turns, role) == Words(log, role)
      && RoleText(loaded.turns, role) == Words(log, role) + Words(Landed(orphan), role)
      && Cards(live.turns) == []
  {
    hide Updates, WithoutTools, WithoutToolUpdates, ChunkText, Fold, RoleText, Cards, Landed, Words;
    LiveIsReplayWithoutTools(log);
    SameText(Updates(log), role);
    TextFromEmpty(Updates(WithoutTools(log)), role);
    TextFromEmpty(Updates(log + Landed(orphan)), role);
    ChunksAreWords(log, role);
    ChunksAreWords(log + Landed(orphan), role);
    LandedWords(log, orphan, role);
    NoToolNoCards(Updates(log));
  }

  lemma TextFromEmpty(updates: seq<Update>, role: Role)
    requires role != ToolRole
    ensures RoleText(Fold(EMPTY_TRANSCRIPT, updates).turns, role) == ChunkText(updates, role)
  {
    hide ChunkText, Fold;
    TextIsConserved(EMPTY_TRANSCRIPT, updates, role);
    assert "" + ChunkText(updates, role) == ChunkText(updates, role);
  }

  lemma LandedWords(log: seq<Payload>, orphan: Option<Payload>, role: Role)
    ensures Words(log + Landed(orphan), role) == Words(log, role) + Words(Landed(orphan), role)
  {
    var more := Landed(orphan);
    if orphan == None {
      assert log + more == log && Words(log, role) + "" == Words(log, role);
    } else {
      assert (log + more)[..|log|] == log && more[..0] == [];
      assert Words(more, role)
          == (if role == UserRole && more[0].UserMessage? then more[0].content
              else if role == AgentRole && more[0].ModelDelta? then more[0].text else "");
    }
  }

  lemma {:induction false} NoToolNoCards(updates: seq<Update>)
    ensures Cards(Fold(EMPTY_TRANSCRIPT, WithoutToolUpdates(updates)).turns) == []
  {
    hide Applied, Cards;
    if updates == [] {
      NoCardsYet();
    } else {
      var before, u := updates[..|updates| - 1], updates[|updates| - 1];
      NoToolNoCards(before);
      if IsToolUpdate(u) {
        assert WithoutToolUpdates(before) + [] == WithoutToolUpdates(before);
      } else {
        FoldSnoc(EMPTY_TRANSCRIPT, WithoutToolUpdates(before), u);
        TextKeepsCards(Fold(EMPTY_TRANSCRIPT, WithoutToolUpdates(before)), u);
      }
    }
  }

  lemma {:induction false} SameText(updates: seq<Update>, role: Role)
    ensures ChunkText(WithoutToolUpdates(updates), role) == ChunkText(updates, role)
  {
    if updates != [] {
      var before, u := updates[..|updates| - 1], updates[|updates| - 1];
      assert before + [u] == updates;
      hide ChunkText, WithoutToolUpdates;
      SameText(before, role);
      WithoutToolUpdatesSnoc(before, u);
      ChunkTextSnoc(before, u, role);
      ChunkTextSnoc(WithoutToolUpdates(before), u, role);
      assert WithoutToolUpdates(before) + [] == WithoutToolUpdates(before);
      assert ChunkText(before, role) + "" == ChunkText(before, role);
    }
  }
}
