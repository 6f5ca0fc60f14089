/** The only way by which an event reaches a client: as a session update. */
module EventMapper {
  import opened Wrappers
  import opened Schema
  import opened Grammar
  import opened EventSink

  datatype Role = UserRole | AgentRole | ToolRole

  /** Absent optional text is None; a missing tool call id is the empty string. */
  datatype Update =
    | MessageChunk(role: Role, text: Option<string>)    // no text: content of another type
    | ToolCallUpdate(toolCallId: string, change: Change)
    | ToolCall(toolCallId: string, title: Option<string>, status: Option<string>, kind: Option<string>,
               risk: Option<string>, decision: Option<Decision>, rawInput: Option<string>)
    | UsageUpdate(used: nat, size: nat)
    | OtherUpdate

  /** Content is one entry a block; a block without text is None. */
  datatype Change = Change(status: Option<string>, rawInput: Option<string>, outcome: Option<Outcome>,
                           source: Option<Source>, message: Option<string>, content: seq<Option<string>>)

  const NO_CHANGE := Change(None, None, None, None, None, [])

  function ToolKind(risk: string): string {
    if risk == "read" then "read"
    else if risk == "write" then "edit"
    else if risk == "execute" then "execute"
    else if risk == "network" then "fetch"
    else "other"
  }

  function CallKey(callId: Option<string>, requestId: string): string {
    if callId.Some? then callId.value else requestId
  }

  function MapEventToUpdate(e: Payload): Option<Update> {
    match e
    case SessionCreated(_, _) => None
    case TurnStarted(_) => None
    case TurnCompleted(_, _, usage) =>
      if usage == None then None
      else var total := usage.value.promptTokens + usage.value.completionTokens; Some(UsageUpdate(total, total))
    case PermissionRequested(id, callId, tool, risk, decision, _, _) =>
      Some(ToolCall(CallKey(callId, id), Some(tool), Some("pending"), Some(ToolKind(risk)), Some(risk),
        Some(decision), None))
    case PermissionResolved(id, callId, _, outcome, source, _) =>
      Some(ToolCallUpdate(CallKey(callId, id), NO_CHANGE.(outcome := Some(outcome), source := Some(source))))
    case ToolStarted(callId, _, _, preview) =>
      Some(ToolCallUpdate(callId, NO_CHANGE.(status := Some("in_progress"),
                                            rawInput := if preview == Some("") then None else preview)))
    case ToolDelta(callId, _, text) => Some(ToolCallUpdate(callId, NO_CHANGE.(content := [Some(text)])))
    case ToolCompleted(callId, _, _, _) => Some(ToolCallUpdate(callId, NO_CHANGE.(status := Some("completed"))))
    case ToolFailed(callId, _, _, message) =>
      Some(ToolCallUpdate(callId, NO_CHANGE.(status := Some("failed"), message := Some(message))))
    case UserMessage(content) => Some(MessageChunk(UserRole, Some(content)))
    case ModelDelta(text) => Some(MessageChunk(AgentRole, Some(text)))
  }

  /** What is sent for a sequence of events. */
  function Updates(events: seq<Payload>): seq<Update> {
    if events == [] then []
    else
      var u := MapEventToUpdate(events[|events| - 1]);
      Updates(events[..|events| - 1]) + (if u.Some? then [u.value] else [])
  }

  predicate IsToolUpdate(u: Update) { u.ToolCall? || u.ToolCallUpdate? }

  function WithoutToolUpdates(updates: seq<Update>): seq<Update> {
    if updates == [] then []
    else
      var u := updates[|updates| - 1];
      WithoutToolUpdates(updates[..|updates| - 1]) + (if IsToolUpdate(u) then [] else [u])
  }

  lemma UpdatesSnoc(events: seq<Payload>, e: Payload)
    ensures Updates(events + [e]) == Updates(events)
         + (if MapEventToUpdate(e).Some? then [MapEventToUpdate(e).value] else [])
  {
    assert (events + [e])[..|events|] == events;
  }

  lemma WithoutToolUpdatesSnoc(updates: seq<Update>, u: Update)
    ensures WithoutToolUpdates(updates + [u]) == WithoutToolUpdates(updates) + (if IsToolUpdate(u) then [] else [u])
  {
    assert (updates + [u])[..|updates|] == updates;
  }

  lemma {:induction false} UpdatesJoin(a: seq<Payload>, b: seq<Payload>)
    ensures Updates(a + b) == Updates(a) + Updates(b)
    decreases |b|
  {
    hide MapEventToUpdate;
    if b == [] {
      assert a + b == a;
    } else {
      var c, e := b[..|b| - 1], b[|b| - 1];
      assert a + b == (a + c) + [e] && b == c + [e];
      UpdatesJoin(a, c);
      UpdatesSnoc(a + c, e);
      UpdatesSnoc(c, e);
    }
  }

  lemma ToolsMapToTools(e: Payload)
    ensures e.IsTool() <==> MapEventToUpdate(e).Some? && IsToolUpdate(MapEventToUpdate(e).value)
  {
  }

  /**
   A prompt sends the updates of the events `runTurn` yields, loading sends those of the log. The first
   are the second without tool calls and their updates.
   */
  lemma {:induction false} LiveIsReplayWithoutTools(log: seq<Payload>)
    ensures Updates(WithoutTools(log)) == WithoutToolUpdates(Updates(log))
    ensures |Updates(WithoutTools(log))| <= |Updates(log)|
    ensures |Updates(WithoutTools(log))| == |Updates(log)| <==> forall i | 0 <= i < |log| :: !log[i].IsTool()
  {
    hide MapEventToUpdate, Updates, WithoutTools, WithoutToolUpdates, IsToolUpdate;
    if log == [] {
      NothingSent();
    } else {
      var before, e := log[..|log| - 1], log[|log| - 1];
      LiveIsReplayWithoutTools(before);
      WithoutToolsSnoc(before, e);
      ToolsMapToTools(e);
      UpdatesSnoc(before, e);
      UpdatesSnoc(WithoutTools(before), e);
      assert before + [e] == log;
      var u := MapEventToUpdate(e);
      if u.Some? {
        WithoutToolUpdatesSnoc(Updates(before), u.value);
      }
      assert WithoutTools(before) + [] == WithoutTools(before);
      assert Updates(before) + [] == Updates(before);
      assert WithoutToolUpdates(Updates(before)) + [] == WithoutToolUpdates(Updates(before));
      assert forall i | 0 <= i < |before| :: before[i] == log[i];
    }
  }

  lemma NothingSent()
    ensures Updates([]) == [] && WithoutTools([]) == [] && WithoutToolUpdates([]) == []
  {
  }

  lemma {:induction false} NoToolsAtAll(log: seq<Payload>)
    requires forall i | 0 <= i < |log| :: !log[i].IsTool()
    ensures WithoutTools(log) == log
  {
    if log != [] {
      NoToolsAtAll(log[..|log| - 1]);
      assert log[..|log| - 1] + [log[|log| - 1]] == log;
    }
  }

  /** The two streams agree exactly on logs in which no tool was asked for, if the log holds what was committed. */
  lemma {:induction false} LiveEqualsReplayIffNoTools(log: seq<Payload>)
    ensures Updates(WithoutTools(log)) == Updates(log) <==> forall i | 0 <= i < |log| :: !log[i].IsTool()
  {
    LiveIsReplayWithoutTools(log);
    if forall i | 0 <= i < |log| :: !log[i].IsTool() {
      NoToolsAtAll(log);
    }
  }

  /**
   A log may end with one event that was refused and landed whole: it was never yielded, but is loaded. Then
   the streams agree exactly when there was no tool and that event sends no update.
   */
  lemma LiveEqualsLoadedIff(events: seq<Payload>, orphan: Option<Payload>)
    ensures Updates(WithoutTools(events)) == Updates(events + Landed(orphan)) <==>
      && (forall i | 0 <= i < |events| :: !events[i].IsTool())
      && (orphan.Some? ==> MapEventToUpdate(orphan.value) == None)
  {
    hide MapEventToUpdate, Updates, WithoutTools;
    LiveIsReplayWithoutTools(events);
    LiveEqualsReplayIffNoTools(events);
    if orphan == None {
      assert events + [] == events;
    } else {
      UpdatesSnoc(events, orphan.value);
      assert Updates(events) + [] == Updates(events);
    }
  }

  /** One request for permission is enough. */
  lemma OneToolMakesThemDiffer()
    ensures var log := [PermissionRequested("perm_1", Some("tc_1"), "shell", "execute", Ask, "", None)];
      Updates(WithoutTools(log)) != Updates(log)
  {
    var log := [PermissionRequested("perm_1", Some("tc_1"), "shell", "execute", Ask, "", None)];
    LiveEqualsReplayIffNoTools(log);
    assert log[0].IsTool();
  }
}
