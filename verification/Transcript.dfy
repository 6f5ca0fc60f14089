/** The web client's transcript: a fold of session updates into turns of text and tool cards. */
module Transcript {
  import opened Wrappers
  import opened Schema
  import opened Grammar
  import opened EventMapper

  datatype Card = Card(toolCallId: string, title: string, status: string, kind: string, risk: Option<string>,
                       decision: Option<Decision>, outcome: Option<Outcome>, outcomeSource: Option<Source>,
                       input: Option<string>, output: string, errorMessage: Option<string>)

  datatype Turn = Turn(id: nat, role: Role, text: string, toolCall: Option<Card>)

  datatype State = State(turns: seq<Turn>, nextId: nat, usage: Option<(nat, nat)>)

  const EMPTY_TRANSCRIPT := State([], 1, None)

  // ---- one update ----

  function Default(given: Option<string>, otherwise: string): string {
    if given.Some? then given.value else otherwise
  }

  /** Only a non-empty value replaces what a card shows. */
  function Newer(was: Option<string>, given: Option<string>): Option<string> {
    if given.Some? && given.value != "" then given else was
  }

  /** The text of the blocks that have any. */
  function ContentText(content: seq<Option<string>>): string {
    if content == [] then ""
    else ContentText(content[..|content| - 1]) + Default(content[|content| - 1], "")
  }

  function Shown(card: Card, c: Change): Card {
    card.(status := Default(Newer(Some(card.status), c.status), ""),
          input := Newer(card.input, c.rawInput),
          outcome := if c.outcome.Some? then c.outcome else card.outcome,
          outcomeSource := if c.source.Some? then c.source else card.outcomeSource,
          errorMessage := Newer(card.errorMessage, c.message),
          output := card.output + ContentText(c.content))
  }

  function NewCard(u: Update): Card
    requires u.ToolCall?
  {
    Card(u.toolCallId, Default(u.title, "tool"), Default(u.status, "pending"), Default(u.kind, "other"),
         u.risk, u.decision, None, None, Newer(None, u.rawInput), "", None)
  }

  predicate Holds(turn: Turn, toolCallId: string) {
    turn.toolCall.Some? && turn.toolCall.value.toolCallId == toolCallId
  }

  /** The last card of a call, or -1. */
  function FindTool(turns: seq<Turn>, toolCallId: string): (r: int)
    ensures -1 <= r < |turns|
    ensures r >= 0 ==> Holds(turns[r], toolCallId)
    ensures forall k | r < k < |turns| :: !Holds(turns[k], toolCallId)
  {
    if turns == [] then -1
    else if Holds(turns[|turns| - 1], toolCallId) then |turns| - 1
    else FindTool(turns[..|turns| - 1], toolCallId)
  }

  function Applied(s: State, u: Update): State {
    match u
    case UsageUpdate(used, size) => s.(usage := Some((used, size)))
    case ToolCall(callId, _, _, _, _, _, _) =>
      if callId == "" then s
      else State(s.turns + [Turn(s.nextId, ToolRole, "", Some(NewCard(u)))], s.nextId + 1, s.usage)
    case ToolCallUpdate(callId, c) =>
      var i := FindTool(s.turns, callId);
      if callId == "" || i < 0 then s
      else s.(turns := s.turns[i := s.turns[i].(toolCall := Some(Shown(s.turns[i].toolCall.value, c)))])
    case MessageChunk(role, text) =>
      if text == None || role == ToolRole then s
      else
        var n := |s.turns|;
        if n > 0 && s.turns[n - 1].role == role then
          s.(turns := s.turns[n - 1 := s.turns[n - 1].(text := s.turns[n - 1].text + text.value)])
        else State(s.turns + [Turn(s.nextId, role, text.value, None)], s.nextId + 1, s.usage)
    case OtherUpdate => s
  }

  method FindToolTurnIndex(turns: seq<Turn>, toolCallId: string) returns (index: int)
    ensures index == FindTool(turns, toolCallId)
  {
    for i := |turns| downto 0
      invariant forall k | i <= k < |turns| :: !Holds(turns[k], toolCallId)
    {
      if Holds(turns[i], toolCallId) {
        assert FindTool(turns, toolCallId) >= i;
        return i;
      }
    }
    return -1;
  }

  method ExtractContentText(content: seq<Option<string>>) returns (out: string)
    ensures out == ContentText(content)
  {
    out := "";
    for i := 0 to |content|
      invariant out == ContentText(content[..i])
    {
      assert content[..i + 1][..i] == content[..i];
      if content[i].Some? && content[i].value != "" {
        out := out + content[i].value;
      }
    }
    assert content[..|content|] == content;
  }

  method ApplyToolCallUpdate(state: State, toolCallId: string, raw: Change) returns (next: State)
    ensures next == Applied(state, ToolCallUpdate(toolCallId, raw))
  {
    if toolCallId == "" {
      return state;
    }
    var idx := FindToolTurnIndex(state.turns, toolCallId);
    if idx < 0 {
      return state;
    }
    var tc := state.turns[idx].toolCall.value;
    if raw.status.Some? && raw.status.value != "" { tc := tc.(status := raw.status.value); }
    if raw.rawInput.Some? && raw.rawInput.value != "" { tc := tc.(input := raw.rawInput); }
    if raw.outcome.Some? { tc := tc.(outcome := raw.outcome); }
    if raw.source.Some? { tc := tc.(outcomeSource := raw.source); }
    if raw.message.Some? && raw.message.value != "" { tc := tc.(errorMessage := raw.message); }
    var text := ExtractContentText(raw.content);
    tc := tc.(output := tc.output + text);
    var updated := state.turns[idx].(toolCall := Some(tc));
    next := State(state.turns[..idx] + [updated] + state.turns[idx + 1..], state.nextId, state.usage);
    assert next.turns == state.turns[idx := updated];
  }

  // ---- any number of updates ----

  function Fold(s: State, updates: seq<Update>): State {
    if updates == [] then s else Applied(Fold(s, updates[..|updates| - 1]), updates[|updates| - 1])
  }

  lemma FoldSnoc(s: State, updates: seq<Update>, u: Update)
    ensures Fold(s, updates + [u]) == Applied(Fold(s, updates), u)
  {
    assert (updates + [u])[..|updates|] == updates;
  }

  lemma {:induction false} FoldJoin(s: State, a: seq<Update>, b: seq<Update>)
    ensures Fold(s, a + b) == Fold(Fold(s, a), b)
    decreases |b|
  {
    hide Applied;
    if b == [] {
      assert a + b == a;
    } else {
      var c, u := b[..|b| - 1], b[|b| - 1];
      assert a + b == (a + c) + [u] && b == c + [u];
      FoldJoin(s, a, c);
      FoldSnoc(s, a + c, u);
    }
  }

  /** Ids count up from 1, cards are on tool turns only, and no two neighbours are both text of one role. */
  predicate WellFormed(s: State) {
    && s.nextId == |s.turns| + 1
    && (forall i | 0 <= i < |s.turns| :: s.turns[i].id == i + 1)
    && (forall i | 0 <= i < |s.turns| :: s.turns[i].role == ToolRole <==> s.turns[i].toolCall.Some?)
    && (forall i | 0 < i < |s.turns| :: s.turns[i].role == s.turns[i - 1].role ==> s.turns[i].role == ToolRole)
  }

  lemma AppliedKeeps(s: State, u: Update)
    requires WellFormed(s)
    ensures WellFormed(Applied(s, u))
  {
  }

  lemma {:induction false} FoldKeeps(s: State, updates: seq<Update>)
    requires WellFormed(s)
    ensures WellFormed(Fold(s, updates))
  {
    hide Applied, WellFormed;
    if updates != [] {
      FoldKeeps(s, updates[..|updates| - 1]);
      AppliedKeeps(Fold(s, updates[..|updates| - 1]), updates[|updates| - 1]);
    }
  }

  // ---- text is conserved ----

  function RoleText(turns: seq<Turn>, role: Role): string {
    if turns == [] then ""
    else
      var last := turns[|turns| - 1];
      RoleText(turns[..|turns| - 1], role) + (if last.role == role then last.text else "")
  }

  function ChunkText(updates: seq<Update>, role: Role): string {
    if updates == [] then ""
    else
      var u := updates[|updates| - 1];
      ChunkText(updates[..|updates| - 1], role)
        + (if u.MessageChunk? && u.role == role && u.text.Some? then u.text.value else "")
  }

  lemma ChunkTextSnoc(updates: seq<Update>, u: Update, role: Role)
    ensures ChunkText(updates + [u], role)
         == ChunkText(updates, role) + (if u.MessageChunk? && u.role == role && u.text.Some? then u.text.value else "")
  {
    assert (updates + [u])[..|updates|] == updates;
  }

  lemma RoleTextSnoc(turns: seq<Turn>, turn: Turn, role: Role)
    ensures RoleText(turns + [turn], role) == RoleText(turns, role) + (if turn.role == role then turn.text else "")
  {
    assert (turns + [turn])[..|turns|] == turns;
  }

  /** A change that keeps a turn's role and text does not show in anyone's text. */
  lemma {:induction false} RoleTextSame(turns: seq<Turn>, i: nat, turn: Turn, role: Role)
    requires i < |turns| && turn.role == turns[i].role && turn.text == turns[i].text
    ensures RoleText(turns[i := turn], role) == RoleText(turns, role)
  {
    var n := |turns| - 1;
    if i < n {
      RoleTextSame(turns[..n], i, turn, role);
      assert turns[i := turn][..n] == turns[..n][i := turn];
    } else {
      assert turns[i := turn][..n] == turns[..n];
    }
  }

  lemma TextStep(s: State, u: Update, role: Role)
    requires role != ToolRole
    ensures RoleText(Applied(s, u).turns, role)
         == RoleText(s.turns, role) + (if u.MessageChunk? && u.role == role && u.text.Some? then u.text.value else "")
  {
    hide RoleText, NewCard, Shown;
    var after := Applied(s, u);
    assert RoleText(s.turns, role) + "" == RoleText(s.turns, role);
    match u {
    case ToolCallUpdate(callId, _) =>
      var i := FindTool(s.turns, callId);
      if callId != "" && i >= 0 {
        RoleTextSame(s.turns, i, after.turns[i], role);
      }
    case ToolCall(callId, _, _, _, _, _, _) =>
      if callId != "" {
        RoleTextSnoc(s.turns, after.turns[|s.turns|], role);
      }
    case MessageChunk(r, text) =>
      if text.Some? && r != ToolRole {
        var n := |s.turns|;
        if n > 0 && s.turns[n - 1].role == r {
          var front := s.turns[..n - 1];
          assert s.turns == front + [s.turns[n - 1]] && after.turns == front + [after.turns[n - 1]];
          RoleTextSnoc(front, s.turns[n - 1], role);
          RoleTextSnoc(front, after.turns[n - 1], role);
        } else {
          RoleTextSnoc(s.turns, after.turns[n], role);
        }
      }
    case _ =>
    }
  }

  /** What a role said is the concatenation of its chunks, wherever the turns were broken. */
  lemma {:induction false} TextIsConserved(s: State, updates: seq<Update>, role: Role)
    requires role != ToolRole
    ensures RoleText(Fold(s, updates).turns, role) == RoleText(s.turns, role) + ChunkText(updates, role)
  {
    hide Applied, RoleText;
    if updates == [] {
      assert RoleText(s.turns, role) + "" == RoleText(s.turns, role);
    } else {
      TextIsConserved(s, updates[..|updates| - 1], role);
      TextStep(Fold(s, updates[..|updates| - 1]), updates[|updates| - 1], role);
    }
  }

  /** What the events of a log have a role say. */
  function Words(log: seq<Payload>, role: Role): string {
    if log == [] then ""
    else
      var e := log[|log| - 1];
      Words(log[..|log| - 1], role)
        + (if role == UserRole && e.UserMessage? then e.content
           else if role == AgentRole && e.ModelDelta? then e.text else "")
  }

  /** The tokens of the last completed turn that reports any. */
  function TokensSaid(log: seq<Payload>): Option<nat> {
    if log == [] then None
    else
      var e := log[|log| - 1];
      if e.TurnCompleted? && e.usage.Some? then Some(e.usage.value.promptTokens + e.usage.value.completionTokens)
      else TokensSaid(log[..|log| - 1])
  }

  lemma WordsSnoc(log: seq<Payload>, e: Payload, role: Role)
    requires role != ToolRole
    ensures var u := MapEventToUpdate(e);
      Words(log + [e], role)
      == Words(log, role)
         + if u.Some? && u.value.MessageChunk? && u.value.role == role && u.value.text.Some? then u.value.text.value
           else ""
  {
    assert (log + [e])[..|log|] == log;
  }

  lemma {:induction false} ChunksAreWords(log: seq<Payload>, role: Role)
    requires role != ToolRole
    ensures ChunkText(Updates(log), role) == Words(log, role)
  {
    if log != [] {
      var before, e := log[..|log| - 1], log[|log| - 1];
      assert before + [e] == log;
      hide MapEventToUpdate, ChunkText, Words, Updates;
      ChunksAreWords(before, role);
      WordsSnoc(before, e, role);
      UpdatesSnoc(before, e);
      if MapEventToUpdate(e).Some? {
        ChunkTextSnoc(Updates(before), MapEventToUpdate(e).value, role);
      }
      assert Updates(before) + [] == Updates(before) && Words(before, role) + "" == Words(before, role);
    }
  }

  lemma {:induction false} UsageIsLast(log: seq<Payload>)
    ensures Fold(EMPTY_TRANSCRIPT, Updates(log)).usage
         == match TokensSaid(log) case None => None case Some(n) => Some((n, n))
  {
    if log != [] {
      var before, e := log[..|log| - 1], log[|log| - 1];
      assert before + [e] == log;
      hide Updates;
      UsageIsLast(before);
      UpdatesSnoc(before, e);
      if MapEventToUpdate(e).Some? {
        FoldSnoc(EMPTY_TRANSCRIPT, Updates(before), MapEventToUpdate(e).value);
        UsageStep(Fold(EMPTY_TRANSCRIPT, Updates(before)), e);
      }
      assert Updates(before) + [] == Updates(before);
    }
  }

  lemma UsageStep(s: State, e: Payload)
    requires MapEventToUpdate(e).Some?
    ensures Applied(s, MapEventToUpdate(e).value).usage
         == if e.TurnCompleted? && e.usage.Some? then
              var n := e.usage.value.promptTokens + e.usage.value.completionTokens;
              Some((n, n))
            else s.usage
  {
  }

  /**
   The transcript of any log shows as the user's text the user's messages, as the agent's text the model's,
   and as usage the tokens of the last completed turn that reports any.
   */
  lemma TranscriptTellsLog(log: seq<Payload>)
    ensures var s := Fold(EMPTY_TRANSCRIPT, Updates(log));
      && RoleText(s.turns, UserRole) == Words(log, UserRole)
      && RoleText(s.turns, AgentRole) == Words(log, AgentRole)
      && s.usage == match TokensSaid(log) case None => None case Some(n) => Some((n, n))
  {
    hide Fold, Words, Updates, ChunkText, TokensSaid;
    TextIsConserved(EMPTY_TRANSCRIPT, Updates(log), UserRole);
    TextIsConserved(EMPTY_TRANSCRIPT, Updates(log), AgentRole);
    ChunksAreWords(log, UserRole);
    ChunksAreWords(log, AgentRole);
    UsageIsLast(log);
    assert "" + Words(log, UserRole) == Words(log, UserRole) && "" + Words(log, AgentRole) == Words(log, AgentRole);
  }

  /** Cutting a chunk in two anywhere makes no difference to the transcript. */
  lemma ChunksMayBeSplit(s: State, before: seq<Update>, role: Role, a: string, b: string, after: seq<Update>)
    ensures Fold(s, before + [MessageChunk(role, Some(a + b))] + after)
         == Fold(s, before + [MessageChunk(role, Some(a)), MessageChunk(role, Some(b))] + after)
  {
    var t, one, two := Fold(s, before), MessageChunk(role, Some(a)), MessageChunk(role, Some(b));
    SplitStep(t, role, a, b);
    hide Applied;
    FoldSnoc(s, before, MessageChunk(role, Some(a + b)));
    FoldSnoc(s, before, one);
    FoldSnoc(s, before + [one], two);
    assert before + [one, two] == before + [one] + [two];
    FoldJoin(s, before + [MessageChunk(role, Some(a + b))], after);
    FoldJoin(s, before + [one, two], after);
  }

  lemma SplitStep(s: State, role: Role, a: string, b: string)
    ensures Applied(s, MessageChunk(role, Some(a + b)))
         == Applied(Applied(s, MessageChunk(role, Some(a))), MessageChunk(role, Some(b)))
  {
    var n := |s.turns|;
    if role != ToolRole && n > 0 && s.turns[n - 1].role == role {
      assert s.turns[n - 1].text + (a + b) == s.turns[n - 1].text + a + b;
    }
    assert Applied(s, MessageChunk(role, Some(a + b))).turns
        == Applied(Applied(s, MessageChunk(role, Some(a))), MessageChunk(role, Some(b))).turns;
  }

  // ---- cards ----

  function Cards(turns: seq<Turn>): seq<Card> {
    if turns == [] then []
    else
      var card := turns[|turns| - 1].toolCall;
      Cards(turns[..|turns| - 1]) + (if card.Some? then [card.value] else [])
  }

  lemma CardsSnoc(turns: seq<Turn>, turn: Turn)
    ensures Cards(turns + [turn]) == Cards(turns) + (if turn.toolCall.Some? then [turn.toolCall.value] else [])
  {
    assert (turns + [turn])[..|turns|] == turns;
  }

  /** If the last card is of this call, an update of the call changes that card and no other. */
  lemma {:induction false} LastCardChanges(turns: seq<Turn>, callId: string, card: Card)
    requires var cards := Cards(turns); cards != [] && cards[|cards| - 1].toolCallId == callId
    ensures var (i, cards) := (FindTool(turns, callId), Cards(turns));
      && i >= 0 && turns[i].toolCall == Some(cards[|cards| - 1])
      && Cards(turns[i := turns[i].(toolCall := Some(card))]) == cards[..|cards| - 1] + [card]
  {
    var n, i, cards := |turns| - 1, FindTool(turns, callId), Cards(turns);
    var before, last := turns[..n], turns[n];
    if last.toolCall.Some? {
      var after := turns[i := turns[i].(toolCall := Some(card))];
      assert i == n && after[..n] == before;
      assert cards[..|cards| - 1] == Cards(before);
    } else {
      assert cards == Cards(before);
      LastCardChanges(before, callId, card);
      assert i == FindTool(before, callId);
      var turn := turns[i].(toolCall := Some(card));
      assert turns[i := turn][..n] == before[i := turn];
    }
  }

  /** The last card of a call, or -1. */
  function LastCard(cards: seq<Card>, callId: string): (k: int)
    ensures -1 <= k < |cards|
  {
    if cards == [] then -1
    else if cards[|cards| - 1].toolCallId == callId then |cards| - 1
    else LastCard(cards[..|cards| - 1], callId)
  }

  lemma {:induction false} FindIsLast(turns: seq<Turn>, callId: string)
    ensures var (i, k) := (FindTool(turns, callId), LastCard(Cards(turns), callId));
      (i < 0 <==> k < 0) && (i >= 0 ==> turns[i].toolCall == Some(Cards(turns)[k]))
  {
    hide Cards;
    if turns == [] {
      NoCardsYet();
    } else {
      var before, last := turns[..|turns| - 1], turns[|turns| - 1];
      assert before + [last] == turns;
      FindIsLast(before, callId);
      CardsSnoc(before, last);
      var cards := Cards(turns);
      if last.toolCall.Some? {
        assert cards[..|cards| - 1] == Cards(before) && cards[|cards| - 1] == last.toolCall.value;
      } else {
        assert cards == Cards(before);
      }
    }
  }

  lemma NoCardsYet()
    ensures Cards([]) == []
  {
  }

  // ---- invocations ----

  predicate Over(block: seq<Payload>)
    requires block != []
  {
    block[|block| - 1].ToolCompleted? || block[|block| - 1].ToolFailed?
  }

  predicate NoneOpen(blocks: seq<seq<Payload>>) {
    blocks != [] && blocks[|blocks| - 1] != [] ==> Over(blocks[|blocks| - 1])
  }

  /** The tool invocations of a log: each from its permission request to its completion or failure. */
  function Invocations(l: seq<Payload>): (blocks: seq<seq<Payload>>)
    ensures forall k | 0 <= k < |blocks| :: blocks[k] != [] && blocks[k][0].PermissionRequested? && blocks[k][0] in l
    ensures forall k, i | 0 <= k < |blocks| && 0 < i < |blocks[k]| ::
      blocks[k][i].IsTool() && !blocks[k][i].PermissionRequested?
    ensures forall k, i | 0 <= k < |blocks| && 0 <= i < |blocks[k]| - 1 ::
      !blocks[k][i].ToolCompleted? && !blocks[k][i].ToolFailed?
  {
    if l == [] then []
    else
      var blocks, e, n := Invocations(l[..|l| - 1]), l[|l| - 1], |Invocations(l[..|l| - 1])|;
      if e.PermissionRequested? then blocks + [[e]]
      else if e.IsTool() && !NoneOpen(blocks) then blocks[..n - 1] + [blocks[n - 1] + [e]]
      else blocks
  }

  function Touched(card: Card, e: Payload): Card {
    match MapEventToUpdate(e)
    case Some(ToolCallUpdate(_, c)) => Shown(card, c)
    case _ => card
  }

  /** The card of one invocation, from its own events alone. */
  function CardOf(block: seq<Payload>): Card
    requires block != [] && block[0].PermissionRequested?
  {
    if |block| == 1 then NewCard(MapEventToUpdate(block[0]).value)
    else Touched(CardOf(block[..|block| - 1]), block[|block| - 1])
  }

  function CardsOf(blocks: seq<seq<Payload>>): (cards: seq<Card>)
    requires forall k | 0 <= k < |blocks| :: blocks[k] != [] && blocks[k][0].PermissionRequested?
    ensures |cards| == |blocks|
  {
    seq(|blocks|, k requires 0 <= k < |blocks| => CardOf(blocks[k]))
  }

  function DeltaText(block: seq<Payload>): string {
    if block == [] then ""
    else
      var e := block[|block| - 1];
      DeltaText(block[..|block| - 1]) + (if e.ToolDelta? then e.text else "")
  }

  /** How far the invocation has come. */
  function StatusSaid(block: seq<Payload>): string {
    if block == [] then ""
    else
      match block[|block| - 1]
      case PermissionRequested(_, _, _, _, _, _, _) => "pending"
      case ToolStarted(_, _, _, _) => "in_progress"
      case ToolCompleted(_, _, _, _) => "completed"
      case ToolFailed(_, _, _, _) => "failed"
      case _ => StatusSaid(block[..|block| - 1])
  }

  /** The last resolution of its permission. */
  function ResolutionSaid(block: seq<Payload>): Option<(Outcome, Source)> {
    if block == [] then None
    else
      var e := block[|block| - 1];
      if e.PermissionResolved? then Some((e.outcome, e.source)) else ResolutionSaid(block[..|block| - 1])
  }

  /** The last arguments it was started with, if there were any. */
  function InputSaid(block: seq<Payload>): Option<string> {
    if block == [] then None
    else
      var e := block[|block| - 1];
      if e.ToolStarted? && e.argsPreview.Some? && e.argsPreview.value != "" then e.argsPreview
      else InputSaid(block[..|block| - 1])
  }

  /** The last failure that says anything. */
  function ErrorSaid(block: seq<Payload>): Option<string> {
    if block == [] then None
    else
      var e := block[|block| - 1];
      if e.ToolFailed? && e.message != "" then Some(e.message) else ErrorSaid(block[..|block| - 1])
  }

  /** The kind of tool that a risk stands for. */
  predicate KindOfRisk(kind: string, risk: string) {
    && (risk == "read" ==> kind == "read") && (risk == "write" ==> kind == "edit")
    && (risk == "execute" ==> kind == "execute") && (risk == "network" ==> kind == "fetch")
    && (risk !in {"read", "write", "execute", "network"} ==> kind == "other")
  }

  /**
   What an invocation's card should tell, from its events: the tool, its risk and what the policy decided;
   who resolved the permission and how; the arguments, the output and any error; and how far it has come.
   */
  predicate Tells(card: Card, block: seq<Payload>)
    requires block != [] && block[0].PermissionRequested?
  {
    var (asked, said) := (block[0], ResolutionSaid(block));
    && card.toolCallId == (if asked.callId.Some? then asked.callId.value else asked.requestId)
    && card.title == asked.toolName && card.risk == Some(asked.risk) && card.decision == Some(asked.decision)
    && KindOfRisk(card.kind, asked.risk)
    && card.outcome == (if said.Some? then Some(said.value.0) else None)
    && card.outcomeSource == (if said.Some? then Some(said.value.1) else None)
    && card.input == InputSaid(block) && card.output == DeltaText(block) && card.errorMessage == ErrorSaid(block)
    && card.status == StatusSaid(block)
  }

  lemma {:induction false} CardTells(block: seq<Payload>)
    requires block != [] && block[0].PermissionRequested?
    requires forall k | 0 < k < |block| :: block[k].IsTool() && !block[k].PermissionRequested?
    ensures Tells(CardOf(block), block)
  {
    hide Touched, MapEventToUpdate, NewCard, KindOfRisk, StatusSaid, ResolutionSaid, InputSaid, ErrorSaid, DeltaText;
    var n := |block| - 1;
    if n > 0 {
      CardTells(block[..n]);
      TouchTells(CardOf(block[..n]), block[n]);
      SaidNext(block);
      assert CardOf(block[..n]).output + "" == CardOf(block[..n]).output;
    } else {
      FirstTells(block[0]);
      FirstSaid(block);
    }
  }

  lemma FirstSaid(block: seq<Payload>)
    requires |block| == 1 && block[0].PermissionRequested?
    ensures StatusSaid(block) == "pending" && ResolutionSaid(block) == None && InputSaid(block) == None
    ensures ErrorSaid(block) == None && DeltaText(block) == ""
  {
    NothingSaid(block[..0]);
  }

  lemma SaidNext(block: seq<Payload>)
    requires block != []
    ensures var (before, e) := (block[..|block| - 1], block[|block| - 1]);
      && StatusSaid(block) == (if e.PermissionRequested? then "pending" else if e.ToolStarted? then "in_progress"
                               else if e.ToolCompleted? then "completed" else if e.ToolFailed? then "failed"
                               else StatusSaid(before))
      && ResolutionSaid(block) == (if e.PermissionResolved? then Some((e.outcome, e.source))
                                   else ResolutionSaid(before))
      && InputSaid(block) == (if e.ToolStarted? && e.argsPreview.Some? && e.argsPreview.value != "" then e.argsPreview
                              else InputSaid(before))
      && ErrorSaid(block) == (if e.ToolFailed? && e.message != "" then Some(e.message) else ErrorSaid(before))
      && DeltaText(block) == DeltaText(before) + (if e.ToolDelta? then e.text else "")
  {
  }

  lemma NothingSaid(block: seq<Payload>)
    requires block == []
    ensures ResolutionSaid(block) == None && InputSaid(block) == None && ErrorSaid(block) == None
         && DeltaText(block) == ""
  {
  }

  lemma FirstTells(e: Payload)
    requires e.PermissionRequested?
    ensures MapEventToUpdate(e).Some? && MapEventToUpdate(e).value.ToolCall?
    ensures var card := NewCard(MapEventToUpdate(e).value);
      && card.toolCallId == (if e.callId.Some? then e.callId.value else e.requestId)
      && card.title == e.toolName && card.risk == Some(e.risk) && card.decision == Some(e.decision)
      && KindOfRisk(card.kind, e.risk) && card.status == "pending" && card.output == ""
      && card.outcome == None && card.outcomeSource == None && card.input == None && card.errorMessage == None
  {
  }

  lemma TouchTells(card: Card, e: Payload)
    requires e.IsTool() && !e.PermissionRequested?
    ensures var after := Touched(card, e);
      && (after.toolCallId, after.title, after.kind, after.risk, after.decision)
         == (card.toolCallId, card.title, card.kind, card.risk, card.decision)
      && after.output == card.output + (if e.ToolDelta? then e.text else "")
      && after.status == (if e.ToolStarted? then "in_progress" else if e.ToolCompleted? then "completed"
                          else if e.ToolFailed? then "failed" else card.status)
      && after.outcome == (if e.PermissionResolved? then Some(e.outcome) else card.outcome)
      && after.outcomeSource == (if e.PermissionResolved? then Some(e.source) else card.outcomeSource)
      && after.input == (if e.ToolStarted? && e.argsPreview.Some? && e.argsPreview.value != "" then e.argsPreview
                         else card.input)
      && after.errorMessage == (if e.ToolFailed? && e.message != "" then Some(e.message) else card.errorMessage)
  {
    if e.ToolDelta? {
      assert [Some(e.text)][..0] == [] && ContentText([Some(e.text)]) == "" + e.text;
    }
    assert card.output + "" == card.output;
  }

  // ---- every card shows its own invocation ----

  predicate Busy(p: Phase) { p.Asked? || p.Permitted? || p.Refused? || p.Running? }

  /** The call a log is in the middle of is the one its last invocation asked for. */
  predicate InStep(p: Phase, blocks: seq<seq<Payload>>)
    requires forall k | 0 <= k < |blocks| :: blocks[k] != [] && blocks[k][0].PermissionRequested?
  {
    if Busy(p) then !NoneOpen(blocks) && blocks[|blocks| - 1][0].callId == Some(p.callId) else NoneOpen(blocks)
  }

  lemma PhaseStep(p: Phase, e: Payload)
    requires After(p, e).Some?
    ensures var q := After(p, e).value;
      && (e.PermissionRequested? <==> !Busy(p) && Busy(q))
      && (e.PermissionRequested? ==> e.callId == Some(q.callId))
      && (Busy(p) ==> e.IsTool() && (Busy(q) <==> !Over([e])) && (Busy(q) ==> q.callId == p.callId))
      && (Busy(p) ==>
            && MapEventToUpdate(e).Some? && MapEventToUpdate(e).value.ToolCallUpdate?
            && MapEventToUpdate(e).value.toolCallId == p.callId)
      && (!Busy(p) && e.IsTool() && !e.PermissionRequested? ==> e.ToolFailed?)
  {
  }

  lemma InvocationsSnoc(l: seq<Payload>, e: Payload)
    ensures var (blocks, n) := (Invocations(l), |Invocations(l)|);
      Invocations(l + [e])
      == if e.PermissionRequested? then blocks + [[e]]
         else if e.IsTool() && !NoneOpen(blocks) then blocks[..n - 1] + [blocks[n - 1] + [e]]
         else blocks
  {
    assert (l + [e])[..|l|] == l;
  }

  lemma {:induction false} StaysInStep(p: Phase, l: seq<Payload>)
    requires Resting(p) && Accept(p, l).Some?
    ensures InStep(Accept(p, l).value, Invocations(l))
  {
    hide After, Accept, Invocations, MapEventToUpdate;
    if l == [] {
      NoInvocations();
      Nothing();
    } else {
      var before, e := l[..|l| - 1], l[|l| - 1];
      assert before + [e] == l;
      AcceptSnoc(p, before, e);
      StaysInStep(p, before);
      PhaseStep(Accept(p, before).value, e);
      InvocationsSnoc(before, e);
    }
  }

  lemma NoInvocations()
    ensures Invocations([]) == []
  {
  }

  /** The last invocation of a call, or -1. */
  function LastOf(blocks: seq<seq<Payload>>, callId: string): (k: int)
    requires forall k | 0 <= k < |blocks| :: blocks[k] != [] && blocks[k][0].PermissionRequested?
    ensures -1 <= k < |blocks|
  {
    if blocks == [] then -1
    else
      var n := |blocks| - 1;
      if CallKey(blocks[n][0].callId, blocks[n][0].requestId) == callId then n else LastOf(blocks[..n], callId)
  }

  /** The invocation ended with this very failure, as far as its card can tell. */
  predicate EndedSo(block: seq<Payload>, e: Payload)
    requires block != [] && e.ToolFailed?
  {
    var last := block[|block| - 1];
    last.ToolFailed? && (e.message == "" || e.message == last.message)
  }

  /**
   A failure outside an invocation is what an unknown tool leaves. It is safe when no invocation before it
   has its call id, or the last that has ended with that same failure.
   */
  predicate Safe(l: seq<Payload>, i: nat)
    requires i < |l|
  {
    var blocks := Invocations(l[..i]);
    l[i].ToolFailed? && NoneOpen(blocks) ==>
      var k := LastOf(blocks, l[i].toolCallId);
      k < 0 || EndedSo(blocks[k], l[i])
  }

  predicate Named(e: Payload) { e.PermissionRequested? ==> CallKey(e.callId, e.requestId) != "" }

  lemma {:induction false} CardIds(block: seq<Payload>)
    requires block != [] && block[0].PermissionRequested?
    ensures CardOf(block).toolCallId == CallKey(block[0].callId, block[0].requestId)
  {
    hide Touched, MapEventToUpdate;
    if |block| == 1 {
      FirstTells(block[0]);
    } else {
      CardIds(block[..|block| - 1]);
      TouchKeepsId(CardOf(block[..|block| - 1]), block[|block| - 1]);
    }
  }

  lemma TouchKeepsId(card: Card, e: Payload)
    ensures Touched(card, e).toolCallId == card.toolCallId
  {
  }

  lemma TextKeepsCards(s: State, u: Update)
    requires !IsToolUpdate(u)
    ensures Cards(Applied(s, u).turns) == Cards(s.turns)
  {
    hide Cards;
    if u.MessageChunk? && u.text.Some? && u.role != ToolRole {
      var n, after := |s.turns|, Applied(s, u).turns;
      if n > 0 && s.turns[n - 1].role == u.role {
        var front := s.turns[..n - 1];
        assert s.turns == front + [s.turns[n - 1]] && after == front + [after[n - 1]];
        CardsSnoc(front, s.turns[n - 1]);
        CardsSnoc(front, after[n - 1]);
      } else {
        CardsSnoc(s.turns, after[n]);
        assert Cards(s.turns) + [] == Cards(s.turns);
      }
    }
  }

  function Updated(s: State, e: Payload): State {
    if MapEventToUpdate(e).Some? then Applied(s, MapEventToUpdate(e).value) else s
  }

  lemma NewCardAdded(s: State, e: Payload)
    requires e.PermissionRequested? && Named(e)
    ensures Cards(Updated(s, e).turns) == Cards(s.turns) + [CardOf([e])]
  {
    hide Cards;
    CardsSnoc(s.turns, Updated(s, e).turns[|s.turns|]);
  }

  lemma CardTouched(s: State, callId: string, e: Payload)
    requires var cards := Cards(s.turns); cards != [] && cards[|cards| - 1].toolCallId == callId != ""
    requires MapEventToUpdate(e).Some? && MapEventToUpdate(e).value.ToolCallUpdate?
    requires MapEventToUpdate(e).value.toolCallId == callId
    ensures var cards := Cards(s.turns);
      Cards(Updated(s, e).turns) == cards[..|cards| - 1] + [Touched(cards[|cards| - 1], e)]
  {
    hide Cards, MapEventToUpdate, Shown;
    var cards := Cards(s.turns);
    LastCardChanges(s.turns, callId, Touched(cards[|cards| - 1], e));
  }

  lemma NoToolNoCard(s: State, e: Payload)
    requires !e.IsTool()
    ensures Cards(Updated(s, e).turns) == Cards(s.turns)
  {
    hide Cards, Applied;
    if MapEventToUpdate(e).Some? {
      TextKeepsCards(s, MapEventToUpdate(e).value);
    }
  }

  lemma CardsOfSnoc(blocks: seq<seq<Payload>>, block: seq<Payload>)
    requires forall k | 0 <= k < |blocks| :: blocks[k] != [] && blocks[k][0].PermissionRequested?
    requires block != [] && block[0].PermissionRequested?
    ensures CardsOf(blocks + [block]) == CardsOf(blocks) + [CardOf(block)]
  {
    hide CardOf;
  }

  lemma {:induction false} LastOfIsLastCard(blocks: seq<seq<Payload>>, callId: string)
    requires forall k | 0 <= k < |blocks| :: blocks[k] != [] && blocks[k][0].PermissionRequested?
    ensures LastOf(blocks, callId) == LastCard(CardsOf(blocks), callId)
  {
    hide CardOf;
    if blocks != [] {
      var n := |blocks| - 1;
      LastOfIsLastCard(blocks[..n], callId);
      CardIds(blocks[n]);
      assert CardsOf(blocks)[..n] == CardsOf(blocks[..n]);
    }
  }

  /** Only its last event can make an invocation's card show a failure, and then it shows that one. */
  lemma {:induction false} CardEnds(block: seq<Payload>)
    requires block != [] && block[0].PermissionRequested?
    requires forall i | 0 <= i < |block| - 1 :: !block[i].ToolFailed?
    ensures var (card, last) := (CardOf(block), block[|block| - 1]);
      && (card.status == "failed" <==> last.ToolFailed?)
      && card.errorMessage == (if last.ToolFailed? && last.message != "" then Some(last.message) else None)
  {
    hide Touched, MapEventToUpdate;
    var n := |block| - 1;
    if n > 0 {
      CardEnds(block[..n]);
      TouchEnds(CardOf(block[..n]), block[n]);
    } else {
      FirstTells(block[0]);
      FirstEnds(block[0]);
    }
  }

  lemma FirstEnds(e: Payload)
    requires e.PermissionRequested?
    ensures MapEventToUpdate(e).Some? && MapEventToUpdate(e).value.ToolCall?
    ensures var card := NewCard(MapEventToUpdate(e).value); card.status == "pending" && card.errorMessage == None
  {
  }

  lemma TouchEnds(card: Card, e: Payload)
    ensures var after := Touched(card, e);
      && (after.status == "failed"
          <==> e.ToolFailed? || (card.status == "failed" && !e.ToolStarted? && !e.ToolCompleted?))
      && after.errorMessage == if e.ToolFailed? && e.message != "" then Some(e.message) else card.errorMessage
  {
  }

  /** A failure outside an invocation leaves right cards right exactly when it is safe. */
  lemma StrayKeeps(l: seq<Payload>, e: Payload, s: State)
    requires e.ToolFailed? && NoneOpen(Invocations(l)) && Cards(s.turns) == CardsOf(Invocations(l))
    requires forall k | 0 <= k < |l| :: Named(l[k])
    ensures Cards(Updated(s, e).turns) == Cards(s.turns) <==> Safe(l + [e], |l|)
  {
    hide CardOf, CardsOf, Invocations, NoneOpen, Cards, Updated, LastOf, LastCard, FindTool;
    assert (l + [e])[..|l|] == l;
    var blocks, id := Invocations(l), e.toolCallId;
    StrayFailure(s, e);
    FindIsLast(s.turns, id);
    LastOfIsLastCard(blocks, id);
    var k := LastOf(blocks, id);
    if k >= 0 {
      CardAt(blocks, k);
      CardEnds(blocks[k]);
      CardIds(blocks[k]);
      LastOfKey(blocks, id);
      assert Named(blocks[k][0]);
    }
  }

  lemma CardAt(blocks: seq<seq<Payload>>, k: nat)
    requires forall k | 0 <= k < |blocks| :: blocks[k] != [] && blocks[k][0].PermissionRequested?
    requires k < |blocks|
    ensures CardsOf(blocks)[k] == CardOf(blocks[k])
  {
  }

  lemma {:induction false} LastOfKey(blocks: seq<seq<Payload>>, callId: string)
    requires forall k | 0 <= k < |blocks| :: blocks[k] != [] && blocks[k][0].PermissionRequested?
    ensures var k := LastOf(blocks, callId); k >= 0 ==> CallKey(blocks[k][0].callId, blocks[k][0].requestId) == callId
  {
    if blocks != [] {
      LastOfKey(blocks[..|blocks| - 1], callId);
    }
  }

  lemma LastTouched(cards: seq<Card>, block: seq<Payload>, e: Payload, s: State, callId: string)
    requires block != [] && block[0].PermissionRequested? && block[0].callId == Some(callId) && callId != ""
    requires MapEventToUpdate(e).Some? && MapEventToUpdate(e).value.ToolCallUpdate?
         && MapEventToUpdate(e).value.toolCallId == callId
    requires Cards(s.turns) == cards + [CardOf(block)]
    ensures Cards(Updated(s, e).turns) == cards + [CardOf(block + [e])]
  {
    hide Cards, MapEventToUpdate, CardOf, Updated, Touched;
    CardIds(block);
    var all := cards + [CardOf(block)];
    assert all[..|all| - 1] == cards;
    CardTouched(s, callId, e);
    Grown(block, e);
  }

  lemma BusyStep(l: seq<Payload>, e: Payload, s: State, callId: string)
    requires e.IsTool() && !e.PermissionRequested? && !NoneOpen(Invocations(l))
    requires MapEventToUpdate(e).Some? && MapEventToUpdate(e).value.ToolCallUpdate?
         && MapEventToUpdate(e).value.toolCallId == callId
    requires forall k | 0 <= k < |l| :: Named(l[k])
    requires var blocks := Invocations(l); blocks[|blocks| - 1][0].callId == Some(callId)
    requires Cards(s.turns) == CardsOf(Invocations(l))
    ensures Cards(Updated(s, e).turns) == CardsOf(Invocations(l + [e]))
  {
    hide Cards, Invocations, MapEventToUpdate, CardOf, CardsOf, Updated, Touched, NoneOpen;
    InvocationsSnoc(l, e);
    var blocks, n := Invocations(l), |Invocations(l)|;
    SomeOpen(blocks);
    var front, block := blocks[..n - 1], blocks[n - 1];
    assert Named(block[0]) && blocks == front + [block];
    CardsOfSnoc(front, block);
    LastTouched(CardsOf(front), block, e, s, callId);
    CardsOfSnoc(front, block + [e]);
  }

  lemma SomeOpen(blocks: seq<seq<Payload>>)
    requires !NoneOpen(blocks)
    ensures blocks != [] && blocks[|blocks| - 1] != []
  {
  }

  /** Whatever comes next, right cards stay right exactly when it is safe. */
  lemma CardsStep(p: Phase, l: seq<Payload>, e: Payload, s: State)
    requires Resting(p) && Accept(p, l).Some? && After(Accept(p, l).value, e).Some?
    requires Named(e) && forall k | 0 <= k < |l| :: Named(l[k])
    requires Cards(s.turns) == CardsOf(Invocations(l))
    ensures Cards(Updated(s, e).turns) == CardsOf(Invocations(l + [e])) <==> Safe(l + [e], |l|)
  {
    hide Cards, After, Accept, Invocations, MapEventToUpdate, CardOf, CardsOf, Updated, Over, LastOf, EndedSo, Named,
         NoneOpen;
    var q, blocks := Accept(p, l).value, Invocations(l);
    StaysInStep(p, l);
    PhaseStep(q, e);
    InvocationsSnoc(l, e);
    assert (l + [e])[..|l|] == l && (l + [e])[|l|] == e;
    if e.PermissionRequested? {
      NewCardAdded(s, e);
      CardsOfSnoc(blocks, [e]);
    } else if Busy(q) {
      BusyStep(l, e, s, q.callId);
    } else if e.IsTool() {
      StrayKeeps(l, e, s);
    } else {
      NoToolNoCard(s, e);
    }
  }

  lemma Grown(block: seq<Payload>, e: Payload)
    requires block != [] && block[0].PermissionRequested?
    ensures CardOf(block + [e]) == Touched(CardOf(block), e)
  {
    assert (block + [e])[..|block|] == block;
  }

  /** The cards of a log's transcript are those of its invocations, one by one and in order. */
  predicate Right(l: seq<Payload>) {
    Cards(Fold(EMPTY_TRANSCRIPT, Updates(l)).turns) == CardsOf(Invocations(l))
  }

  lemma RightStep(p: Phase, l: seq<Payload>, e: Payload)
    requires Resting(p) && Accept(p, l).Some? && After(Accept(p, l).value, e).Some?
    requires Named(e) && forall k | 0 <= k < |l| :: Named(l[k])
    requires Right(l)
    ensures Right(l + [e]) <==> Safe(l + [e], |l|)
  {
    hide Accept, After, Safe, Cards, Invocations, CardsOf, Applied, MapEventToUpdate;
    CardsStep(p, l, e, Fold(EMPTY_TRANSCRIPT, Updates(l)));
    UpdatesSnoc(l, e);
    if MapEventToUpdate(e).Some? {
      FoldSnoc(EMPTY_TRANSCRIPT, Updates(l), MapEventToUpdate(e).value);
    } else {
      assert Updates(l) + [] == Updates(l);
    }
  }

  lemma RightAtFirst()
    ensures Right([])
  {
    NoInvocations();
  }

  /**
   In the transcript of an allowed log the cards are those of its invocations, one by one and in order,
   each made of its own invocation's events although call ids start over in every turn, provided that
   every failure of an unknown tool is safe.
   */
  lemma {:induction false} CardsShowTheirInvocations(p: Phase, l: seq<Payload>)
    requires Resting(p) && Accept(p, l).Some?
    requires forall k | 0 <= k < |l| :: Named(l[k]) && Safe(l, k)
    ensures Right(l)
  {
    CardsAlwaysRightIff(p, l);
    assert l[..|l|] == l;
  }

  /**
   The cards are right at every moment of a log exactly when every failure of an unknown tool in it is
   safe: no earlier invocation has its call id, or the last one that has ended with that same failure.
   */
  lemma {:induction false} CardsAlwaysRightIff(p: Phase, l: seq<Payload>)
    requires Resting(p) && Accept(p, l).Some? && forall k | 0 <= k < |l| :: Named(l[k])
    ensures (forall n | 0 <= n <= |l| :: Right(l[..n])) <==> (forall i | 0 <= i < |l| :: Safe(l, i))
  {
    hide After, Safe, Right;
    if l == [] {
      RightAtFirst();
    } else {
      var m := |l| - 1;
      var before, e := l[..m], l[m];
      assert before + [e] == l;
      CardsAlwaysRightIff(p, before);
      forall i | 0 <= i < m ensures Safe(l, i) <==> Safe(before, i) {
        SafeBefore(before, e, i);
      }
      forall n | 0 <= n <= m ensures l[..n] == before[..n] {
      }
      assert l[..m + 1] == l && before[..m] == before;
      if Right(before) {
        RightStep(p, before, e);
      }
    }
  }

  lemma SafeBefore(l: seq<Payload>, e: Payload, i: nat)
    requires i < |l|
    ensures Safe(l + [e], i) <==> Safe(l, i)
  {
    assert (l + [e])[..i] == l[..i] && (l + [e])[i] == l[i];
  }

  /**
   So the output on each card is the text of its own invocation's deltas, its end is that invocation's
   end, and all cards together hold all the output there was.
   */
  lemma {:induction false} CardsTellTheirInvocations(p: Phase, l: seq<Payload>)
    requires Resting(p) && Accept(p, l).Some?
    requires forall k | 0 <= k < |l| :: Named(l[k]) && Safe(l, k)
    ensures var (cards, blocks) := (Cards(Fold(EMPTY_TRANSCRIPT, Updates(l)).turns), Invocations(l));
      && |cards| == |blocks| && Output(cards) == DeltaText(l)
      && forall k | 0 <= k < |cards| :: Tells(cards[k], blocks[k])
  {
    hide Accept, Cards, Fold, Updates, Invocations, CardOf, Safe, DeltaText;
    CardsShowTheirInvocations(p, l);
    var blocks := Invocations(l);
    forall k | 0 <= k < |blocks| ensures Tells(CardOf(blocks[k]), blocks[k]) {
      CardTells(blocks[k]);
    }
    OutputOf(blocks);
    DeltasAreInvoked(p, l);
  }

  function Output(cards: seq<Card>): string {
    if cards == [] then "" else Output(cards[..|cards| - 1]) + cards[|cards| - 1].output
  }

  function BlockText(blocks: seq<seq<Payload>>): string {
    if blocks == [] then "" else BlockText(blocks[..|blocks| - 1]) + DeltaText(blocks[|blocks| - 1])
  }

  lemma {:induction false} OutputOf(blocks: seq<seq<Payload>>)
    requires forall k | 0 <= k < |blocks| :: blocks[k] != [] && blocks[k][0].PermissionRequested?
    requires forall k | 0 <= k < |blocks| :: CardOf(blocks[k]).output == DeltaText(blocks[k])
    ensures Output(CardsOf(blocks)) == BlockText(blocks)
  {
    hide CardOf, DeltaText;
    if blocks != [] {
      var n := |blocks| - 1;
      OutputOf(blocks[..n]);
      assert CardsOf(blocks)[..n] == CardsOf(blocks[..n]);
    }
  }

  lemma {:induction false} DeltasAreInvoked(p: Phase, l: seq<Payload>)
    requires Resting(p) && Accept(p, l).Some?
    ensures BlockText(Invocations(l)) == DeltaText(l)
  {
    hide After, Invocations;
    if l == [] {
      NoInvocations();
    } else {
      var before, e, blocks := l[..|l| - 1], l[|l| - 1], Invocations(l[..|l| - 1]);
      assert before + [e] == l;
      DeltasAreInvoked(p, before);
      StaysInStep(p, before);
      PhaseStep(Accept(p, before).value, e);
      InvocationsSnoc(before, e);
      assert DeltaText(before) + "" == DeltaText(before);
      if e.PermissionRequested? {
        assert (blocks + [[e]])[..|blocks|] == blocks && [e][..0] == [];
        assert DeltaText([e]) == "" + "";
      } else if Busy(Accept(p, before).value) {
        BlockTextGrows(blocks, e);
      }
    }
  }

  lemma BlockTextGrows(blocks: seq<seq<Payload>>, e: Payload)
    requires blocks != []
    ensures var n := |blocks| - 1;
      BlockText(blocks[..n] + [blocks[n] + [e]]) == BlockText(blocks) + (if e.ToolDelta? then e.text else "")
  {
    hide BlockText, DeltaText;
    var n := |blocks| - 1;
    assert blocks[..n] + [blocks[n]] == blocks;
    BlockTextSnoc(blocks[..n], blocks[n]);
    BlockTextSnoc(blocks[..n], blocks[n] + [e]);
    DeltaTextSnoc(blocks[n], e);
    Regroup(BlockText(blocks[..n]), DeltaText(blocks[n]), if e.ToolDelta? then e.text else "");
  }

  lemma Regroup(a: string, b: string, c: string)
    ensures a + (b + c) == a + b + c
  {
  }

  lemma BlockTextSnoc(blocks: seq<seq<Payload>>, block: seq<Payload>)
    ensures BlockText(blocks + [block]) == BlockText(blocks) + DeltaText(block)
  {
    assert (blocks + [block])[..|blocks|] == blocks;
  }

  lemma DeltaTextSnoc(block: seq<Payload>, e: Payload)
    ensures DeltaText(block + [e]) == DeltaText(block) + (if e.ToolDelta? then e.text else "")
  {
    assert (block + [e])[..|block|] == block;
  }

  // ---- where a card does not ----

  lemma {:induction false} OneCardChanged(turns: seq<Turn>, i: nat, card: Card)
    requires i < |turns| && turns[i].toolCall.Some?
    ensures Cards(turns[i := turns[i].(toolCall := Some(card))]) == Cards(turns) <==> card == turns[i].toolCall.value
  {
    var n, after := |turns| - 1, turns[i := turns[i].(toolCall := Some(card))];
    if i < n {
      OneCardChanged(turns[..n], i, card);
      assert after[..n] == turns[..n][i := turns[i].(toolCall := Some(card))];
      SameEnd(Cards(after[..n]), Cards(turns[..n]), if turns[n].toolCall.Some? then [turns[n].toolCall.value] else []);
    } else {
      assert after[..n] == turns[..n];
      assert Cards(after)[|Cards(turns[..n])|] == card && Cards(turns)[|Cards(turns[..n])|] == turns[i].toolCall.value;
    }
  }

  lemma SameEnd<T>(a: seq<T>, b: seq<T>, c: seq<T>)
    ensures a + c == b + c <==> a == b
  {
    if a + c == b + c {
      assert |a| == |b|;
      assert a == (a + c)[..|a|] == (b + c)[..|b|] == b;
    }
  }

  /** Exactly when the failure of an unknown tool leaves the cards as they were. */
  lemma StrayFailure(s: State, e: Payload)
    requires e.ToolFailed?
    ensures Cards(Updated(s, e).turns) == Cards(s.turns)
      <==> var i := FindTool(s.turns, e.toolCallId);
           || e.toolCallId == "" || i < 0
           || (s.turns[i].toolCall.value.status == "failed"
               && (e.message == "" || s.turns[i].toolCall.value.errorMessage == Some(e.message)))
  {
    hide Cards, FindTool;
    var i := FindTool(s.turns, e.toolCallId);
    if e.toolCallId != "" && i >= 0 {
      var card := s.turns[i].toolCall.value;
      assert card.output + "" == card.output;
      OneCardChanged(s.turns, i, Touched(card, e));
    }
  }

  /**
   After the failure of an unknown tool the cards are still right exactly when no earlier invocation has
   its call id, or the last that has ended with that same failure.
   */
  lemma {:induction false} UnknownToolIsHarmlessIff(p: Phase, l: seq<Payload>, e: Payload)
    requires Resting(p) && Accept(p, l) == Some(InTurn) && e.ToolFailed? && e.failureCode == "not_found"
    requires Right(l) && forall k | 0 <= k < |l| :: Named(l[k])
    ensures Accept(p, l + [e]) == Some(InTurn)
    ensures var (blocks, k) := (Invocations(l), LastOf(Invocations(l), e.toolCallId));
      Right(l + [e]) <==> k < 0 || EndedSo(blocks[k], e)
  {
    AcceptSnoc(p, l, e);
    RightStep(p, l, e);
    hide Accept, Right, Invocations, LastOf, EndedSo;
    StaysInStep(p, l);
    assert (l + [e])[..|l|] == l && (l + [e])[|l|] == e;
  }

  function Asking(): Payload { PermissionRequested("perm_1", Some("tc_1"), "shell", "execute", Ask, "", None) }

  function FirstTurn(): seq<Payload> {
    [TurnStarted(""), UserMessage(""), Asking(),
     PermissionResolved("perm_1", Some("tc_1"), "shell", Allowed, User, None),
       ToolStarted("tc_1", "perm_1", "shell", None),
     ToolCompleted("tc_1", "shell", 0, false), TurnCompleted(Final, None, None), TurnStarted(""), UserMessage("")]
  }

  lemma FirstTurnAccepted(n: nat)
    requires n <= 9
    ensures Accept(BetweenTurns, FirstTurn()[..n])
         == Some([BetweenTurns, Opening, InTurn, Asked("tc_1", "perm_1", "shell"), Permitted("tc_1", "perm_1", "shell"),
                  Running("tc_1", "shell", 0), InTurn, BetweenTurns, Opening, InTurn][n])
  {
    hide Accept;
    if n == 0 {
      Nothing();
    } else {
      FirstTurnAccepted(n - 1);
      AcceptSnoc(BetweenTurns, FirstTurn()[..n - 1], FirstTurn()[n - 1]);
      assert FirstTurn()[..n] == FirstTurn()[..n - 1] + [FirstTurn()[n - 1]];
    }
  }

  lemma {:induction false} TextAddsNoInvocation(l: seq<Payload>, more: seq<Payload>)
    requires forall k | 0 <= k < |more| :: !more[k].IsTool()
    ensures Invocations(l + more) == Invocations(l)
    decreases |more|
  {
    hide Invocations;
    if more == [] {
      assert l + more == l;
    } else {
      var n := |more| - 1;
      assert l + more == (l + more[..n]) + [more[n]];
      TextAddsNoInvocation(l, more[..n]);
      InvocationsSnoc(l + more[..n], more[n]);
    }
  }

  lemma LastBlockGrows(blocks: seq<seq<Payload>>, block: seq<Payload>, e: Payload)
    ensures var all := blocks + [block];
      all[|all| - 1] == block && all[..|all| - 1] + [all[|all| - 1] + [e]] == blocks + [block + [e]]
  {
    assert (blocks + [block])[..|blocks|] == blocks;
  }

  lemma {:induction false} BlockIsInvocation(l: seq<Payload>, block: seq<Payload>)
    requires block != [] && block[0].PermissionRequested?
    requires forall k | 0 < k < |block| :: block[k].IsTool() && !block[k].PermissionRequested?
    requires forall k | 0 <= k < |block| - 1 :: !block[k].ToolCompleted? && !block[k].ToolFailed?
    ensures Invocations(l + block) == Invocations(l) + [block]
    decreases |block|
  {
    hide Invocations;
    var n := |block| - 1;
    InvocationsSnoc(l + block[..n], block[n]);
    assert l + block == (l + block[..n]) + [block[n]];
    if n == 0 {
      assert l + block[..n] == l && block == [block[n]];
    } else {
      BlockIsInvocation(l, block[..n]);
      LastBlockGrows(Invocations(l), block[..n], block[n]);
      assert block == block[..n] + [block[n]] && block[..n][n - 1] == block[n - 1];
    }
  }

  lemma FirstTurnInvoked()
    ensures Invocations(FirstTurn()) == [FirstTurn()[2..6]]
  {
    hide Invocations;
    var l := FirstTurn();
    NoInvocations();
    TextAddsNoInvocation([], l[..2]);
    BlockIsInvocation(l[..2], l[2..6]);
    TextAddsNoInvocation(l[..2] + l[2..6], l[6..]);
    assert [] + l[..2] == l[..2] && l == l[..2] + l[2..6] + l[6..];
  }

  /** A completed call of one turn is shown as failed once the next turn asks for a tool that does not exist. */
  lemma {:induction false} UnknownToolMarksOldCard()
    ensures var failed := ToolFailed("tc_1", "nonesuch", "not_found", "unknown tool: nonesuch");
      var (l, after) := (FirstTurn(), FirstTurn() + [failed]);
      Accept(BetweenTurns, after) == Some(InTurn) && Right(l) && !Right(after)
  {
    var l, failed := FirstTurn(), ToolFailed("tc_1", "nonesuch", "not_found", "unknown tool: nonesuch");
    OneCallSoFar();
    hide Accept, Right, Safe, Invocations;
    CardsShowTheirInvocations(BetweenTurns, l);
    UnknownToolIsHarmlessIff(BetweenTurns, l, failed);
  }

  lemma OneCallSoFar()
    ensures Accept(BetweenTurns, FirstTurn()) == Some(InTurn)
    ensures forall k | 0 <= k < |FirstTurn()| :: Named(FirstTurn()[k]) && Safe(FirstTurn(), k)
    ensures Invocations(FirstTurn()) == [FirstTurn()[2..6]] && LastOf([FirstTurn()[2..6]], "tc_1") == 0
  {
    hide Accept, Invocations;
    var l := FirstTurn();
    FirstTurnAccepted(9);
    FirstTurnInvoked();
    assert l[..9] == l;
    forall k | 0 <= k < |l| ensures Named(l[k]) && Safe(l, k) {
      assert !l[k].ToolFailed?;
    }
  }
}
