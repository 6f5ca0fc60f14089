/** How a message history becomes an Anthropic request: tool results folded into user messages. */
module ProviderHistory {
  import opened Wrappers
  import opened Messages
  import TurnEngine

  datatype Block = Text(text: string) | ToolUse(id: string, name: string)

  datatype ResultBlock = ToolResult(toolUseId: string, content: string)

  datatype Param =
    | UserText(content: string)
    | UserResults(results: seq<ResultBlock>)
    | AssistantText(content: string)
    | AssistantBlocks(blocks: seq<Block>)
  {
    predicate FromUser() { UserText? || UserResults? }
  }

  // ---- what the translation computes ----

  /** How many tool messages a list starts with. */
  function ToolRun(messages: seq<Message>): (n: nat)
    ensures n <= |messages|
    ensures forall k | 0 <= k < n :: messages[k].Tool?
    ensures n < |messages| ==> !messages[n].Tool?
  {
    if messages == [] || !messages[0].Tool? then 0 else 1 + ToolRun(messages[1..])
  }

  predicate AllTool(messages: seq<Message>) {
    forall k | 0 <= k < |messages| :: messages[k].Tool?
  }

  predicate AllProper(exchanges: seq<Exchange>) {
    forall k | 0 <= k < |exchanges| :: Proper(exchanges[k])
  }

  function Uses(tools: seq<Message>): (blocks: seq<Block>)
    requires AllTool(tools)
    ensures |blocks| == |tools|
  {
    seq(|tools|, i requires 0 <= i < |tools| => ToolUse(tools[i].toolCallId, tools[i].toolName))
  }

  function Results(tools: seq<Message>): (blocks: seq<ResultBlock>)
    requires AllTool(tools)
    ensures |blocks| == |tools|
  {
    seq(|tools|, i requires 0 <= i < |tools| => ToolResult(tools[i].toolCallId, tools[i].content))
  }

  /** An assistant's message followed by these tool messages. */
  function AssistantParam(content: string, tools: seq<Message>): Param
    requires AllTool(tools)
  {
    if tools == [] then AssistantText(content)
    else AssistantBlocks((if content == "" then [] else [Text(content)]) + Uses(tools))
  }

  function Translated(messages: seq<Message>): seq<Param>
    decreases |messages|
  {
    if messages == [] then []
    else
      var rest := messages[1..];
      match messages[0]
      case System(_) => Translated(rest)
      case User(content) => [UserText(content)] + Translated(rest)
      case Assistant(content) => [AssistantParam(content, rest[..ToolRun(rest)])] + Translated(rest)
      case Tool(_, _, _) =>
        var n := ToolRun(messages);
        [UserResults(Results(messages[..n]))] + Translated(messages[n..])
  }

  function SystemParts(messages: seq<Message>): seq<string> {
    if messages == [] then []
    else (if messages[0].System? then [messages[0].content] else []) + SystemParts(messages[1..])
  }

  function Join(parts: seq<string>): string {
    if parts == [] then "" else if |parts| == 1 then parts[0] else parts[0] + "\n\n" + Join(parts[1..])
  }

  function SystemText(messages: seq<Message>): Option<string> {
    if SystemParts(messages) == [] then None else Some(Join(SystemParts(messages)))
  }

  // ---- the code ----

  method CollectFollowingToolUseBlocks(messages: seq<Message>, assistantIndex: nat) returns (blocks: seq<Block>)
    requires assistantIndex < |messages|
    ensures var rest := messages[assistantIndex + 1..]; blocks == Uses(rest[..ToolRun(rest)])
  {
    blocks := [];
    var j := assistantIndex + 1;
    ghost var rest := messages[j..];
    while j < |messages| && messages[j].Tool?
      invariant assistantIndex < j <= |messages|
      invariant AllTool(messages[assistantIndex + 1..j])
      invariant blocks == Uses(messages[assistantIndex + 1..j])
    {
      assert messages[assistantIndex + 1..j + 1] == messages[assistantIndex + 1..j] + [messages[j]];
      blocks := blocks + [ToolUse(messages[j].toolCallId, messages[j].toolName)];
      j := j + 1;
    }
    assert rest[..j - assistantIndex - 1] == messages[assistantIndex + 1..j];
    forall k | 0 <= k < j - assistantIndex - 1 ensures rest[k].Tool? {
      assert rest[k] == messages[assistantIndex + 1..j][k];
    }
    RunEnds(rest, j - assistantIndex - 1);
    assert rest[..ToolRun(rest)] == messages[assistantIndex + 1..j];
  }

  lemma {:induction false} RunEnds(messages: seq<Message>, n: nat)
    requires n <= |messages| && forall k | 0 <= k < n :: messages[k].Tool?
    requires n < |messages| ==> !messages[n].Tool?
    ensures ToolRun(messages) == n
  {
    if n > 0 {
      RunEnds(messages[1..], n - 1);
    }
  }

  lemma {:induction false} NoSystem(messages: seq<Message>, n: nat)
    requires n <= |messages| && forall k | 0 <= k < n :: messages[k].Tool?
    ensures SystemParts(messages[n..]) == SystemParts(messages)
  {
    if n > 0 {
      assert messages[0].Tool? && messages[n..] == messages[1..][n - 1..];
      NoSystem(messages[1..], n - 1);
    }
  }

  /** What message `i` adds to the translation of what follows it. */
  lemma Head(messages: seq<Message>, i: nat)
    requires i < |messages|
    ensures var (all, rest) := (messages[i..], messages[i + 1..]);
      match messages[i]
      case System(content) => Translated(all) == Translated(rest) && SystemParts(all) == [content] + SystemParts(rest)
      case User(content) => Translated(all) == [UserText(content)] + Translated(rest)
          && SystemParts(all) == SystemParts(rest)
      case Assistant(content) =>
        && Translated(all) == [AssistantParam(content, rest[..ToolRun(rest)])] + Translated(rest)
        && SystemParts(all) == SystemParts(rest)
      case Tool(_, _, _) =>
        var j := i + ToolRun(all);
        && (forall k | i <= k < j :: messages[k].Tool?)
        && Translated(all) == [UserResults(Results(messages[i..j]))] + Translated(messages[j..])
        && SystemParts(all) == SystemParts(messages[j..])
  {
    hide AssistantParam, ToolRun, Results;
    assert messages[i..][1..] == messages[i + 1..];
    if messages[i].Tool? {
      HeadOfRun(messages, i);
    }
  }

  lemma HeadOfRun(messages: seq<Message>, i: nat)
    requires i < |messages| && messages[i].Tool?
    ensures var (all, j) := (messages[i..], i + ToolRun(messages[i..]));
      && (forall k | i <= k < j :: messages[k].Tool?)
      && Translated(all) == [UserResults(Results(messages[i..j]))] + Translated(messages[j..])
      && SystemParts(all) == SystemParts(messages[j..])
  {
    hide SystemParts, ToolRun, Results;
    var all := messages[i..];
    var n := ToolRun(all);
    forall k | i <= k < i + n ensures messages[k].Tool? {
      assert messages[k] == all[k - i];
    }
    NoSystem(all, n);
    assert all[..n] == messages[i..i + n] && all[n..] == messages[i + n..];
  }

  method ToAnthropicMessages(messages: seq<Message>) returns (system: Option<string>, out: seq<Param>)
    ensures system == SystemText(messages)
    ensures out == Translated(messages)
  {
    hide Translated, SystemParts, AssistantParam;
    var systemParts: seq<string> := [];
    out := [];
    var i := 0;
    assert messages[0..] == messages;
    while i < |messages|
      invariant i <= |messages|
      invariant systemParts + SystemParts(messages[i..]) == SystemParts(messages)
      invariant out + Translated(messages[i..]) == Translated(messages)
    {
      Head(messages, i);
      match messages[i] {
      case System(content) =>
        systemParts := systemParts + [content];
        i := i + 1;
      case User(content) =>
        out := out + [UserText(content)];
        i := i + 1;
      case Assistant(content) =>
        var toolUseBlocks := CollectFollowingToolUseBlocks(messages, i);
        var param := AssistantText(content);
        if |toolUseBlocks| > 0 {
          param := AssistantBlocks((if content == "" then [] else [Text(content)]) + toolUseBlocks);
        }
        AssistantSame(content, messages[i + 1..][..ToolRun(messages[i + 1..])]);
        out := out + [param];
        i := i + 1;
      case Tool(_, _, _) =>
        var toolResults, j := CollectResults(messages, i);
        out := out + [UserResults(toolResults)];
        i := j;
      }
    }
    NothingLeft(messages);
    assert out + [] == out && systemParts + [] == systemParts;
    system := if |systemParts| > 0 then Some(Join(systemParts)) else None;
  }

  lemma NothingLeft(messages: seq<Message>)
    ensures Translated(messages[|messages|..]) == [] && SystemParts(messages[|messages|..]) == []
  {
  }

  lemma AssistantSame(content: string, tools: seq<Message>)
    requires AllTool(tools)
    ensures AssistantParam(content, tools)
         == if Uses(tools) == [] then AssistantText(content)
            else AssistantBlocks((if content == "" then [] else [Text(content)]) + Uses(tools))
  {
  }

  /** The run of tool results that starts at `i`, and where it ends. */
  method CollectResults(messages: seq<Message>, i: nat) returns (toolResults: seq<ResultBlock>, j: nat)
    requires i < |messages|
    ensures j == i + ToolRun(messages[i..]) <= |messages|
    ensures AllTool(messages[i..j]) && toolResults == Results(messages[i..j])
  {
    toolResults := [];
    j := i;
    while j < |messages| && messages[j].Tool?
      invariant i <= j <= |messages|
      invariant AllTool(messages[i..j])
      invariant toolResults == Results(messages[i..j])
    {
      assert messages[i..j + 1] == messages[i..j] + [messages[j]];
      toolResults := toolResults + [ToolResult(messages[j].toolCallId, messages[j].content)];
      j := j + 1;
    }
    RunEnds(messages[i..], j - i);
  }

  // ---- every request pairs its tool uses with their results ----

  function UseIds(blocks: seq<Block>): seq<string> {
    if blocks == [] then []
    else (if blocks[0].ToolUse? then [blocks[0].id] else []) + UseIds(blocks[1..])
  }

  function ResultIds(results: seq<ResultBlock>): seq<string> {
    seq(|results|, i requires 0 <= i < |results| => results[i].toolUseId)
  }

  /** The tool uses of message `k` are answered, in order, by the next message. */
  predicate Paired(out: seq<Param>, k: nat)
    requires k < |out|
  {
    out[k].AssistantBlocks? ==>
      k + 1 < |out| && out[k + 1].UserResults? && UseIds(out[k].blocks) == ResultIds(out[k + 1].results) != []
  }

  lemma {:induction false} UsesIds(tools: seq<Message>)
    requires AllTool(tools)
    ensures UseIds(Uses(tools)) == ResultIds(Results(tools))
  {
    if tools != [] {
      UsesIds(tools[1..]);
      assert Uses(tools)[1..] == Uses(tools[1..]);
      assert ResultIds(Results(tools)) == [tools[0].toolCallId] + ResultIds(Results(tools[1..]));
    }
  }

  lemma AssistantIds(content: string, tools: seq<Message>)
    requires tools != [] && AllTool(tools)
    ensures var p := AssistantParam(content, tools);
      p.AssistantBlocks? && UseIds(p.blocks) == ResultIds(Results(tools)) != []
  {
    UsesIds(tools);
    if content != "" {
      assert ([Text(content)] + Uses(tools))[1..] == Uses(tools);
    } else {
      assert [] + Uses(tools) == Uses(tools);
    }
    assert ResultIds(Results(tools))[0] == tools[0].toolCallId;
  }

  /** Whatever the history, no tool use is sent without its result right behind it. */
  lemma {:induction false} EveryUseIsAnswered(messages: seq<Message>)
    ensures forall k | 0 <= k < |Translated(messages)| :: Paired(Translated(messages), k)
    decreases |messages|
  {
    if messages != [] {
      var rest := if messages[0].Tool? then messages[ToolRun(messages)..] else messages[1..];
      EveryUseIsAnswered(rest);
      var out, tail := Translated(messages), Translated(rest);
      if !messages[0].System? {
        assert out == [out[0]] + tail;
        forall k | 0 <= k < |out| ensures Paired(out, k) {
          if k > 0 {
            assert out[k] == tail[k - 1] && Paired(tail, k - 1);
          } else if messages[0].Assistant? && ToolRun(rest) > 0 {
            AssistantIds(messages[0].content, rest[..ToolRun(rest)]);
            assert out[1] == tail[0];
          }
        }
      }
    }
  }

  // ---- the engine's own histories ----

  /** The blocks of an assistant's message: its text, if it has one, and a use for each of its results. */
  predicate SaysAndUses(p: Param, x: Exchange)
    requires Proper(x)
  {
    var n := if x.text == "" then 0 else 1;
    && p.AssistantBlocks? && |p.blocks| == n + |x.results|
    && (n == 1 ==> p.blocks[0] == Text(x.text))
    && forall k | 0 <= k < |x.results| ::
         p.blocks[n + k] == ToolUse(x.results[k].toolCallId, x.results[k].toolName)
  }

  /** One result block for each result, with its content. */
  predicate Carries(p: Param, x: Exchange)
    requires Proper(x)
  {
    && p.UserResults? && |p.results| == |x.results|
    && forall k | 0 <= k < |x.results| :: p.results[k] == ToolResult(x.results[k].toolCallId, x.results[k].content)
  }

  lemma ParamsSay(x: Exchange)
    requires Proper(x)
    ensures SaysAndUses(AssistantParam(x.text, x.results), x) && Carries(UserResults(Results(x.results)), x)
  {
  }

  lemma ParamsAre(p: Param, q: Param, x: Exchange)
    requires Proper(x) && SaysAndUses(p, x) && Carries(q, x)
    ensures p == AssistantParam(x.text, x.results) && q == UserResults(Results(x.results))
  {
    assert p.blocks == (if x.text == "" then [] else [Text(x.text)]) + Uses(x.results);
  }

  /** Message `2j + 1` is the assistant's part of exchange `j` and message `2j + 2` its results. */
  predicate Alternates(user: string, exchanges: seq<Exchange>, out: seq<Param>)
    requires AllProper(exchanges)
  {
    && |out| == 2 * |exchanges| + 1
    && out[0] == UserText(user)
    && (forall j | 0 <= j < |exchanges| ::
          SaysAndUses(out[2 * j + 1], exchanges[j]) && Carries(out[2 * j + 2], exchanges[j]))
  }

  lemma {:induction false} TranslatedTools(tools: seq<Message>, rest: seq<Message>)
    requires tools != [] && AllTool(tools)
    requires rest == [] || !rest[0].Tool?
    ensures Translated(tools + rest) == [UserResults(Results(tools))] + Translated(rest)
    ensures ToolRun(tools + rest) == |tools|
  {
    RunEnds(tools + rest, |tools|);
    assert (tools + rest)[..|tools|] == tools && (tools + rest)[|tools|..] == rest;
  }

  /** What a list of exchanges becomes when it is read from the front. */
  function Turns(exchanges: seq<Exchange>): seq<Message> {
    if exchanges == [] then [] else ([Assistant(exchanges[0].text)] + exchanges[0].results) + Turns(exchanges[1..])
  }

  lemma {:induction false} TurnsSnoc(exchanges: seq<Exchange>, x: Exchange)
    ensures Turns(exchanges + [x]) == Turns(exchanges) + ([Assistant(x.text)] + x.results)
  {
    if exchanges == [] {
      assert [] + [x] == [x] && [x][1..] == [];
    } else {
      var first := [Assistant(exchanges[0].text)] + exchanges[0].results;
      assert (exchanges + [x])[1..] == exchanges[1..] + [x];
      TurnsSnoc(exchanges[1..], x);
      assert first + (Turns(exchanges[1..]) + ([Assistant(x.text)] + x.results))
          == first + Turns(exchanges[1..]) + ([Assistant(x.text)] + x.results);
    }
  }

  lemma {:induction false} HistoryTurns(user: string, exchanges: seq<Exchange>)
    ensures History(user, exchanges) == [Message.User(user)] + Turns(exchanges)
  {
    if exchanges != [] {
      var before, x := exchanges[..|exchanges| - 1], exchanges[|exchanges| - 1];
      HistoryTurns(user, before);
      TurnsSnoc(before, x);
      assert before + [x] == exchanges;
    }
  }

  lemma TranslatedExchange(x: Exchange, more: seq<Message>)
    requires Proper(x) && (more == [] || !more[0].Tool?)
    ensures Translated([Assistant(x.text)] + x.results + more)
         == [AssistantParam(x.text, x.results), UserResults(Results(x.results))] + Translated(more)
  {
    hide Translated, AssistantParam, Results;
    TranslatedTools(x.results, more);
    assert (x.results + more)[..|x.results|] == x.results;
    AfterAssistant(x.text, x.results + more);
    assert [Assistant(x.text)] + x.results + more == [Assistant(x.text)] + (x.results + more);
  }

  lemma AfterAssistant(content: string, rest: seq<Message>)
    ensures Translated([Assistant(content)] + rest)
         == [AssistantParam(content, rest[..ToolRun(rest)])] + Translated(rest)
  {
    hide AssistantParam;
    assert ([Assistant(content)] + rest)[1..] == rest;
  }

  lemma AfterUser(content: string, rest: seq<Message>)
    ensures Translated([Message.User(content)] + rest) == [UserText(content)] + Translated(rest)
    ensures SystemParts([Message.User(content)] + rest) == SystemParts(rest)
  {
    assert ([Message.User(content)] + rest)[1..] == rest;
  }

  lemma NoTurnsYet()
    ensures Turns([]) == [] && Translated([]) == []
  {
  }

  lemma FirstOfTurns(exchanges: seq<Exchange>)
    requires exchanges != []
    ensures Turns(exchanges) == [Assistant(exchanges[0].text)] + exchanges[0].results + Turns(exchanges[1..])
  {
  }

  lemma {:induction false} TranslatedTurns(exchanges: seq<Exchange>)
    requires AllProper(exchanges)
    ensures var out := Translated(Turns(exchanges));
      && |out| == 2 * |exchanges|
      && (forall j | 0 <= j < |exchanges| ::
            && out[2 * j] == AssistantParam(exchanges[j].text, exchanges[j].results)
            && out[2 * j + 1] == UserResults(Results(exchanges[j].results)))
    ensures Turns(exchanges) == [] || Turns(exchanges)[0].Assistant?
  {
    hide Translated, AssistantParam, Turns, Results;
    NoTurnsYet();
    if exchanges != [] {
      var x, more := exchanges[0], Turns(exchanges[1..]);
      var messages := Turns(exchanges);
      FirstOfTurns(exchanges);
      TranslatedTurns(exchanges[1..]);
      TranslatedExchange(x, more);
      var out, tail := Translated(messages), Translated(more);
      assert out == [AssistantParam(x.text, x.results), UserResults(Results(x.results))] + tail;
      forall j | 0 <= j < |exchanges|
        ensures out[2 * j] == AssistantParam(exchanges[j].text, exchanges[j].results)
        ensures out[2 * j + 1] == UserResults(Results(exchanges[j].results))
      {
        if j > 0 {
          assert exchanges[j] == exchanges[1..][j - 1];
          assert out[2 * j] == tail[2 * (j - 1)] && out[2 * j + 1] == tail[2 * (j - 1) + 1];
        }
      }
    }
  }

  /**
   What the engine sends for a round: the roles alternate from user to user, each round's text and tool
   uses in one assistant message and all of its results in the next.
   */
  lemma RequestsAlternate(user: string, exchanges: seq<Exchange>)
    requires AllProper(exchanges)
    ensures var out := Translated(History(user, exchanges));
      && Alternates(user, exchanges, out)
      && (forall k | 0 <= k < |out| :: out[k].FromUser() <==> k % 2 == 0)
    ensures SystemText(History(user, exchanges)) == None
  {
    hide Translated, Turns, History, SystemParts, Results, SaysAndUses, Carries;
    HistoryTurns(user, exchanges);
    TranslatedTurns(exchanges);
    TurnsHaveNoSystem(exchanges);
    AfterUser(user, Turns(exchanges));
    var out, turns := Translated(History(user, exchanges)), Turns(exchanges);
    forall j | 0 <= j < |exchanges|
      ensures out[2 * j + 1] == AssistantParam(exchanges[j].text, exchanges[j].results)
      ensures out[2 * j + 2] == UserResults(Results(exchanges[j].results))
      ensures SaysAndUses(out[2 * j + 1], exchanges[j]) && Carries(out[2 * j + 2], exchanges[j])
    {
      assert out[2 * j + 1] == Translated(turns)[2 * j] && out[2 * j + 2] == Translated(turns)[2 * j + 1];
      ParamsSay(exchanges[j]);
    }
    forall k | 0 <= k < |out| ensures out[k].FromUser() <==> k % 2 == 0 {
      if k > 0 {
        var j := (k - 1) / 2;
        assert Proper(exchanges[j]) && (k == 2 * j + 1 || k == 2 * j + 2);
        assert !AssistantParam(exchanges[j].text, exchanges[j].results).FromUser();
      }
    }
  }

  lemma {:induction false} TurnsHaveNoSystem(exchanges: seq<Exchange>)
    requires AllProper(exchanges)
    ensures SystemParts(Turns(exchanges)) == []
  {
    if exchanges != [] {
      var x, more := exchanges[0], Turns(exchanges[1..]);
      TurnsHaveNoSystem(exchanges[1..]);
      FirstOfTurns(exchanges);
      hide Turns;
      assert Turns(exchanges)[1..] == x.results + more;
      NoSystem(x.results + more, |x.results|);
      assert (x.results + more)[|x.results|..] == more;
    }
  }

  // ---- nothing is lost ----

  function AllResults(out: seq<Param>): seq<ResultBlock> {
    if out == [] then [] else (if out[0].UserResults? then out[0].results else []) + AllResults(out[1..])
  }

  function ToolMessages(messages: seq<Message>): seq<Message> {
    if messages == [] then []
    else (if messages[0].Tool? then [messages[0]] else []) + ToolMessages(messages[1..])
  }

  lemma {:induction false} OnlyTools(messages: seq<Message>)
    ensures AllTool(ToolMessages(messages))
  {
    if messages != [] {
      OnlyTools(messages[1..]);
    }
  }

  lemma {:induction false} ToolsAhead(messages: seq<Message>, n: nat)
    requires n <= |messages| && forall k | 0 <= k < n :: messages[k].Tool?
    ensures ToolMessages(messages) == messages[..n] + ToolMessages(messages[n..])
  {
    if n > 0 {
      ToolsAhead(messages[1..], n - 1);
      assert messages[0].Tool? && messages[1..][n - 1..] == messages[n..];
      assert [messages[0]] + messages[1..][..n - 1] == messages[..n];
    }
  }

  lemma {:induction false} ResultsOfTools(messages: seq<Message>)
    ensures AllTool(ToolMessages(messages))
    ensures AllResults(Translated(messages)) == Results(ToolMessages(messages))
    decreases |messages|
  {
    OnlyTools(messages);
    if messages != [] {
      var n := if messages[0].Tool? then ToolRun(messages) else 1;
      var rest := messages[n..];
      ResultsOfTools(rest);
      var out, tail := Translated(messages), Translated(rest);
      if messages[0].Tool? {
        ToolsAhead(messages, n);
        assert out[1..] == tail;
        var tools := messages[..n];
        assert Results(tools + ToolMessages(rest)) == Results(tools) + Results(ToolMessages(rest));
      } else if !messages[0].System? {
        assert out[1..] == tail;
      }
    }
  }

  /** Every tool message of any history is sent exactly once, in order, with its id and its content. */
  lemma ResultsAreConserved(messages: seq<Message>)
    ensures var (sent, tools) := (AllResults(Translated(messages)), ToolMessages(messages));
      && |sent| == |tools|
      && forall k | 0 <= k < |tools| ::
           tools[k].Tool? && sent[k] == ToolResult(tools[k].toolCallId, tools[k].content)
  {
    hide Translated, ToolMessages, AllResults;
    ResultsOfTools(messages);
  }

  /** Who said what in a history, apart from its tools. */
  function Spoken(messages: seq<Message>): seq<(bool, string)> {
    if messages == [] then []
    else
      (match messages[0]
       case User(content) => [(true, content)]
       case Assistant(content) => [(false, content)]
       case _ => [])
      + Spoken(messages[1..])
  }

  /** The same of a request; blocks without a text say nothing. */
  function SpokenIn(out: seq<Param>): seq<(bool, string)> {
    if out == [] then []
    else
      (match out[0]
       case UserText(content) => [(true, content)]
       case UserResults(_) => []
       case AssistantText(content) => [(false, content)]
       case AssistantBlocks(blocks) => [(false, if blocks != [] && blocks[0].Text? then blocks[0].text else "")])
      + SpokenIn(out[1..])
  }

  lemma {:induction false} ToolsAreSilent(messages: seq<Message>, n: nat)
    requires n <= |messages| && forall k | 0 <= k < n :: messages[k].Tool?
    ensures Spoken(messages) == Spoken(messages[n..])
  {
    if n > 0 {
      assert messages[0].Tool?;
      ToolsAreSilent(messages[1..], n - 1);
      assert messages[1..][n - 1..] == messages[n..];
    }
  }

  lemma SpeakerFirst(out: seq<Param>, first: Param, rest: seq<Param>)
    requires out == [first] + rest
    ensures SpokenIn(out) == SpokenIn([first]) + SpokenIn(rest)
  {
    assert out[1..] == rest && [first][1..] == [];
    assert SpokenIn([]) == [];
  }

  lemma AssistantSpeaks(content: string, tools: seq<Message>)
    requires AllTool(tools)
    ensures SpokenIn([AssistantParam(content, tools)]) == [(false, content)]
  {
    var first := AssistantParam(content, tools);
    assert [first][1..] == [];
    assert first.AssistantBlocks? && content == "" ==> first.blocks[0] == Uses(tools)[0];
  }

  /** Whatever the history, every user and assistant message is sent once, in order and with its text. */
  lemma {:induction false} TextsAreConserved(messages: seq<Message>)
    ensures SpokenIn(Translated(messages)) == Spoken(messages)
    decreases |messages|
  {
    if messages != [] {
      hide SpokenIn, AssistantParam, Results, ToolRun;
      var rest := messages[1..];
      match messages[0]
      case System(_) => TextsAreConserved(rest);
      case User(content) =>
        TextsAreConserved(rest);
        SpeakerFirst(Translated(messages), UserText(content), Translated(rest));
        UserSpeaks(content);
      case Assistant(content) =>
        TextsAreConserved(rest);
        var first := AssistantParam(content, rest[..ToolRun(rest)]);
        SpeakerFirst(Translated(messages), first, Translated(rest));
        AssistantSpeaks(content, rest[..ToolRun(rest)]);
      case Tool(_, _, _) =>
        var n := ToolRun(messages);
        ToolsFirst(messages);
        TextsAreConserved(messages[n..]);
        ToolsAreSilent(messages, n);
        SpeakerFirst(Translated(messages), UserResults(Results(messages[..n])), Translated(messages[n..]));
        ResultsAreSilent(Results(messages[..n]));
    } else {
      NobodySpeaks();
    }
  }

  lemma NobodySpeaks()
    ensures SpokenIn([]) == []
  {
  }

  lemma UserSpeaks(content: string)
    ensures SpokenIn([UserText(content)]) == [(true, content)]
  {
    assert [UserText(content)][1..] == [];
  }

  lemma ResultsAreSilent(results: seq<ResultBlock>)
    ensures SpokenIn([UserResults(results)]) == []
  {
    assert [UserResults(results)][1..] == [];
  }

  lemma ToolsFirst(messages: seq<Message>)
    requires messages != [] && messages[0].Tool?
    ensures ToolRun(messages) > 0
  {
  }

  /** The system text is the system messages in order, with a blank line between each two. */
  lemma {:induction false} SystemIsJoined(parts: seq<string>, last: string)
    ensures Join([last]) == last
    ensures parts != [] ==> Join(parts + [last]) == Join(parts) + "\n\n" + last
  {
    if |parts| > 1 {
      SystemIsJoined(parts[1..], last);
      assert (parts + [last])[1..] == parts[1..] + [last];
    } else if |parts| == 1 {
      assert (parts + [last])[1..] == [last];
    }
  }

  // ---- what the engine's provider is sent ----

  function CallIds(calls: seq<TurnEngine.ToolCall>): seq<string> {
    seq(|calls|, i requires 0 <= i < |calls| => calls[i].id)
  }

  /**
   Every request of a turn alternates from user to user; in the request of round `k` the assistant's
   message for an earlier round uses exactly the tools that round called, in order, and the next message
   answers exactly those.
   */
  lemma EngineRequestsAlternate(user: string, rounds: seq<TurnEngine.Round>, requests: seq<seq<Message>>,
                                exchanges: seq<Exchange>, k: nat, j: nat)
    requires TurnEngine.RequestsFollow(user, rounds, requests, exchanges)
    requires k < |requests| && j < k
    ensures var (out, ids) := (Translated(requests[k]), CallIds(TurnEngine.CallsOf(rounds[j].chunks)));
      && |out| == 2 * k + 1 && out[0] == UserText(user)
      && (forall i | 0 <= i < |out| :: out[i].FromUser() <==> i % 2 == 0)
      && out[2 * j + 1].AssistantBlocks? && UseIds(out[2 * j + 1].blocks) == ids
      && out[2 * j + 2].UserResults? && ResultIds(out[2 * j + 2].results) == ids
  {
    hide Translated, History, Turns, UseIds, TurnEngine.CallsOf, TurnEngine.TextOf;
    var some := exchanges[..k];
    forall i | 0 <= i < k ensures Proper(some[i]) {
      assert TurnEngine.Follows(exchanges[i], rounds[i]);
    }
    RequestsAlternate(user, some);
    assert TurnEngine.Follows(some[j], rounds[j]);
    var out := Translated(requests[k]);
    ParamsAre(out[2 * j + 1], out[2 * j + 2], some[j]);
    AssistantIds(some[j].text, some[j].results);
    assert ResultIds(Results(some[j].results)) == CallIds(TurnEngine.CallsOf(rounds[j].chunks));
  }
}
