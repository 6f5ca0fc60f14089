/** The single way to a tool: permission, then execution with its output on a budget, then one final event. */
module ToolRouter {
  import opened Wrappers
  import opened Schema
  import opened Grammar
  import opened EventSink
  import opened Permissions
  import Budget
  import Decimal
  import Delimited

  datatype Chunk = Chunk(kind: string, text: string)

  /** How an execution ends; a thrown error is a failure with the code it is classified as. */
  datatype ToolOutcome = Succeeded | Failed(code: string, message: string)

  /** One execution of a tool: what it emits before its promise settles, and how it ends. */
  datatype Execution = Execution(chunks: seq<Chunk>, outcome: ToolOutcome)

  datatype Invocation = Invocation(toolName: string, reason: string, argsPreview: Option<string>)

  datatype DispatchResult = DispatchResult(toolCallId: string, outcome: ToolOutcome, collected: seq<string>)

  function Texts(chunks: seq<Chunk>): seq<string> {
    seq(|chunks|, i requires 0 <= i < |chunks| => chunks[i].text)
  }

  /** One delta for every chunk of which something is kept. */
  function Deltas(callId: string, chunks: seq<Chunk>, kept: seq<string>): seq<Payload>
    requires |chunks| == |kept|
  {
    if chunks == [] then []
    else
      var n := |chunks| - 1;
      Deltas(callId, chunks[..n], kept[..n])
        + (if kept[n] == "" then [] else [ToolDelta(callId, chunks[n].kind, kept[n])])
  }

  lemma {:induction false} DeltasAccepted(callId: string, tool: string, deltas: seq<Payload>)
    requires forall d | d in deltas :: d.ToolDelta? && d.toolCallId == callId
    ensures Accept(Running(callId, tool, 0), deltas) == Some(Running(callId, tool, |deltas|))
  {
    if deltas != [] {
      DeltasAccepted(callId, tool, deltas[..|deltas| - 1]);
    }
  }

  function NonEmpty(kept: seq<string>): seq<string> {
    if kept == [] then []
    else NonEmpty(kept[..|kept| - 1]) + (if kept[|kept| - 1] == "" then [] else [kept[|kept| - 1]])
  }

  lemma {:induction false} NonEmptyConcat(kept: seq<string>)
    ensures Delimited.Concat(NonEmpty(kept)) == Delimited.Concat(kept)
  {
    if kept != [] {
      var n := |kept| - 1;
      NonEmptyConcat(kept[..n]);
      assert kept[..n] + [kept[n]] == kept;
      assert Delimited.Concat([kept[n]]) == kept[n] + Delimited.Concat([]) == kept[n];
      Delimited.ConcatAppend(kept[..n], [kept[n]]);
      Delimited.ConcatAppend(NonEmpty(kept[..n]), if kept[n] == "" then [] else [kept[n]]);
    }
  }

  lemma NoDeltas(callId: string)
    ensures Deltas(callId, [], []) == [] && NonEmpty([]) == []
  {
  }

  lemma DeltasSnoc(callId: string, chunks: seq<Chunk>, i: nat, kept: seq<string>, text: string)
    requires i < |chunks| && |kept| == i
    ensures Deltas(callId, chunks[..i + 1], kept + [text])
         == Deltas(callId, chunks[..i], kept) + (if text == "" then [] else [ToolDelta(callId, chunks[i].kind, text)])
    ensures NonEmpty(kept + [text]) == NonEmpty(kept) + (if text == "" then [] else [text])
  {
    assert chunks[..i + 1][..i] == chunks[..i] && (kept + [text])[..i] == kept;
  }

  /** The kept output of a whole invocation is one truncation of everything it emitted. */
  lemma OutputIsOneTruncation(limit: nat, chunks: seq<Chunk>)
    ensures var (end, kept) := Budget.TakeAll(Budget.State(limit, false), Texts(chunks));
      var whole := Delimited.Concat(Texts(chunks));
      && Delimited.Concat(NonEmpty(kept)) == Budget.Once(limit, whole)
      && (end.truncated <==> Budget.Size(whole) > limit)
  {
    Budget.SplitDoesNotMatter(limit, Texts(chunks));
    NonEmptyConcat(Budget.TakeAll(Budget.State(limit, false), Texts(chunks)).1);
  }

  // ---- what a dispatch is to do ----

  datatype Setup = Setup(tools: map<string, string>, policy: Policy, outputBudgetBytes: nat)

  /** The pieces of output that pass the budget. */
  function Parts(budget: nat, chunks: seq<Chunk>): seq<string> {
    NonEmpty(Budget.TakeAll(Budget.State(budget, false), Texts(chunks)).1)
  }

  /** The deltas they become, one for each. */
  function Output(budget: nat, callId: string, chunks: seq<Chunk>): (deltas: seq<Payload>) {
    Budget.OutputPerChunk(Budget.State(budget, false), Texts(chunks));
    Deltas(callId, chunks, Budget.TakeAll(Budget.State(budget, false), Texts(chunks)).1)
  }

  predicate Truncated(budget: nat, chunks: seq<Chunk>) {
    Budget.TakeAll(Budget.State(budget, false), Texts(chunks)).0.truncated
  }

  /** How many of the first `n` parts reach the sink's log, and how many are handed to it at all. */
  function Handed(sink: Sink, start: nat, n: nat): (k: nat)
    ensures sink.Stored(start, n) <= k <= n
  {
    if sink.Stored(start, n) < n then sink.Stored(start, n) + 1 else n
  }

  const CHAIN_BROKEN := Failed("io_error", "tool.delta sink failed")

  /** The policy's word on an invocation of a registered tool. */
  function DecisionOn(setup: Setup, toolName: string): Decision
    requires toolName in setup.tools
  {
    Evaluate(setup.policy, toolName, setup.tools[toolName])
  }

  predicate Granted(setup: Setup, sink: Sink, start: nat, i: Invocation, approval: Approval)
    requires i.toolName in setup.tools
  {
    MayRun(DecisionOn(setup, i.toolName), sink.AbortedAt(start + 2), approval)
  }

  /** What lets a tool start: the policy, or the approver in an answer that came before any abort. */
  predicate Licensed(setup: Setup, sink: Sink, start: nat, toolName: string, approval: Approval) {
    && toolName in setup.tools
    && var decision := DecisionOn(setup, toolName);
    || decision == Allow
    || (decision == Ask && !sink.AbortedAt(start + 2) && approval.Answers? && approval.outcome == Allowed)
  }

  /** A tool starts only with a license. */
  predicate Lawful(setup: Setup, sink: Sink, start: nat, toolName: string, approval: Approval, events: seq<Payload>) {
    forall e | e in events && e.ToolStarted? ::
      e.toolName == toolName && Licensed(setup, sink, start, toolName, approval)
  }

  lemma GrantedIsLicensed(setup: Setup, sink: Sink, start: nat, i: Invocation, approval: Approval)
    requires i.toolName in setup.tools
    ensures Granted(setup, sink, start, i, approval) <==> Licensed(setup, sink, start, i.toolName, approval)
  {
    hide Evaluate;
  }

  /** When the event after the permission's two is submitted. */
  function ReadyAt(setup: Setup, sink: Sink, start: nat, toolName: string): nat
    requires toolName in setup.tools
  {
    ResolvedAt(sink, DecisionOn(setup, toolName), start) + 1
  }

  /** When the last event of a dispatch is submitted, if the ones before let it come to that. */
  function FinalAt(setup: Setup, sink: Sink, start: nat, i: Invocation, x: Execution, approval: Approval): nat {
    if i.toolName !in setup.tools then start
    else
      var ready := ReadyAt(setup, sink, start, i.toolName);
      if Granted(setup, sink, start, i, approval)
      then sink.ChainEnd(ready + 1, |Parts(setup.outputBudgetBytes, x.chunks)|)
      else ready
  }

  /**
   A dispatch throws exactly when its permission request does, or its start, denial or final event is
   refused. A refused delta is not among the causes.
   */
  predicate DispatchThrows(setup: Setup, sink: Sink, start: nat, i: Invocation, x: Execution, approval: Approval) {
    || (i.toolName in setup.tools &&
          (RequestThrows(sink, DecisionOn(setup, i.toolName), start, approval)
           || sink.fails(ReadyAt(setup, sink, start, i.toolName))))
    || sink.fails(FinalAt(setup, sink, start, i, x, approval))
  }

  /** What follows `tool.started` when the appends for it begin at `start`. */
  predicate Ended(budget: nat, sink: Sink, start: nat, tool: string, x: Execution, r: DispatchResult,
                  events: seq<Payload>)
    requires events != []
  {
    var n, parts, deltas := |events| - 1, Parts(budget, x.chunks), Output(budget, r.toolCallId, x.chunks);
    var k := sink.Stored(start, |parts|);
    && |deltas| == |parts| && events[..n] == deltas[..k]
    && r.collected == parts[..Handed(sink, start, |parts|)]
    && r.outcome == (if k == |parts| then x.outcome else CHAIN_BROKEN)
    && events[n] == match r.outcome
                    case Succeeded => ToolCompleted(r.toolCallId, tool, |parts|, Truncated(budget, x.chunks))
                    case Failed(code, message) => ToolFailed(r.toolCallId, tool, code, message)
  }

  /** No tool is started among the events but this one, if any. */
  predicate StartsOnly(tool: Option<string>, events: seq<Payload>) {
    forall e | e in events && e.ToolStarted? :: tool == Some(e.toolName)
  }

  lemma StartsJoin(tool: Option<string>, a: seq<Payload>, b: seq<Payload>)
    requires StartsOnly(None, a) && StartsOnly(tool, b)
    ensures StartsOnly(tool, a + b)
  {
  }

  lemma StartsLawful(setup: Setup, sink: Sink, start: nat, i: Invocation, approval: Approval, events: seq<Payload>)
    requires i.toolName in setup.tools
    requires StartsOnly(None, events)
          || StartsOnly(if Granted(setup, sink, start, i, approval) then Some(i.toolName) else None, events)
    ensures Lawful(setup, sink, start, i.toolName, approval, events)
  {
    hide Granted, Licensed;
    GrantedIsLicensed(setup, sink, start, i, approval);
  }

  /** The permission's events and what follows them make one block. */
  lemma Whole(setup: Setup, sink: Sink, start: nat, i: Invocation, approval: Approval, allowed: bool,
              asked: seq<Payload>, rest: seq<Payload>, after: Phase)
    requires i.toolName in setup.tools && (Granted(setup, sink, start, i, approval) <==> allowed)
    requires AllTools(asked) && AllTools(rest) && |asked| == 2
    requires StartsOnly(None, asked) && StartsOnly(if allowed then Some(i.toolName) else None, rest)
    requires Accept(InTurn, asked) == Some(after)
    ensures var events := asked + rest;
      && AllTools(events) && Lawful(setup, sink, start, i.toolName, approval, events)
      && Accept(InTurn, events) == Accept(after, rest)
      && events[..2] == asked && events[0] == asked[0] && events[2..] == rest
  {
    hide AllTools, Accept, Granted, Lawful, StartsOnly;
    AcceptJoin(InTurn, asked, rest);
    AllToolsJoin(asked, rest);
    StartsJoin(if allowed then Some(i.toolName) else None, asked, rest);
    StartsLawful(setup, sink, start, i, approval, asked + rest);
  }

  /** The two events of the permission, under a request id. */
  function Gate(setup: Setup, sink: Sink, start: nat, i: Invocation, approval: Approval, callId: string,
                requestId: string): seq<Payload>
    requires i.toolName in setup.tools
  {
    var decision := DecisionOn(setup, i.toolName);
    var s := ResolutionOf(requestId, decision, sink.AbortedAt(start + 2), approval);
    [PermissionRequested(requestId, Some(callId), i.toolName, setup.tools[i.toolName], decision, i.reason,
                         TruncatePreview(i.argsPreview)),
     PermissionResolved(requestId, Some(callId), i.toolName, s.outcome, s.source, s.reason)]
  }

  /** A denial says who denied: the user only if the user was asked. */
  function Denial(setup: Setup, sink: Sink, start: nat, toolName: string): string
    requires toolName in setup.tools
  {
    if DecisionOn(setup, toolName) == Ask && !sink.AbortedAt(start + 2) then "permission denied by user"
    else "permission denied by policy"
  }

  /** The events of a finished invocation, told from its inputs and its result. */
  predicate Described(setup: Setup, sink: Sink, start: nat, i: Invocation, x: Execution, approval: Approval,
                      r: DispatchResult, events: seq<Payload>) {
    && !DispatchThrows(setup, sink, start, i, x, approval)
    && if i.toolName !in setup.tools then
         var message := "unknown tool: " + i.toolName;
         && r == DispatchResult(r.toolCallId, Failed("not_found", message), [])
         && events == [ToolFailed(r.toolCallId, i.toolName, "not_found", message)]
       else
         && |events| >= 3 && events[0].PermissionRequested?
         && events[..2] == Gate(setup, sink, start, i, approval, r.toolCallId, events[0].requestId)
         && if !Granted(setup, sink, start, i, approval) then
              var message := Denial(setup, sink, start, i.toolName);
              && r == DispatchResult(r.toolCallId, Failed("permission_denied", message), [])
              && events[2..] == [ToolFailed(r.toolCallId, i.toolName, "permission_denied", message)]
            else
              && |events| > 3 && events[2] == ToolStarted(r.toolCallId, events[0].requestId, i.toolName, i.argsPreview)
              && Ended(setup.outputBudgetBytes, sink, ReadyAt(setup, sink, start, i.toolName) + 1, i.toolName, x, r,
                       events[3..])
  }

  /**
   A tool that succeeds hands on, whatever chunks it came in, one truncation of all it emitted; its
   completion says whether that cut anything.
   */
  lemma CollectedIsOneTruncation(setup: Setup, sink: Sink, start: nat, i: Invocation, x: Execution, approval: Approval,
                                 r: DispatchResult, events: seq<Payload>)
    requires Described(setup, sink, start, i, x, approval, r, events) && r.outcome.Succeeded?
    ensures var (whole, last) := (Delimited.Concat(Texts(x.chunks)), events[|events| - 1]);
      && Delimited.Concat(r.collected) == Budget.Once(setup.outputBudgetBytes, whole)
      && last.ToolCompleted? && (last.truncated <==> Budget.Size(whole) > setup.outputBudgetBytes)
  {
    hide Texts, Budget.TakeAll, Budget.Once, NonEmpty, Deltas, DispatchThrows, Granted;
    var parts := Parts(setup.outputBudgetBytes, x.chunks);
    assert parts[..|parts|] == parts;
    OutputIsOneTruncation(setup.outputBudgetBytes, x.chunks);
  }

  class ToolRouter {
    const tools: map<string, string>       // name to risk
    const permissions: PermissionEngine
    const sink: Sink
    const outputBudgetBytes: nat
    var nextCallId: nat

    predicate Ready()
      reads sink
    {
      permissions.sink == sink && sink.Valid()
    }

    function Settings(): Setup { Setup(tools, permissions.policy, outputBudgetBytes) }

    constructor (tools: map<string, string>, permissions: PermissionEngine, outputBudgetBytes: nat)
      ensures this.tools == tools && this.permissions == permissions && sink == permissions.sink && nextCallId == 1
      ensures this.outputBudgetBytes == outputBudgetBytes
    {
      this.tools, this.permissions, this.sink := tools, permissions, permissions.sink;
      this.outputBudgetBytes, nextCallId := outputBudgetBytes, 1;
    }

    /**
     Streams an execution's output through the budget into the sink. The first delta the sink refuses
     stops the chain; `collected` is what was handed to the sink, `deltaCount` what passed the budget.
     */
    method Stream(callId: string, chunks: seq<Chunk>)
        returns (deltaCount: nat, truncated: bool, collected: seq<string>, intact: bool, ghost sent: seq<Payload>)
      requires sink.Valid()
      modifies sink
      ensures sink.Valid() && old(sink.stamps) <= sink.stamps && Unclosed(old(sink.orphan), sink.orphan)
      ensures sink.log == old(sink.log) + sent
      ensures forall e | e in sent :: e.ToolDelta? && e.toolCallId == callId
      ensures var (deltas, parts) := (Output(outputBudgetBytes, callId, chunks), Parts(outputBudgetBytes, chunks));
        var k := sink.Stored(old(sink.ticks), |parts|);
        && truncated == Truncated(outputBudgetBytes, chunks)
        && deltaCount == |deltas| == |parts|
        && sent == deltas[..k] && collected == parts[..Handed(sink, old(sink.ticks), |parts|)]
        && (intact <==> k == |parts|)
        && sink.ticks == sink.ChainEnd(old(sink.ticks), |parts|)
    {
      hide Deltas, NonEmpty, Chained;
      var budget := new Budget.BudgetAccumulator(outputBudgetBytes);
      deltaCount, collected, intact, sent := 0, [], true, [];
      ghost var start, all := Budget.State(outputBudgetBytes, false), Texts(chunks);
      ghost var kept: seq<string> := [];
      NoDeltas(callId);
      NoChain(sink, sink.ticks);
      for i := 0 to |chunks|
        invariant sink.Valid() && old(sink.stamps) <= sink.stamps && Unclosed(old(sink.orphan), sink.orphan)
        invariant |kept| == i && Budget.TakeAll(start, all[..i]) == (budget.Now(), kept)
        invariant deltaCount == |Deltas(callId, chunks[..i], kept)| == |NonEmpty(kept)|
        invariant Chained(sink, old(sink.ticks), Deltas(callId, chunks[..i], kept), NonEmpty(kept), sent, collected,
             intact, sink.ticks)
        invariant sink.log == old(sink.log) + sent
        invariant forall e | e in sent :: e.ToolDelta? && e.toolCallId == callId
      {
        hide Budget.Taken;
        assert all[i] == chunks[i].text && all[..i + 1] == all[..i] + [all[i]];
        Budget.TakeAllSnoc(start, all[..i], chunks[i].text);
        var trimmed := budget.Take(chunks[i].text);
        DeltasSnoc(callId, chunks, i, kept, trimmed);
        ghost var deltas, parts, time := Deltas(callId, chunks[..i], kept), NonEmpty(kept), sink.ticks;
        kept := kept + [trimmed];
        if trimmed == "" {
          assert deltas + [] == deltas && parts + [] == parts;
        } else {
          ChainGrows(sink, old(sink.ticks), deltas, parts, sent, collected, intact, time,
                     ToolDelta(callId, chunks[i].kind, trimmed), trimmed);
          if intact {
            collected := collected + [trimmed];
            var delta := ToolDelta(callId, chunks[i].kind, trimmed);
            intact := sink.Emit(delta);
            assert sent + [] == sent;
            sent := sent + (if intact then [delta] else []);
          }
          deltaCount := deltaCount + 1;
        }
      }
      truncated := budget.hasTruncated;
      assert chunks[..|chunks|] == chunks && all[..|chunks|] == all;
      ChainIs(sink, old(sink.ticks), Output(outputBudgetBytes, callId, chunks), Parts(outputBudgetBytes, chunks),
              sent, collected, intact, sink.ticks);
    }

    /** None: the sink or the approval source threw. */
    method Dispatch(invocation: Invocation, execution: Execution, approval: Approval)
        returns (result: Option<DispatchResult>, ghost events: seq<Payload>)
      requires Ready()
      modifies this, permissions, sink
      ensures Ready() && old(sink.ticks) <= sink.ticks && old(sink.stamps) <= sink.stamps
      ensures Unclosed(old(sink.orphan), sink.orphan)
      ensures nextCallId == old(nextCallId) + 1
      ensures sink.log == old(sink.log) + events && AllTools(events)
      ensures result == None <==> DispatchThrows(Settings(), sink, old(sink.ticks), invocation, execution, approval)
      ensures Lawful(Settings(), sink, old(sink.ticks), invocation.toolName, approval, events)
      ensures match result
        case None => Accept(InTurn, events).Some?
        case Some(r) =>
          && Accept(InTurn, events) == Some(InTurn) && events != []
          && r.toolCallId == "tc_" + Decimal.Print(old(nextCallId))
          && (events[0].PermissionRequested? ==>
                events[0].requestId == "perm_" + Decimal.Print(old(permissions.nextRequestId)))
          && Described(Settings(), sink, old(sink.ticks), invocation, execution, approval, r, events)
          && sink.ticks == FinalAt(Settings(), sink, old(sink.ticks), invocation, execution, approval) + 1
    {
      hide DispatchThrows, FinalAt, Described, RequestThrows, AllTools, Requested, Resolved, MayRun, Evaluate, Parts,
           Accept, After, Ended;
      var tool := invocation.toolName;
      var toolCallId := "tc_" + Decimal.Print(nextCallId);
      nextCallId := nextCallId + 1;
      Nothing();
      events := [];
      if tool !in tools {
        var message := "unknown tool: " + tool;
        var e := ToolFailed(toolCallId, tool, "not_found", message);
        UnknownAccepted(e);
        AllToolsSnoc([], e);
        IfUnknown(Settings(), sink, sink.ticks, invocation, execution, approval, toolCallId);
        var ok := sink.Emit(e);
        if !ok {
          return None, [];
        }
        result, events := Some(DispatchResult(toolCallId, Failed("not_found", message), [])), [e];
        return;
      }
      result, events := DispatchKnown(toolCallId, invocation, execution, approval);
    }

    /** The dispatch of a registered tool. */
    method DispatchKnown(toolCallId: string, invocation: Invocation, execution: Execution, approval: Approval)
        returns (result: Option<DispatchResult>, ghost events: seq<Payload>)
      requires Ready() && invocation.toolName in tools
      modifies permissions, sink
      ensures Ready() && old(sink.ticks) <= sink.ticks && old(sink.stamps) <= sink.stamps
      ensures Unclosed(old(sink.orphan), sink.orphan)
      ensures sink.log == old(sink.log) + events && AllTools(events)
      ensures result == None <==> DispatchThrows(Settings(), sink, old(sink.ticks), invocation, execution, approval)
      ensures Lawful(Settings(), sink, old(sink.ticks), invocation.toolName, approval, events)
      ensures match result
        case None => Accept(InTurn, events).Some?
        case Some(r) =>
          && Accept(InTurn, events) == Some(InTurn)
          && r.toolCallId == toolCallId && events != []
          && (events[0].PermissionRequested? ==>
                events[0].requestId == "perm_" + Decimal.Print(old(permissions.nextRequestId)))
          && Described(Settings(), sink, old(sink.ticks), invocation, execution, approval, r, events)
          && sink.ticks == FinalAt(Settings(), sink, old(sink.ticks), invocation, execution, approval) + 1
    {
      hide DispatchThrows, FinalAt, Described, RequestThrows, AllTools, Evaluate, Parts, Accept, After, Ended, Gate,
           Granted, Denial, ReadyAt, Lawful, StartsOnly, Unclosed, DecisionOn, Sink.ChainEnd, Sink.Stored;
      ghost var setup, start, was := Settings(), sink.ticks, sink.orphan;
      IfRequested(setup, sink, start, invocation, execution, approval);
      var resolution;
      resolution, events := AskFor(toolCallId, invocation, approval);
      StartsLawful(setup, sink, start, invocation, approval, events);
      if resolution == None {
        return None, events;
      }
      var s := resolution.value;
      ghost var asked, rest := sink.orphan, [];
      result, rest := Settle(toolCallId, s, invocation.toolName, invocation.argsPreview, execution);
      UnclosedOn(was, asked, sink.orphan);
      Whole(setup, sink, start, invocation, approval, s.outcome == Allowed, events, rest,
            if s.outcome == Allowed then Permitted(toolCallId, s.requestId, invocation.toolName)
            else Refused(toolCallId, invocation.toolName));
      assert old(sink.log) + events + rest == old(sink.log) + (events + rest);
      events := events + rest;
      if result.Some? {
        IfSettled(setup, sink, start, invocation, execution, approval, s.requestId, result.value, events);
      }
    }

    /** Asks whether a registered tool may run. None: the request threw. */
    method AskFor(toolCallId: string, invocation: Invocation, approval: Approval)
        returns (resolution: Option<Resolution>, ghost events: seq<Payload>)
      requires Ready() && invocation.toolName in tools
      modifies permissions, sink
      ensures Ready() && old(sink.ticks) <= sink.ticks && old(sink.stamps) <= sink.stamps
      ensures Unclosed(old(sink.orphan), sink.orphan)
      ensures sink.log == old(sink.log) + events && AllTools(events) && StartsOnly(None, events)
      ensures resolution == None <==>
        RequestThrows(sink, DecisionOn(Settings(), invocation.toolName), old(sink.ticks), approval)
      ensures var (tool, start) := (invocation.toolName, old(sink.ticks));
        match resolution
        case None => Accept(InTurn, events).Some?
        case Some(s) =>
          && Accept(InTurn, events)
             == Some(if s.outcome == Allowed then Permitted(toolCallId, s.requestId, tool)
                     else Refused(toolCallId, tool))
          && s.requestId == "perm_" + Decimal.Print(old(permissions.nextRequestId))
          && |events| == 2 && events[0].PermissionRequested? && events[0].requestId == s.requestId
          && events == Gate(Settings(), sink, start, invocation, approval, toolCallId, s.requestId)
          && (Granted(Settings(), sink, start, invocation, approval) <==> s.outcome == Allowed)
          && Denial(Settings(), sink, start, tool)
             == (if s.source == User then "permission denied by user" else "permission denied by policy")
          && sink.ticks == ReadyAt(Settings(), sink, start, tool)
    {
      hide RequestThrows, AllTools, Requested, Resolved, MayRun, Evaluate, Accept, After, Gate, Granted, Denial,
           ResolutionOf, ReadyAt, StartsOnly;
      var tool := invocation.toolName;
      var request := Request(tool, tools[tool], invocation.reason, Some(toolCallId), invocation.argsPreview);
      ghost var id, before := "perm_" + Decimal.Print(permissions.nextRequestId), sink.log;
      ghost var decision := Evaluate(permissions.policy, tool, tools[tool]);
      resolution := permissions.RequestPermission(request, approval);
      events := sink.log[|before|..];
      AskedAllowed(request, toolCallId, decision, id, resolution, events);
      if resolution.Some? {
        GateIs(Settings(), sink, old(sink.ticks), invocation, approval, toolCallId, id, resolution.value);
      }
    }

    /** What follows a resolution: the failure of a denied tool, or the tool itself. None: an event was refused. */
    method Settle(toolCallId: string, s: Resolution, tool: string, argsPreview: Option<string>, execution: Execution)
        returns (result: Option<DispatchResult>, ghost events: seq<Payload>)
      requires sink.Valid()
      modifies sink
      ensures sink.Valid() && old(sink.ticks) <= sink.ticks && old(sink.stamps) <= sink.stamps
      ensures Unclosed(old(sink.orphan), sink.orphan)
      ensures sink.log == old(sink.log) + events && AllTools(events)
      ensures StartsOnly(if s.outcome == Allowed then Some(tool) else None, events)
      ensures var ready := old(sink.ticks);
        var last := if s.outcome == Allowed
                    then sink.ChainEnd(ready + 1, |Parts(outputBudgetBytes, execution.chunks)|) else ready;
        && (result == None <==> sink.fails(ready) || sink.fails(last))
        && (result.Some? ==> sink.ticks == last + 1)
      ensures var after := if s.outcome == Allowed then Permitted(toolCallId, s.requestId, tool)
                           else Refused(toolCallId, tool);
        match result
        case None => Accept(after, events).Some?
        case Some(r) => Accept(after, events) == Some(InTurn) && r.toolCallId == toolCallId
      ensures result.Some? ==>
        if s.outcome == Allowed then
          && |events| > 1 && events[0] == ToolStarted(toolCallId, s.requestId, tool, argsPreview)
          && Ended(outputBudgetBytes, sink, old(sink.ticks) + 1, tool, execution, result.value, events[1..])
        else
          var message := if s.source == User then "permission denied by user" else "permission denied by policy";
          && result.value == DispatchResult(toolCallId, Failed("permission_denied", message), [])
          && events == [ToolFailed(toolCallId, tool, "permission_denied", message)]
    {
      hide AllTools, Accept, After, Parts, Ended;
      if s.outcome == Denied {
        var message := if s.source == User then "permission denied by user" else "permission denied by policy";
        var e := ToolFailed(toolCallId, tool, "permission_denied", message);
        Nothing();
        DeniedAccepted(e);
        AllToolsSnoc([], e);
        var ok := sink.Emit(e);
        if !ok {
          return None, [];
        }
        return Some(DispatchResult(toolCallId, Failed("permission_denied", message), [])), [e];
      }
      result, events := Execute(toolCallId, s.requestId, tool, argsPreview, execution);
    }

    /** Starts the permitted tool and sees it to its end. None: its start or its final event was refused. */
    method Execute(toolCallId: string, requestId: string, tool: string, argsPreview: Option<string>,
                   execution: Execution)
        returns (result: Option<DispatchResult>, ghost events: seq<Payload>)
      requires sink.Valid()
      modifies sink
      ensures sink.Valid() && old(sink.ticks) <= sink.ticks && old(sink.stamps) <= sink.stamps
      ensures Unclosed(old(sink.orphan), sink.orphan)
      ensures sink.log == old(sink.log) + events && AllTools(events) && StartsOnly(Some(tool), events)
      ensures var last := sink.ChainEnd(old(sink.ticks) + 1, |Parts(outputBudgetBytes, execution.chunks)|);
        && (result == None <==> sink.fails(old(sink.ticks)) || sink.fails(last))
        && (result.Some? ==> sink.ticks == last + 1)
      ensures match result
        case None => Accept(Permitted(toolCallId, requestId, tool), events).Some?
        case Some(r) =>
          && Accept(Permitted(toolCallId, requestId, tool), events) == Some(InTurn)
          && r.toolCallId == toolCallId
          && |events| > 1 && events[0] == ToolStarted(toolCallId, requestId, tool, argsPreview)
          && Ended(outputBudgetBytes, sink, old(sink.ticks) + 1, tool, execution, r, events[1..])
    {
      hide AllTools, Ended, Accept, After, Parts;
      var started := ToolStarted(toolCallId, requestId, tool, argsPreview);
      Nothing();
      StartedAccepted(started);
      var ok := sink.Emit(started);
      if !ok {
        return None, [];
      }
      ghost var rest;
      result, rest := Drain(toolCallId, tool, execution);
      AcceptJoin(Permitted(toolCallId, requestId, tool), [started], rest);
      AllToolsSnoc([], started);
      AllToolsJoin([started], rest);
      events := [started] + rest;
      assert events[1..] == rest;
    }

    /**
     Streams the output of a started tool and emits its final event. None: that event was refused; a
     refused delta makes the tool fail instead.
     */
    method Drain(toolCallId: string, tool: string, execution: Execution)
        returns (result: Option<DispatchResult>, ghost events: seq<Payload>)
      requires sink.Valid()
      modifies sink
      ensures sink.Valid() && old(sink.ticks) <= sink.ticks && old(sink.stamps) <= sink.stamps
      ensures Unclosed(old(sink.orphan), sink.orphan)
      ensures sink.log == old(sink.log) + events && AllTools(events) && StartsOnly(None, events)
      ensures var last := sink.ChainEnd(old(sink.ticks), |Parts(outputBudgetBytes, execution.chunks)|);
        sink.ticks == last + 1 && (result == None <==> sink.fails(last))
      ensures match result
        case None => Accept(Running(toolCallId, tool, 0), events).Some?
        case Some(r) =>
          && Accept(Running(toolCallId, tool, 0), events) == Some(InTurn)
          && r.toolCallId == toolCallId
          && events != [] && Ended(outputBudgetBytes, sink, old(sink.ticks), tool, execution, r, events)
    {
      hide AllTools, Parts, Output, Truncated, Accept, After;
      var deltaCount, truncated, collected, intact, deltas := Stream(toolCallId, execution.chunks);
      DeltasAccepted(toolCallId, tool, deltas);
      DeltasAreTools(deltas);
      var outcome := if intact then execution.outcome else Failed("io_error", "tool.delta sink failed");
      var last := if outcome.Succeeded?
                  then ToolCompleted(toolCallId, tool, deltaCount, truncated)
                  else ToolFailed(toolCallId, tool, outcome.code, outcome.message);
      LastStep(toolCallId, tool, |deltas|, last);
      AcceptStep(Running(toolCallId, tool, 0), deltas, last, Running(toolCallId, tool, |deltas|), InTurn);
      AllToolsSnoc(deltas, last);
      var ok := sink.Emit(last);
      if !ok {
        return None, deltas;
      }
      assert (deltas + [last])[..|deltas|] == deltas;
      return Some(DispatchResult(toolCallId, outcome, collected)), deltas + [last];
    }
  }

  // ---- the ways a dispatch can go ----

  lemma IfUnknown(setup: Setup, sink: Sink, start: nat, i: Invocation, x: Execution, approval: Approval, callId: string)
    requires i.toolName !in setup.tools
    ensures var message := "unknown tool: " + i.toolName;
      && (DispatchThrows(setup, sink, start, i, x, approval) <==> sink.fails(start))
      && (!sink.fails(start) ==>
            Described(setup, sink, start, i, x, approval, DispatchResult(callId, Failed("not_found", message), []),
                      [ToolFailed(callId, i.toolName, "not_found", message)]))
      && FinalAt(setup, sink, start, i, x, approval) == start
  {
  }

  lemma IfRequested(setup: Setup, sink: Sink, start: nat, i: Invocation, x: Execution, approval: Approval)
    requires i.toolName in setup.tools
    ensures var ready := ReadyAt(setup, sink, start, i.toolName);
      var last := if Granted(setup, sink, start, i, approval)
                  then sink.ChainEnd(ready + 1, |Parts(setup.outputBudgetBytes, x.chunks)|) else ready;
      && (DispatchThrows(setup, sink, start, i, x, approval)
          <==>
          (RequestThrows(sink, DecisionOn(setup, i.toolName), start, approval)
           || sink.fails(ready) || sink.fails(last)))
      && FinalAt(setup, sink, start, i, x, approval) == last
  {
  }

  /** What a resolved request says of the invocation it stands before. */
  lemma GateIs(setup: Setup, sink: Sink, start: nat, i: Invocation, approval: Approval, callId: string, id: string,
               s: Resolution)
    requires i.toolName in setup.tools
    requires var decision := DecisionOn(setup, i.toolName);
      && s == ResolutionOf(id, decision, sink.AbortedAt(start + 2), approval)
      && (s.source == User <==> decision == Ask && !sink.AbortedAt(start + 2))
    ensures var r := Request(i.toolName, setup.tools[i.toolName], i.reason, Some(callId), i.argsPreview);
      Gate(setup, sink, start, i, approval, callId, id)
      == [Requested(r, id, DecisionOn(setup, i.toolName)), Resolved(r, s)]
    ensures s.requestId == id && (Granted(setup, sink, start, i, approval) <==> s.outcome == Allowed)
    ensures Denial(setup, sink, start, i.toolName)
         == if s.source == User then "permission denied by user" else "permission denied by policy"
    ensures ReadyAt(setup, sink, start, i.toolName)
         == ResolvedAt(sink, Evaluate(setup.policy, i.toolName, setup.tools[i.toolName]), start) + 1
  {
    hide TruncatePreview, Evaluate;
  }

  lemma IfSettled(setup: Setup, sink: Sink, start: nat, i: Invocation, x: Execution, approval: Approval,
                  requestId: string, r: DispatchResult, events: seq<Payload>)
    requires i.toolName in setup.tools && !DispatchThrows(setup, sink, start, i, x, approval)
    requires |events| >= 3 && events[..2] == Gate(setup, sink, start, i, approval, r.toolCallId, requestId)
    requires if Granted(setup, sink, start, i, approval) then
        && |events| > 3 && events[2] == ToolStarted(r.toolCallId, requestId, i.toolName, i.argsPreview)
        && Ended(setup.outputBudgetBytes, sink, ReadyAt(setup, sink, start, i.toolName) + 1, i.toolName, x, r,
                 events[3..])
      else
        var message := Denial(setup, sink, start, i.toolName);
        && r == DispatchResult(r.toolCallId, Failed("permission_denied", message), [])
        && events[2..] == [ToolFailed(r.toolCallId, i.toolName, "permission_denied", message)]
    ensures Described(setup, sink, start, i, x, approval, r, events)
  {
    hide DispatchThrows, Granted, Ended;
    assert events[0] == events[..2][0];
  }

  /** The chain of deltas so far: all of `deltas` stored, or those before the first that was refused. */
  ghost predicate Chained(sink: Sink, start: nat, deltas: seq<Payload>, parts: seq<string>, sent: seq<Payload>,
                          collected: seq<string>, intact: bool, now: nat) {
    var k := |sent|;
    && k <= |deltas| == |parts| && sent == deltas[..k]
    && (forall t | start <= t < start + k :: !sink.fails(t))
    && if intact then k == |deltas| && collected == parts && now == start + k
       else k < |deltas| && collected == parts[..k + 1] && sink.fails(start + k) && now == start + k + 1
  }

  lemma NoChain(sink: Sink, start: nat)
    ensures Chained(sink, start, [], [], [], [], true, start)
  {
  }

  lemma ChainIs(sink: Sink, start: nat, deltas: seq<Payload>, parts: seq<string>, sent: seq<Payload>,
                collected: seq<string>, intact: bool, now: nat)
    requires Chained(sink, start, deltas, parts, sent, collected, intact, now)
    ensures var k := sink.Stored(start, |parts|);
      && |deltas| == |parts| && sent == deltas[..k] && collected == parts[..Handed(sink, start, |parts|)]
      && (intact <==> k == |parts|) && now == sink.ChainEnd(start, |parts|)
  {
    sink.StoredIs(start, |parts|, |sent|);
  }

  lemma ChainGrows(sink: Sink, start: nat, deltas: seq<Payload>, parts: seq<string>, sent: seq<Payload>,
                   collected: seq<string>, intact: bool, now: nat, delta: Payload, text: string)
    requires Chained(sink, start, deltas, parts, sent, collected, intact, now)
    ensures if !intact then Chained(sink, start, deltas + [delta], parts + [text], sent, collected, false, now)
            else if sink.fails(now) then
              Chained(sink, start, deltas + [delta], parts + [text], sent, collected + [text], false, now + 1)
            else Chained(sink, start, deltas + [delta], parts + [text], sent + [delta], collected + [text], true,
                now + 1)
  {
    var k := |sent|;
    assert (deltas + [delta])[..k] == deltas[..k] && (deltas + [delta])[..|deltas| + 1] == deltas + [delta];
    assert (parts + [text])[..|parts| + 1] == parts + [text];
    if !intact {
      assert (parts + [text])[..k + 1] == parts[..k + 1];
    }
  }

  lemma LastStep(callId: string, tool: string, n: nat, last: Payload)
    requires (last.ToolCompleted? && last.deltaCount == n) || last.ToolFailed?
    requires last.toolCallId == callId && last.toolName == tool
    ensures After(Running(callId, tool, n), last) == Some(InTurn)
  {
  }

  lemma UnknownAccepted(e: Payload)
    requires e.ToolFailed? && e.failureCode == "not_found"
    ensures Accept(InTurn, [e]) == Some(InTurn)
  {
    AcceptStep(InTurn, [], e, InTurn, InTurn);
    assert [] + [e] == [e];
  }

  lemma DeniedAccepted(e: Payload)
    requires e.ToolFailed? && e.failureCode == "permission_denied"
    ensures Accept(Refused(e.toolCallId, e.toolName), [e]) == Some(InTurn)
  {
    AcceptStep(Refused(e.toolCallId, e.toolName), [], e, Refused(e.toolCallId, e.toolName), InTurn);
    assert [] + [e] == [e];
  }

  lemma StartedAccepted(e: Payload)
    requires e.ToolStarted?
    ensures Accept(Permitted(e.toolCallId, e.permissionRequestId, e.toolName), [e])
         == Some(Running(e.toolCallId, e.toolName, 0))
  {
    AcceptStep(Permitted(e.toolCallId, e.permissionRequestId, e.toolName), [], e,
               Permitted(e.toolCallId, e.permissionRequestId, e.toolName), Running(e.toolCallId, e.toolName, 0));
    assert [] + [e] == [e];
  }

  lemma DeltasAreTools(deltas: seq<Payload>)
    requires forall d | d in deltas :: d.ToolDelta?
    ensures AllTools(deltas)
  {
  }

  lemma AcceptStep(p: Phase, events: seq<Payload>, e: Payload, q: Phase, r: Phase)
    requires Accept(p, events) == Some(q) && After(q, e) == Some(r)
    ensures Accept(p, events + [e]) == Some(r)
  {
    AcceptSnoc(p, events, e);
  }

  /** The two permission events take the log to the phase the resolution says; one alone is allowed too. */
  lemma AskedAllowed(r: Request, callId: string, decision: Decision, id: string, resolution: Option<Resolution>,
                     events: seq<Payload>)
    requires r.toolCallId == Some(callId)
    requires match resolution
             case Some(s) => s.requestId == id && events == [Requested(r, id, decision), Resolved(r, s)]
             case None => events == [] || events == [Requested(r, id, decision)]
    ensures match resolution
            case Some(s) =>
              Accept(InTurn, events)
              == Some(if s.outcome == Allowed then Permitted(callId, id, r.toolName) else Refused(callId, r.toolName))
            case None => Accept(InTurn, events).Some?
    ensures resolution.Some? ==> |events| == 2 && events[0].PermissionRequested? && events[0].requestId == id
    ensures AllTools(events) && StartsOnly(None, events)
  {
    hide TruncatePreview;
    var asked := Requested(r, id, decision);
    assert [] + [asked] == [asked];
    AcceptStep(InTurn, [], asked, InTurn, Asked(callId, id, r.toolName));
    if resolution.Some? {
      var s := resolution.value;
      assert [asked] + [Resolved(r, s)] == events;
      AcceptStep(InTurn, [asked], Resolved(r, s), Asked(callId, id, r.toolName),
                 if s.outcome == Allowed then Permitted(callId, id, r.toolName) else Refused(callId, r.toolName));
    }
  }

  lemma OnePart(text: string)
    requires text != "" && Budget.Size(text) <= 10
    ensures Parts(10, [Chunk("stdout", text)]) == [text]
  {
    var chunks := [Chunk("stdout", text)];
    assert Texts(chunks) == [text] && [text][1..] == [];
    var start := Budget.State(10, false);
    Budget.TakeAllFirst(start, [text]);
    Budget.TakeAllFirst(Budget.Taken(start, text).0, []);
    assert [text][..0] == [] && NonEmpty([]) == [];
  }

  /** The one delta of a permitted tool is refused: the dispatch returns, with the tool's failure. */
  method RefusedDeltaRun() returns (result: Option<DispatchResult>, log: seq<Payload>)
    ensures result == Some(DispatchResult("tc_1", CHAIN_BROKEN, ["x"]))
    ensures |log| == 4 && log[2].ToolStarted? && log[3].ToolFailed? && log[3].failureCode == "io_error"
    ensures Accept(InTurn, log) == Some(InTurn)
  {
    hide Accept, Parts, Output, DispatchThrows, Budget.Encode, Decimal.Print;
    var sink := new Sink((t: nat) => t == 3, None, None);
    var permissions := new PermissionEngine(Rules(map[], map[], Some(Allow)), sink);
    var router := new ToolRouter(map["shell" := "execute"], permissions, 10);
    var i, x, approval := Invocation("shell", "", None), Execution([Chunk("stdout", "x")], Succeeded),
      Answers(Denied, None);
    SmallFacts();
    assert sink.Stored(3, 1) == 0;
    IfRequested(router.Settings(), sink, 0, i, x, approval);
    ghost var events;
    result, events := router.Dispatch(i, x, approval);
    log := sink.log;
    assert log == [] + events == events;
    var r := result.value;
    assert Ended(10, sink, 3, "shell", x, r, events[3..]);
    assert r.collected == ["x"] && r.toolCallId == "tc_1";
  }

  lemma SmallFacts()
    ensures "tc_" + Decimal.Print(1) == "tc_1"
    ensures Parts(10, [Chunk("stdout", "x")]) == ["x"] && ["x"][..1] == ["x"]
  {
    assert Decimal.Print(1) == "1";
    Budget.CutStep("x", 0);
    Budget.CutStep("", 0);
    OnePart("x");
  }
}
