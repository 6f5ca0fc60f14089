/**
 One turn: the engine streams model rounds, commits and yields their text, dispatches the tools the
 model asks for and sends the results back, until the model is done, the turn is cancelled or
 something fails. The provider is a finite script of rounds; after it the model says nothing more.
 */
module TurnEngine {
  import opened Wrappers
  import opened Schema
  import opened Grammar
  import opened EventSink
  import opened Messages
  import opened Permissions
  import opened ToolRouter
  import Decimal
  import Delimited

  datatype StreamEvent =
    | TextDelta(delta: string)
    | ToolCallRequest(id: string, toolName: string, args: string)
    | StreamCompleted(usage: Option<Usage>)
    | StreamFailed

  /** How a stream ends after its last chunk: normally, or by throwing an error with this code. */
  datatype Round = Round(chunks: seq<StreamEvent>, throws: Option<string>)

  datatype ToolCall = ToolCall(id: string, toolName: string, args: string)

  datatype TurnState = IdleState | RunningState | CompletedState | CancelledState | FailedState

  /** How `runTurn` ended for its caller. */
  datatype TurnEnd = Exhausted | Left | UnknownSession | AlreadyActive | StoreFailure | HandlerError

  // ---- what a stream says ----

  function TextOf(chunks: seq<StreamEvent>): string {
    if chunks == [] then ""
    else
      var c := chunks[|chunks| - 1];
      TextOf(chunks[..|chunks| - 1]) + (if c.TextDelta? then c.delta else "")
  }

  function CallsOf(chunks: seq<StreamEvent>): seq<ToolCall> {
    if chunks == [] then []
    else
      var c := chunks[|chunks| - 1];
      CallsOf(chunks[..|chunks| - 1]) + (if c.ToolCallRequest? then [ToolCall(c.id, c.toolName, c.args)] else [])
  }

  function DeltasOf(chunks: seq<StreamEvent>): seq<Payload> {
    if chunks == [] then []
    else
      var c := chunks[|chunks| - 1];
      DeltasOf(chunks[..|chunks| - 1]) + (if c.TextDelta? then [ModelDelta(c.delta)] else [])
  }

  function TotalOf(chunks: seq<StreamEvent>): Usage {
    if chunks == [] then Usage(0, 0)
    else
      var total, c := TotalOf(chunks[..|chunks| - 1]), chunks[|chunks| - 1];
      if c.StreamCompleted? && c.usage.Some?
      then Usage(total.promptTokens + c.usage.value.promptTokens,
        total.completionTokens + c.usage.value.completionTokens)
      else total
  }

  function StateOf(stop: StopReason): TurnState {
    match stop case Final => CompletedState case Cancelled => CancelledState case Error => FailedState
  }

  predicate Legal(a: TurnState, b: TurnState) {
    (a == IdleState && b == RunningState) || (a == RunningState && b != IdleState && b != RunningState)
  }

  lemma SnocChunk(chunks: seq<StreamEvent>, c: StreamEvent)
    ensures TextOf(chunks + [c]) == TextOf(chunks) + (if c.TextDelta? then c.delta else "")
    ensures CallsOf(chunks + [c]) == CallsOf(chunks)
         + (if c.ToolCallRequest? then [ToolCall(c.id, c.toolName, c.args)] else [])
    ensures DeltasOf(chunks + [c]) == DeltasOf(chunks) + (if c.TextDelta? then [ModelDelta(c.delta)] else [])
    ensures !(c.StreamCompleted? && c.usage.Some?) ==> TotalOf(chunks + [c]) == TotalOf(chunks)
    ensures c.StreamCompleted? && c.usage.Some? ==>
      TotalOf(chunks + [c]) == Usage(TotalOf(chunks).promptTokens + c.usage.value.promptTokens,
                                     TotalOf(chunks).completionTokens + c.usage.value.completionTokens)
  {
    assert (chunks + [c])[..|chunks|] == chunks;
  }

  lemma NoChunks()
    ensures TextOf([]) == "" && CallsOf([]) == [] && DeltasOf([]) == [] && TotalOf([]) == Usage(0, 0)
  {
  }

  lemma {:induction false} JoinChunks(a: seq<StreamEvent>, b: seq<StreamEvent>)
    ensures DeltasOf(a + b) == DeltasOf(a) + DeltasOf(b)
    ensures CallsOf(a + b) == CallsOf(a) + CallsOf(b)
    ensures TotalOf(a + b) == Usage(TotalOf(a).promptTokens + TotalOf(b).promptTokens,
                                    TotalOf(a).completionTokens + TotalOf(b).completionTokens)
    decreases |b|
  {
    if b == [] {
      assert a + b == a;
    } else {
      var c, last := b[..|b| - 1], b[|b| - 1];
      assert a + b == (a + c) + [last] && b == c + [last];
      JoinChunks(a, c);
      SnocChunk(a + c, last);
      SnocChunk(c, last);
    }
  }

  lemma {:induction false} DeltasInTurn(chunks: seq<StreamEvent>)
    ensures Accept(InTurn, DeltasOf(chunks)) == Some(InTurn)
    ensures WithoutTools(DeltasOf(chunks)) == DeltasOf(chunks)
  {
    hide Accept, After, WithoutTools;
    if chunks == [] {
      Nothing();
    } else {
      var before, c := chunks[..|chunks| - 1], chunks[|chunks| - 1];
      DeltasInTurn(before);
      if c.TextDelta? {
        TextAllowed(c.delta);
        AcceptSnoc(InTurn, DeltasOf(before), ModelDelta(c.delta));
        WithoutToolsSnoc(DeltasOf(before), ModelDelta(c.delta));
      } else {
        assert DeltasOf(before) + [] == DeltasOf(before);
      }
    }
  }

  lemma TextAllowed(text: string)
    ensures After(InTurn, ModelDelta(text)) == Some(InTurn)
  {
  }

  // ---- one round of the stream ----

  /** Why a turn stops once `taken` is what it took of a round: a chunk that says the model failed is not taken. */
  predicate Explained(round: Round, taken: seq<StreamEvent>, answered: bool, stop: StopReason, code: Option<string>) {
    && taken <= round.chunks && StreamFailed !in taken
    && match stop
       case Final => taken == round.chunks && round.throws == None && code == None
           && (CallsOf(taken) == [] || !answered)
       case Cancelled => code == None
       case Error =>
         || (code == Some("provider_failure") && |taken| < |round.chunks| && round.chunks[|taken|] == StreamFailed)
         || (code.Some? && code == round.throws && taken == round.chunks)
  }

  /** The stream of the round ends without a failure. */
  predicate Clean(round: Round) { round.throws == None && StreamFailed !in round.chunks }

  /** The chunk after those taken is a text. */
  predicate TextNext(round: Round, taken: seq<StreamEvent>) {
    |taken| < |round.chunks| && round.chunks[|taken|].TextDelta?
  }

  datatype RoundEnd = Whole | Stopped(stop: StopReason, code: Option<string>) | Lost | Walked

  /** The consumer does not leave at any yield after the first `from` ones, up to the first `to`. */
  predicate Stays(leaves: nat -> bool, from: nat, to: nat) {
    forall k | from < k <= to :: !leaves(k)
  }

  /** The consumer leaves at the last yield and at none before it. */
  predicate LeavesAt(leaves: nat -> bool, from: nat, to: nat) {
    from < to && leaves(to) && Stays(leaves, from, to - 1)
  }

  /** The log grew by `events`, none of them a model delta submitted after the abort. */
  predicate Added(sink: Sink, was: Trace, now: Trace, events: seq<Payload>) {
    && now.log == was.log + events
    && |now.stamps| == |now.log| && was.stamps <= now.stamps && was.ticks <= now.ticks
    && forall i | |was.log| <= i < |now.log| && now.log[i].ModelDelta? :: !sink.AbortedAt(now.stamps[i])
  }

  /** It did so inside a turn, where no completion is submitted. */
  predicate Grew(sink: Sink, was: Trace, now: Trace, events: seq<Payload>) {
    Added(sink, was, now, events) && Unclosed(was.orphan, now.orphan)
  }

  lemma AddedOn(sink: Sink, a: Trace, b: Trace, c: Trace, x: seq<Payload>, y: seq<Payload>)
    requires |a.stamps| == |a.log| && Added(sink, a, b, x) && Added(sink, b, c, y)
    ensures Added(sink, a, c, x + y) && a.ticks <= b.ticks <= c.ticks
  {
    forall i | |a.log| <= i < |c.log| && c.log[i].ModelDelta? ensures !sink.AbortedAt(c.stamps[i]) {
      if i < |b.log| {
        assert b.log[i] == c.log[i] && b.stamps[i] == c.stamps[i];
      }
    }
  }

  lemma GrewOn(sink: Sink, a: Trace, b: Trace, c: Trace, x: seq<Payload>, y: seq<Payload>)
    requires |a.stamps| == |a.log| && Grew(sink, a, b, x) && Grew(sink, b, c, y)
    ensures Grew(sink, a, c, x + y) && a.ticks <= b.ticks <= c.ticks
  {
    hide Added;
    AddedOn(sink, a, b, c, x, y);
  }

  lemma GrewNone(sink: Sink, was: Trace, now: Trace)
    requires |was.stamps| == |was.log| && was.log == now.log && was.stamps == now.stamps && was.ticks <= now.ticks
    requires Unclosed(was.orphan, now.orphan)
    ensures Grew(sink, was, now, [])
  {
  }

  lemma GrewIdle(sink: Sink, a: Trace, b: Trace, c: Trace, events: seq<Payload>)
    requires Grew(sink, a, b, events) && b.log == c.log && b.stamps == c.stamps && b.ticks <= c.ticks
    requires Unclosed(b.orphan, c.orphan)
    ensures Grew(sink, a, c, events)
  {
  }

  lemma GrewOne(sink: Sink, was: Trace, now: Trace, e: Payload)
    requires |was.stamps| == |was.log| && was.ticks <= now.ticks && (e.ModelDelta? ==> !sink.AbortedAt(was.ticks))
    requires now.log == was.log + [e] && now.stamps == was.stamps + [was.ticks] && was.orphan == now.orphan
    ensures Grew(sink, was, now, [e])
  {
  }

  lemma GrewByTools(sink: Sink, was: Trace, now: Trace, events: seq<Payload>)
    requires |was.stamps| == |was.log| && |now.stamps| == |now.log| && was.stamps <= now.stamps
         && was.ticks <= now.ticks && Unclosed(was.orphan, now.orphan)
    requires now.log == was.log + events && AllTools(events)
    ensures Grew(sink, was, now, events)
  {
    forall i | |was.log| <= i < |now.log| ensures !now.log[i].ModelDelta? {
      assert now.log[i] == events[i - |was.log|] && events[i - |was.log|] in events;
    }
  }

  lemma NoYields(leaves: nat -> bool, n: nat)
    ensures Stays(leaves, n, n)
  {
  }

  lemma NobodyLeaves(leaves: nat -> bool, to: nat)
    requires forall k :: !leaves(k)
    ensures !LeavesAt(leaves, 0, to)
  {
  }

  lemma OneMoreYield(leaves: nat -> bool, from: nat, n: nat)
    requires from <= n && Stays(leaves, from, n)
    ensures if leaves(n + 1) then LeavesAt(leaves, from, n + 1) else Stays(leaves, from, n + 1)
  {
  }

  lemma StaysOn(leaves: nat -> bool, a: nat, b: nat, c: nat)
    requires a <= b <= c && Stays(leaves, a, b)
    ensures Stays(leaves, b, c) ==> Stays(leaves, a, c)
    ensures LeavesAt(leaves, b, c) ==> LeavesAt(leaves, a, c)
  {
  }

  /**
   Takes chunks until the stream ends. `consumed` are the chunks that were acted on; each text among
   them is committed and yielded before the next is taken. Lost: the store refused a delta. Walked: the
   consumer, which had taken `seen` events before, left at a yield.
   */
  method StreamRound(sink: Sink, round: Round, leaves: nat -> bool, seen: nat)
      returns (end: RoundEnd, consumed: seq<StreamEvent>, yielded: seq<Payload>, text: string, calls: seq<ToolCall>,
               usage: Usage)
    requires sink.Valid()
    modifies sink
    ensures sink.Valid() && Grew(sink, old(sink.Now()), sink.Now(), yielded)
    ensures yielded == DeltasOf(consumed)
    ensures consumed <= round.chunks && StreamFailed !in consumed
    ensures usage == TotalOf(consumed)
    ensures end == Whole ==>
      consumed == round.chunks && Clean(round) && text == TextOf(consumed) && calls == CallsOf(consumed)
    ensures end.Stopped? ==>
      && end.stop != Final && (end.stop == Cancelled <==> sink.Aborted())
      && Explained(round, consumed, false, end.stop, end.code)
    ensures end == Lost ==>
      TextNext(round, consumed) && old(sink.ticks) < sink.ticks && sink.fails(sink.ticks - 1)
    ensures if end == Walked then LeavesAt(leaves, seen, seen + |yielded|) else Stays(leaves, seen, seen + |yielded|)
  {
    hide Stays, LeavesAt, Grew, TextOf, CallsOf, DeltasOf, TotalOf;
    consumed, yielded, text, calls, usage := [], [], "", [], Usage(0, 0);
    ghost var start := sink.Now();
    GrewNone(sink, start, start);
    NoYields(leaves, seen);
    NoChunks();
    for i := 0 to |round.chunks|
      invariant sink.Valid() && Grew(sink, old(sink.Now()), sink.Now(), yielded)
      invariant consumed == round.chunks[..i] && StreamFailed !in consumed
      invariant yielded == DeltasOf(consumed)
      invariant usage == TotalOf(consumed) && text == TextOf(consumed) && calls == CallsOf(consumed)
      invariant Stays(leaves, seen, seen + |yielded|) && old(sink.ticks) <= sink.ticks
    {
      var chunk := round.chunks[i];
      ghost var before := sink.Now();
      sink.Await();
      GrewIdle(sink, start, before, sink.Now(), yielded);
      if sink.Aborted() {
        end := Stopped(Cancelled, None);
        return;
      }
      if chunk == StreamFailed {
        end := Stopped(Error, Some("provider_failure"));
        return;
      }
      SnocChunk(consumed, chunk);
      assert consumed + [chunk] == round.chunks[..i + 1];
      match chunk {
      case TextDelta(delta) =>
        text := text + delta;
        before := sink.Now();
        var ok := sink.Emit(ModelDelta(delta));
        if !ok {
          GrewIdle(sink, start, before, sink.Now(), yielded);
          end := Lost;
          return;
        }
        GrewOne(sink, before, sink.Now(), ModelDelta(delta));
        GrewOn(sink, start, before, sink.Now(), yielded, [ModelDelta(delta)]);
        OneMoreYield(leaves, seen, seen + |yielded|);
        yielded := yielded + [ModelDelta(delta)];
        if leaves(seen + |yielded|) {
          consumed := consumed + [chunk];
          end := Walked;
          return;
        }
      case ToolCallRequest(id, toolName, args) => calls := calls + [ToolCall(id, toolName, args)];
      case StreamCompleted(u) =>
        if u.Some? {
          usage := Usage(usage.promptTokens + u.value.promptTokens, usage.completionTokens + u.value.completionTokens);
        }
      }
      consumed := consumed + [chunk];
    }
    ghost var before := sink.Now();
    sink.Await();
    GrewIdle(sink, start, before, sink.Now(), yielded);
    assert round.chunks[..|round.chunks|] == round.chunks;
    if round.throws.Some? {
      end := if sink.Aborted() then Stopped(Cancelled, None) else Stopped(Error, round.throws);
    } else {
      end := Whole;
    }
  }

  // ---- one round of tools ----

  datatype ToolsEnd = AllRun | CutShort | Threw

  /** What tools meet in a turn: their settings, the sink, and how the n-th of them runs and is approved. */
  datatype Env = Env(setup: Setup, sink: Sink, executions: nat -> Execution, approvals: nat -> Approval)

  /** One dispatch that ended: when it was asked for, what it returned and what it committed. */
  datatype Ran = Ran(start: nat, result: DispatchResult, events: seq<Payload>)

  datatype ToolRound = ToolRound(begun: nat, ran: seq<Ran>)

  function Blocks(ran: seq<Ran>): seq<Payload> {
    if ran == [] then [] else Blocks(ran[..|ran| - 1]) + ran[|ran| - 1].events
  }

  function Invoke(call: ToolCall): (i: Invocation)
    ensures i.toolName == call.toolName && i.reason == "model-requested tool call" && i.argsPreview.Some?
    ensures i.argsPreview.value <= call.args
         && |i.argsPreview.value| == if |call.args| < 200 then |call.args| else 200
  {
    Invocation(call.toolName, "model-requested tool call",
      Some(if |call.args| <= 200 then call.args else call.args[..200]))
  }

  /** What the model is told of a tool's output. */
  function Reply(collected: seq<string>): (text: string)
    ensures text != "" && (Delimited.Concat(collected) != "" ==> text == Delimited.Concat(collected))
    ensures Delimited.Concat(collected) == "" ==> text == "(no output)"
  {
    if Delimited.Concat(collected) == "" then "(no output)" else Delimited.Concat(collected)
  }

  /** When the `i`-th dispatch of a round starts: the first with the round, each other when the one before is over. */
  function StartOf(env: Env, calls: seq<ToolCall>, first: nat, t: ToolRound, i: nat): nat
    requires i <= |t.ran| <= |calls|
  {
    if i == 0 then t.begun
    else FinalAt(env.setup, env.sink, t.ran[i - 1].start, Invoke(calls[i - 1]), env.executions(first + i - 1),
        env.approvals(first + i - 1)) + 1
  }

  /** The `i`-th dispatch of a round started in its turn, before the abort, and went as its own inputs say. */
  predicate DispatchedAt(env: Env, calls: seq<ToolCall>, first: nat, t: ToolRound, i: nat)
    requires i < |t.ran| <= |calls|
  {
    DispatchedAs(env, calls, first, t.ran[i], i, StartOf(env, calls, first, t, i))
  }

  predicate DispatchedAs(env: Env, calls: seq<ToolCall>, first: nat, r: Ran, i: nat, start: nat)
    requires i < |calls|
  {
    && r.start == start && !env.sink.AbortedAt(start) && r.result.toolCallId == "tc_" + Decimal.Print(first + i + 1)
    && Described(env.setup, env.sink, start, Invoke(calls[i]), env.executions(first + i), env.approvals(first + i),
        r.result, r.events)
  }

  /** The round ran the first of the calls, in order and without a pause. */
  predicate Dispatched(env: Env, calls: seq<ToolCall>, first: nat, t: ToolRound) {
    && |t.ran| <= |calls|
    && forall i | 0 <= i < |t.ran| :: DispatchedAt(env, calls, first, t, i)
  }

  /** The dispatch that comes next begins before the abort, and throws. */
  predicate ThrowsNext(env: Env, calls: seq<ToolCall>, first: nat, t: ToolRound) {
    var n := |t.ran|;
    && n < |calls| && t.begun <= StartOf(env, calls, first, t, n)
    && !env.sink.AbortedAt(StartOf(env, calls, first, t, n))
    && DispatchThrows(env.setup, env.sink, StartOf(env, calls, first, t, n), Invoke(calls[n]),
        env.executions(first + n), env.approvals(first + n))
  }

  /** The results answer the calls one by one, in order, each with the kept output of its own dispatch. */
  predicate Replied(results: seq<Message>, calls: seq<ToolCall>, ran: seq<Ran>) {
    && |results| == |ran| <= |calls|
    && forall i | 0 <= i < |results| ::
         results[i] == Tool(Reply(ran[i].result.collected), calls[i].id, calls[i].toolName)
  }

  lemma OneMoreDispatch(env: Env, calls: seq<ToolCall>, first: nat, t: ToolRound, results: seq<Message>, last: Ran)
    requires Dispatched(env, calls, first, t) && Replied(results, calls, t.ran) && |t.ran| < |calls|
    requires last.start == StartOf(env, calls, first, t, |t.ran|) && !env.sink.AbortedAt(last.start)
         && last.result.toolCallId == "tc_" + Decimal.Print(first + |t.ran| + 1)
    requires var n := |t.ran|;
      Described(env.setup, env.sink, last.start, Invoke(calls[n]), env.executions(first + n),
        env.approvals(first + n), last.result, last.events)
    ensures var (more, n) := (ToolRound(t.begun, t.ran + [last]), |t.ran|);
      && Dispatched(env, calls, first, more)
      && Replied(results + [Tool(Reply(last.result.collected), calls[n].id, calls[n].toolName)], calls, more.ran)
      && Blocks(more.ran) == Blocks(t.ran) + last.events
      && StartOf(env, calls, first, more, n + 1)
         == FinalAt(env.setup, env.sink, last.start, Invoke(calls[n]), env.executions(first + n),
           env.approvals(first + n)) + 1
  {
    hide Described, DispatchThrows, FinalAt, Invoke, Reply, DispatchedAt, StartOf, Decimal.Print;
    var more, n := ToolRound(t.begun, t.ran + [last]), |t.ran|;
    assert more.ran[..n] == t.ran;
    forall i | 0 <= i <= n ensures DispatchedAt(env, calls, first, more, i) {
      SameDispatch(env, calls, first, t, more, i);
    }
    SameDispatch(env, calls, first, t, more, n);
  }

  lemma SameDispatch(env: Env, calls: seq<ToolCall>, first: nat, t: ToolRound, more: ToolRound, i: nat)
    requires |t.ran| < |calls| && |more.ran| == |t.ran| + 1 && more.ran[..|t.ran|] == t.ran
         && more.begun == t.begun && i <= |t.ran|
    ensures StartOf(env, calls, first, more, i) == StartOf(env, calls, first, t, i)
    ensures i < |t.ran| && DispatchedAt(env, calls, first, t, i) ==> DispatchedAt(env, calls, first, more, i)
    ensures i == |t.ran| && DispatchedAs(env, calls, first, more.ran[i], i, StartOf(env, calls, first, t, i)) ==>
      && DispatchedAt(env, calls, first, more, i)
      && StartOf(env, calls, first, more, i + 1)
         == FinalAt(env.setup, env.sink, more.ran[i].start, Invoke(calls[i]), env.executions(first + i),
           env.approvals(first + i)) + 1
  {
    hide Described, DispatchThrows, FinalAt, Invoke, Decimal.Print;
    assert i < |t.ran| ==> more.ran[i] == t.ran[i];
    assert i > 0 ==> more.ran[i - 1] == t.ran[i - 1];
  }

  lemma NoDispatch(env: Env, calls: seq<ToolCall>, first: nat, begun: nat)
    ensures Dispatched(env, calls, first, ToolRound(begun, [])) && Replied([], calls, []) && Blocks([]) == []
  {
  }

  /** The tool handler: dispatches one call and returns the text for the model. None: it threw. */
  method Handle(sink: Sink, router: ToolRouter, call: ToolCall, execution: Execution, approval: Approval)
      returns (text: Option<string>, ghost result: Option<DispatchResult>, ghost events: seq<Payload>)
    requires router.Ready() && router.sink == sink
    modifies sink, router, router.permissions
    ensures router.Ready() && old(sink.ticks) <= sink.ticks && old(sink.stamps) <= sink.stamps
    ensures Unclosed(old(sink.orphan), sink.orphan) && router.nextCallId == old(router.nextCallId) + 1
    ensures sink.log == old(sink.log) + events && AllTools(events)
    ensures (text == None <==> result == None)
         && (text == None <==> DispatchThrows(router.Settings(), sink, old(sink.ticks), Invoke(call), execution,
             approval))
    ensures match result
      case None => Accept(InTurn, events).Some?
      case Some(r) =>
        && text == Some(Reply(r.collected)) && Accept(InTurn, events) == Some(InTurn)
        && r.toolCallId == "tc_" + Decimal.Print(old(router.nextCallId))
        && Described(router.Settings(), sink, old(sink.ticks), Invoke(call), execution, approval, r, events)
        && sink.ticks == FinalAt(router.Settings(), sink, old(sink.ticks), Invoke(call), execution, approval) + 1
  {
    hide Accept, After, Delimited.Concat, Described, DispatchThrows, FinalAt, Decimal.Print;
    var outcome;
    outcome, events := router.Dispatch(
      Invocation(call.toolName, "model-requested tool call",
        Some(if |call.args| <= 200 then call.args else call.args[..200])),
      execution, approval);
    result := outcome;
    if outcome == None {
      return None, None, events;
    }
    var output := Delimited.Concat(outcome.value.collected);
    text := Some(if output == "" then "(no output)" else output);
  }

  /** Dispatches the calls in order until the turn is aborted or a tool handler throws. */
  method RunTools(sink: Sink, router: ToolRouter, calls: seq<ToolCall>, first: nat, executions: nat -> Execution,
                  approvals: nat -> Approval)
      returns (end: ToolsEnd, results: seq<Message>, ghost t: ToolRound, ghost torn: seq<Payload>)
    requires router.Ready() && router.sink == sink && router.nextCallId == first + 1
    modifies sink, router, router.permissions
    ensures router.Ready() && AllTools(Blocks(t.ran) + torn)
    ensures end == AllRun ==> router.nextCallId == first + |calls| + 1
    ensures Grew(sink, old(sink.Now()), sink.Now(), Blocks(t.ran) + torn)
    ensures Accept(InTurn, Blocks(t.ran)) == Some(InTurn) && Accept(InTurn, Blocks(t.ran) + torn).Some?
    ensures var env := Env(router.Settings(), sink, executions, approvals);
      && t.begun == old(sink.ticks) && Dispatched(env, calls, first, t) && Replied(results, calls, t.ran)
      && |t.ran| <= |calls| && (end == AllRun <==> |t.ran| == |calls|)
      && (end != Threw ==> torn == [] && sink.ticks == StartOf(env, calls, first, t, |t.ran|))
      && (end == CutShort ==> |t.ran| < |calls| && sink.Aborted())
      && (end == Threw ==> ThrowsNext(env, calls, first, t))
  {
    hide Grew, AllTools, Accept, After, Replied, Dispatched, DispatchedAt, Blocks, Reply, Invoke, Described,
         DispatchThrows, FinalAt, Decimal.Print;
    ghost var env := Env(router.Settings(), sink, executions, approvals);
    results, t, torn := [], ToolRound(sink.ticks, []), [];
    Nothing();
    NoDispatch(env, calls, first, sink.ticks);
    GrewByTools(sink, old(sink.Now()), sink.Now(), []);
    for i := 0 to |calls|
      invariant router.Ready() && router.Settings() == env.setup && old(sink.ticks) <= sink.ticks
           && old(sink.stamps) <= sink.stamps
      invariant Unclosed(old(sink.orphan), sink.orphan) && router.nextCallId == first + i + 1
      invariant sink.log == old(sink.log) + Blocks(t.ran) && AllTools(Blocks(t.ran))
      invariant Grew(sink, old(sink.Now()), sink.Now(), Blocks(t.ran))
      invariant Accept(InTurn, Blocks(t.ran)) == Some(InTurn)
      invariant t.begun == old(sink.ticks) && |t.ran| == i && Dispatched(env, calls, first, t)
           && Replied(results, calls, t.ran)
      invariant sink.ticks == StartOf(env, calls, first, t, i)
    {
      assert Blocks(t.ran) + [] == Blocks(t.ran);
      if sink.Aborted() {
        end, torn := CutShort, [];
        return;
      }
      ghost var start := sink.ticks;
      var text, result, block := Handle(sink, router, calls[i], executions(first + i), approvals(first + i));
      AcceptJoin(InTurn, Blocks(t.ran), block);
      AllToolsJoin(Blocks(t.ran), block);
      assert old(sink.log) + Blocks(t.ran) + block == old(sink.log) + (Blocks(t.ran) + block);
      GrewByTools(sink, old(sink.Now()), sink.Now(), Blocks(t.ran) + block);
      if text == None {
        end, torn := Threw, block;
        return;
      }
      ghost var last := Ran(start, result.value, block);
      OneMoreDispatch(env, calls, first, t, results, last);
      results, t := results + [Tool(text.value, calls[i].id, calls[i].toolName)], ToolRound(t.begun, t.ran + [last]);
    }
    assert Blocks(t.ran) + [] == Blocks(t.ran);
    end := AllRun;
  }

  // ---- the whole turn ----

  datatype LoopEnd = Ended(stop: StopReason, code: Option<string>) | LostDelta | HandlerThrew | ConsumerLeft

  function EndAfterText(ended: RoundEnd, aborted: bool): LoopEnd {
    match ended
    case Lost => LostDelta
    case Walked => ConsumerLeft
    case Stopped(stop, code) => Ended(stop, code)
    case Whole => Ended(if aborted then Cancelled else Final, None)
  }

  function EndAfterTools(ran: ToolsEnd): LoopEnd {
    if ran == Threw then HandlerThrew else Ended(Cancelled, None)
  }

  /** A lost delta was the last append, and the consumer leaves when it wants to and only then. */
  ghost predicate Justified(end: LoopEnd, sink: Sink, until: nat, leaves: nat -> bool, from: nat, to: nat) {
    && (end == LostDelta ==> until > 0 && sink.fails(until - 1))
    && (if end == ConsumerLeft then LeavesAt(leaves, from, to) else Stays(leaves, from, to))
  }

  lemma TextJustified(ended: RoundEnd, sink: Sink, until: nat, leaves: nat -> bool, from: nat, mid: nat, to: nat)
    requires from <= mid <= to && Stays(leaves, from, mid)
    requires ended == Lost ==> until > 0 && sink.fails(until - 1)
    requires if ended == Walked then LeavesAt(leaves, mid, to) else Stays(leaves, mid, to)
    ensures forall aborted :: Justified(EndAfterText(ended, aborted), sink, until, leaves, from, to)
    ensures ended != Walked ==> Stays(leaves, from, to)
  {
    StaysOn(leaves, from, mid, to);
  }

  lemma ToolsJustified(ran: ToolsEnd, sink: Sink, until: nat, leaves: nat -> bool, from: nat, to: nat)
    requires Stays(leaves, from, to)
    ensures Justified(EndAfterTools(ran), sink, until, leaves, from, to)
  {
  }

  /** Round `k` of the provider's script; after its end the provider has nothing more to say. */
  function RoundAt(rounds: seq<Round>, k: nat): Round {
    if k < |rounds| then rounds[k] else Round([], None)
  }

  function ChunksOf(rounds: seq<Round>): seq<StreamEvent> {
    if rounds == [] then [] else ChunksOf(rounds[..|rounds| - 1]) + rounds[|rounds| - 1].chunks
  }

  predicate Follows(x: Exchange, round: Round) {
    && Proper(x)
    && x.text == TextOf(round.chunks)
    && var calls := CallsOf(round.chunks);
    && |x.results| == |calls|
    && forall i | 0 <= i < |calls| ::
         && x.results[i].Tool? && x.results[i].content != ""
         && x.results[i].toolCallId == calls[i].id && x.results[i].toolName == calls[i].toolName
  }

  /**
   Exchange `j` is the text of round `j` and one result for each tool call of that round, in order;
   request `k` is the user's message followed by the first `k` exchanges.
   */
  predicate RequestsFollow(user: string, rounds: seq<Round>, requests: seq<seq<Message>>, exchanges: seq<Exchange>) {
    && |requests| <= |exchanges| + 1 <= |rounds| + 1
    && (forall k | 0 <= k < |requests| :: requests[k] == History(user, exchanges[..k]))
    && (forall j | 0 <= j < |exchanges| :: Follows(exchanges[j], rounds[j]))
  }

  // ---- the log of a turn, dispatch by dispatch ----

  const NO_TOOLS := ToolRound(0, [])

  /** The tools of the answered rounds, those of the round under way, and the events of a dispatch that threw. */
  datatype Work = Work(whole: seq<ToolRound>, last: ToolRound, torn: seq<Payload>)

  /** The number of calls before round `k`. */
  function FirstCall(rounds: seq<Round>, k: nat): nat
    requires k <= |rounds|
  {
    |CallsOf(ChunksOf(rounds[..k]))|
  }

  /** The texts and dispatches of whole rounds. */
  function LogOf(rounds: seq<Round>, whole: seq<ToolRound>): seq<Payload> {
    if whole == [] then []
    else
      var n := |whole| - 1;
      LogOf(rounds, whole[..n]) + DeltasOf(RoundAt(rounds, n).chunks) + Blocks(whole[n].ran)
  }

  /** Round `k` ended without a failure, every call of it was dispatched, and the results are the dispatches' output. */
  predicate AnsweredBy(env: Env, since: nat, rounds: seq<Round>, k: nat, x: Exchange, t: ToolRound)
    requires k < |rounds|
  {
    var calls := CallsOf(rounds[k].chunks);
    && Clean(rounds[k]) && since <= t.begun && |t.ran| == |calls|
    && Dispatched(env, calls, FirstCall(rounds, k), t) && Replied(x.results, calls, t.ran)
  }

  /** What was committed since `since`, from the model's texts and each dispatch's own events. */
  predicate Worked(env: Env, since: nat, rounds: seq<Round>, exchanges: seq<Exchange>, taken: seq<StreamEvent>,
                   work: Work, events: seq<Payload>) {
    && |work.whole| == |exchanges| <= |rounds|
    && (forall j | 0 <= j < |exchanges| :: AnsweredBy(env, since, rounds, j, exchanges[j], work.whole[j]))
    && (work.last.ran != [] ==> since <= work.last.begun)
    && Dispatched(env, CallsOf(taken), FirstCall(rounds, |exchanges|), work.last)
    && events == LogOf(rounds, work.whole) + DeltasOf(taken) + (Blocks(work.last.ran) + work.torn)
  }

  /** The requests so far, the chunks consumed (whole rounds, then what was taken of the next), and the work done. */
  predicate Conversed(env: Env, since: nat, user: string, rounds: seq<Round>, requests: seq<seq<Message>>,
                      exchanges: seq<Exchange>, consumed: seq<StreamEvent>, taken: seq<StreamEvent>, work: Work,
                      events: seq<Payload>) {
    && RequestsFollow(user, rounds, requests, exchanges)
    && consumed == ChunksOf(rounds[..|exchanges|]) + taken
    && taken <= RoundAt(rounds, |exchanges|).chunks && StreamFailed !in taken
    && Worked(env, since, rounds, exchanges, taken, work, events)
  }

  /** A tool handler threw: its round had ended without a failure, and one of its calls' dispatches throws. */
  predicate HandlerFailed(env: Env, since: nat, answered: bool, rounds: seq<Round>, k: nat,
                          taken: seq<StreamEvent>, last: ToolRound)
    requires k <= |rounds|
  {
    && answered && since <= last.begun && taken == RoundAt(rounds, k).chunks && Clean(RoundAt(rounds, k))
    && ThrowsNext(env, CallsOf(taken), FirstCall(rounds, k), last)
  }

  /**
   Tools run only where the engine has a handler, for the calls of a round that ended without a failure; a
   round's calls are cut short only by a handler that threw, or by an abort before the next would begin.
   */
  predicate Earned(env: Env, answered: bool, threw: bool, rounds: seq<Round>, k: nat, taken: seq<StreamEvent>,
                   work: Work)
    requires k <= |rounds|
  {
    var (calls, n) := (CallsOf(taken), |work.last.ran|);
    && (work.whole != [] ==> answered) && (work.torn != [] ==> threw)
    && (n > 0 || threw ==> answered && taken == RoundAt(rounds, k).chunks && Clean(RoundAt(rounds, k)))
    && (n > 0 && !threw ==>
          n < |calls| && env.sink.AbortedAt(StartOf(env, calls, FirstCall(rounds, k), work.last, n)))
  }

  lemma EarnedByTools(env: Env, ran: ToolsEnd, rounds: seq<Round>, k: nat, taken: seq<StreamEvent>,
                      whole: seq<ToolRound>, t: ToolRound, torn: seq<Payload>, now: nat)
    requires k <= |rounds| && |t.ran| <= |CallsOf(taken)| && ran != AllRun && (torn != [] ==> ran == Threw)
    requires taken == RoundAt(rounds, k).chunks && Clean(RoundAt(rounds, k))
    requires ran == CutShort ==>
      && |t.ran| < |CallsOf(taken)| && env.sink.AbortedAt(now)
      && now == StartOf(env, CallsOf(taken), FirstCall(rounds, k), t, |t.ran|)
    ensures Earned(env, true, ran == Threw, rounds, k, taken, Work(whole, t, torn))
  {
    hide CallsOf, FirstCall, StartOf, RoundAt, Clean;
  }

  lemma Heard(env: Env, since: nat, user: string, rounds: seq<Round>, requests: seq<seq<Message>>,
              exchanges: seq<Exchange>, consumed: seq<StreamEvent>, whole: seq<ToolRound>, events: seq<Payload>,
              some: seq<StreamEvent>)
    requires Conversed(env, since, user, rounds, requests, exchanges, consumed, [], Work(whole, NO_TOOLS, []), events)
    requires |requests| == |exchanges| && some <= RoundAt(rounds, |exchanges|).chunks && StreamFailed !in some
    ensures Conversed(env, since, user, rounds, requests + [History(user, exchanges)], exchanges, consumed + some, some,
                      Work(whole, NO_TOOLS, []), events + DeltasOf(some))
  {
    hide AnsweredBy, Follows, LogOf;
    assert exchanges[..|exchanges|] == exchanges;
    NoDispatch(env, CallsOf(some), FirstCall(rounds, |exchanges|), 0);
    assert events == LogOf(rounds, whole);
  }

  lemma ToolsRan(env: Env, since: nat, user: string, rounds: seq<Round>, requests: seq<seq<Message>>,
                 exchanges: seq<Exchange>, consumed: seq<StreamEvent>, taken: seq<StreamEvent>, whole: seq<ToolRound>,
                 events: seq<Payload>, t: ToolRound, torn: seq<Payload>)
    requires Conversed(env, since, user, rounds, requests, exchanges, consumed, taken, Work(whole, NO_TOOLS, []),
                       events)
    requires since <= t.begun && Dispatched(env, CallsOf(taken), FirstCall(rounds, |exchanges|), t)
    ensures Conversed(env, since, user, rounds, requests, exchanges, consumed, taken, Work(whole, t, torn),
                      events + (Blocks(t.ran) + torn))
  {
    hide AnsweredBy, Follows, LogOf, Dispatched;
    assert events == LogOf(rounds, whole) + DeltasOf(taken);
  }

  lemma Answered(env: Env, since: nat, user: string, rounds: seq<Round>, requests: seq<seq<Message>>,
                 exchanges: seq<Exchange>, consumed: seq<StreamEvent>, whole: seq<ToolRound>, events: seq<Payload>,
                 t: ToolRound, results: seq<Message>)
    requires |exchanges| < |rounds| && Clean(rounds[|exchanges|])
    requires var calls := CallsOf(rounds[|exchanges|].chunks);
      calls != [] && |t.ran| == |calls| && Replied(results, calls, t.ran)
    requires Conversed(env, since, user, rounds, requests, exchanges, consumed, rounds[|exchanges|].chunks,
         Work(whole, t, []), events)
    ensures var x := Exchange(TextOf(rounds[|exchanges|].chunks), results);
      && Conversed(env, since, user, rounds, requests, exchanges + [x], consumed, [],
          Work(whole + [t], NO_TOOLS, []), events)
      && History(user, exchanges + [x]) == History(user, exchanges) + ([Assistant(x.text)] + x.results)
    ensures FirstCall(rounds, |exchanges| + 1) == FirstCall(rounds, |exchanges|) + |CallsOf(rounds[|exchanges|].chunks)|
  {
    hide TextOf, CallsOf, Dispatched, Replied, LogOf, Blocks, FirstCall, RequestsFollow, History, Follows;
    var k, chunks := |exchanges|, rounds[|exchanges|].chunks;
    var x := Exchange(TextOf(chunks), results);
    AnsweredFollows(chunks, results, t);
    RequestsGrow(user, rounds, requests, exchanges, x);
    NextCall(rounds, k);
    AnsweredWork(env, since, rounds, exchanges, whole, events, t, results, x);
    assert consumed + [] == consumed;
  }

  lemma AnsweredFollows(chunks: seq<StreamEvent>, results: seq<Message>, t: ToolRound)
    requires CallsOf(chunks) != [] && |t.ran| == |CallsOf(chunks)| && Replied(results, CallsOf(chunks), t.ran)
    ensures Follows(Exchange(TextOf(chunks), results), Round(chunks, None))
    ensures forall throws :: Follows(Exchange(TextOf(chunks), results), Round(chunks, throws))
  {
    hide TextOf, CallsOf, Reply;
  }

  lemma NextCall(rounds: seq<Round>, k: nat)
    requires k < |rounds|
    ensures FirstCall(rounds, k + 1) == FirstCall(rounds, k) + |CallsOf(rounds[k].chunks)|
    ensures ChunksOf(rounds[..k + 1]) == ChunksOf(rounds[..k]) + rounds[k].chunks
  {
    hide CallsOf;
    assert rounds[..k + 1][..k] == rounds[..k];
    JoinChunks(ChunksOf(rounds[..k]), rounds[k].chunks);
  }

  lemma AnsweredWork(env: Env, since: nat, rounds: seq<Round>, exchanges: seq<Exchange>, whole: seq<ToolRound>,
                     events: seq<Payload>, t: ToolRound, results: seq<Message>, x: Exchange)
    requires |exchanges| < |rounds| && Clean(rounds[|exchanges|]) && x.results == results
    requires var calls := CallsOf(rounds[|exchanges|].chunks);
      calls != [] && |t.ran| == |calls| && Replied(results, calls, t.ran)
    requires Worked(env, since, rounds, exchanges, rounds[|exchanges|].chunks, Work(whole, t, []), events)
    ensures Worked(env, since, rounds, exchanges + [x], [], Work(whole + [t], NO_TOOLS, []), events)
  {
    hide CallsOf, Dispatched, Replied, Blocks, FirstCall, DeltasOf, LogOf, AnsweredBy;
    var k, chunks := |exchanges|, rounds[|exchanges|].chunks;
    NowAnswered(env, since, rounds, exchanges, chunks, Work(whole, t, []), events, x);
    NoDispatch(env, CallsOf([]), FirstCall(rounds, k + 1), 0);
    NoChunks();
    LogGrows(rounds, whole, t);
    assert Blocks(t.ran) + [] == Blocks(t.ran) && events + [] == events;
    forall j | 0 <= j <= k ensures AnsweredBy(env, since, rounds, j, (exchanges + [x])[j], (whole + [t])[j]) {
      assert j < k ==> (exchanges + [x])[j] == exchanges[j] && (whole + [t])[j] == whole[j];
    }
  }

  lemma NowAnswered(env: Env, since: nat, rounds: seq<Round>, exchanges: seq<Exchange>, taken: seq<StreamEvent>,
                    work: Work, events: seq<Payload>, x: Exchange)
    requires |exchanges| < |rounds| && taken == rounds[|exchanges|].chunks && Clean(rounds[|exchanges|])
    requires var calls := CallsOf(taken);
      calls != [] && |work.last.ran| == |calls| && Replied(x.results, calls, work.last.ran)
    requires Worked(env, since, rounds, exchanges, taken, work, events)
    ensures AnsweredBy(env, since, rounds, |exchanges|, x, work.last)
  {
    hide CallsOf, Dispatched, Replied, Blocks, FirstCall, DeltasOf, LogOf;
  }

  lemma LogGrows(rounds: seq<Round>, whole: seq<ToolRound>, t: ToolRound)
    ensures LogOf(rounds, whole + [t]) == LogOf(rounds, whole) + DeltasOf(RoundAt(rounds, |whole|).chunks)
         + Blocks(t.ran)
  {
    hide DeltasOf, Blocks, RoundAt;
    assert (whole + [t])[..|whole|] == whole;
  }

  lemma RequestsGrow(user: string, rounds: seq<Round>, requests: seq<seq<Message>>, exchanges: seq<Exchange>,
                     x: Exchange)
    requires RequestsFollow(user, rounds, requests, exchanges) && |exchanges| < |rounds|
         && Follows(x, rounds[|exchanges|])
    ensures RequestsFollow(user, rounds, requests, exchanges + [x])
    ensures History(user, exchanges + [x]) == History(user, exchanges) + ([Assistant(x.text)] + x.results)
  {
    hide Follows;
    var after := exchanges + [x];
    assert after[..|exchanges|] == exchanges;
    forall k | 0 <= k < |requests| ensures requests[k] == History(user, after[..k]) {
      assert after[..k] == exchanges[..k];
    }
  }

  class SessionEngine {
    const sink: Sink
    const registered: bool
    const tools: Option<map<string, string>>    // None: no tool handler is wired
    const policy: Policy
    const outputBudgetBytes: nat
    var currentTurn: bool

    constructor (sink: Sink, registered: bool, tools: Option<map<string, string>>, policy: Policy,
                 outputBudgetBytes: nat)
      ensures this.sink == sink && this.registered == registered && this.tools == tools && !currentTurn
      ensures this.policy == policy && this.outputBudgetBytes == outputBudgetBytes
    {
      this.sink, this.registered, this.tools, this.policy := sink, registered, tools, policy;
      this.outputBudgetBytes, currentTurn := outputBudgetBytes, false;
    }

    function Settings(): Setup { Setup(if tools.Some? then tools.value else map[], policy, outputBudgetBytes) }

    /** Streams rounds and runs their tools until something ends the turn. */
    method ToolLoop(userMessage: string, rounds: seq<Round>, executions: nat -> Execution, approvals: nat -> Approval,
                    leaves: nat -> bool, seen: nat)
        returns (end: LoopEnd, requests: seq<seq<Message>>, exchanges: seq<Exchange>, consumed: seq<StreamEvent>,
                 yielded: seq<Payload>, usage: Usage, ghost taken: seq<StreamEvent>, ghost work: Work,
                 ghost events: seq<Payload>)
      requires sink.Valid()
      modifies sink
      ensures sink.Valid() && Grew(sink, old(sink.Now()), sink.Now(), events)
      ensures Streamed(end != HandlerThrew, events, consumed, yielded, usage)
      ensures var env := Env(Settings(), sink, executions, approvals);
        && Conversed(env, old(sink.ticks), userMessage, rounds, requests, exchanges, consumed, taken, work, events)
        && |requests| == |exchanges| + 1 <= |rounds| + 1
        && (end == HandlerThrew ==>
              HandlerFailed(env, old(sink.ticks), tools.Some?, rounds, |exchanges|, taken, work.last))
        && Earned(env, tools.Some?, end == HandlerThrew, rounds, |exchanges|, taken, work)
        && (end == LostDelta ==> TextNext(RoundAt(rounds, |exchanges|), taken))
      ensures Justified(end, sink, sink.ticks, leaves, seen, seen + |yielded|)
      ensures end.Ended? ==>
        && (end.stop == Cancelled <==> sink.Aborted())
        && Explained(RoundAt(rounds, |exchanges|), taken, tools.Some?, end.stop, end.code)
    {
      hide Justified, Stays, LeavesAt, Grew, Streamed, Conversed, AllTools, Accept, DeltasOf, TotalOf, TextOf, CallsOf,
           Blocks, History, Explained, Replied, Dispatched, ThrowsNext, EndAfterText, RoundAt, FirstCall, Earned, Clean,
           TextNext;
      ghost var env, since := Env(Settings(), sink, executions, approvals), sink.ticks;
      requests, exchanges, consumed, yielded, usage := [], [], [], [], Usage(0, 0);
      events, taken, work := [], [], Work([], NO_TOOLS, []);
      NothingAsked(env, since, userMessage, rounds);
      NoYields(leaves, seen);
      GrewNone(sink, sink.Now(), sink.Now());
      var permissions := new PermissionEngine(policy, sink);
      var router := new ToolRouter(if tools.Some? then tools.value else map[], permissions, outputBudgetBytes);
      var messages, round := [Message.User(userMessage)], 0;
      var call: nat := 0;
      while true
        invariant router.Ready() && router.sink == sink && router.Settings() == env.setup
        invariant fresh(router) && fresh(router.permissions)
        invariant Grew(sink, old(sink.Now()), sink.Now(), events) && since <= sink.ticks
        invariant router.nextCallId == call + 1
        invariant Streamed(true, events, consumed, yielded, usage)
        invariant Conversed(env, since, userMessage, rounds, requests, exchanges, consumed, [], work, events)
        invariant work == Work(work.whole, NO_TOOLS, []) && (work.whole != [] ==> tools.Some?)
        invariant |requests| == |exchanges| == round <= |rounds| && call == FirstCall(rounds, round)
        invariant messages == History(userMessage, exchanges) && Stays(leaves, seen, seen + |yielded|)
        decreases |rounds| - round
      {
        ghost var before := sink.Now();
        var script := RoundAt(rounds, round);
        var ended, some, deltas, text, calls, tokens := StreamRound(sink, script, leaves, seen + |yielded|);
        GrewOn(sink, old(sink.Now()), before, sink.Now(), events, deltas);
        TextRound(events, consumed, yielded, usage, some, tokens);
        Heard(env, since, userMessage, rounds, requests, exchanges, consumed, work.whole, events, some);
        assert |yielded + deltas| == |yielded| + |deltas|;
        TextJustified(ended, sink, sink.ticks, leaves, seen, seen + |yielded|, seen + |yielded| + |deltas|);
        requests := requests + [messages];
        taken := some;
        events, consumed, yielded := events + deltas, consumed + some, yielded + deltas;
        usage := Usage(usage.promptTokens + tokens.promptTokens, usage.completionTokens + tokens.completionTokens);
        RoundOver(env, rounds, round, ended, some, calls, work.whole, tools.Some?, sink.Aborted());
        if ended != Whole || sink.Aborted() || |calls| == 0 || tools == None {
          end := EndAfterText(ended, sink.Aborted());
          return;
        }
        before := sink.Now();
        var ran, results, block, after := Answer(router, calls, call, text, executions, approvals, userMessage, rounds,
                                                 requests, exchanges, consumed, work.whole, events, yielded, usage,
                                                 since);
        GrewOn(sink, old(sink.Now()), before, sink.Now(), events, block);
        ToolsJustified(ran, sink, sink.ticks, leaves, seen, seen + |yielded|);
        events, work := events + block, after;
        if ran != AllRun {
          end := EndAfterTools(ran);
          return;
        }
        exchanges, messages := exchanges + [Exchange(text, results)], messages + ([Assistant(text)] + results);
        call, round := call + |calls|, round + 1;
      }
    }

    /** Runs the tools that a round calls, for which everything else is known. */
    method Answer(router: ToolRouter, calls: seq<ToolCall>, call: nat, text: string, executions: nat -> Execution,
                  approvals: nat -> Approval, ghost userMessage: string, ghost rounds: seq<Round>,
                  ghost requests: seq<seq<Message>>, ghost exchanges: seq<Exchange>,
                  ghost consumed: seq<StreamEvent>, ghost whole: seq<ToolRound>, ghost events: seq<Payload>,
                  ghost yielded: seq<Payload>, ghost usage: Usage, ghost since: nat)
        returns (ran: ToolsEnd, results: seq<Message>, ghost block: seq<Payload>, ghost work: Work)
      requires router.Ready() && router.sink == sink && router.Settings() == Settings() && tools.Some?
      requires |exchanges| < |rounds| && since <= sink.ticks
      requires var round := rounds[|exchanges|];
        && Clean(round) && calls == CallsOf(round.chunks) != [] && text == TextOf(round.chunks)
        && Conversed(Env(Settings(), sink, executions, approvals), since, userMessage, rounds, requests, exchanges,
                     consumed, round.chunks, Work(whole, NO_TOOLS, []), events)
      requires Streamed(true, events, consumed, yielded, usage)
      requires call == FirstCall(rounds, |exchanges|) && router.nextCallId == call + 1
      modifies sink, router, router.permissions
      ensures router.Ready() && Grew(sink, old(sink.Now()), sink.Now(), block)
      ensures Streamed(ran != Threw, events + block, consumed, yielded, usage)
      ensures var (env, k) := (Env(Settings(), sink, executions, approvals), |exchanges|);
        var taken := rounds[k].chunks;
        && if ran == AllRun then
             && var x := Exchange(text, results);
             && work == Work(work.whole, NO_TOOLS, []) && router.nextCallId == call + |calls| + 1
             && Conversed(env, since, userMessage, rounds, requests, exchanges + [x], consumed, [], work,
                          events + block)
             && History(userMessage, exchanges + [x])
                == History(userMessage, exchanges) + ([Assistant(text)] + results)
             && call + |calls| == FirstCall(rounds, k + 1)
           else
             && Conversed(env, since, userMessage, rounds, requests, exchanges, consumed, taken, work, events + block)
             && Earned(env, true, ran == Threw, rounds, k, taken, work)
             && (ran == CutShort ==> sink.Aborted())
             && (ran == Threw ==> HandlerFailed(env, since, true, rounds, k, taken, work.last))
    {
      hide Grew, Streamed, Conversed, AllTools, Accept, DeltasOf, TotalOf, TextOf, CallsOf, Blocks, History, Replied,
           Dispatched, ThrowsNext, FirstCall, Earned, Clean, StartOf;
      ghost var env, k := Env(Settings(), sink, executions, approvals), |exchanges|;
      ghost var taken := rounds[k].chunks;
      ghost var t, torn;
      ran, results, t, torn := RunTools(sink, router, calls, call, executions, approvals);
      block := Blocks(t.ran) + torn;
      AfterTools(ran != Threw, events, consumed, yielded, usage, Blocks(t.ran), torn);
      ToolsRan(env, since, userMessage, rounds, requests, exchanges, consumed, taken, whole, events, t, torn);
      work := Work(whole, t, torn);
      if ran != AllRun {
        EarnedByTools(env, ran, rounds, k, taken, whole, t, torn, sink.ticks);
        return;
      }
      Answered(env, since, userMessage, rounds, requests, exchanges, consumed, whole, events + block, t, results);
      work := Work(whole + [t], NO_TOOLS, []);
    }

    /** Commits an event and, when the store took it, yields it. */
    method EmitAndYield(e: Payload, yielded: seq<Payload>) returns (ok: bool, after: seq<Payload>)
      requires sink.Valid()
      modifies sink
      ensures sink.Valid() && after == yielded + (if ok then [e] else [])
      ensures !e.ModelDelta? ==> Added(sink, old(sink.Now()), sink.Now(), if ok then [e] else [])
      ensures sink.ticks == old(sink.ticks) + 1 && (ok <==> !sink.fails(sink.ticks - 1))
      ensures if ok then sink.orphan == None && old(sink.orphan) == None
              else sink.orphan == old(sink.orphan) || (old(sink.orphan) == None && sink.orphan == Some(e))
    {
      ok := sink.Emit(e);
      after := if ok then yielded + [e] else yielded;
    }

    /** Runs one turn for a consumer that takes every event, or leaves at the first yield for which `leaves` says so. */
    method RunTurn(userMessage: string, preflight: Option<string>, rounds: seq<Round>, executions: nat -> Execution,
                   approvals: nat -> Approval, leaves: nat -> bool)
        returns (end: TurnEnd, state: TurnState, yielded: seq<Payload>, requests: seq<seq<Message>>,
                 exchanges: seq<Exchange>, consumed: seq<StreamEvent>, ghost taken: seq<StreamEvent>, ghost work: Work,
                 ghost events: seq<Payload>)
      requires sink.Valid()
      modifies this, sink
      ensures sink.Valid()
      // guards: an unknown session or one with a turn under way is refused and nothing happens
      ensures end == UnknownSession <==> !registered
      ensures end == AlreadyActive <==> registered && old(currentTurn)
      ensures end in {UnknownSession, AlreadyActive} ==>
        events == [] && currentTurn == old(currentTurn) && sink.Now() == old(sink.Now())
      ensures end !in {UnknownSession, AlreadyActive} ==> !currentTurn
      // the log, allowed by the grammar and complete exactly when the turn's completion was stored; and the
      // stream, which is what is committed without the tools' events
      ensures Committed(sink, old(sink.Now()), sink.Now(), leaves, end, events, yielded)
      ensures Opens(userMessage, yielded)
      ensures Completed(events) ==>
        ToldBy(end, userMessage, preflight, tools.Some?, rounds, |exchanges|, consumed, taken, yielded, state, sink,
               sink.ticks)
      // the log on disk, which may hold one more event than was committed and yielded
      ensures old(sink.orphan) == None ==>
        LeftOnDisk(old(sink.Persisted()), sink.Persisted(), events, yielded, sink.orphan)
      // what an exception comes from
      ensures |exchanges| <= |rounds|
      ensures var env := Env(Settings(), sink, executions, approvals);
        Caused(end, env, old(sink.ticks), sink.ticks, userMessage, preflight, tools.Some?, rounds, |exchanges|,
               consumed, taken, work, events, yielded)
      // the provider and the tools: every request begins with the message that is stored and continues the
      // last one with that round's text and results; every result and event is that of its own dispatch
      ensures var env := Env(Settings(), sink, executions, approvals);
        && Conversed(env, old(sink.ticks), userMessage, rounds, requests, exchanges, consumed, taken, work,
                     Inner(events))
        && Earned(env, tools.Some?, end == HandlerError, rounds, |exchanges|, taken, work)
      ensures forall k | 0 <= k < |requests| :: requests[k] != [] && requests[k][0] == Message.User(userMessage)
      ensures end == Exhausted ==> |requests| == |exchanges| + (if preflight == None then 1 else 0)
      // when nothing interferes, what the log is in the end can be told from the inputs
      ensures Calm(sink, leaves) && registered && !old(currentTurn) ==>
        var env := Env(Settings(), sink, executions, approvals);
        && (Completed(events) <==> preflight.Some? || !ApproverThrows(env, tools.Some?, rounds))
        && end == if Completed(events) then Exhausted else HandlerError
    {
      hide Conversed, Committed, Completed, FirstCall, Inner, CallsOf, ToldBy, LeftOnDisk, Caused, Earned, Calm,
           ApproverThrows, OrphanFits, Opens;
      ghost var env, since := Env(Settings(), sink, executions, approvals), sink.ticks;
      ghost var start, was := sink.Now(), sink.orphan;
      yielded, requests, exchanges, consumed, state := [], [], [], [], IdleState;
      events, taken, work := [], [], Work([], NO_TOOLS, []);
      if !registered || currentTurn {
        end := if !registered then UnknownSession else AlreadyActive;
        Refusal(env, sink, leaves, end, since, userMessage, preflight, tools.Some?, rounds, start);
        NothingAsked(env, since, userMessage, rounds);
        NothingEarned(env, tools.Some?, rounds);
        FitsInside(was, was, events);
      } else {
        currentTurn := true;
        assert Legal(state, RunningState);
        end, state, yielded, requests, exchanges, consumed, taken, work, events :=
          Turn(userMessage, preflight, rounds, executions, approvals, leaves);
        currentTurn := false;
        CompletedIff(env, since, sink.ticks, start, sink.Now(), leaves, end, userMessage, preflight, tools.Some?,
                     rounds, requests, exchanges, consumed, taken, work, events, yielded, state);
      }
      OnDisk(sink, start, sink.Now(), leaves, end, events, yielded, was, sink.orphan);
      RequestsBegin(env, since, userMessage, rounds, requests, exchanges, consumed, taken, work, Inner(events));
    }

    /** The turn behind the guards. */
    method Turn(userMessage: string, preflight: Option<string>, rounds: seq<Round>, executions: nat -> Execution,
                approvals: nat -> Approval, leaves: nat -> bool)
        returns (end: TurnEnd, state: TurnState, yielded: seq<Payload>, requests: seq<seq<Message>>,
                 exchanges: seq<Exchange>, consumed: seq<StreamEvent>, ghost taken: seq<StreamEvent>, ghost work: Work,
                 ghost events: seq<Payload>)
      requires sink.Valid()
      modifies sink
      ensures sink.Valid() && end !in {UnknownSession, AlreadyActive}
      ensures Committed(sink, old(sink.Now()), sink.Now(), leaves, end, events, yielded)
      ensures Opens(userMessage, yielded)
      ensures Completed(events) ==>
        ToldBy(end, userMessage, preflight, tools.Some?, rounds, |exchanges|, consumed, taken, yielded, state, sink,
               sink.ticks)
      ensures OrphanFits(old(sink.orphan), sink.orphan, events)
      ensures |exchanges| <= |rounds|
      ensures var env := Env(Settings(), sink, executions, approvals);
        && Caused(end, env, old(sink.ticks), sink.ticks, userMessage, preflight, tools.Some?, rounds, |exchanges|,
                  consumed, taken, work, events, yielded)
        && Conversed(env, old(sink.ticks), userMessage, rounds, requests, exchanges, consumed, taken, work,
                     Inner(events))
        && Earned(env, tools.Some?, end == HandlerError, rounds, |exchanges|, taken, work)
      ensures end == Exhausted ==> |requests| == |exchanges| + (if preflight == None then 1 else 0)
    {
      hide Conversed, Stays, LeavesAt, Added, Streamed, Accept, WithoutTools, DeltasOf, TotalOf, Explained, ThrowsNext,
           Completed, FirstCall, Inner, CallsOf, RefusedLast, Opened, ToldBy, RoundAt, CompletedBy, Uncompleted,
           Closed, TextNext, HandlerFailed, OrphanFits, Earned, Opens;
      ghost var env, since := Env(Settings(), sink, executions, approvals), sink.ticks;
      ghost var was := sink.orphan;
      requests, exchanges, consumed, state := [], [], [], RunningState;
      taken, work := [], Work([], NO_TOOLS, []);
      NothingAsked(env, since, userMessage, rounds);
      NothingEarned(env, tools.Some?, rounds);
      var ok, left;
      ok, left, yielded := Open(userMessage, leaves);
      events := yielded;
      Short(userMessage, events, sink, sink.ticks);
      LastRefused(sink, since, sink.ticks);
      if left || !ok {
        end := if left then Left else StoreFailure;
        FitsInside(was, sink.orphan, events);
        OpensSo(userMessage, yielded);
        return;
      }
      ghost var before := sink.Now();
      var loop, total;
      ghost var inner;
      loop, requests, exchanges, consumed, total, taken, work, inner :=
        Converse(userMessage, preflight, rounds, executions, approvals, leaves);
      Later(env, since, before.ticks, userMessage, rounds, requests, exchanges, consumed, taken, work, inner,
            tools.Some?);
      GrewOn(sink, old(sink.Now()), before, sink.Now(), events, inner);
      yielded, events := yielded + DeltasOf(consumed), events + inner;
      if loop == HandlerThrew || loop == ConsumerLeft {
        end := if loop == ConsumerLeft then Left else HandlerError;
        StillOpen(yielded, end, sink, sink.ticks);
        FitsInside(was, sink.orphan, events);
        OpensSo(userMessage, yielded);
        return;
      }
      before := sink.Now();
      ghost var mid := sink.orphan;
      var more;
      end, state, more := Finish(userMessage, preflight, rounds, loop, |exchanges|, consumed, total, leaves, taken,
                                 inner);
      LastRefused(sink, since, sink.ticks);
      AddedOn(sink, old(sink.Now()), before, sink.Now(), events, more);
      FitsClosed(was, mid, sink.orphan, events, more);
      OpensSo(userMessage, yielded + more);
      yielded, events := yielded + more, events + more;
    }

    /** The completion: commits it, and yields it when the store took it. */
    method Finish(userMessage: string, preflight: Option<string>, rounds: seq<Round>, loop: LoopEnd, whole: nat,
                  consumed: seq<StreamEvent>, total: Usage, leaves: nat -> bool, ghost taken: seq<StreamEvent>,
                  ghost inner: seq<Payload>)
        returns (end: TurnEnd, state: TurnState, more: seq<Payload>)
      requires sink.Valid() && (loop.Ended? || loop == LostDelta) && total == TotalOf(consumed)
      requires Accept(BetweenTurns, Opened(userMessage) + inner) == Some(InTurn)
           && WithoutTools(inner) == DeltasOf(consumed)
      requires WithoutTools(Opened(userMessage) + inner) == Opened(userMessage) + DeltasOf(consumed)
      requires Stays(leaves, 0, 2 + |DeltasOf(consumed)|)
      requires loop == LostDelta ==>
        sink.ticks > 0 && sink.fails(sink.ticks - 1) && TextNext(RoundAt(rounds, whole), taken)
      requires loop.Ended? ==>
        if preflight.Some? then whole == 0 && consumed == [] && loop == Ended(Error, preflight)
        else
          && (loop.stop == Cancelled <==> sink.Aborted())
          && Explained(RoundAt(rounds, whole), taken, tools.Some?, loop.stop, loop.code)
      modifies sink
      ensures sink.Valid() && Added(sink, old(sink.Now()), sink.Now(), more) && sink.ticks == old(sink.ticks) + 1
      ensures end in {Exhausted, Left, StoreFailure}
      ensures var (events, told) := (Opened(userMessage) + inner + more,
           Opened(userMessage) + DeltasOf(consumed) + more);
        && Accept(BetweenTurns, events).Some? && WithoutTools(events) == told && Inner(events) == inner
        && (Completed(events) <==> CompletedBy(end, told, sink, sink.ticks))
        && (if end == Left then LeavesAt(leaves, 0, |told|) else Stays(leaves, 0, |told|))
        && (Completed(events) <==> more != [])
        && (Completed(events) ==>
              ToldBy(end, userMessage, preflight, tools.Some?, rounds, whole, consumed, taken, told, state, sink,
                     sink.ticks))
        && Closed(old(sink.orphan), sink.orphan, Opened(userMessage) + inner, more)
      ensures end == StoreFailure ==> sink.fails(sink.ticks - 1) || (old(sink.ticks) > 0 && sink.fails(sink.ticks - 2))
    {
      hide Stays, LeavesAt, Added, Accept, WithoutTools, DeltasOf, TotalOf, Explained, Completed, Inner, Opened, Told,
           RoundAt, ToldBy, Closed, TextNext;
      var stop, code := Error, None;
      if loop != LostDelta {
        stop, code := loop.stop, loop.code;
      }
      assert Legal(RunningState, StateOf(stop));
      state := StateOf(stop);
      var usage := if loop == LostDelta || total == Usage(0, 0) then None else Some(total);
      var completed := TurnCompleted(stop, code, usage);
      var left;
      ghost var aborted := sink.Aborted();
      left, more := Complete(completed, Opened(userMessage) + DeltasOf(consumed), leaves, Opened(userMessage) + inner);
      Closing(userMessage, inner, consumed, more);
      end := if left then Left else if loop == LostDelta || more == [] then StoreFailure else Exhausted;
      if more != [] {
        assert more == [completed];
        ghost var told := Opened(userMessage) + DeltasOf(consumed) + more;
        if loop != LostDelta {
          ToldSo(userMessage, preflight, tools.Some?, rounds, whole, consumed, taken, completed, aborted);
        }
        ToldSoBy(if loop == LostDelta then StoreFailure else Exhausted, userMessage, preflight, tools.Some?, rounds,
                 whole, consumed, taken, told, state, sink, sink.ticks, loop == LostDelta);
      }
    }

    /** What is between the opening and the completion: nothing after a failed preflight check, else the rounds. */
    method Converse(userMessage: string, preflight: Option<string>, rounds: seq<Round>, executions: nat -> Execution,
                    approvals: nat -> Approval, leaves: nat -> bool)
        returns (loop: LoopEnd, requests: seq<seq<Message>>, exchanges: seq<Exchange>, consumed: seq<StreamEvent>,
                 usage: Usage, ghost taken: seq<StreamEvent>, ghost work: Work, ghost inner: seq<Payload>)
      requires sink.Valid() && Stays(leaves, 0, 2)
      requires Accept(BetweenTurns, Opened(userMessage)) == Some(InTurn)
           && WithoutTools(Opened(userMessage)) == Opened(userMessage)
      modifies sink
      ensures sink.Valid() && Grew(sink, old(sink.Now()), sink.Now(), inner)
      ensures var env := Env(Settings(), sink, executions, approvals);
        && Conversed(env, old(sink.ticks), userMessage, rounds, requests, exchanges, consumed, taken, work, inner)
        && |exchanges| <= |rounds| && (preflight == None ==> |requests| == |exchanges| + 1)
        && (loop == HandlerThrew ==>
              && preflight == None
              && HandlerFailed(env, old(sink.ticks), tools.Some?, rounds, |exchanges|, taken, work.last))
        && Earned(env, tools.Some?, loop == HandlerThrew, rounds, |exchanges|, taken, work)
        && (loop == LostDelta ==> TextNext(RoundAt(rounds, |exchanges|), taken))
      ensures Accept(BetweenTurns, Opened(userMessage) + inner).Some?
      ensures loop != HandlerThrew ==> Accept(BetweenTurns, Opened(userMessage) + inner) == Some(InTurn)
      ensures WithoutTools(Opened(userMessage) + inner) == Opened(userMessage) + DeltasOf(consumed)
      ensures WithoutTools(inner) == DeltasOf(consumed) && usage == TotalOf(consumed)
      ensures var (events, told) := (Opened(userMessage) + inner, Opened(userMessage) + DeltasOf(consumed));
        && Inner(events) == inner && !Completed(events) && Uncompleted(events)
        && !told[|told| - 1].TurnCompleted?
        && (if loop == ConsumerLeft then LeavesAt(leaves, 0, |told|) else Stays(leaves, 0, |told|))
      ensures loop == LostDelta ==> sink.ticks > 0 && sink.fails(sink.ticks - 1)
      ensures preflight.Some? ==>
        loop == Ended(Error, preflight) && requests == [] && exchanges == [] && consumed == []
      ensures preflight == None && loop.Ended? ==>
        && (loop.stop == Cancelled <==> sink.Aborted())
        && Explained(RoundAt(rounds, |exchanges|), taken, tools.Some?, loop.stop, loop.code)
    {
      hide Conversed, Stays, LeavesAt, Grew, Accept, WithoutTools, DeltasOf, TotalOf, Explained, ThrowsNext, Completed,
           FirstCall, Inner, CallsOf, Justified, Uncompleted, Earned;
      ghost var env, since := Env(Settings(), sink, executions, approvals), sink.ticks;
      requests, exchanges, consumed, usage, loop := [], [], [], Usage(0, 0), Ended(Error, preflight);
      inner, taken, work := [], [], Work([], NO_TOOLS, []);
      NothingAsked(env, since, userMessage, rounds);
      NothingEarned(env, tools.Some?, rounds);
      GrewNone(sink, sink.Now(), sink.Now());
      if preflight == None {
        var deltas;
        loop, requests, exchanges, consumed, deltas, usage, taken, work, inner :=
          ToolLoop(userMessage, rounds, executions, approvals, leaves, 2);
        LoopLeaves(loop, leaves, 2, 2 + |deltas|, sink, sink.ticks);
        Later(env, since, since, userMessage, rounds, requests, exchanges, consumed, taken, work, inner, tools.Some?);
      }
      Middle(loop != HandlerThrew, Opened(userMessage), inner, consumed, DeltasOf(consumed), usage);
      NotYet(userMessage, inner, consumed);
    }

    /** Commits the turn's last event and, when the store took it, yields it. */
    method Complete(last: Payload, yielded: seq<Payload>, leaves: nat -> bool, ghost events: seq<Payload>)
        returns (left: bool, more: seq<Payload>)
      requires sink.Valid() && last.TurnCompleted? && Accept(BetweenTurns, events) == Some(InTurn)
      requires yielded == WithoutTools(events) && Stays(leaves, 0, |yielded|)
      modifies sink
      ensures sink.Valid() && Added(sink, old(sink.Now()), sink.Now(), more) && more <= [last]
      ensures Accept(BetweenTurns, events + more) == Some(if more == [] then InTurn else BetweenTurns)
      ensures WithoutTools(events + more) == yielded + more
      ensures if left then LeavesAt(leaves, 0, |yielded + more|) else Stays(leaves, 0, |yielded + more|)
      ensures sink.ticks == old(sink.ticks) + 1 && (more == [] <==> sink.fails(sink.ticks - 1)) && (left ==> more != [])
      ensures Closed(old(sink.orphan), sink.orphan, events, more)
    {
      hide Added, Accept, WithoutTools, Stays, LeavesAt;
      ghost var was := sink.orphan;
      var ok, after := EmitAndYield(last, []);
      more := if ok then [last] else [];
      OneMoreYield(leaves, 0, |yielded|);
      Epilogue(events, last, ok);
      CloseWith(was, sink.orphan, events, last, ok);
      left := ok && leaves(|yielded| + 1);
    }

    /** The turn's first two events. */
    method Open(userMessage: string, leaves: nat -> bool) returns (ok: bool, left: bool, yielded: seq<Payload>)
      requires sink.Valid()
      modifies sink
      ensures sink.Valid() && Grew(sink, old(sink.Now()), sink.Now(), yielded)
      ensures WithoutTools(yielded) == yielded && Accept(BetweenTurns, yielded).Some?
      ensures yielded <= Opened(userMessage)
      ensures ok && !left ==> yielded == Opened(userMessage) && Accept(BetweenTurns, yielded) == Some(InTurn)
      ensures if left then ok && LeavesAt(leaves, 0, |yielded|) else Stays(leaves, 0, |yielded|)
      ensures old(sink.ticks) < sink.ticks && (!ok ==> sink.fails(sink.ticks - 1))
    {
      hide Added, Accept, WithoutTools;
      var started := TurnStarted(if |userMessage| <= 80 then userMessage else userMessage[..80]);
      ok, yielded := EmitAndYield(started, []);
      assert yielded == if ok then [started] else [];
      left := ok && leaves(1);
      if ok && !left {
        ghost var before := sink.Now();
        ok, yielded := EmitAndYield(UserMessage(userMessage), yielded);
        GrewOn(sink, old(sink.Now()), before, sink.Now(), [started], if ok then [UserMessage(userMessage)] else []);
        left := ok && leaves(2);
      }
      Prologue(yielded);
    }
  }

  /** The tokens of the chunks are reported, but not if there are none. */
  predicate Counts(usage: Option<Usage>, chunks: seq<StreamEvent>) {
    var total := TotalOf(chunks);
    && (usage.Some? <==> total.promptTokens > 0 || total.completionTokens > 0)
    && (usage.Some? ==> usage.value == total)
  }

  predicate Settles(state: TurnState, stop: StopReason) {
    && (state == CompletedState <==> stop == Final)
    && (state == CancelledState <==> stop == Cancelled)
    && (state == FailedState <==> stop == Error)
  }

  /**
   The stream of a turn that ended in the ordinary way: its opening, the texts of the chunks that were
   consumed, and the completion with the reason the turn stopped, after `whole` rounds and what was
   `taken` of the next, and the tokens of those chunks.
   */
  predicate Told(userMessage: string, preflight: Option<string>, answered: bool, rounds: seq<Round>, whole: nat,
                 consumed: seq<StreamEvent>, taken: seq<StreamEvent>, yielded: seq<Payload>, state: TurnState,
                 aborted: bool) {
    && |yielded| >= 3
    && var last := yielded[|yielded| - 1];
    && yielded[..|yielded| - 1] == Opened(userMessage) + DeltasOf(consumed)
    && last.TurnCompleted?
    && Counts(last.usage, consumed) && Settles(state, last.stopReason)
    && (last.stopReason == Cancelled <==> preflight == None && aborted)
    && if preflight.Some? then
         whole == 0 && consumed == [] && last.stopReason == Error && last.errorCode == preflight
       else
         Explained(RoundAt(rounds, whole), taken, answered, last.stopReason, last.errorCode)
  }

  /** The stream of a turn whose completion followed a refused delta: it reports neither a code nor the tokens. */
  predicate ToldLost(userMessage: string, rounds: seq<Round>, whole: nat, consumed: seq<StreamEvent>,
                     taken: seq<StreamEvent>, yielded: seq<Payload>, state: TurnState, sink: Sink, until: nat) {
    && yielded == Opened(userMessage) + DeltasOf(consumed) + [TurnCompleted(Error, None, None)]
    && state == FailedState && TextNext(RoundAt(rounds, whole), taken) && until > 1 && sink.fails(until - 2)
  }

  /** What a turn whose completion is stored has told its consumer, by how it ended: it may leave after either. */
  predicate ToldBy(end: TurnEnd, userMessage: string, preflight: Option<string>, answered: bool, rounds: seq<Round>,
                   whole: nat, consumed: seq<StreamEvent>, taken: seq<StreamEvent>, yielded: seq<Payload>,
                   state: TurnState, sink: Sink, until: nat) {
    && until > 0
    && var (ordinary, lost) :=
         (Told(userMessage, preflight, answered, rounds, whole, consumed, taken, yielded, state,
               sink.AbortedAt(until - 1)),
          ToldLost(userMessage, rounds, whole, consumed, taken, yielded, state, sink, until));
       match end
       case Exhausted => ordinary
       case StoreFailure => lost
       case _ => ordinary || lost
  }

  lemma ToldSo(userMessage: string, preflight: Option<string>, answered: bool, rounds: seq<Round>, whole: nat,
               consumed: seq<StreamEvent>, taken: seq<StreamEvent>, last: Payload, aborted: bool)
    requires last.TurnCompleted? && Counts(last.usage, consumed)
         && (last.stopReason == Cancelled <==> preflight == None && aborted)
    requires if preflight.Some? then
        whole == 0 && consumed == [] && last.stopReason == Error && last.errorCode == preflight
      else Explained(RoundAt(rounds, whole), taken, answered, last.stopReason, last.errorCode)
    ensures Told(userMessage, preflight, answered, rounds, whole, consumed, taken,
         Opened(userMessage) + DeltasOf(consumed) + [last],
                 StateOf(last.stopReason), aborted)
  {
    hide Explained, DeltasOf, Counts;
    var yielded := Opened(userMessage) + DeltasOf(consumed) + [last];
    assert yielded[..|yielded| - 1] == Opened(userMessage) + DeltasOf(consumed);
  }

  lemma ToldSoBy(end: TurnEnd, userMessage: string, preflight: Option<string>, answered: bool, rounds: seq<Round>,
                 whole: nat, consumed: seq<StreamEvent>, taken: seq<StreamEvent>, yielded: seq<Payload>,
                 state: TurnState, sink: Sink, until: nat, lost: bool)
    requires until > 0 && end == (if lost then StoreFailure else Exhausted)
    requires if lost then ToldLost(userMessage, rounds, whole, consumed, taken, yielded, state, sink, until)
      else Told(userMessage, preflight, answered, rounds, whole, consumed, taken, yielded, state,
                sink.AbortedAt(until - 1))
    ensures forall e | e in {end, Left} ::
      ToldBy(e, userMessage, preflight, answered, rounds, whole, consumed, taken, yielded, state, sink, until)
  {
    hide Told, ToldLost;
  }

  /** A turn begins with a preview of at most 80 characters of the user's message, and then the message itself. */
  predicate Opens(userMessage: string, told: seq<Payload>) {
    && (|told| > 0 ==>
          && told[0].TurnStarted? && told[0].promptPreview <= userMessage
          && |told[0].promptPreview| == if |userMessage| < 80 then |userMessage| else 80)
    && (|told| > 1 ==> told[1] == UserMessage(userMessage))
  }

  lemma OpensSo(userMessage: string, told: seq<Payload>)
    requires told <= Opened(userMessage) || Opened(userMessage) <= told
    ensures Opens(userMessage, told)
  {
  }

  function Opened(userMessage: string): (events: seq<Payload>)
    ensures |events| == 2
  {
    [TurnStarted(if |userMessage| <= 80 then userMessage else userMessage[..80]), UserMessage(userMessage)]
  }

  /**
   What the rounds committed, against what their chunks say. Unless a handler threw (`whole`), no tool
   is left half way.
   */
  predicate Streamed(whole: bool, events: seq<Payload>, consumed: seq<StreamEvent>, yielded: seq<Payload>,
                     usage: Usage) {
    && Accept(InTurn, events).Some? && (whole ==> Accept(InTurn, events) == Some(InTurn))
    && yielded == WithoutTools(events) == DeltasOf(consumed)
    && usage == TotalOf(consumed)
  }

  lemma NothingAsked(env: Env, since: nat, user: string, rounds: seq<Round>)
    ensures Conversed(env, since, user, rounds, [], [], [], [], Work([], NO_TOOLS, []), [])
    ensures History(user, []) == [Message.User(user)] && FirstCall(rounds, 0) == 0
    ensures DeltasOf([]) == [] && TotalOf([]) == Usage(0, 0)
    ensures Streamed(true, [], [], [], Usage(0, 0))
  {
    NoDispatch(env, [], 0, 0);
  }

  lemma NothingEarned(env: Env, answered: bool, rounds: seq<Round>)
    ensures Earned(env, answered, false, rounds, 0, [], Work([], NO_TOOLS, []))
  {
  }

  lemma TextRound(events: seq<Payload>, consumed: seq<StreamEvent>, yielded: seq<Payload>, usage: Usage,
                  some: seq<StreamEvent>, tokens: Usage)
    requires Streamed(true, events, consumed, yielded, usage) && tokens == TotalOf(some)
    ensures Streamed(true, events + DeltasOf(some), consumed + some, yielded + DeltasOf(some),
                     Usage(usage.promptTokens + tokens.promptTokens, usage.completionTokens + tokens.completionTokens))
  {
    hide Accept, WithoutTools, DeltasOf, TotalOf;
    DeltasInTurn(some);
    AcceptJoin(InTurn, events, DeltasOf(some));
    WithoutToolsJoin(events, DeltasOf(some));
    JoinChunks(consumed, some);
  }

  lemma AfterTools(whole: bool, events: seq<Payload>, consumed: seq<StreamEvent>, yielded: seq<Payload>, usage: Usage,
                   blocks: seq<Payload>, torn: seq<Payload>)
    requires Streamed(true, events, consumed, yielded, usage) && AllTools(blocks + torn)
    requires Accept(InTurn, blocks) == Some(InTurn) && Accept(InTurn, blocks + torn).Some? && (whole ==> torn == [])
    ensures Streamed(whole, events + (blocks + torn), consumed, yielded, usage)
  {
    hide Accept, WithoutTools;
    var block := blocks + torn;
    assert whole ==> block == blocks;
    AcceptJoin(InTurn, events, block);
    OnlyTools(block);
    WithoutToolsJoin(events, block);
    assert WithoutTools(events) + [] == WithoutTools(events);
  }

  lemma LoopLeaves(loop: LoopEnd, leaves: nat -> bool, from: nat, to: nat, sink: Sink, until: nat)
    requires from <= to && Stays(leaves, 0, from) && Justified(loop, sink, until, leaves, from, to)
    ensures if loop == ConsumerLeft then LeavesAt(leaves, 0, to) else Stays(leaves, 0, to)
    ensures loop == LostDelta ==> until > 0 && sink.fails(until - 1)
  {
    StaysOn(leaves, 0, from, to);
  }

  lemma Later(env: Env, since: nat, later: nat, user: string, rounds: seq<Round>, requests: seq<seq<Message>>,
              exchanges: seq<Exchange>, consumed: seq<StreamEvent>, taken: seq<StreamEvent>, work: Work,
              events: seq<Payload>, answered: bool)
    requires since <= later && Conversed(env, later, user, rounds, requests, exchanges, consumed, taken, work, events)
    ensures Conversed(env, since, user, rounds, requests, exchanges, consumed, taken, work, events)
         && |exchanges| <= |rounds|
    ensures HandlerFailed(env, later, answered, rounds, |exchanges|, taken, work.last) ==>
      HandlerFailed(env, since, answered, rounds, |exchanges|, taken, work.last)
  {
    hide Dispatched, Replied, LogOf, Follows, RequestsFollow, ThrowsNext;
    forall j | 0 <= j < |exchanges| ensures AnsweredBy(env, since, rounds, j, exchanges[j], work.whole[j]) {
      assert AnsweredBy(env, later, rounds, j, exchanges[j], work.whole[j]);
    }
  }

  lemma Middle(whole: bool, opening: seq<Payload>, events: seq<Payload>, consumed: seq<StreamEvent>,
               yielded: seq<Payload>, usage: Usage)
    requires Accept(BetweenTurns, opening) == Some(InTurn) && Streamed(whole, events, consumed, yielded, usage)
    ensures Accept(BetweenTurns, opening + events).Some?
    ensures whole ==> Accept(BetweenTurns, opening + events) == Some(InTurn)
    ensures WithoutTools(opening + events) == WithoutTools(opening) + yielded
    ensures WithoutTools(events) == yielded == DeltasOf(consumed) && usage == TotalOf(consumed)
  {
    hide Accept, WithoutTools;
    AcceptJoin(BetweenTurns, opening, events);
    WithoutToolsJoin(opening, events);
  }

  /** Why the turn stops after a round's text, if it does. */
  lemma RoundOver(env: Env, rounds: seq<Round>, k: nat, ended: RoundEnd, some: seq<StreamEvent>,
                  calls: seq<ToolCall>, whole: seq<ToolRound>, answered: bool, aborted: bool)
    requires k <= |rounds| && (whole != [] ==> answered)
    requires ended.Stopped? ==>
      && ended.stop != Final && (ended.stop == Cancelled <==> aborted)
      && Explained(RoundAt(rounds, k), some, false, ended.stop, ended.code)
    requires ended == Whole ==>
      var round := RoundAt(rounds, k);
      Clean(round) && some == round.chunks && calls == CallsOf(round.chunks)
    ensures var end := EndAfterText(ended, aborted);
      && end != HandlerThrew && (end == LostDelta ==> ended == Lost)
      && (end.Ended? ==> ended.Stopped? || ended == Whole)
      && (end.Ended? && (ended.Stopped? || aborted || calls == [] || !answered) ==>
            (end.stop == Cancelled <==> aborted) && Explained(RoundAt(rounds, k), some, answered, end.stop, end.code))
    ensures ended == Whole ==>
      && Explained(RoundAt(rounds, k), some, answered, Cancelled, None)
      && (calls != [] ==> k < |rounds| && RoundAt(rounds, k) == rounds[k])
    ensures Earned(env, answered, false, rounds, k, some, Work(whole, NO_TOOLS, []))
  {
  }

  // ---- when a turn's log is complete ----

  predicate Completed(events: seq<Payload>) { events != [] && Accept(BetweenTurns, events) == Some(BetweenTurns) }

  /**
   Told from how the turn ended: an exhausted turn is complete, one whose consumer left is if it left at
   the completion, one with a store failure is if its last append was stored, and no other is.
   */
  predicate CompletedBy(end: TurnEnd, yielded: seq<Payload>, sink: Sink, until: nat) {
    match end
    case Exhausted => true
    case Left => yielded != [] && yielded[|yielded| - 1].TurnCompleted?
    case StoreFailure => until > 0 && !sink.fails(until - 1)
    case _ => false
  }

  /**
   What a turn commits and yields: a log that the grammar allows, which is complete exactly as `CompletedBy`
   tells, and for the consumer the same without the tools' events, up to the yield at which it leaves.
   */
  predicate Committed(sink: Sink, start: Trace, now: Trace, leaves: nat -> bool, end: TurnEnd, events: seq<Payload>,
                      yielded: seq<Payload>) {
    && Added(sink, start, now, events) && Accept(BetweenTurns, events).Some?
    && (Completed(events) <==> CompletedBy(end, yielded, sink, now.ticks))
    && yielded == WithoutTools(events)
    && if end == Left then LeavesAt(leaves, 0, |yielded|) else Stays(leaves, 0, |yielded|)
  }

  /** No completion anywhere. */
  predicate Uncompleted(events: seq<Payload>) { forall e | e in events :: !e.TurnCompleted? }

  /** The last append was refused, or the one before it. */
  predicate RefusedLast(sink: Sink, since: nat, until: nat) {
    since < until && (sink.fails(until - 1) || (since + 1 < until && sink.fails(until - 2)))
  }

  /**
   An exception has a cause: the last append was refused, or the delta before a stored completion; or the
   dispatch of the first unanswered call threw, and then no completion is even tried.
   */
  predicate Caused(end: TurnEnd, env: Env, since: nat, until: nat, user: string, preflight: Option<string>,
                   answered: bool, rounds: seq<Round>, whole: nat, consumed: seq<StreamEvent>, taken: seq<StreamEvent>,
                   work: Work, events: seq<Payload>, yielded: seq<Payload>)
    requires whole <= |rounds|
  {
    match end
    case StoreFailure => RefusedLast(env.sink, since, until)
    case HandlerError =>
      && preflight == None && HandlerFailed(env, since, answered, rounds, whole, taken, work.last)
      && yielded == Opened(user) + DeltasOf(consumed) && Uncompleted(events)
    case _ => true
  }

  lemma LastRefused(sink: Sink, since: nat, until: nat)
    ensures since < until && sink.fails(until - 1) ==> RefusedLast(sink, since, until)
    ensures since + 1 < until && sink.fails(until - 2) ==> RefusedLast(sink, since, until)
  {
  }

  /** A turn's events between its opening and its completion. */
  function Inner(events: seq<Payload>): seq<Payload> {
    if |events| < 2 then []
    else
      var e := events[2..];
      if e != [] && e[|e| - 1].TurnCompleted? then e[..|e| - 1] else e
  }

  lemma Short(user: string, events: seq<Payload>, sink: Sink, until: nat)
    requires events <= Opened(user)
    ensures !Completed(events) && Inner(events) == []
    ensures !CompletedBy(UnknownSession, events, sink, until) && !CompletedBy(AlreadyActive, events, sink, until)
    ensures !CompletedBy(Left, events, sink, until)
    ensures until > 0 && sink.fails(until - 1) ==> !CompletedBy(StoreFailure, events, sink, until)
  {
    if Completed(events) {
      CompletedLast(events);
    }
  }

  lemma StillOpen(told: seq<Payload>, end: TurnEnd, sink: Sink, until: nat)
    requires told != [] && !told[|told| - 1].TurnCompleted? && (end == Left || end == HandlerError)
    ensures !CompletedBy(end, told, sink, until)
  {
  }

  lemma {:induction false} TextIsNotCompletion(events: seq<Payload>, consumed: seq<StreamEvent>)
    requires WithoutTools(events) == DeltasOf(consumed)
    ensures forall e | e in events :: !e.TurnCompleted?
    ensures forall e | e in DeltasOf(consumed) :: !e.TurnCompleted?
  {
    OnlyDeltas(consumed);
    forall e | e in events ensures !e.TurnCompleted? {
      if !e.IsTool() {
        KeptByFilter(events, e);
      }
    }
  }

  lemma {:induction false} OnlyDeltas(consumed: seq<StreamEvent>)
    ensures forall e | e in DeltasOf(consumed) :: e.ModelDelta?
  {
    if consumed != [] {
      OnlyDeltas(consumed[..|consumed| - 1]);
    }
  }

  lemma {:induction false} KeptByFilter(events: seq<Payload>, e: Payload)
    requires e in events && !e.IsTool()
    ensures e in WithoutTools(events)
  {
    if e != events[|events| - 1] {
      KeptByFilter(events[..|events| - 1], e);
    }
  }

  /** Before its completion is stored a turn's log holds none, and neither does its stream. */
  lemma NotYet(user: string, inner: seq<Payload>, consumed: seq<StreamEvent>)
    requires WithoutTools(inner) == DeltasOf(consumed) && Accept(BetweenTurns, Opened(user) + inner).Some?
    ensures var (events, told) := (Opened(user) + inner, Opened(user) + DeltasOf(consumed));
      && Inner(events) == inner && !Completed(events)
      && Uncompleted(events) && told != [] && !told[|told| - 1].TurnCompleted?
  {
    hide Accept, WithoutTools;
    var events, told := Opened(user) + inner, Opened(user) + DeltasOf(consumed);
    TextIsNotCompletion(inner, consumed);
    assert events[2..] == inner;
    assert events[|events| - 1] in events && told[|told| - 1] in told;
    if Completed(events) {
      CompletedLast(events);
      NeverCreated(BetweenTurns, events);
    }
  }

  lemma {:induction false} NeverCreated(p: Phase, events: seq<Payload>)
    requires p != NoSession && Accept(p, events).Some?
    ensures Accept(p, events).value != NoSession && forall e | e in events :: !e.SessionCreated?
  {
    if events != [] {
      NeverCreated(p, events[..|events| - 1]);
    }
  }

  lemma Closing(user: string, inner: seq<Payload>, consumed: seq<StreamEvent>, more: seq<Payload>)
    requires WithoutTools(inner) == DeltasOf(consumed) && |more| <= 1 && (more != [] ==> more[0].TurnCompleted?)
    requires Accept(BetweenTurns, Opened(user) + inner + more) == Some(if more == [] then InTurn else BetweenTurns)
    ensures var (events, told) := (Opened(user) + inner + more, Opened(user) + DeltasOf(consumed) + more);
      && Inner(events) == inner && (Completed(events) <==> more != [])
      && told != [] && (told[|told| - 1].TurnCompleted? <==> more != [])
  {
    hide Accept, WithoutTools, DeltasOf, Opened, Inner;
    TextIsNotCompletion(inner, consumed);
    NoCompletionYet(user);
    var before, told := Opened(user) + inner, Opened(user) + DeltasOf(consumed);
    assert before[|before| - 1] in before && told[|told| - 1] in told;
    InnerOf(Opened(user), inner, more);
    assert before + [] == before && told + [] == told;
  }

  lemma NoCompletionYet(user: string)
    ensures forall e | e in Opened(user) :: !e.TurnCompleted?
  {
  }

  lemma InnerOf(opening: seq<Payload>, inner: seq<Payload>, more: seq<Payload>)
    requires |opening| == 2 && |more| <= 1 && (more != [] ==> more[0].TurnCompleted?)
    requires forall e | e in inner :: !e.TurnCompleted?
    ensures Inner(opening + inner + more) == inner
  {
    var e := (opening + inner + more)[2..];
    assert e == inner + more && (inner + more)[..|inner|] == inner;
    assert inner != [] ==> inner[|inner| - 1] in inner;
  }

  lemma CompletedLast(events: seq<Payload>)
    requires events != [] && Accept(BetweenTurns, events) == Some(BetweenTurns)
    ensures events[|events| - 1].TurnCompleted? || events[|events| - 1].SessionCreated?
  {
  }

  lemma Prologue(events: seq<Payload>)
    requires |events| <= 2 && (|events| > 0 ==> events[0].TurnStarted?) && (|events| > 1 ==> events[1].UserMessage?)
    ensures WithoutTools(events) == events
    ensures Accept(BetweenTurns, events) == Some([BetweenTurns, Opening, InTurn][|events|])
  {
    hide Accept, WithoutTools;
    Nothing();
    if |events| >= 1 {
      AcceptStep(BetweenTurns, [], events[0], BetweenTurns, Opening);
      assert [] + [events[0]] == [events[0]] && (|events| == 1 ==> events == [events[0]]);
      WithoutToolsSnoc([], events[0]);
    }
    if |events| == 2 {
      AcceptStep(BetweenTurns, [events[0]], events[1], Opening, InTurn);
      WithoutToolsSnoc([events[0]], events[1]);
      assert [events[0]] + [events[1]] == events;
    }
  }

  lemma Epilogue(before: seq<Payload>, completed: Payload, ok: bool)
    requires completed.TurnCompleted? && Accept(BetweenTurns, before) == Some(InTurn)
    ensures var after := before + (if ok then [completed] else []);
      && Accept(BetweenTurns, after) == Some(if ok then BetweenTurns else InTurn)
      && WithoutTools(after) == WithoutTools(before) + (if ok then [completed] else [])
  {
    if ok {
      AcceptSnoc(BetweenTurns, before, completed);
      assert (before + [completed])[..|before|] == before;
    } else {
      assert before + [] == before;
    }
  }

  /** A completion that is stored leaves no orphan; an orphan that is new is the completion, where one was due. */
  predicate Closed(was: Option<Payload>, now: Option<Payload>, events: seq<Payload>, more: seq<Payload>) {
    && (more != [] ==> was == now == None)
    && (now == was || (was == None && now.value.TurnCompleted? && Completed(events + [now.value])))
  }

  lemma CloseWith(was: Option<Payload>, now: Option<Payload>, events: seq<Payload>, last: Payload, ok: bool)
    requires last.TurnCompleted? && Accept(BetweenTurns, events) == Some(InTurn)
    requires if ok then was == now == None else now == was || (was == None && now == Some(last))
    ensures Closed(was, now, events, if ok then [last] else [])
  {
    hide Accept, WithoutTools;
    Epilogue(events, last, true);
  }

  /** What a refused event that landed whole makes of the log. */
  lemma Landing(events: seq<Payload>, orphan: Option<Payload>)
    ensures orphan == None ==> events + Landed(orphan) == events
    ensures orphan.Some? && !orphan.value.TurnCompleted? ==> !Completed(events + Landed(orphan))
    ensures WithoutTools(events + Landed(orphan)) == WithoutTools(events) + WithoutTools(Landed(orphan))
  {
    hide Accept, WithoutTools;
    WithoutToolsJoin(events, Landed(orphan));
    if orphan.Some? && Completed(events + Landed(orphan)) {
      CompletedLast(events + Landed(orphan));
      NeverCreated(BetweenTurns, events + Landed(orphan));
      assert orphan.value in events + Landed(orphan);
    }
  }

  /** An orphan that is new is the completion, where one was due, or comes with no completion. */
  predicate OrphanFits(was: Option<Payload>, now: Option<Payload>, events: seq<Payload>) {
    now == was
    || (was == None && !Completed(events)
        && (now.value.TurnCompleted? ==> Completed(events + [now.value])))
  }

  lemma FitsInside(was: Option<Payload>, now: Option<Payload>, events: seq<Payload>)
    requires Unclosed(was, now) && !Completed(events)
    ensures OrphanFits(was, now, events)
  {
    hide Completed;
  }

  lemma FitsClosed(was: Option<Payload>, mid: Option<Payload>, now: Option<Payload>, before: seq<Payload>,
                   more: seq<Payload>)
    requires Unclosed(was, mid) && Closed(mid, now, before, more) && (Completed(before + more) <==> more != [])
    ensures OrphanFits(was, now, before + more)
  {
    hide Completed;
    assert more == [] ==> before + more == before;
  }

  /**
   What a turn adds to the log on disk: what was committed and, if a refused event landed whole, that one,
   which was never yielded. The log is complete exactly when what was committed is or that event completes it.
   */
  predicate LeftOnDisk(before: seq<Payload>, after: seq<Payload>, events: seq<Payload>, yielded: seq<Payload>,
                       orphan: Option<Payload>) {
    var disk := events + Landed(orphan);
    && after == before + disk
    && (Completed(disk) <==> Completed(events) || (orphan.Some? && orphan.value.TurnCompleted?))
    && WithoutTools(disk) == yielded + WithoutTools(Landed(orphan))
  }

  lemma NothingOnDisk(log: seq<Payload>)
    ensures LeftOnDisk(log, log, [], [], None)
  {
    Nothing();
    assert log + [] == log;
  }

  lemma OnDisk(sink: Sink, start: Trace, now: Trace, leaves: nat -> bool, end: TurnEnd, events: seq<Payload>,
               yielded: seq<Payload>, was: Option<Payload>, orphan: Option<Payload>)
    requires Committed(sink, start, now, leaves, end, events, yielded) && OrphanFits(was, orphan, events)
    ensures was == None ==> LeftOnDisk(start.log + Landed(was), now.log + Landed(orphan), events, yielded, orphan)
  {
    hide Accept, WithoutTools, Completed, Stays, LeavesAt, CompletedBy;
    Landing(events, orphan);
    assert now.log + Landed(orphan) == start.log + (events + Landed(orphan)) && start.log + [] == start.log;
  }

  lemma ToldEnds(end: TurnEnd, user: string, preflight: Option<string>, answered: bool, rounds: seq<Round>, whole: nat,
                 consumed: seq<StreamEvent>, taken: seq<StreamEvent>, yielded: seq<Payload>, state: TurnState,
                 sink: Sink, until: nat)
    requires ToldBy(end, user, preflight, answered, rounds, whole, consumed, taken, yielded, state, sink, until)
    ensures yielded != [] && yielded[|yielded| - 1].TurnCompleted?
  {
    hide Explained, DeltasOf, Counts, Opened;
  }

  // ---- when nothing interferes ----

  /** No append is refused and nobody aborts. */
  ghost predicate Quiet(sink: Sink) { (forall t :: !sink.fails(t)) && sink.abortAt == None }

  /** Nor does the consumer leave. */
  ghost predicate Calm(sink: Sink, leaves: nat -> bool) { Quiet(sink) && forall k :: !leaves(k) }

  /** Round `k` is streamed to its end, unless a tool throws before: each round up to it ends well and calls tools. */
  predicate Reached(answered: bool, rounds: seq<Round>, k: nat) {
    && k < |rounds| && answered
    && forall j | 0 <= j <= k :: Clean(rounds[j]) && CallsOf(rounds[j].chunks) != []
  }

  predicate AsksThrower(setup: Setup, toolName: string, approval: Approval) {
    toolName in setup.tools && DecisionOn(setup, toolName) == Ask && approval.Throws?
  }

  /** Call `i` of round `k` is reached and asks an approval source that throws. */
  predicate ThrowsAt(env: Env, answered: bool, rounds: seq<Round>, k: nat, i: nat) {
    && Reached(answered, rounds, k)
    && var calls := CallsOf(rounds[k].chunks);
    && i < |calls| && AsksThrower(env.setup, calls[i].toolName, env.approvals(FirstCall(rounds, k) + i))
  }

  ghost predicate ApproverThrows(env: Env, answered: bool, rounds: seq<Round>) {
    exists k: nat, i: nat :: ThrowsAt(env, answered, rounds, k, i)
  }

  lemma QuietDispatch(setup: Setup, sink: Sink, start: nat, i: Invocation, x: Execution, approval: Approval)
    requires Quiet(sink)
    ensures DispatchThrows(setup, sink, start, i, x, approval) <==> AsksThrower(setup, i.toolName, approval)
  {
    hide FinalAt, ReadyAt, Evaluate;
  }

  /** A call that was answered did not ask a thrower. */
  lemma AnsweredAsksNone(env: Env, since: nat, rounds: seq<Round>, k: nat, i: nat, x: Exchange, t: ToolRound)
    requires k < |rounds| && AnsweredBy(env, since, rounds, k, x, t) && i < |CallsOf(rounds[k].chunks)|
    requires Quiet(env.sink)
    ensures !AsksThrower(env.setup, CallsOf(rounds[k].chunks)[i].toolName, env.approvals(FirstCall(rounds, k) + i))
  {
    hide CallsOf, FirstCall, DispatchThrows, Replied, Quiet, AsksThrower, StartOf, Decimal.Print;
    var calls, n := CallsOf(rounds[k].chunks), FirstCall(rounds, k) + i;
    assert DispatchedAt(env, calls, FirstCall(rounds, k), t, i);
    QuietDispatch(env.setup, env.sink, t.ran[i].start, Invoke(calls[i]), env.executions(n), env.approvals(n));
  }

  /** A turn that comes to an ordinary end has met no thrower. */
  lemma OrdinaryMetNone(env: Env, since: nat, user: string, answered: bool, rounds: seq<Round>,
                        requests: seq<seq<Message>>, exchanges: seq<Exchange>, consumed: seq<StreamEvent>,
                        taken: seq<StreamEvent>, work: Work, inner: seq<Payload>, stop: StopReason,
                        code: Option<string>)
    requires Conversed(env, since, user, rounds, requests, exchanges, consumed, taken, work, inner)
    requires Quiet(env.sink) && stop != Cancelled
    requires Explained(RoundAt(rounds, |exchanges|), taken, answered, stop, code)
    ensures !ApproverThrows(env, answered, rounds)
  {
    hide CallsOf, FirstCall, AnsweredBy, LogOf, Dispatched, RequestsFollow, Quiet, AsksThrower, ChunksOf;
    forall k: nat, i: nat ensures !ThrowsAt(env, answered, rounds, k, i) {
      if k < |exchanges| && i < |CallsOf(rounds[k].chunks)| {
        AnsweredAsksNone(env, since, rounds, k, i, exchanges[k], work.whole[k]);
      }
    }
  }

  /** A turn that a handler ends has met one. */
  lemma HandlerMetOne(env: Env, since: nat, user: string, answered: bool, rounds: seq<Round>,
                      requests: seq<seq<Message>>, exchanges: seq<Exchange>, consumed: seq<StreamEvent>,
                      taken: seq<StreamEvent>, work: Work, inner: seq<Payload>)
    requires Conversed(env, since, user, rounds, requests, exchanges, consumed, taken, work, inner)
    requires |exchanges| <= |rounds| && Quiet(env.sink)
    requires HandlerFailed(env, since, answered, rounds, |exchanges|, taken, work.last)
    ensures ApproverThrows(env, answered, rounds)
  {
    hide CallsOf, TextOf, FirstCall, LogOf, Dispatched, Replied, Quiet, AsksThrower, ChunksOf, DispatchThrows, StartOf;
    var k, i := |exchanges|, |work.last.ran|;
    var n := FirstCall(rounds, k) + i;
    var call := CallsOf(taken)[i];
    NoChunks();
    assert k < |rounds|;
    forall j | 0 <= j < k ensures Clean(rounds[j]) && CallsOf(rounds[j].chunks) != [] {
      assert AnsweredBy(env, since, rounds, j, exchanges[j], work.whole[j]) && Follows(exchanges[j], rounds[j]);
    }
    QuietDispatch(env.setup, env.sink, StartOf(env, CallsOf(taken), FirstCall(rounds, k), work.last, i),
                 Invoke(call), env.executions(n), env.approvals(n));
    assert ThrowsAt(env, answered, rounds, k, i);
  }

  /** The dispatch of call `i` of round `k`, asked for at some time of the turn before the abort, throws. */
  predicate ThrowsFrom(env: Env, since: nat, rounds: seq<Round>, k: nat, i: nat, start: nat) {
    && k < |rounds| && since <= start && !env.sink.AbortedAt(start)
    && var calls := CallsOf(rounds[k].chunks);
    && i < |calls|
    && DispatchThrows(env.setup, env.sink, start, Invoke(calls[i]), env.executions(FirstCall(rounds, k) + i),
                      env.approvals(FirstCall(rounds, k) + i))
  }

  ghost predicate SomeDispatchThrows(env: Env, since: nat, rounds: seq<Round>) {
    exists k: nat, i: nat, start: nat :: ThrowsFrom(env, since, rounds, k, i, start)
  }

  lemma FailedFrom(env: Env, since: nat, answered: bool, rounds: seq<Round>, k: nat, taken: seq<StreamEvent>,
                   last: ToolRound)
    requires k <= |rounds| && HandlerFailed(env, since, answered, rounds, k, taken, last)
    ensures SomeDispatchThrows(env, since, rounds)
  {
    hide CallsOf, FirstCall, DispatchThrows, StartOf, Invoke;
    NoChunks();
    var i := |last.ran|;
    assert ThrowsFrom(env, since, rounds, k, i, StartOf(env, CallsOf(taken), FirstCall(rounds, k), last, i));
  }

  /** When nothing interferes, only a thrower leaves the log of a turn without its completion. */
  lemma CompletedIff(env: Env, since: nat, until: nat, start: Trace, now: Trace, leaves: nat -> bool, end: TurnEnd,
                     user: string, preflight: Option<string>, answered: bool, rounds: seq<Round>,
                     requests: seq<seq<Message>>, exchanges: seq<Exchange>, consumed: seq<StreamEvent>,
                     taken: seq<StreamEvent>, work: Work, events: seq<Payload>, yielded: seq<Payload>, state: TurnState)
    requires end !in {UnknownSession, AlreadyActive} && |exchanges| <= |rounds| && until == now.ticks
    requires Committed(env.sink, start, now, leaves, end, events, yielded)
    requires Completed(events) ==>
      ToldBy(end, user, preflight, answered, rounds, |exchanges|, consumed, taken, yielded, state, env.sink, until)
    requires Caused(end, env, since, until, user, preflight, answered, rounds, |exchanges|, consumed, taken, work,
                    events, yielded)
    requires Conversed(env, since, user, rounds, requests, exchanges, consumed, taken, work, Inner(events))
    ensures Calm(env.sink, leaves) ==>
      && (Completed(events) <==> preflight.Some? || !ApproverThrows(env, answered, rounds))
      && end == if Completed(events) then Exhausted else HandlerError
  {
    hide Conversed, Completed, Explained, HandlerFailed, Added, Accept, WithoutTools, DeltasOf, Counts, Opened, Inner,
         ApproverThrows, RoundAt;
    if Calm(env.sink, leaves) {
      if end == HandlerError {
        HandlerMetOne(env, since, user, answered, rounds, requests, exchanges, consumed, taken, work,
                      Inner(events));
      } else {
        assert end == Exhausted && Completed(events);
        if preflight == None {
          var last := yielded[|yielded| - 1];
          OrdinaryMetNone(env, since, user, answered, rounds, requests, exchanges, consumed, taken, work,
                          Inner(events), last.stopReason, last.errorCode);
        }
      }
    }
  }

  lemma {:induction false} HistoryBegins(user: string, exchanges: seq<Exchange>)
    ensures History(user, exchanges) != [] && History(user, exchanges)[0] == Message.User(user)
  {
    if exchanges != [] {
      HistoryBegins(user, exchanges[..|exchanges| - 1]);
    }
  }

  lemma RequestsBegin(env: Env, since: nat, user: string, rounds: seq<Round>, requests: seq<seq<Message>>,
                      exchanges: seq<Exchange>, consumed: seq<StreamEvent>, taken: seq<StreamEvent>, work: Work,
                      events: seq<Payload>)
    requires Conversed(env, since, user, rounds, requests, exchanges, consumed, taken, work, events)
    ensures forall k | 0 <= k < |requests| :: requests[k] != [] && requests[k][0] == Message.User(user)
  {
    hide History, Worked, Follows;
    forall k | 0 <= k < |requests| ensures requests[k] != [] && requests[k][0] == Message.User(user) {
      HistoryBegins(user, exchanges[..k]);
    }
  }

  /** A turn that is refused commits and says nothing. */
  lemma Refusal(env: Env, sink: Sink, leaves: nat -> bool, end: TurnEnd, since: nat, user: string,
                preflight: Option<string>, answered: bool, rounds: seq<Round>, now: Trace)
    requires end in {UnknownSession, AlreadyActive} && |now.stamps| == |now.log|
    ensures Committed(sink, now, now, leaves, end, [], [])
    ensures !Completed([])
    ensures Caused(end, env, since, since, user, preflight, answered, rounds, 0, [], [], Work([], NO_TOOLS, []), [], [])
    ensures Inner([]) == [] && Opens(user, [])
  {
    GrewNone(sink, now, now);
    NoYields(leaves, 0);
    Nothing();
  }

  // ---- a turn that is never completed ----

  const ONE_CALL := Round([ToolCallRequest("c", "shell", "{}")], None)

  /** No append is refused and nobody aborts, but the approval source throws when the one call asks it. */
  method ApproverThrowsRun() returns (end: TurnEnd, log: seq<Payload>)
    ensures end == HandlerError
    ensures Accept(BetweenTurns, log).Some? && !Completed(log) && Uncompleted(log)
  {
    hide Accept, WithoutTools, CallsOf, Conversed, ToldBy, Stays, LeavesAt, LeftOnDisk, HandlerFailed, RefusedLast,
         ThrowsAt, Completed, CompletedBy;
    var sink := new Sink((t: nat) => false, None, None);
    var engine := new SessionEngine(sink, true, Some(map["shell" := "execute"]), Rules(map[], map[], Some(Ask)), 10);
    var executions, approvals := (n: nat) => Execution([], Succeeded), (n: nat) => Approval.Throws;
    OneCallThrows(Env(engine.Settings(), sink, executions, approvals));
    var state, yielded, requests, exchanges, consumed;
    ghost var taken, work, events;
    end, state, yielded, requests, exchanges, consumed, taken, work, events :=
      engine.RunTurn("hi", None, [ONE_CALL], executions, approvals, (k: nat) => false);
    log := sink.log;
    assert log == [] + events == events;
  }

  lemma OneCallThrows(env: Env)
    requires env.setup.tools == map["shell" := "execute"] && env.setup.policy == Rules(map[], map[], Some(Ask))
    requires env.approvals(0) == Approval.Throws
    ensures ThrowsAt(env, true, [ONE_CALL], 0, 0)
  {
    SnocChunk([], ToolCallRequest("c", "shell", "{}"));
    NoChunks();
    assert [] + [ToolCallRequest("c", "shell", "{}")] == [ToolCallRequest("c", "shell", "{}")];
    assert [ONE_CALL][..0] == [];
  }
}
