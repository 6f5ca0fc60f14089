/** The gate before every tool: a policy, an approval source to ask, and two events per request. */
module Permissions {
  import opened Wrappers
  import opened Schema
  import opened EventSink
  import Decimal

  const PREVIEW_MAX := 512
  const PREVIEW_SUFFIX := "\U{2026}[truncated]"

  function TruncatePreview(preview: Option<string>): (r: Option<string>)
    ensures r.Some? <==> preview.Some?
    ensures preview.Some? && |preview.value| <= PREVIEW_MAX ==> r == preview
    ensures preview.Some? && |preview.value| > PREVIEW_MAX ==>
      && |r.value| == PREVIEW_MAX + |PREVIEW_SUFFIX|
      && (forall i | 0 <= i < PREVIEW_MAX :: r.value[i] == preview.value[i])
      && r.value[PREVIEW_MAX..] == PREVIEW_SUFFIX
  {
    match preview
    case None => None
    case Some(p) => if |p| <= PREVIEW_MAX then preview else Some(p[..PREVIEW_MAX] + PREVIEW_SUFFIX)
  }

  datatype Policy = Rules(byTool: map<string, Decision>, byRisk: map<string, Decision>,
                          defaultDecision: Option<Decision>)

  datatype Request = Request(toolName: string, risk: string, reason: string, toolCallId: Option<string>,
                             argsPreview: Option<string>)

  datatype Resolution = Resolution(requestId: string, decision: Decision, outcome: Outcome, source: Source,
                                   reason: Option<string>)

  /** What the approval source does when asked. */
  datatype Approval = Answers(outcome: Outcome, reason: Option<string>) | Throws

  /** The tool's own entry wins over its risk tier, which wins over the default. */
  function Evaluate(policy: Policy, toolName: string, risk: string): (d: Decision)
    ensures toolName in policy.byTool ==> d == policy.byTool[toolName]
    ensures toolName !in policy.byTool && risk in policy.byRisk ==> d == policy.byRisk[risk]
    ensures toolName !in policy.byTool && risk !in policy.byRisk ==>
      && (policy.defaultDecision.Some? ==> d == policy.defaultDecision.value)
      && (policy.defaultDecision == None ==> d == Ask)
  {
    if toolName in policy.byTool then policy.byTool[toolName]
    else if risk in policy.byRisk then policy.byRisk[risk]
    else if policy.defaultDecision.Some? then policy.defaultDecision.value
    else Ask
  }

  /**
   A request is allowed iff the policy allows it, or leaves it to the approval source, which allows it
   before the turn is aborted. An abort does not take back what the policy allows.
   */
  predicate MayRun(decision: Decision, aborted: bool, approval: Approval) {
    decision == Allow || (decision == Ask && !aborted && approval.Answers? && approval.outcome == Allowed)
  }

  // ---- when a request made at some time asks, resolves and throws ----

  predicate Asks(sink: Sink, decision: Decision, start: nat) { decision == Ask && !sink.AbortedAt(start + 1) }

  function ResolvedAt(sink: Sink, decision: Decision, start: nat): nat {
    if Asks(sink, decision, start) then start + 2 else start + 1
  }

  /** One of the two events is refused, or the approval source is asked and throws. */
  predicate RequestThrows(sink: Sink, decision: Decision, start: nat, approval: Approval) {
    || sink.fails(start)
    || (Asks(sink, decision, start) && approval.Throws?)
    || sink.fails(ResolvedAt(sink, decision, start))
  }

  /** How a request that does not throw is resolved. */
  function ResolutionOf(id: string, decision: Decision, aborted: bool, approval: Approval): (s: Resolution)
    ensures s.requestId == id && (s.outcome == Allowed <==> MayRun(decision, aborted, approval))
    ensures s.source == User <==> decision == Ask && !aborted && approval.Answers?
    ensures decision != Ask ==> s.reason == None
    ensures s.source == User ==> approval.Answers? && s.outcome == approval.outcome && s.reason == approval.reason
    ensures decision == Ask && s.source == Source.Policy ==> s.reason == Some("cancelled")
  {
    if decision != Ask then
      Resolution(id, decision, if decision == Allow then Allowed else Denied, Source.Policy, None)
    else if aborted || approval.Throws? then Resolution(id, decision, Denied, Source.Policy, Some("cancelled"))
    else Resolution(id, decision, approval.outcome, User, approval.reason)
  }

  function Requested(r: Request, id: string, decision: Decision): Payload {
    PermissionRequested(id, r.toolCallId, r.toolName, r.risk, decision, r.reason, TruncatePreview(r.argsPreview))
  }

  function Resolved(r: Request, s: Resolution): Payload {
    PermissionResolved(s.requestId, r.toolCallId, r.toolName, s.outcome, s.source, s.reason)
  }

  class PermissionEngine {
    const policy: Policy
    const sink: Sink
    var nextRequestId: nat

    constructor (policy: Policy, sink: Sink)
      ensures this.policy == policy && this.sink == sink && nextRequestId == 1
    {
      this.policy, this.sink, nextRequestId := policy, sink, 1;
    }

    /** None: the sink or the approval source threw. */
    method RequestPermission(r: Request, approval: Approval) returns (resolution: Option<Resolution>)
      requires sink.Valid()
      modifies this, sink
      ensures sink.Valid() && old(sink.ticks) <= sink.ticks && nextRequestId == old(nextRequestId) + 1
      ensures old(sink.stamps) <= sink.stamps && Unclosed(old(sink.orphan), sink.orphan)
      ensures resolution == None <==>
        RequestThrows(sink, Evaluate(policy, r.toolName, r.risk), old(sink.ticks), approval)
      ensures resolution.Some? ==>
        sink.ticks == ResolvedAt(sink, Evaluate(policy, r.toolName, r.risk), old(sink.ticks)) + 1
      ensures var decision := Evaluate(policy, r.toolName, r.risk);
        var id := "perm_" + Decimal.Print(old(nextRequestId));
        match resolution
        case Some(s) =>
          && s == ResolutionOf(id, decision, sink.AbortedAt(old(sink.ticks) + 2), approval)
          && sink.log == old(sink.log) + [Requested(r, id, decision), Resolved(r, s)]
          && (s.source == User <==> decision == Ask && !sink.AbortedAt(old(sink.ticks) + 2))
          // who said yes: the policy, or the approver in an answer that came before any abort
          && (s.outcome == Allowed <==>
                || decision == Allow
                || (decision == Ask && !sink.AbortedAt(old(sink.ticks) + 2)
                    && approval.Answers? && approval.outcome == Allowed))
          && (decision == Deny ==> s.outcome == Denied)
        case None =>
          sink.log == old(sink.log) + (if sink.fails(old(sink.ticks)) then [] else [Requested(r, id, decision)])
    {
      var requestId := "perm_" + Decimal.Print(nextRequestId);
      nextRequestId := nextRequestId + 1;
      var decision := Evaluate(policy, r.toolName, r.risk);
      var ok := sink.Emit(Requested(r, requestId, decision));
      if !ok {
        return None;
      }
      var outcome, source, reason := Denied, Source.Policy, None;
      if decision == Allow {
        outcome := Allowed;
      } else if decision == Ask {
        if sink.Aborted() {
          reason := Some("cancelled");
        } else {
          sink.Await();
          if approval.Throws? {
            return None;
          }
          if sink.Aborted() {
            reason := Some("cancelled");
          } else {
            outcome, source, reason := approval.outcome, User, approval.reason;
          }
        }
      }
      var s := Resolution(requestId, decision, outcome, source, reason);
      ok := sink.Emit(Resolved(r, s));
      if !ok {
        return None;
      }
      return Some(s);
    }
  }

  /** A turn that was aborted from the start still runs what the policy allows. */
  method AllowedAfterAbort() returns (resolution: Option<Resolution>)
    ensures resolution.Some? && resolution.value.outcome == Allowed
  {
    var sink := new Sink((t: nat) => false, None, Some(0));
    var engine := new PermissionEngine(Rules(map["ls" := Allow], map[], None), sink);
    resolution := engine.RequestPermission(Request("ls", "read", "", None, None), Approval.Answers(Denied, None));
  }
}
