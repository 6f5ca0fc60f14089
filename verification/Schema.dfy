/** The events of a session, one constructor per event type. */
module Schema {
  import opened Wrappers

  datatype StopReason = Final | Cancelled | Error
  datatype Decision = Allow | Ask | Deny
  datatype Outcome = Allowed | Denied
  datatype Source = Policy | User
  datatype Usage = Usage(promptTokens: nat, completionTokens: nat)

  datatype Payload =
    | SessionCreated(cwd: string, client: string)
    | TurnStarted(promptPreview: string)
    | UserMessage(content: string)
    | ModelDelta(text: string)
    | TurnCompleted(stopReason: StopReason, errorCode: Option<string>, usage: Option<Usage>)
    | PermissionRequested(requestId: string, callId: Option<string>, toolName: string, risk: string,
                          decision: Decision, reason: string, argsPreview: Option<string>)
    | PermissionResolved(requestId: string, callId: Option<string>, toolName: string,
                         outcome: Outcome, source: Source, why: Option<string>)
    | ToolStarted(toolCallId: string, permissionRequestId: string, toolName: string,
                  argsPreview: Option<string>)
    | ToolDelta(toolCallId: string, kind: string, text: string)
    | ToolCompleted(toolCallId: string, toolName: string, deltaCount: nat, truncated: bool)
    | ToolFailed(toolCallId: string, toolName: string, failureCode: string, message: string)
  {
    /** The events whose type starts with "tool.". */
    predicate IsTool() {
      PermissionRequested? || PermissionResolved? || ToolStarted? || ToolDelta? || ToolCompleted? || ToolFailed?
    }
  }

  datatype AgentEvent = AgentEvent(
    id: string, sessionId: string, turnId: Option<string>,
    sequence: nat, timestamp: string, payload: Payload)
}
