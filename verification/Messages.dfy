/** The message history that the engine sends to a model provider. */
module Messages {
  datatype Message =
    | System(content: string)
    | User(content: string)
    | Assistant(content: string)
    | Tool(content: string, toolCallId: string, toolName: string)

  /** One round of tool use: what the assistant said and the results of the tools it asked for. */
  datatype Exchange = Exchange(text: string, results: seq<Message>)

  predicate Proper(x: Exchange) {
    x.results != [] && forall k | 0 <= k < |x.results| :: x.results[k].Tool?
  }

  /** One user message followed by the exchanges. */
  function History(user: string, exchanges: seq<Exchange>): seq<Message> {
    if exchanges == [] then [User(user)]
    else
      var x := exchanges[|exchanges| - 1];
      History(user, exchanges[..|exchanges| - 1]) + ([Assistant(x.text)] + x.results)
  }
}
