/**
 The text form of an event: one line holding a JSON array of strings. Only the laws at the end
 are used elsewhere: a line holds no raw newline (RFC 8259, section 7), decoding undoes encoding,
 no proper beginning of a line decodes, and neither does a line with something glued to it.
 */
module Codec {
  import opened Wrappers
  import opened Schema
  import Decimal
  import Delimited

  // ---- JSON strings and arrays of strings ----

  function Escape(s: string): string {
    if s == "" then ""
    else (if s[0] == '"' then "\\\"" else if s[0] == '\\' then "\\\\"
          else if s[0] == '\n' then "\\n" else [s[0]]) + Escape(s[1..])
  }

  function Quote(s: string): string { "\"" + Escape(s) + "\"" }

  /** Scans up to the closing quote; the result is the string and the text after the quote. */
  function Unescape(s: string): (r: Option<(string, string)>)
    ensures r.Some? ==> |r.value.1| < |s|
  {
    if s == "" || s[0] == '\n' then None
    else if s[0] == '"' then Some(("", s[1..]))
    else if s[0] != '\\' then Prepend(s[0], Unescape(s[1..]))
    else if |s| < 2 then None
    else if s[1] == '"' || s[1] == '\\' then Prepend(s[1], Unescape(s[2..]))
    else if s[1] == 'n' then Prepend('\n', Unescape(s[2..]))
    else None
  }

  function Prepend(c: char, r: Option<(string, string)>): Option<(string, string)> {
    match r
    case None => None
    case Some(p) => Some(([c] + p.0, p.1))
  }

  function Unquote(s: string): (r: Option<(string, string)>)
    ensures r.Some? ==> |r.value.1| < |s|
  {
    if s != "" && s[0] == '"' then Unescape(s[1..]) else None
  }

  /** The array from its opening bracket or a separating comma on. */
  function Items(fields: seq<string>): string {
    if fields == [] then "]" else "," + Quote(fields[0]) + Items(fields[1..])
  }

  function ParseItems(s: string): Option<seq<string>>
    decreases |s|
  {
    if s == "]" then Some([])
    else if s == "" || s[0] != ',' then None
    else match Unquote(s[1..])
      case None => None
      case Some(p) =>
        match ParseItems(p.1)
        case None => None
        case Some(rest) => Some([p.0] + rest)
  }

  function PrintRecord(fields: seq<string>): string
    requires fields != []
  {
    "[" + Items(fields)[1..]
  }

  function ParseRecord(s: string): Option<seq<string>> {
    if s != "" && s[0] == '[' then ParseItems("," + s[1..]) else None
  }

  lemma {:induction false} UnescapeEscape(s: string, rest: string)
    ensures Unescape(Escape(s) + "\"" + rest) == Some((s, rest))
  {
    var text := Escape(s) + "\"" + rest;
    if s == "" {
      assert text == "\"" + rest;
    } else {
      UnescapeEscape(s[1..], rest);
      assert [s[0]] + s[1..] == s;
      var tail := Escape(s[1..]) + "\"" + rest;
      if s[0] == '"' || s[0] == '\\' || s[0] == '\n' {
        assert text[2..] == tail;
      } else {
        assert text[0] == s[0];
        assert text[1..] == tail;
      }
    }
  }

  lemma UnquoteQuote(s: string, rest: string)
    ensures Unquote(Quote(s) + rest) == Some((s, rest))
  {
    UnescapeEscape(s, rest);
    assert (Quote(s) + rest)[1..] == Escape(s) + "\"" + rest;
  }

  /** Without its closing quote a string does not scan. */
  lemma {:induction false} UnescapePrefix(s: string, k: nat)
    requires k <= |Escape(s)|
    ensures Unescape(Escape(s)[..k]) == None
  {
    var text := Escape(s)[..k];
    if s != "" && k > 0 {
      var n := if s[0] == '"' || s[0] == '\\' || s[0] == '\n' then 2 else 1;
      assert Escape(s)[n..] == Escape(s[1..]);
      if k >= n {
        UnescapePrefix(s[1..], k - n);
        assert text[n..] == Escape(s[1..])[..k - n];
      }
    }
  }

  lemma {:induction false} ParseItemsExact(fields: seq<string>, glued: string)
    ensures ParseItems(Items(fields) + glued) == if glued == "" then Some(fields) else None
  {
    var text := Items(fields) + glued;
    if fields == [] {
      assert text == "]" + glued;
    } else {
      var rest := Items(fields[1..]) + glued;
      UnquoteQuote(fields[0], rest);
      assert text[1..] == Quote(fields[0]) + rest;
      assert text[0] == ',';
      ParseItemsExact(fields[1..], glued);
      assert Unquote(text[1..]) == Some((fields[0], rest));
      assert [fields[0]] + fields[1..] == fields;
    }
  }

  lemma {:induction false} ParseItemsPrefix(fields: seq<string>, k: nat)
    requires k < |Items(fields)|
    ensures ParseItems(Items(fields)[..k]) == None
  {
    if fields != [] && k > 0 {
      var text := Items(fields)[..k];
      var quoted := Quote(fields[0]);
      assert text[0] == ',';
      if k <= |quoted| {
        if k > 1 {
          assert text[1..] == quoted[..k - 1];
          assert quoted[..k - 1][1..] == Escape(fields[0])[..k - 2];
          UnescapePrefix(fields[0], k - 2);
        }
      } else {
        var rest := Items(fields[1..])[..k - 1 - |quoted|];
        assert text[1..] == quoted + rest;
        UnquoteQuote(fields[0], rest);
        ParseItemsPrefix(fields[1..], k - 1 - |quoted|);
      }
    }
  }

  lemma {:induction false} EscapeHasNoNewline(s: string)
    ensures '\n' !in Escape(s)
  {
    if s != "" {
      EscapeHasNoNewline(s[1..]);
    }
  }

  lemma {:induction false} ItemsHaveNoNewline(fields: seq<string>)
    ensures '\n' !in Items(fields)
  {
    if fields != [] {
      EscapeHasNoNewline(fields[0]);
      ItemsHaveNoNewline(fields[1..]);
    }
  }

  // ---- events as records ----

  function Optional(o: Option<string>): string {
    match o case None => "" case Some(v) => "+" + v
  }

  function ToOptional(s: string): Option<string> {
    if s == "" then None else Some(s[1..])
  }

  function Number(s: string): Option<nat> {
    if s != "" && Decimal.AllDigits(s) then Some(Decimal.Value(s)) else None
  }

  function StopName(r: StopReason): string {
    match r case Final => "final" case Cancelled => "cancelled" case Error => "error"
  }

  function StopOf(s: string): StopReason {
    if s == "final" then Final else if s == "cancelled" then Cancelled else Error
  }

  function DecisionName(d: Decision): string {
    match d case Allow => "allow" case Ask => "ask" case Deny => "deny"
  }

  function DecisionOf(s: string): Decision {
    if s == "allow" then Allow else if s == "ask" then Ask else Deny
  }

  function UsageFields(u: Option<Usage>): seq<string> {
    match u
    case None => []
    case Some(v) => [Decimal.Print(v.promptTokens), Decimal.Print(v.completionTokens)]
  }

  function PayloadFields(p: Payload): seq<string> {
    match p
    case SessionCreated(cwd, client) => ["session.created", cwd, client]
    case TurnStarted(preview) => ["turn.started", preview]
    case UserMessage(content) => ["user.message", content]
    case ModelDelta(text) => ["model.delta", text]
    case TurnCompleted(stop, code, usage) =>
      ["turn.completed", StopName(stop), Optional(code)] + UsageFields(usage)
    case PermissionRequested(id, callId, tool, risk, decision, reason, preview) =>
      ["tool.permission_requested", id, Optional(callId), tool, risk, DecisionName(decision), reason, Optional(preview)]
    case PermissionResolved(id, callId, tool, outcome, source, why) =>
      ["tool.permission_resolved", id, Optional(callId), tool,
       if outcome == Allowed then "allowed" else "denied",
       if source == Policy then "policy" else "user", Optional(why)]
    case ToolStarted(callId, id, tool, preview) => ["tool.started", callId, id, tool, Optional(preview)]
    case ToolDelta(callId, kind, text) => ["tool.delta", callId, kind, text]
    case ToolCompleted(callId, tool, count, truncated) =>
      ["tool.completed", callId, tool, Decimal.Print(count), if truncated then "true" else "false"]
    case ToolFailed(callId, tool, code, message) => ["tool.failed", callId, tool, code, message]
  }

  function PayloadOf(f: seq<string>): Option<Payload> {
    if |f| == 3 && f[0] == "session.created" then Some(SessionCreated(f[1], f[2]))
    else if |f| == 2 && f[0] == "turn.started" then Some(TurnStarted(f[1]))
    else if |f| == 2 && f[0] == "user.message" then Some(UserMessage(f[1]))
    else if |f| == 2 && f[0] == "model.delta" then Some(ModelDelta(f[1]))
    else if |f| == 3 && f[0] == "turn.completed" then
      Some(TurnCompleted(StopOf(f[1]), ToOptional(f[2]), None))
    else if |f| == 5 && f[0] == "turn.completed" && Number(f[3]).Some? && Number(f[4]).Some? then
      Some(TurnCompleted(StopOf(f[1]), ToOptional(f[2]), Some(Usage(Number(f[3]).value, Number(f[4]).value))))
    else if |f| == 8 && f[0] == "tool.permission_requested" then
      Some(PermissionRequested(f[1], ToOptional(f[2]), f[3], f[4], DecisionOf(f[5]), f[6], ToOptional(f[7])))
    else if |f| == 7 && f[0] == "tool.permission_resolved" then
      Some(PermissionResolved(f[1], ToOptional(f[2]), f[3], if f[4] == "allowed" then Allowed else Denied,
                              if f[5] == "policy" then Policy else User, ToOptional(f[6])))
    else if |f| == 5 && f[0] == "tool.started" then Some(ToolStarted(f[1], f[2], f[3], ToOptional(f[4])))
    else if |f| == 4 && f[0] == "tool.delta" then Some(ToolDelta(f[1], f[2], f[3]))
    else if |f| == 5 && f[0] == "tool.completed" && Number(f[3]).Some? then
      Some(ToolCompleted(f[1], f[2], Number(f[3]).value, f[4] == "true"))
    else if |f| == 5 && f[0] == "tool.failed" then Some(ToolFailed(f[1], f[2], f[3], f[4]))
    else None
  }

  lemma NumberOfPrint(n: nat)
    ensures Number(Decimal.Print(n)) == Some(n)
  {
    Decimal.ValueOfPrint(n);
  }

  lemma PayloadRoundTrip(p: Payload)
    ensures PayloadOf(PayloadFields(p)) == Some(p)
  {
    if p.IsTool() {
      ToolRoundTrip(p);
    } else {
      MessageRoundTrip(p);
    }
  }

  lemma MessageRoundTrip(p: Payload)
    requires !p.IsTool()
    ensures PayloadOf(PayloadFields(p)) == Some(p)
  {
    hide Number;
    if p.TurnCompleted? && p.usage.Some? {
      NumberOfPrint(p.usage.value.promptTokens);
      NumberOfPrint(p.usage.value.completionTokens);
    }
  }

  lemma ToolRoundTrip(p: Payload)
    requires p.IsTool()
    ensures PayloadOf(PayloadFields(p)) == Some(p)
  {
    hide Number;
    if p.ToolCompleted? {
      NumberOfPrint(p.deltaCount);
    }
  }

  function EventFields(e: AgentEvent): seq<string> {
    [e.id, e.sessionId, Optional(e.turnId), Decimal.Print(e.sequence), e.timestamp] + PayloadFields(e.payload)
  }

  function EventOf(f: seq<string>): Option<AgentEvent> {
    if |f| < 5 then None
    else match (Number(f[3]), PayloadOf(f[5..]))
      case (Some(n), Some(p)) => Some(AgentEvent(f[0], f[1], ToOptional(f[2]), n, f[4], p))
      case _ => None
  }

  // ---- lines ----

  function EncodeLine(e: AgentEvent): string { PrintRecord(EventFields(e)) }

  /** An event with its newline, as it is appended to the log. */
  function Encode(e: AgentEvent): string { EncodeLine(e) + "\n" }

  function EncodeAll(events: seq<AgentEvent>): string {
    Delimited.Concat(seq(|events|, i requires 0 <= i < |events| => Encode(events[i])))
  }

  function DecodeLine(line: string): Option<AgentEvent> {
    match ParseRecord(line)
    case None => None
    case Some(f) => EventOf(f)
  }

  lemma LineHasNoNewline(e: AgentEvent)
    ensures '\n' !in EncodeLine(e) && EncodeLine(e) != ""
  {
    ItemsHaveNoNewline(EventFields(e));
  }

  lemma LineStarts(e: AgentEvent)
    ensures EncodeLine(e) != "" && EncodeLine(e)[0] == '['
  {
  }

  /**
   A complete line decodes to its event; with any text glued to it that does not begin with white space,
   it does not decode.
   */
  lemma DecodeExact(e: AgentEvent, glued: string)
    requires glued == "" || !Decimal.IsSpace(glued[0])
    ensures DecodeLine(EncodeLine(e) + glued) == if glued == "" then Some(e) else None
  {
    var fields := EventFields(e);
    ParseItemsExact(fields, glued);
    assert "," + (EncodeLine(e) + glued)[1..] == Items(fields) + glued;
    NumberOfPrint(e.sequence);
    PayloadRoundTrip(e.payload);
    assert fields[5..] == PayloadFields(e.payload);
  }

  lemma DecodePrefix(e: AgentEvent, k: nat)
    requires k < |EncodeLine(e)|
    ensures DecodeLine(EncodeLine(e)[..k]) == None
  {
    var fields := EventFields(e);
    if k > 0 {
      ParseItemsPrefix(fields, k);
      hide Items, EventFields;
      var text := EncodeLine(e);
      assert "," + text[1..] == Items(fields) && text[..k][1..] == text[1..k];
      assert "," + text[1..k] == ("," + text[1..])[..k];
    }
  }

  lemma EncodeAllAppend(a: seq<AgentEvent>, b: seq<AgentEvent>)
    ensures EncodeAll(a + b) == EncodeAll(a) + EncodeAll(b)
  {
    var both := a + b;
    var left := seq(|a|, i requires 0 <= i < |a| => Encode(a[i]));
    var right := seq(|b|, i requires 0 <= i < |b| => Encode(b[i]));
    assert seq(|both|, i requires 0 <= i < |both| => Encode(both[i])) == left + right;
    Delimited.ConcatAppend(left, right);
  }

  lemma EncodeAllOne(e: AgentEvent)
    ensures EncodeAll([e]) == Encode(e)
  {
    assert seq(1, i requires 0 <= i < 1 => Encode([e][i])) == [Encode(e)];
    assert Delimited.Concat([Encode(e)]) == Encode(e) + Delimited.Concat([]);
  }

  /** The first line of an encoded log. */
  lemma EncodeNone(part: string)
    ensures EncodeAll([]) == "" && EncodeAll([]) + part == part
  {
  }

  lemma EncodeAllStep(events: seq<AgentEvent>)
    requires events != []
    ensures EncodeAll(events) == EncodeLine(events[0]) + "\n" + EncodeAll(events[1..])
  {
    hide EncodeLine, EncodeAll;
    EncodeAllFirst(events, "");
    assert EncodeAll(events) + "" == EncodeAll(events) && EncodeAll(events[1..]) + "" == EncodeAll(events[1..]);
  }

  lemma EncodeAllFirst(events: seq<AgentEvent>, part: string)
    requires events != []
    ensures EncodeAll(events) + part == EncodeLine(events[0]) + "\n" + (EncodeAll(events[1..]) + part)
  {
    hide EncodeAll, EncodeLine;
    EncodeAllAppend([events[0]], events[1..]);
    EncodeAllOne(events[0]);
    assert [events[0]] + events[1..] == events;
    var line, rest := EncodeLine(events[0]) + "\n", EncodeAll(events[1..]);
    assert line + rest + part == line + (rest + part);
  }

  lemma DecodeOwnLine(e: AgentEvent)
    ensures DecodeLine(EncodeLine(e)) == Some(e)
  {
    DecodeExact(e, "");
    assert EncodeLine(e) + "" == EncodeLine(e);
  }
}
