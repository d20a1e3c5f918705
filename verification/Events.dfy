/** Translation of gateway payloads into bridge events (gatewayclient/events.go). */
module Events {
  import opened Protocol

  /** A decoded JSON value. A number is kept as the text that Go formats it to. */
  datatype Json =
    | Null
    | Bool(value: bool)
    | Number(text: Bytes)
    | String(text: Bytes)
    | Array(items: seq<Json>)
    | Object(fields: map<Bytes, Json>)

  /** strings.TrimSpace, strings.ToLower, EncodeEvent and DecodeEvent; nothing below depends on what
      they do. */
  datatype Lexicon = Lexicon(
    trim: Bytes -> Bytes, lower: Bytes -> Bytes, encode: Event -> Bytes, decode: Bytes -> Option<Event>)

  datatype Kind = EventKind | ResponseKind | OtherKind

  /** A decoded gateway message. */
  datatype Envelope = Envelope(
    kind: Kind, event: Bytes, id: Bytes, ok: Option<bool>, payload: Json, error: Option<Bytes>)

  // ----- payload access -----

  function DecodePayload(payload: Json): (p: Json)
    ensures p.Object?
  {
    if payload.Object? then payload else Object(map[])
  }

  /** Reading a key; a missing key reads as Go's nil. */
  function Get(p: Json, key: Bytes): Json {
    if p.Object? && key in p.fields then p.fields[key] else Null
  }

  function StringValue(v: Json): Bytes {
    match v
    case String(text) => text
    case Number(text) => text
    case _ => []
  }

  /** The first of these keys that has a non-empty value. */
  function FirstOf(p: Json, keys: seq<Bytes>): Bytes {
    if keys == [] then []
    else if StringValue(Get(p, keys[0])) != [] then StringValue(Get(p, keys[0]))
    else FirstOf(p, keys[1..])
  }

  function Normal(lx: Lexicon, s: Bytes): Bytes {
    lx.lower(lx.trim(s))
  }

  function NormalOf(lx: Lexicon, p: Json, key: Bytes): Bytes {
    Normal(lx, StringValue(Get(p, key)))
  }

  predicate Contains(s: Bytes, part: Bytes) {
    part <= s || (s != [] && Contains(s[1..], part))
  }

  predicate HasSuffix(s: Bytes, part: Bytes) {
    |part| <= |s| && s[|s| - |part|..] == part
  }

  // ----- extraction -----

  function ExtractErrorMessageFromPayload(p: Json): (m: Bytes)
    ensures m != []
  {
    var nested := StringValue(Get(Get(p, "error"), "message"));
    var flat := FirstOf(p, ["message", "msg", "reason"]);
    if nested != [] then nested else if flat != [] then flat else "gateway event error"
  }

  /** The texts that may serve as an error message, in the order of preference. */
  function ErrorTexts(p: Json): seq<Bytes> {
    [StringValue(Get(Get(p, "error"), "message")), StringValue(Get(p, "message")), StringValue(Get(p, "msg")),
     StringValue(Get(p, "reason")), "gateway event error"]
  }

  /** The error message is the first of these texts that is not empty. As the last one never is,
      extractErrorMessage has no use for its own default. */
  lemma ErrorMessageIsFirst(p: Json)
    ensures exists i :: IsFirstText(ErrorTexts(p), i, ExtractErrorMessageFromPayload(p))
  {
    var m := ExtractErrorMessageFromPayload(p);
    FlatMessages(p);
    if ErrorTexts(p)[0] != [] {
      assert IsFirstText(ErrorTexts(p), 0, m);
    } else if ErrorTexts(p)[1] != [] {
      assert IsFirstText(ErrorTexts(p), 1, m);
    } else if ErrorTexts(p)[2] != [] {
      assert IsFirstText(ErrorTexts(p), 2, m);
    } else if ErrorTexts(p)[3] != [] {
      assert IsFirstText(ErrorTexts(p), 3, m);
    } else {
      assert IsFirstText(ErrorTexts(p), 4, m);
    }
  }

  ghost predicate IsFirstText(texts: seq<Bytes>, i: int, text: Bytes) {
    0 <= i < |texts| && text == texts[i] && text != [] && forall j :: 0 <= j < i ==> texts[j] == []
  }

  lemma FlatMessages(p: Json)
    ensures FirstOf(p, ["message", "msg", "reason"]) ==
            if StringValue(Get(p, "message")) != [] then StringValue(Get(p, "message"))
            else if StringValue(Get(p, "msg")) != [] then StringValue(Get(p, "msg"))
            else StringValue(Get(p, "reason"))
  {
    var keys: seq<Bytes> := ["message", "msg", "reason"];
    var fromMsg, fromReason, none := keys[1..], keys[2..], keys[3..];
    assert keys[1..] == fromMsg && fromMsg[1..] == fromReason && fromReason[1..] == none;
    assert FirstOf(p, none) == [];
    assert FirstOf(p, fromReason) == StringValue(Get(p, "reason"));
    assert FirstOf(p, fromMsg)
        == if StringValue(Get(p, "msg")) != [] then StringValue(Get(p, "msg")) else StringValue(Get(p, "reason"));
  }

  function ExtractErrorMessage(env: Envelope): (m: Bytes)
    ensures m != []
  {
    if env.error.Some? && env.error.value != [] then env.error.value
    else ExtractErrorMessageFromPayload(DecodePayload(env.payload))
  }

  function ExtractCorrelationId(env: Envelope, p: Json): Bytes {
    var v := FirstOf(p, ["run_id", "runId", "request_id", "requestId", "req_id", "reqId", "id"]);
    if v != [] then v else env.id
  }

  function ExtractSessionId(p: Json): Bytes {
    FirstOf(p, ["session_id", "sessionId", "sid"])
  }

  function ExtractContent(p: Json): Bytes {
    FirstOf(p, ["content", "text", "token", "chunk", "delta"])
  }

  /** The run id a payload carries itself, without looking into nested results. */
  function LocalRunId(p: Json): Bytes {
    var own := FirstOf(p, ["run_id", "runId"]);
    if own != [] then own else FirstOf(Get(p, "run"), ["id", "run_id", "runId"])
  }

  /** The keys under which a payload may nest another one, in the order they are searched. */
  const Nested: seq<Bytes> := ["response", "result", "data", "output"]

  predicate Nests(p: Json, key: Bytes) {
    p.Object? && key in p.fields && p.fields[key].Object?
  }

  function ExtractRunId(p: Json): Bytes
    decreases p, |Nested| + 1
  {
    if LocalRunId(p) != [] then LocalRunId(p) else RunIdBelow(p, Nested)
  }

  function RunIdBelow(p: Json, keys: seq<Bytes>): Bytes
    decreases p, |keys|
  {
    if keys == [] then []
    else
      var runId := if Nests(p, keys[0]) then ExtractRunId(p.fields[keys[0]]) else [];
      if runId != [] then runId else RunIdBelow(p, keys[1..])
  }

  /** The text of one content part; parts of another type than text are skipped. */
  function PartText(lx: Lexicon, part: Json): Bytes {
    if !part.Object? then []
    else
      var kind := NormalOf(lx, part, "type");
      if kind != [] && kind != "text" then []
      else if StringValue(Get(part, "text")) != [] then StringValue(Get(part, "text"))
      else StringValue(Get(part, "value"))
  }

  function PartsText(lx: Lexicon, parts: seq<Json>): Bytes {
    if parts == [] then [] else PartText(lx, parts[0]) + PartsText(lx, parts[1..])
  }

  function ContentText(lx: Lexicon, v: Json): Bytes {
    match v
    case String(text) => text
    case Array(items) => PartsText(lx, items)
    case _ => []
  }

  lemma AppendAssociates(a: Bytes, b: Bytes, c: Bytes)
    ensures (a + b) + c == a + (b + c)
  {
  }

  lemma {:induction false} PartsTextAppend(lx: Lexicon, a: seq<Json>, b: seq<Json>)
    ensures PartsText(lx, a + b) == PartsText(lx, a) + PartsText(lx, b)
  {
    if a == [] {
      assert a + b == b;
    } else {
      assert (a + b)[1..] == a[1..] + b;
      PartsTextAppend(lx, a[1..], b);
      AppendAssociates(PartText(lx, a[0]), PartsText(lx, a[1..]), PartsText(lx, b));
    }
  }

  lemma PartsTextNext(lx: Lexicon, parts: seq<Json>, i: nat)
    requires i < |parts|
    ensures PartsText(lx, parts[..i + 1]) == PartsText(lx, parts[..i]) + PartText(lx, parts[i])
  {
    assert parts[..i + 1] == parts[..i] + [parts[i]];
    PartsTextAppend(lx, parts[..i], [parts[i]]);
  }

  /** messageContentText, with the builder it grows. */
  method MessageContentText(lx: Lexicon, v: Json) returns (r: Bytes)
    ensures r == ContentText(lx, v)
  {
    if v.String? {
      return v.text;
    }
    if !v.Array? {
      return [];
    }
    var builder: Bytes := [];
    for i := 0 to |v.items|
      invariant builder == PartsText(lx, v.items[..i])
    {
      var part := v.items[i];
      PartsTextNext(lx, v.items, i);
      if part.Object? {
        var kind := NormalOf(lx, part, "type");
        if kind == [] || kind == "text" {
          var text := StringValue(Get(part, "text"));
          if text == [] {
            text := StringValue(Get(part, "value"));
          }
          builder := builder + text;
        }
      }
    }
    assert v.items[..|v.items|] == v.items;
    return builder;
  }

  /** The chat text a payload carries itself, without looking into nested results. */
  function LocalChatText(lx: Lexicon, p: Json): Bytes {
    var message := if Get(p, "message").Object? then ContentText(lx, Get(Get(p, "message"), "content")) else [];
    if message != [] then message
    else if ContentText(lx, Get(p, "content")) != [] then ContentText(lx, Get(p, "content"))
    else ExtractContent(p)
  }

  function ExtractChatText(lx: Lexicon, p: Json): Bytes
    decreases p, |Nested| + 1
  {
    var nested := ChatTextBelow(lx, p, Nested);
    if nested != [] then nested else LocalChatText(lx, p)
  }

  function ChatTextBelow(lx: Lexicon, p: Json, keys: seq<Bytes>): Bytes
    decreases p, |keys|
  {
    if keys == [] then []
    else
      var text := if Nests(p, keys[0]) then ExtractChatText(lx, p.fields[keys[0]]) else [];
      if text != [] then text else ChatTextBelow(lx, p, keys[1..])
  }

  function AgentTextUnder(lx: Lexicon, p: Json, keys: seq<Bytes>): Bytes {
    if keys == [] then []
    else
      var text := if Get(p, keys[0]).Object? then ExtractChatText(lx, Get(p, keys[0])) else [];
      if text != [] then text else AgentTextUnder(lx, p, keys[1..])
  }

  function ExtractAgentText(lx: Lexicon, p: Json): Bytes {
    var text := AgentTextUnder(lx, p, ["delta", "text", "content", "message"]);
    if text != [] then text else ExtractChatText(lx, p)
  }

  // ----- classification -----

  predicate IsPendingStatus(s: Bytes) {
    s in ["accepted", "queued", "started", "running", "in_flight", "inflight", "pending"]
  }

  predicate IsFinalStatus(s: Bytes) {
    s in ["ok", "done", "completed", "final", "ended", "end", "aborted", "cancelled", "canceled"]
  }

  predicate IsErrorStatus(s: Bytes) {
    s in ["error", "failed"]
  }

  predicate IsTokenEventName(name: Bytes) {
    Contains(name, "token") || Contains(name, "chunk")
  }

  predicate IsDoneEventName(name: Bytes) {
    Contains(name, "completed") || Contains(name, "done") || HasSuffix(name, ".end")
  }

  predicate IsErrorEventName(name: Bytes) {
    Contains(name, "error")
  }

  predicate IsUnauthorized(lx: Lexicon, message: Bytes) {
    Contains(lx.lower(message), "unauthorized") || Contains(lx.lower(message), "forbidden")
  }

  // ----- translation -----

  function TokenIf(text: Bytes): seq<Event> {
    if text == [] then [] else [Token(text)]
  }

  function ErrorOf(p: Json): seq<Event> {
    [Failure("GATEWAY_EVENT_ERROR", ExtractErrorMessageFromPayload(p))]
  }

  /** A batch of bridge events: at most a token, which is not empty, and then at most one terminal. */
  predicate WellFormed(batch: seq<Event>) {
    && |batch| <= 2 && (|batch| == 2 ==> IsTerminal(batch[1]))
    && (forall i :: 0 <= i < |batch| ==> IsTerminal(batch[i]) || (batch[i].Token? && batch[i].content != []))
    && (forall i :: 0 <= i < |batch| - 1 ==> !IsTerminal(batch[i]))
  }

  function ChatEvents(lx: Lexicon, p: Json): (batch: seq<Event>)
    ensures WellFormed(batch)
  {
    var state := NormalOf(lx, p, "state");
    var text := ExtractChatText(lx, p);
    if state == "delta" then TokenIf(text)
    else if state in ["final", "done", "completed"] then TokenIf(text) + [End]
    else if state == "error" then ErrorOf(p)
    else if state in ["aborted", "cancelled", "canceled"] then [End]
    else TokenIf(text)
  }

  function AgentEvents(lx: Lexicon, p: Json): (batch: seq<Event>)
    ensures WellFormed(batch)
  {
    var state := NormalOf(lx, p, "state");
    var terminal := if state != [] then state else NormalOf(lx, p, "type");
    TokenIf(ExtractAgentText(lx, p)) +
    if terminal in ["final", "done", "completed", "end", "ended", "finish", "finished"] then [End]
    else if terminal in ["error", "failed"] then ErrorOf(p)
    else []
  }

  function MapGatewayEvent(lx: Lexicon, env: Envelope): (batch: seq<Event>)
    ensures WellFormed(batch)
  {
    var p := DecodePayload(env.payload);
    var name := Normal(lx, env.event);
    var status := NormalOf(lx, p, "status");
    if status != [] && IsPendingStatus(status) then TokenIf(ExtractContent(p))
    else if status != [] && IsFinalStatus(status) then TokenIf(ExtractContent(p)) + [End]
    else if status != [] && IsErrorStatus(status) then ErrorOf(p)
    else EventsByName(lx, p, name)
  }

  /** mapGatewayEvent once the status has decided nothing. */
  function EventsByName(lx: Lexicon, p: Json, name: Bytes): (batch: seq<Event>)
    ensures WellFormed(batch)
  {
    if Contains(name, "chat") then ChatEvents(lx, p)
    else if Contains(name, "agent") then AgentEvents(lx, p)
    else if IsTokenEventName(name) then TokenIf(ExtractContent(p))
    else if IsDoneEventName(name) then [End]
    else if IsErrorEventName(name) then ErrorOf(p)
    else if Contains(name, "disconnect") then Disconnected()
    else []
  }

  function Disconnected(): (batch: seq<Event>)
    ensures WellFormed(batch)
  {
    [Failure("GATEWAY_DISCONNECTED", "gateway disconnected")]
  }

  /** The events handleResponse emits for a response it could attribute to a session. */
  function ResponseEvents(lx: Lexicon, env: Envelope): (batch: seq<Event>)
    ensures WellFormed(batch)
  {
    var p := DecodePayload(env.payload);
    var status := NormalOf(lx, p, "status");
    var content := TokenIf(ExtractContent(p));
    if env.ok != Some(true) then [Failure("GATEWAY_REQUEST_FAILED", ExtractErrorMessage(env))]
    else if IsPendingStatus(status) then content
    else if IsFinalStatus(status) then content + [End]
    else if IsErrorStatus(status) then [Failure("GATEWAY_REQUEST_FAILED", ExtractErrorMessageFromPayload(p))]
    else if content == [] then []
    else content + [End]
  }

  // ----- the recursive searches are flat traversals -----

  /** A payload and all payloads nested under the search keys, parents first. */
  function Preorder(p: Json): seq<Json>
    decreases p, |Nested| + 1
  {
    [p] + PreorderBelow(p, Nested)
  }

  function PreorderBelow(p: Json, keys: seq<Bytes>): seq<Json>
    decreases p, |keys|
  {
    if keys == [] then []
    else (if Nests(p, keys[0]) then Preorder(p.fields[keys[0]]) else []) + PreorderBelow(p, keys[1..])
  }

  /** The same payloads, parents last. */
  function Postorder(p: Json): seq<Json>
    decreases p, |Nested| + 1
  {
    PostorderBelow(p, Nested) + [p]
  }

  function PostorderBelow(p: Json, keys: seq<Bytes>): seq<Json>
    decreases p, |keys|
  {
    if keys == [] then []
    else (if Nests(p, keys[0]) then Postorder(p.fields[keys[0]]) else []) + PostorderBelow(p, keys[1..])
  }

  function FirstNonEmpty(nodes: seq<Json>, local: Json -> Bytes): Bytes {
    if nodes == [] then []
    else if local(nodes[0]) != [] then local(nodes[0])
    else FirstNonEmpty(nodes[1..], local)
  }

  lemma {:induction false} FirstNonEmptyAppend(a: seq<Json>, b: seq<Json>, local: Json -> Bytes)
    ensures FirstNonEmpty(a + b, local) ==
            if FirstNonEmpty(a, local) != [] then FirstNonEmpty(a, local) else FirstNonEmpty(b, local)
  {
    if a == [] {
      assert a + b == b;
    } else {
      assert (a + b)[1..] == a[1..] + b;
      FirstNonEmptyAppend(a[1..], b, local);
    }
  }

  /** The flat search finds nothing exactly when no node has anything. */
  lemma {:induction false} FirstNonEmptyIff(nodes: seq<Json>, local: Json -> Bytes)
    ensures FirstNonEmpty(nodes, local) == [] <==> forall n :: n in nodes ==> local(n) == []
  {
    if nodes != [] {
      FirstNonEmptyIff(nodes[1..], local);
      assert nodes == [nodes[0]] + nodes[1..];
    }
  }

  lemma {:induction false} RunIdBelowIsFlat(p: Json, keys: seq<Bytes>)
    ensures RunIdBelow(p, keys) == FirstNonEmpty(PreorderBelow(p, keys), LocalRunId)
    decreases p, |keys|
  {
    if keys != [] {
      RunIdBelowIsFlat(p, keys[1..]);
      var here: seq<Json> := if Nests(p, keys[0]) then Preorder(p.fields[keys[0]]) else [];
      if Nests(p, keys[0]) {
        RunIdIsFlat(p.fields[keys[0]]);
      }
      FirstNonEmptyAppend(here, PreorderBelow(p, keys[1..]), LocalRunId);
    }
  }

  /** extractRunID is the first non-empty local run id in pre-order; it is empty exactly when no
      payload of the tree carries one. */
  lemma {:induction false} RunIdIsFlat(p: Json)
    ensures ExtractRunId(p) == FirstNonEmpty(Preorder(p), LocalRunId)
    ensures ExtractRunId(p) == [] <==> forall n :: n in Preorder(p) ==> LocalRunId(n) == []
    decreases p, |Nested| + 1
  {
    RunIdBelowIsFlat(p, Nested);
    FirstNonEmptyAppend([p], PreorderBelow(p, Nested), LocalRunId);
    FirstNonEmptyIff(Preorder(p), LocalRunId);
  }

  lemma {:induction false} ChatTextBelowIsFlat(lx: Lexicon, p: Json, keys: seq<Bytes>)
    ensures ChatTextBelow(lx, p, keys) == FirstNonEmpty(PostorderBelow(p, keys), n => LocalChatText(lx, n))
    decreases p, |keys|
  {
    if keys != [] {
      ChatTextBelowIsFlat(lx, p, keys[1..]);
      var here: seq<Json> := if Nests(p, keys[0]) then Postorder(p.fields[keys[0]]) else [];
      if Nests(p, keys[0]) {
        ChatTextIsFlat(lx, p.fields[keys[0]]);
      }
      FirstNonEmptyAppend(here, PostorderBelow(p, keys[1..]), n => LocalChatText(lx, n));
    }
  }

  /** extractChatText is the first non-empty local text in post-order; it is empty exactly when no
      payload of the tree carries one. */
  lemma {:induction false} ChatTextIsFlat(lx: Lexicon, p: Json)
    ensures ExtractChatText(lx, p) == FirstNonEmpty(Postorder(p), n => LocalChatText(lx, n))
    ensures ExtractChatText(lx, p) == [] <==> forall n :: n in Postorder(p) ==> LocalChatText(lx, n) == []
    decreases p, |Nested| + 1
  {
    ChatTextBelowIsFlat(lx, p, Nested);
    FirstNonEmptyAppend(PostorderBelow(p, Nested), [p], n => LocalChatText(lx, n));
    FirstNonEmptyIff(Postorder(p), n => LocalChatText(lx, n));
  }

  /** Splitting a list of content parts anywhere splits its text there. */
  lemma ContentTextAppend(lx: Lexicon, a: seq<Json>, b: seq<Json>)
    ensures ContentText(lx, Array(a + b)) == ContentText(lx, Array(a)) + ContentText(lx, Array(b))
  {
    PartsTextAppend(lx, a, b);
  }
}
