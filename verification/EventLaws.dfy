/** What gateway payloads mean: which fields the lookups read, and exactly which bridge events a gateway
    message turns into, in terms of its fields. */
module EventLaws {
  import opened Protocol
  import opened Events

  // ----- fields -----

  /** The field under the key holds this text. */
  ghost predicate Holds(p: Json, key: Bytes, text: Bytes) {
    p.Object? && key in p.fields && (p.fields[key] == String(text) || p.fields[key] == Number(text))
  }

  /** A key reads as the text its field holds, and as the empty one if it holds none. */
  lemma FieldText(p: Json, key: Bytes, text: Bytes)
    ensures StringValue(Get(p, key)) == text <==>
            Holds(p, key, text) || (text == [] && forall t :: !Holds(p, key, t))
  {
    if p.Object? && key in p.fields && (p.fields[key].String? || p.fields[key].Number?) {
      assert Holds(p, key, p.fields[key].text);
    }
  }

  /** The texts under these keys. */
  function Texts(p: Json, keys: seq<Bytes>): (texts: seq<Bytes>)
    ensures |texts| == |keys| && forall i :: 0 <= i < |keys| ==> texts[i] == StringValue(Get(p, keys[i]))
  {
    seq(|keys|, i requires 0 <= i < |keys| => StringValue(Get(p, keys[i])))
  }

  /** The first of these texts that is not empty, and the empty one if all are. */
  ghost predicate IsFirst(texts: seq<Bytes>, text: Bytes) {
    if text == [] then forall i :: 0 <= i < |texts| ==> texts[i] == [] else exists i :: IsFirstText(texts, i, text)
  }

  lemma FirstIsUnique(texts: seq<Bytes>, a: Bytes, b: Bytes)
    requires IsFirst(texts, a) && IsFirst(texts, b)
    ensures a == b
  {
  }

  lemma FirstHere(head: Bytes, rest: seq<Bytes>, text: Bytes)
    requires head == [] ==> IsFirst(rest, text)
    requires head != [] ==> text == head
    ensures IsFirst([head] + rest, text)
  {
    var texts := [head] + rest;
    if head != [] {
      assert IsFirstText(texts, 0, text);
    } else if text != [] {
      var i :| IsFirstText(rest, i, text);
      assert IsFirstText(texts, i + 1, text);
    }
  }

  lemma {:induction false} FirstAppend(a: seq<Bytes>, b: seq<Bytes>, first: Bytes, text: Bytes)
    requires IsFirst(a, first)
    requires first == [] ==> IsFirst(b, text)
    requires first != [] ==> text == first
    ensures IsFirst(a + b, text)
  {
    if first != [] {
      var i :| IsFirstText(a, i, first);
      assert IsFirstText(a + b, i, text);
    } else if text != [] {
      var i :| IsFirstText(b, i, text);
      assert IsFirstText(a + b, |a| + i, text);
    }
  }

  lemma FirstOfTwoMore(a: Bytes, b: Bytes, rest: seq<Bytes>, first: Bytes, text: Bytes)
    requires IsFirst(rest, first) && text == if a != [] then a else if b != [] then b else first
    ensures IsFirst([a, b] + rest, text)
  {
    FirstHere(b, rest, if b != [] then b else first);
    FirstHere(a, [b] + rest, text);
    assert [a, b] + rest == [a] + ([b] + rest);
  }

  lemma {:induction false} FirstOfIsFirst(p: Json, keys: seq<Bytes>)
    ensures IsFirst(Texts(p, keys), FirstOf(p, keys))
  {
    if keys != [] {
      FirstOfIsFirst(p, keys[1..]);
      FirstHere(StringValue(Get(p, keys[0])), Texts(p, keys[1..]), FirstOf(p, keys));
      assert Texts(p, keys) == [StringValue(Get(p, keys[0]))] + Texts(p, keys[1..]);
    }
  }

  // ----- what the lookups read -----

  /** The payload names this session. */
  ghost predicate NamesSession(p: Json, id: SessionId) {
    id != [] && IsFirst(Texts(p, ["session_id", "sessionId", "sid"]), id)
  }

  lemma SessionIdIsFirst(p: Json)
    ensures IsFirst(Texts(p, ["session_id", "sessionId", "sid"]), ExtractSessionId(p))
  {
    FirstOfIsFirst(p, ["session_id", "sessionId", "sid"]);
  }

  lemma NamedSession(p: Json, id: SessionId)
    ensures NamesSession(p, id) <==> id != [] && ExtractSessionId(p) == id
    ensures NamesSession(p, id) <==> id != [] && ExtractSessionId(DecodePayload(p)) == id
  {
    hide ExtractSessionId, IsFirst;
    var keys: seq<Bytes> := ["session_id", "sessionId", "sid"];
    SessionIdIsFirst(p);
    SessionIdIsFirst(DecodePayload(p));
    assert Texts(p, keys) == Texts(DecodePayload(p), keys);
    if IsFirst(Texts(p, keys), id) {
      FirstIsUnique(Texts(p, keys), id, ExtractSessionId(p));
      FirstIsUnique(Texts(p, keys), id, ExtractSessionId(DecodePayload(p)));
    }
  }

  lemma CorrelationIdIsFirst(env: Envelope, p: Json)
    ensures IsFirst(Texts(p, ["run_id", "runId", "request_id", "requestId", "req_id", "reqId", "id"]) + [env.id],
                    ExtractCorrelationId(env, p))
  {
    var keys: seq<Bytes> := ["run_id", "runId", "request_id", "requestId", "req_id", "reqId", "id"];
    hide FirstOf;
    FirstOfIsFirst(p, keys);
    OnlyOne(env.id);
    FirstAppend(Texts(p, keys), [env.id], FirstOf(p, keys), ExtractCorrelationId(env, p));
  }

  lemma OnlyOne(text: Bytes)
    ensures IsFirst([text], text)
  {
    if text != [] {
      assert IsFirstText([text], 0, text);
    }
  }

  lemma LocalRunIdIsFirst(p: Json)
    ensures IsFirst(Texts(p, ["run_id", "runId"]) + Texts(Get(p, "run"), ["id", "run_id", "runId"]), LocalRunId(p))
  {
    var own: seq<Bytes>, run: seq<Bytes> := ["run_id", "runId"], ["id", "run_id", "runId"];
    hide FirstOf;
    FirstOfIsFirst(p, own);
    FirstOfIsFirst(Get(p, "run"), run);
    FirstAppend(Texts(p, own), Texts(Get(p, "run"), run), FirstOf(p, own), LocalRunId(p));
  }

  lemma ContentIsFirst(p: Json)
    ensures IsFirst(Texts(p, ["content", "text", "token", "chunk", "delta"]), ExtractContent(p))
  {
    FirstOfIsFirst(p, ["content", "text", "token", "chunk", "delta"]);
  }

  /** The text of a request's or event's error: the one the message carries, or else the payload's. */
  lemma ErrorMessageIsFirstOf(env: Envelope)
    ensures IsFirst([match env.error case Some(message) => message case None => []] + ErrorTexts(Payload(env)),
                    ExtractErrorMessage(env))
  {
    var own := match env.error case Some(message) => message case None => [];
    hide ExtractErrorMessageFromPayload, ErrorTexts;
    ErrorMessageIsFirst(Payload(env));
    FirstHere(own, ErrorTexts(Payload(env)), ExtractErrorMessage(env));
  }

  /** The fields of a message; a payload that is no object has none. */
  function Payload(env: Envelope): Json {
    if env.payload.Object? then env.payload else Object(map[])
  }

  // ----- chat texts -----

  /** A content part that is untyped, or of type text, contributes its text, or else its value; any other
      part contributes nothing. */
  lemma PartTextMeans(lx: Lexicon, part: Json)
    ensures var kind := lx.lower(lx.trim(StringValue(Get(part, "type"))));
            if part.Object? && (kind == [] || kind == "text") then
              IsFirst(Texts(part, ["text", "value"]), PartText(lx, part))
            else PartText(lx, part) == []
  {
    var text, value := StringValue(Get(part, "text")), StringValue(Get(part, "value"));
    var kind := NormalOf(lx, part, "type");
    if part.Object? && (kind == [] || kind == "text") {
      OnlyOne(value);
      FirstHere(text, [value], PartText(lx, part));
    }
    assert Texts(part, ["text", "value"]) == [text] + [value];
  }

  /** A content is a text, or the texts of its parts one after the other. */
  lemma ContentTextMeans(lx: Lexicon, v: Json)
    ensures v.String? ==> ContentText(lx, v) == v.text
    ensures v.Array? && v.items == [] ==> ContentText(lx, v) == []
    ensures v.Array? && v.items != [] ==>
              ContentText(lx, v) == PartText(lx, v.items[0]) + ContentText(lx, Array(v.items[1..]))
    ensures !v.String? && !v.Array? ==> ContentText(lx, v) == []
  {
  }

  /** What a payload says itself: the content of its message, its content, or the first text. */
  lemma LocalChatTextIsFirst(lx: Lexicon, p: Json)
    ensures IsFirst([ContentText(lx, Get(Get(p, "message"), "content")), ContentText(lx, Get(p, "content"))]
                    + Texts(p, ["content", "text", "token", "chunk", "delta"]),
                    LocalChatText(lx, p))
  {
    var message, content := ContentText(lx, Get(Get(p, "message"), "content")), ContentText(lx, Get(p, "content"));
    var texts := Texts(p, ["content", "text", "token", "chunk", "delta"]);
    hide ExtractContent, ContentText;
    assert !Get(p, "message").Object? ==> message == [] by { NoContent(lx); }
    ContentIsFirst(p);
    FirstOfTwoMore(message, content, texts, ExtractContent(p), LocalChatText(lx, p));
  }

  lemma NoContent(lx: Lexicon)
    ensures ContentText(lx, Null) == []
  {
  }

  /** The nodes that a search visits below one key. */
  function Below(p: Json, key: Bytes, visit: Json -> seq<Json>): seq<Json> {
    if p.Object? && key in p.fields && p.fields[key].Object? then visit(p.fields[key]) else []
  }

  lemma BelowNext(p: Json, keys: seq<Bytes>)
    requires keys != []
    ensures PreorderBelow(p, keys) == Below(p, keys[0], Preorder) + PreorderBelow(p, keys[1..])
    ensures PostorderBelow(p, keys) == Below(p, keys[0], Postorder) + PostorderBelow(p, keys[1..])
  {
  }

  lemma BelowLast(p: Json, key: Bytes)
    ensures PreorderBelow(p, [key]) == Below(p, key, Preorder)
    ensures PostorderBelow(p, [key]) == Below(p, key, Postorder)
  {
    BelowNext(p, [key]);
    assert [key][1..] == [];
  }

  lemma FourKeys(p: Json, a: Bytes, b: Bytes, c: Bytes, d: Bytes)
    ensures PreorderBelow(p, [a, b, c, d])
         == Below(p, a, Preorder) + (Below(p, b, Preorder) + (Below(p, c, Preorder) + Below(p, d, Preorder)))
    ensures PostorderBelow(p, [a, b, c, d])
         == Below(p, a, Postorder) + (Below(p, b, Postorder) + (Below(p, c, Postorder) + Below(p, d, Postorder)))
  {
    hide Below, PreorderBelow, PostorderBelow;
    assert [a, b, c, d][1..] == [b, c, d] && [b, c, d][1..] == [c, d] && [c, d][1..] == [d];
    BelowNext(p, [a, b, c, d]);
    BelowNext(p, [b, c, d]);
    BelowNext(p, [c, d]);
    BelowLast(p, d);
  }

  /** The nodes below the four keys that are searched. */
  function Nodes(p: Json, visit: Json -> seq<Json>): seq<Json> {
    var result, data, output := Below(p, "result", visit), Below(p, "data", visit), Below(p, "output", visit);
    Below(p, "response", visit) + (result + (data + output))
  }

  /** Both searches look below these keys, in this order: the one for run ids after the payload itself, the
      one for texts before it. */
  lemma SearchOrder(p: Json)
    ensures Preorder(p) == [p] + Nodes(p, Preorder)
    ensures Postorder(p) == Nodes(p, Postorder) + [p]
  {
    hide Below, PreorderBelow, PostorderBelow;
    FourKeys(p, "response", "result", "data", "output");
  }

  /** The text of an agent event: the chat text below the first of these keys that has one, or the payload's
      own. */
  lemma AgentTextIsFirst(lx: Lexicon, p: Json)
    ensures IsFirst([ChatTextIn(lx, p, "delta"), ChatTextIn(lx, p, "text"), ChatTextIn(lx, p, "content"),
                     ChatTextIn(lx, p, "message"), ExtractChatText(lx, p)],
                    ExtractAgentText(lx, p))
  {
    AgentTextFromKeys(lx, p, "delta", "text", "content", "message");
  }

  lemma AgentTextFromKeys(lx: Lexicon, p: Json, a: Bytes, b: Bytes, c: Bytes, d: Bytes)
    ensures var under := AgentTextUnder(lx, p, [a, b, c, d]);
            IsFirst([ChatTextIn(lx, p, a), ChatTextIn(lx, p, b), ChatTextIn(lx, p, c), ChatTextIn(lx, p, d),
                     ExtractChatText(lx, p)],
                    if under != [] then under else ExtractChatText(lx, p))
  {
    hide ExtractChatText, AgentTextUnder, ChatTextIn;
    var keys, text := [a, b, c, d], ExtractChatText(lx, p);
    AgentTextUnderIsFirst(lx, p, keys);
    OnlyOne(text);
    FirstAppend(ChatTextsIn(lx, p, keys), [text], AgentTextUnder(lx, p, keys),
                if AgentTextUnder(lx, p, keys) != [] then AgentTextUnder(lx, p, keys) else text);
    assert ChatTextsIn(lx, p, keys) + [text]
        == [ChatTextIn(lx, p, a), ChatTextIn(lx, p, b), ChatTextIn(lx, p, c), ChatTextIn(lx, p, d), text];
  }

  function ChatTextIn(lx: Lexicon, p: Json, key: Bytes): Bytes {
    if Get(p, key).Object? then ExtractChatText(lx, Get(p, key)) else []
  }

  function ChatTextsIn(lx: Lexicon, p: Json, keys: seq<Bytes>): seq<Bytes> {
    seq(|keys|, i requires 0 <= i < |keys| => ChatTextIn(lx, p, keys[i]))
  }

  lemma {:induction false} AgentTextUnderIsFirst(lx: Lexicon, p: Json, keys: seq<Bytes>)
    ensures IsFirst(ChatTextsIn(lx, p, keys), AgentTextUnder(lx, p, keys))
  {
    hide ExtractChatText;
    if keys != [] {
      AgentTextUnderIsFirst(lx, p, keys[1..]);
      FirstHere(ChatTextIn(lx, p, keys[0]), ChatTextsIn(lx, p, keys[1..]), AgentTextUnder(lx, p, keys));
      assert ChatTextsIn(lx, p, keys) == [ChatTextIn(lx, p, keys[0])] + ChatTextsIn(lx, p, keys[1..]);
    }
  }

  // ----- names -----

  predicate OccursAt(name: Bytes, part: Bytes, i: int) {
    0 <= i <= |name| - |part| && name[i..i + |part|] == part
  }

  /** The part occurs in the name. */
  ghost predicate Occurs(name: Bytes, part: Bytes) {
    exists i :: OccursAt(name, part, i)
  }

  lemma AtStart(name: Bytes, part: Bytes)
    ensures OccursAt(name, part, 0) <==> part <= name
  {
  }

  lemma {:induction false} ContainsMeans(name: Bytes, part: Bytes)
    ensures Contains(name, part) <==> Occurs(name, part)
  {
    AtStart(name, part);
    if !(part <= name) && name != [] {
      ContainsMeans(name[1..], part);
      if Occurs(name[1..], part) {
        var i :| OccursAt(name[1..], part, i);
        LaterOccurs(name, part, i + 1);
      }
      if Occurs(name, part) {
        var i :| OccursAt(name, part, i);
        LaterOccurs(name, part, i);
      }
    }
  }

  lemma LaterOccurs(name: Bytes, part: Bytes, i: int)
    requires name != [] && i > 0
    ensures OccursAt(name, part, i) <==> OccursAt(name[1..], part, i - 1)
  {
    if i <= |name| - |part| {
      assert name[1..][i - 1..i - 1 + |part|] == name[i..i + |part|];
    }
  }

  /** The name ends in this suffix. */
  ghost predicate Ends(name: Bytes, suffix: Bytes) {
    exists stem :: name == stem + suffix
  }

  lemma HasSuffixMeans(name: Bytes, suffix: Bytes)
    ensures HasSuffix(name, suffix) <==> Ends(name, suffix)
  {
    if HasSuffix(name, suffix) {
      assert name == name[..|name| - |suffix|] + suffix;
    }
    if stem :| name == stem + suffix {
      assert name[|name| - |suffix|..] == suffix;
    }
  }

  // ----- what a gateway event turns into -----

  const PendingWords: set<Bytes> := {"accepted", "queued", "started", "running", "in_flight", "inflight", "pending"}
  const FinalWords: set<Bytes> :=
    {"ok", "done", "completed", "final", "ended", "end", "aborted", "cancelled", "canceled"}
  const FailedWords: set<Bytes> := {"error", "failed"}

  const ChatFinalWords: set<Bytes> := {"final", "done", "completed"}
  const ChatAbortWords: set<Bytes> := {"aborted", "cancelled", "canceled"}
  const AgentFinalWords: set<Bytes> := {"final", "done", "completed", "end", "ended", "finish", "finished"}

  /** A field in lower case, without the space around it. */
  function Word(lx: Lexicon, env: Envelope, key: Bytes): Bytes {
    lx.lower(lx.trim(StringValue(Get(env.payload, key))))
  }

  /** The status of an event or a response belongs to none of the three groups. */
  ghost predicate Undecided(lx: Lexicon, env: Envelope) {
    var status := Word(lx, env, "status");
    status !in PendingWords && status !in FinalWords && status !in FailedWords
  }

  /** The part occurs in the event's name. */
  ghost predicate NameHas(lx: Lexicon, env: Envelope, part: Bytes) {
    Occurs(lx.lower(lx.trim(env.event)), part)
  }

  /** The status decides nothing, and the name is that of a chat event. */
  ghost predicate IsChat(lx: Lexicon, env: Envelope) {
    Undecided(lx, env) && NameHas(lx, env, "chat")
  }

  /** Otherwise, that of an agent event. */
  ghost predicate IsAgent(lx: Lexicon, env: Envelope) {
    Undecided(lx, env) && !NameHas(lx, env, "chat") && NameHas(lx, env, "agent")
  }

  /** Otherwise the name itself says what has happened; that of a token event comes first. */
  ghost predicate IsOther(lx: Lexicon, env: Envelope) {
    Undecided(lx, env) && !NameHas(lx, env, "chat") && !NameHas(lx, env, "agent")
  }

  ghost predicate NamesToken(lx: Lexicon, env: Envelope) {
    NameHas(lx, env, "token") || NameHas(lx, env, "chunk")
  }

  ghost predicate NamesEnd(lx: Lexicon, env: Envelope) {
    && !NamesToken(lx, env)
    && (NameHas(lx, env, "completed") || NameHas(lx, env, "done") || Ends(lx.lower(lx.trim(env.event)), ".end"))
  }

  ghost predicate NamesError(lx: Lexicon, env: Envelope) {
    !NamesToken(lx, env) && !NamesEnd(lx, env) && NameHas(lx, env, "error")
  }

  ghost predicate NamesDisconnect(lx: Lexicon, env: Envelope) {
    !NamesToken(lx, env) && !NamesEnd(lx, env) && !NamesError(lx, env) && NameHas(lx, env, "disconnect")
  }

  /** An agent event's outcome is its state, or else its type. */
  function AgentOutcome(lx: Lexicon, env: Envelope): Bytes {
    if Word(lx, env, "state") != [] then Word(lx, env, "state") else Word(lx, env, "type")
  }

  /** When a gateway event ends its answer. */
  ghost predicate EventEnds(lx: Lexicon, env: Envelope) {
    || Word(lx, env, "status") in FinalWords
    || (IsChat(lx, env) && (Word(lx, env, "state") in ChatFinalWords || Word(lx, env, "state") in ChatAbortWords))
    || (IsAgent(lx, env) && AgentOutcome(lx, env) in AgentFinalWords)
    || (IsOther(lx, env) && NamesEnd(lx, env))
  }

  /** When it is an error. */
  ghost predicate EventFails(lx: Lexicon, env: Envelope) {
    || Word(lx, env, "status") in FailedWords
    || (IsChat(lx, env) && Word(lx, env, "state") == "error")
    || (IsAgent(lx, env) && AgentOutcome(lx, env) in FailedWords)
    || (IsOther(lx, env) && NamesError(lx, env))
  }

  /** When it fails its answer with this code and message: an error with the payload's text, a disconnect with
      its own. */
  ghost predicate EventReports(lx: Lexicon, env: Envelope, code: string, message: Bytes) {
    || (EventFails(lx, env) && code == "GATEWAY_EVENT_ERROR" && IsFirst(ErrorTexts(Payload(env)), message))
    || (IsOther(lx, env) && NamesDisconnect(lx, env)
        && code == "GATEWAY_DISCONNECTED" && message == "gateway disconnected")
  }

  /** The message's content: the first of these texts. */
  ghost predicate HasContent(env: Envelope, text: Bytes) {
    IsFirst(Texts(env.payload, ["content", "text", "token", "chunk", "delta"]), text)
  }

  /** When it says this text. */
  ghost predicate EventSays(lx: Lexicon, env: Envelope, text: Bytes) {
    && text != []
    && (|| (Word(lx, env, "status") in PendingWords && HasContent(env, text))
        || (Word(lx, env, "status") in FinalWords && HasContent(env, text))
        || (IsChat(lx, env) && Word(lx, env, "state") != "error" && Word(lx, env, "state") !in ChatAbortWords
            && text == ExtractChatText(lx, Payload(env)))
        || (IsAgent(lx, env) && text == ExtractAgentText(lx, Payload(env)))
        || (IsOther(lx, env) && NamesToken(lx, env) && HasContent(env, text)))
  }

  lemma WordsAreNormal(lx: Lexicon, env: Envelope, key: Bytes)
    ensures NormalOf(lx, DecodePayload(env.payload), key) == Word(lx, env, key)
  {
  }

  /** A payload says this text exactly if that is what extractContent finds. */
  lemma SaysContent(env: Envelope, text: Bytes)
    ensures HasContent(env, text) <==>
            text == ExtractContent(DecodePayload(env.payload))
  {
    hide ExtractContent, IsFirst;
    var keys: seq<Bytes> := ["content", "text", "token", "chunk", "delta"];
    ContentIsFirst(DecodePayload(env.payload));
    assert Texts(env.payload, keys) == Texts(DecodePayload(env.payload), keys);
    if IsFirst(Texts(env.payload, keys), text) {
      FirstIsUnique(Texts(env.payload, keys), text, ExtractContent(DecodePayload(env.payload)));
    }
  }

  lemma SaysError(p: Json, message: Bytes)
    ensures IsFirst(ErrorTexts(p), message) <==> message == ExtractErrorMessageFromPayload(p)
  {
    hide ExtractErrorMessageFromPayload, ErrorTexts;
    ErrorMessageIsFirst(p);
    if IsFirst(ErrorTexts(p), message) {
      FirstIsUnique(ErrorTexts(p), message, ExtractErrorMessageFromPayload(p));
    }
  }

  lemma NamesMean(lx: Lexicon, env: Envelope)
    ensures var name := Normal(lx, env.event);
            && (forall part :: Contains(name, part) <==> NameHas(lx, env, part))
            && (IsTokenEventName(name) <==> NamesToken(lx, env))
            && (!NamesToken(lx, env) ==> (IsDoneEventName(name) <==> NamesEnd(lx, env)))
  {
    hide Contains, HasSuffix;
    var name := Normal(lx, env.event);
    forall part ensures Contains(name, part) <==> NameHas(lx, env, part) {
      ContainsMeans(name, part);
    }
    HasSuffixMeans(name, ".end");
  }

  lemma StatusMeans(lx: Lexicon, env: Envelope)
    ensures var status := Word(lx, env, "status");
            && (IsPendingStatus(status) <==> status in PendingWords)
            && (IsFinalStatus(status) <==> status in FinalWords)
            && (IsErrorStatus(status) <==> status in FailedWords)
            && (Undecided(lx, env) <==> !IsPendingStatus(status) && !IsFinalStatus(status) && !IsErrorStatus(status))
            && !(IsPendingStatus(status) && (IsFinalStatus(status) || IsErrorStatus(status)))
            && !(IsFinalStatus(status) && IsErrorStatus(status))
            && (status == [] ==> Undecided(lx, env))
  {
    hide Word;
  }

  /** A status of one of the three groups decides. */
  lemma StatusRules(lx: Lexicon, env: Envelope)
    ensures var p, batch := DecodePayload(env.payload), MapGatewayEvent(lx, env);
            var status, content := Word(lx, env, "status"), TokenIf(ExtractContent(DecodePayload(env.payload)));
            && (status in PendingWords ==> batch == content)
            && (status in FinalWords ==> batch == content + [End])
            && (status in FailedWords ==> batch == ErrorOf(p))
  {
    StatusMeans(lx, env);
    WordsAreNormal(lx, env, "status");
    hide EventsByName, ExtractContent, ErrorOf, Word, DecodePayload, NormalOf, Normal, TokenIf;
    hide IsPendingStatus, IsFinalStatus, IsErrorStatus, PendingWords, FinalWords, FailedWords, Undecided;
  }

  /** Otherwise the name does. */
  lemma NameRules(lx: Lexicon, env: Envelope)
    requires Undecided(lx, env)
    ensures MapGatewayEvent(lx, env) == EventsByName(lx, DecodePayload(env.payload), Normal(lx, env.event))
  {
    StatusMeans(lx, env);
    WordsAreNormal(lx, env, "status");
    hide EventsByName, ExtractContent, ErrorOf, Word, DecodePayload, NormalOf, Normal, TokenIf;
    hide IsPendingStatus, IsFinalStatus, IsErrorStatus, PendingWords, FinalWords, FailedWords, Undecided;
  }

  /** These are the bridge events that a gateway event turns into. */
  ghost predicate Renders(lx: Lexicon, env: Envelope, batch: seq<Event>) {
    && (End in batch <==> EventEnds(lx, env))
    && (forall text :: Token(text) in batch <==> EventSays(lx, env, text))
    && (forall code, message :: Failure(code, message) in batch <==> EventReports(lx, env, code, message))
  }

  /** The content and the error text of a message, as the lookups find them. */
  ghost predicate TextsRead(env: Envelope) {
    var p := Payload(env);
    && p == DecodePayload(env.payload)
    && (forall text :: HasContent(env, text) <==> text == ExtractContent(p))
    && (forall message :: IsFirst(ErrorTexts(p), message) <==> message == ExtractErrorMessageFromPayload(p))
  }

  lemma ReadTexts(env: Envelope)
    ensures TextsRead(env)
  {
    hide ExtractContent, ExtractErrorMessageFromPayload, IsFirst, ErrorTexts;
    forall text {
      SaysContent(env, text);
    }
    forall message {
      SaysError(Payload(env), message);
    }
  }

  /** A token, if the text is not empty, and then the last event. */
  function Batch(text: Bytes, last: Option<Event>): seq<Event> {
    TokenIf(text) + match last case Some(e) => [e] case None => []
  }

  lemma RendersBatch(lx: Lexicon, env: Envelope, text: Bytes, last: Option<Event>)
    requires forall t :: EventSays(lx, env, t) <==> t != [] && t == text
    requires EventEnds(lx, env) <==> last == Some(End)
    requires forall code, message :: EventReports(lx, env, code, message) <==> last == Some(Failure(code, message))
    requires last.Some? ==> IsTerminal(last.value)
    ensures Renders(lx, env, Batch(text, last))
  {
    hide EventSays, EventEnds, EventReports;
  }

  lemma DecidedMeans(lx: Lexicon, env: Envelope)
    requires !Undecided(lx, env) && TextsRead(env)
    ensures Renders(lx, env, MapGatewayEvent(lx, env))
  {
    StatusMeans(lx, env);
    StatusRules(lx, env);
    hide MapGatewayEvent, ExtractContent, ExtractErrorMessageFromPayload, IsFirst, ErrorTexts, Word, NameHas, Texts;
    hide PendingWords, FinalWords, FailedWords, DecodePayload, Payload, IsPendingStatus, IsFinalStatus, IsErrorStatus;
    hide NamesToken, NamesEnd, NamesError, NamesDisconnect, AgentOutcome, ExtractChatText, ExtractAgentText, Renders;
    var p, status := Payload(env), Word(lx, env, "status");
    var content := ExtractContent(p);
    if status in PendingWords {
      RendersBatch(lx, env, content, None);
      assert Batch(content, None) == TokenIf(content);
    } else if status in FinalWords {
      RendersBatch(lx, env, content, Some(End));
    } else {
      RendersBatch(lx, env, [], Some(ErrorOf(p)[0]));
      assert Batch([], Some(ErrorOf(p)[0])) == ErrorOf(p);
    }
  }

  lemma ChatShape(lx: Lexicon, p: Json)
    ensures var state, text := NormalOf(lx, p, "state"), ExtractChatText(lx, p);
            && !(state in ChatFinalWords && (state in ChatAbortWords || state == "error"))
            && !(state in ChatAbortWords && state == "error")
            && ChatEvents(lx, p)
               == if state in ChatFinalWords then Batch(text, Some(End))
                  else if state in ChatAbortWords then Batch([], Some(End))
                  else if state == "error" then Batch([], Some(ErrorOf(p)[0]))
                  else Batch(text, None)
  {
    hide NormalOf, ExtractChatText, ExtractErrorMessageFromPayload;
  }

  lemma ChatMeans(lx: Lexicon, env: Envelope)
    requires IsChat(lx, env) && TextsRead(env)
    ensures Renders(lx, env, ChatEvents(lx, Payload(env)))
  {
    WordsAreNormal(lx, env, "state");
    ChatShape(lx, Payload(env));
    hide ExtractContent, ExtractErrorMessageFromPayload, IsFirst, ErrorTexts, Word, NameHas, Texts, Normal, NormalOf;
    hide PendingWords, FinalWords, FailedWords, DecodePayload, Payload, ExtractChatText, ExtractAgentText, ChatEvents;
    hide NamesToken, NamesEnd, NamesError, NamesDisconnect, AgentOutcome, ChatFinalWords, ChatAbortWords;
    hide Renders, Batch;
    var p, state := Payload(env), Word(lx, env, "state");
    var text := ExtractChatText(lx, p);
    if state in ChatFinalWords {
      RendersBatch(lx, env, text, Some(End));
    } else if state in ChatAbortWords {
      RendersBatch(lx, env, [], Some(End));
    } else if state == "error" {
      RendersBatch(lx, env, [], Some(ErrorOf(p)[0]));
    } else {
      RendersBatch(lx, env, text, None);
    }
  }

  lemma AgentShape(lx: Lexicon, p: Json)
    ensures var state := NormalOf(lx, p, "state");
            var outcome := if state != [] then state else NormalOf(lx, p, "type");
            && !(outcome in AgentFinalWords && outcome in FailedWords)
            && AgentEvents(lx, p)
               == Batch(ExtractAgentText(lx, p),
                        if outcome in AgentFinalWords then Some(End)
                        else if outcome in FailedWords then Some(ErrorOf(p)[0]) else None)
  {
    hide NormalOf, ExtractAgentText, ExtractErrorMessageFromPayload;
  }

  lemma AgentMeans(lx: Lexicon, env: Envelope)
    requires IsAgent(lx, env) && TextsRead(env)
    ensures Renders(lx, env, AgentEvents(lx, Payload(env)))
  {
    WordsAreNormal(lx, env, "state");
    WordsAreNormal(lx, env, "type");
    AgentShape(lx, Payload(env));
    hide ExtractContent, ExtractErrorMessageFromPayload, IsFirst, ErrorTexts, Word, NameHas, Texts, Normal, NormalOf;
    hide PendingWords, FinalWords, FailedWords, DecodePayload, Payload, ExtractChatText, ExtractAgentText, AgentEvents;
    hide NamesToken, NamesEnd, NamesError, NamesDisconnect, AgentFinalWords, Renders, Batch;
    var p, outcome := Payload(env), AgentOutcome(lx, env);
    var text := ExtractAgentText(lx, p);
    if outcome in AgentFinalWords {
      RendersBatch(lx, env, text, Some(End));
    } else if outcome in FailedWords {
      RendersBatch(lx, env, text, Some(ErrorOf(p)[0]));
    } else {
      RendersBatch(lx, env, text, None);
    }
  }

  lemma OtherMeans(lx: Lexicon, env: Envelope)
    requires IsOther(lx, env) && TextsRead(env)
    ensures Renders(lx, env, EventsByName(lx, Payload(env), Normal(lx, env.event)))
  {
    NamesMean(lx, env);
    hide ExtractContent, ExtractErrorMessageFromPayload, IsFirst, ErrorTexts, Word, NameHas, Texts, Normal, NormalOf;
    hide PendingWords, FinalWords, FailedWords, DecodePayload, Payload, ExtractChatText, ExtractAgentText;
    hide Contains, IsTokenEventName, IsDoneEventName, AgentOutcome;
  }

  /** Exactly which bridge events a gateway event turns into, and at most one of each kind: a token, and then
      an end or a failure. */
  lemma MapGatewayEventMeans(lx: Lexicon, env: Envelope)
    ensures Renders(lx, env, MapGatewayEvent(lx, env)) && WellFormed(MapGatewayEvent(lx, env))
  {
    hide Renders, ChatEvents, AgentEvents, TextsRead, Contains, Normal, NameHas, Word, Payload;
    ReadTexts(env);
    if Undecided(lx, env) {
      NameRules(lx, env);
      NamesMean(lx, env);
      SamePayload(env);
      if NameHas(lx, env, "chat") {
        ChatMeans(lx, env);
      } else if NameHas(lx, env, "agent") {
        AgentMeans(lx, env);
      } else {
        OtherMeans(lx, env);
      }
    } else {
      DecidedMeans(lx, env);
    }
  }

  lemma SamePayload(env: Envelope)
    ensures DecodePayload(env.payload) == Payload(env)
  {
  }

  // ----- what a response turns into -----

  /** When a response ends its answer: it is a success whose status is final, or undecided with a content. */
  ghost predicate ResponseEnds(lx: Lexicon, env: Envelope) {
    && env.ok == Some(true)
    && (Word(lx, env, "status") in FinalWords || (Undecided(lx, env) && !HasContent(env, [])))
  }

  /** When it fails its answer with this message: it is no success, or one with a failed status. */
  ghost predicate ResponseFails(lx: Lexicon, env: Envelope, message: Bytes) {
    if env.ok == Some(true) then Word(lx, env, "status") in FailedWords && IsFirst(ErrorTexts(Payload(env)), message)
    else message == ExtractErrorMessage(env)
  }

  /** Exactly which bridge events a response turns into, once it has been attributed to a session. */
  lemma ResponseEventsMean(lx: Lexicon, env: Envelope)
    ensures WellFormed(ResponseEvents(lx, env))
    ensures End in ResponseEvents(lx, env) <==> ResponseEnds(lx, env)
    ensures forall text :: Token(text) in ResponseEvents(lx, env) <==>
                           && env.ok == Some(true) && Word(lx, env, "status") !in FailedWords
                           && text != [] && HasContent(env, text)
    ensures forall code, message :: Failure(code, message) in ResponseEvents(lx, env) <==>
                                    code == "GATEWAY_REQUEST_FAILED" && ResponseFails(lx, env, message)
  {
    ReadTexts(env);
    StatusMeans(lx, env);
    WordsAreNormal(lx, env, "status");
    hide ExtractContent, ExtractErrorMessageFromPayload, ExtractErrorMessage, IsFirst, ErrorTexts, Word, Texts;
    hide NormalOf;
    hide PendingWords, FinalWords, FailedWords, IsPendingStatus, IsFinalStatus, IsErrorStatus, DecodePayload, Payload;
  }
}
