/** The connector as a step system of two goroutines: the relay reader, which turns frames into
    gateway requests, and the gateway reader, which turns gateway messages into frames. They
    share the bridge's session table, the request and run maps, and the gateway connection. */
module ConnectorSystem {
  import opened Protocol
  import opened DataFrame
  import opened Events

  type RequestId = Bytes

  /** What a gateway request asks for: an agent run with this message, or to abort the current one. */
  datatype Ask = Agent(content: Bytes) | Abort

  /** What a bridge event asks of the gateway, if it asks for anything. */
  function AskOf(lx: Lexicon, event: Event): Option<Ask> {
    match event
    case UserMessage(content) => if lx.trim(content) == [] then None else Some(Agent(lx.trim(content)))
    case ControlAction(action) => if action == "stop" then Some(Abort) else None
    case _ => None
  }

  /** This is what the event wants: an agent run exactly if it is a user message, and then with its trimmed
      text, which is not empty; and an abort exactly if it is a stop. */
  ghost predicate Wants(lx: Lexicon, event: Event, ask: Ask) {
    && (forall text :: ask == Agent(text) <==> text != [] && event.UserMessage? && text == lx.trim(event.content))
    && (ask == Abort <==> event == ControlAction("stop"))
  }

  lemma AskIsWanted(lx: Lexicon, event: Event)
    ensures forall ask :: AskOf(lx, event) == Some(ask) <==> Wants(lx, event, ask)
    ensures AskOf(lx, event).Some? <==>
            (event.UserMessage? && lx.trim(event.content) != []) || event == ControlAction("stop")
  {
  }

  /** Gateway connections are numbered by the dial that made them. */
  type ConnId = nat

  /** The relay reader between two shared accesses (HandleData, SendUserMessage, SendCancel,
      writeJSON). `code` is the error it would answer with if the send failed. */
  datatype Reader =
    | Idle
    | Lookup(sessionId: SessionId, flags: byte, event: Event)
    | CheckReady(sessionId: SessionId, flags: byte, event: Event)
    | Track(sessionId: SessionId, flags: byte, ask: Ask, code: string)
    | WriteReady(sessionId: SessionId, flags: byte, request: RequestId, code: string)
    | WriteConn(sessionId: SessionId, flags: byte, request: RequestId, code: string)
    | Write(sessionId: SessionId, flags: byte, request: RequestId, conn: ConnId, code: string)
    | Untrack(sessionId: SessionId, flags: byte, request: RequestId, code: string)
    | Reply(sessionId: SessionId, flags: byte, code: string)

  /** Why a batch is emitted: a response to a request, or a gateway event. */
  type Cause = Option<RequestId>

  /** The gateway reader between two shared accesses. */
  datatype Gateway =
      // connectAndServe
    | Dial
    | SetConn(conn: ConnId)
    | ClearReady(conn: ConnId)
    | AwaitChallenge(conn: ConnId)
    | SendConnect(conn: ConnId)
    | AwaitAccept(conn: ConnId, request: RequestId)
    | SetReady(conn: ConnId)
    | Serve(conn: ConnId)
      // handleResponse
    | FindRequest(env: Envelope)
    | TrackRun(runId: Bytes, sessionId: SessionId, env: Envelope)
      // resolveSessionID, called from handleEvent
    | ByRequest(correlation: Bytes, runId: Bytes, env: Envelope)
    | ByRun(correlation: Bytes, runId: Bytes, env: Envelope)
    | ByRunCorrelation(correlation: Bytes, env: Envelope)
    | ByLast(env: Envelope)
      // emitEvent and HandleGatewayEvent, then clearSessionTracks after a terminal
    | Emit(sessionId: SessionId, batch: seq<Event>, cause: Cause)
    | Forward(sessionId: SessionId, flags: byte, batch: seq<Event>, cause: Cause)
    | Clear(sessionId: SessionId, batch: seq<Event>, cause: Cause)
      // the deferred calls of connectAndServe, then OnDisconnected
    | DropReady(auth: bool)
    | DropConn(auth: bool)
    | Snapshot
    | Broadcast(left: map<SessionId, byte>)
    | Stopped

  /** One tracked request: its session, the how-manieth handled frame, from 1, made it, and what it
      asks for. */
  datatype Tracked = Tracked(sessionId: SessionId, ordinal: nat, ask: Ask)

  /** Shared state, the two goroutines, and history: the connections that were challenged and
      accepted, every request ever tracked, those rolled back and those written, the terminal
      events emitted for each request, the DATA frames handled, the error replies made, and
      the ids that gateway messages have named. */
  datatype Node = Node(
    table: map<SessionId, byte>,
    requests: map<RequestId, SessionId>,
    runs: map<Bytes, SessionId>,
    last: SessionId,
    ready: bool,
    conn: Option<ConnId>,
    reader: Reader,
    gateway: Gateway,
    dialed: set<ConnId>,
    challenged: set<ConnId>,
    accepted: set<ConnId>,
    tracked: map<RequestId, Tracked>,
    order: seq<RequestId>,
    rolledBack: set<RequestId>,
    written: map<RequestId, ConnId>,
    answered: multiset<RequestId>,
    handled: seq<Bytes>,
    replies: nat,
    named: set<Bytes>)

  const Start := Node(map[], map[], map[], [], false, None, Idle, Dial, {}, {}, {},
                      map[], [], {}, map[], multiset{}, [], 0, {})

  /** What the relay reader delivers: an opened or closed session, or a DATA frame. */
  datatype Delivery =
    | SessionOpened(sessionId: SessionId)
    | SessionClosed(sessionId: SessionId)
    | Frame(frame: Bytes)

  /** What a read from the gateway connection may yield. */
  datatype Incoming = ReadError | Skipped | Message(env: Envelope)

  /** The schedule. `newId` names a new request or connection; `ok` is the outcome of a write or
      dial; `choice` picks the next session of a broadcast. */
  datatype Action =
    | Deliver(delivery: Delivery)
    | Read(newId: RequestId, ok: bool)
    | Work(incoming: Incoming, newId: RequestId, conn: ConnId, ok: bool, choice: SessionId)

  /** A frame that a step asks the relay link to carry. */
  datatype Outgoing = Outgoing(sessionId: SessionId, flags: byte, event: Event, cause: Cause)

  // ----- one atomic access to shared state -----

  datatype Access =
    | Observe
      // the bridge's session table
    | TableOpen(sessionId: SessionId)
    | TableClose(sessionId: SessionId)
    | TableFlags(sessionId: SessionId, flags: byte)
      // the tracking maps
    | TrackRequest(request: RequestId, sessionId: SessionId, ask: Ask)
    | UntrackRequest(request: RequestId)
    | PutRun(runId: Bytes, sessionId: SessionId)
    | ClearTracks(sessionId: SessionId)
      // the gateway connection
    | PutConn(conn: ConnId)
    | DropConnection
    | PutReady(ready: bool)
      // frames towards the relay: the reader's own answer, or a gateway event
    | Answer(outgoing: Outgoing)
    | Forwards(outgoing: Outgoing)
      // history only
    | Receive(frame: Bytes)
    | Dialed(conn: ConnId)
    | Challenged(conn: ConnId)
    | Accepted(conn: ConnId)
    | Wrote(request: RequestId, conn: ConnId)
    | Named(request: RequestId)
    | Terminal(request: RequestId)

  /** clearSessionTracks, on either map. */
  function Cleared<K>(m: map<K, SessionId>, id: SessionId): map<K, SessionId> {
    map k | k in m && m[k] != id :: m[k]
  }

  /** OpenSession leaves an open session's flags alone. */
  function Opened(table: map<SessionId, byte>, id: SessionId): map<SessionId, byte> {
    if id in table then table else table[id := 0 as char]
  }

  function Apply(n: Node, access: Access): Node {
    match access
    case Observe => n
    case TableOpen(id) => n.(table := Opened(n.table, id))
    case TableClose(id) => n.(table := n.table - {id})
    case TableFlags(id, flags) => n.(table := n.table[id := flags])
    case TrackRequest(r, id, ask) =>
      n.(requests := n.requests[r := id], last := id,
      tracked := n.tracked[r := Tracked(id, |n.handled|, ask)], order := n.order + [r])
    case UntrackRequest(r) => n.(requests := n.requests - {r}, rolledBack := n.rolledBack + {r})
    case PutRun(x, id) => n.(runs := n.runs[x := id])
    case ClearTracks(id) => n.(requests := Cleared(n.requests, id), runs := Cleared(n.runs, id))
    case PutConn(c) => n.(conn := Some(c))
    case DropConnection => n.(conn := None)
    case PutReady(ready) => n.(ready := ready)
    case Answer(_) => n.(replies := n.replies + 1)
    case Forwards(_) => n
    case Receive(frame) => n.(handled := n.handled + [frame])
    case Dialed(c) => n.(dialed := n.dialed + {c})
    case Challenged(c) => n.(challenged := n.challenged + {c})
    case Accepted(c) => n.(accepted := n.accepted + {c})
    case Wrote(r, c) => n.(written := n.written[r := c])
    case Named(r) => n.(named := n.named + {r})
    case Terminal(r) => n.(answered := n.answered + multiset{r})
  }

  /** The SendData call an access makes, if it makes one. */
  function Sent(access: Access): Option<Outgoing> {
    match access
    case Answer(o) => Some(o)
    case Forwards(o) => Some(o)
    case _ => None
  }

  // ----- the relay reader -----

  datatype ReaderMove = ReaderMove(access: Access, next: Reader)

  /** connector/main.go's callbacks, up to the first shared access of HandleData. */
  function OnDelivery(lx: Lexicon, d: Delivery): ReaderMove {
    match d
    case SessionOpened(id) => ReaderMove(TableOpen(id), Idle)
    case SessionClosed(id) => ReaderMove(TableClose(id), Idle)
    case Frame(frame) =>
      var parsed := ParseDataFrame(frame);
      if parsed.Err? then ReaderMove(Observe, Idle)
      else
        var (id, flags) := (parsed.value.sessionId, parsed.value.flags);
        var event := lx.decode(parsed.value.payload);
        ReaderMove(Receive(frame),
                   if event.None? then Reply(id, flags, "BAD_EVENT") else Lookup(id, flags, event.value))
  }

  /** The switch on the event type, once the gateway is ready. */
  function Dispatch(lx: Lexicon, id: SessionId, flags: byte, event: Event): (r: Reader)
    ensures (r.Reply? || r.Track?) && r.sessionId == id && r.flags == flags
    ensures AskOf(lx, event) == if r.Track? then Some(r.ask) else None
  {
    match event
    case UserMessage(content) =>
      if lx.trim(content) == [] then Reply(id, flags, "GATEWAY_SEND_FAILED")
      else Track(id, flags, Agent(lx.trim(content)), "GATEWAY_SEND_FAILED")
    case ControlAction(action) =>
      if action != "stop" then Reply(id, flags, "UNSUPPORTED_CONTROL")
      else Track(id, flags, Abort, "GATEWAY_CANCEL_FAILED")
    case _ => Reply(id, flags, "UNSUPPORTED_EVENT")
  }

  /** An id newID may return: never used before, and not one the gateway has guessed. */
  predicate FreshRequest(n: Node, r: RequestId) {
    r !in n.tracked && r !in n.named
  }

  function ReaderStep(lx: Lexicon, n: Node, newId: RequestId, ok: bool): Option<ReaderMove> {
    match n.reader
    case Idle => None
    case Lookup(id, flags, event) =>
      Some(if id in n.table then ReaderMove(TableFlags(id, flags), CheckReady(id, flags, event))
           else ReaderMove(Observe, Reply(id, flags, "SESSION_NOT_OPEN")))
    case CheckReady(id, flags, event) =>
      Some(ReaderMove(Observe, if n.ready then Dispatch(lx, id, flags, event)
                      else Reply(id, flags, "GATEWAY_NOT_READY")))
    case Track(id, flags, ask, code) =>
      if FreshRequest(n, newId) then Some(ReaderMove(TrackRequest(newId, id, ask), WriteReady(id, flags, newId, code)))
      else None
    case WriteReady(id, flags, r, code) =>
      Some(ReaderMove(Observe, if n.ready then WriteConn(id, flags, r, code) else Untrack(id, flags, r, code)))
    case WriteConn(id, flags, r, code) =>
      Some(ReaderMove(Observe, if n.conn.Some? then Write(id, flags, r, n.conn.value, code)
                      else Untrack(id, flags, r, code)))
    case Write(id, flags, r, conn, code) =>
      Some(if ok then ReaderMove(Wrote(r, conn), Idle) else ReaderMove(Observe, Untrack(id, flags, r, code)))
    case Untrack(id, flags, r, code) => Some(ReaderMove(UntrackRequest(r), Reply(id, flags, code)))
    case Reply(id, flags, code) =>
      Some(ReaderMove(Answer(Outgoing(id, flags, Failure(code, []), None)), Idle))
  }

  // ----- the gateway reader -----

  datatype GatewayMove = GatewayMove(access: Access, next: Gateway)

  datatype Verdict = Wait | Pass | Fail(auth: bool)

  /** waitForChallenge, for one message. */
  function OnChallenge(lx: Lexicon, env: Envelope): Verdict {
    if env.kind.EventKind? && env.event == "connect.challenge" then Pass
    else if env.kind.EventKind? && IsErrorEventName(Normal(lx, env.event)) then Fail(false)
    else if env.kind.ResponseKind? && env.ok == Some(false) then Fail(IsUnauthorized(lx, ExtractErrorMessage(env)))
    else Wait
  }

  /** performConnect's wait for the response to its request, for one message. */
  function OnAccept(lx: Lexicon, request: RequestId, env: Envelope): Verdict {
    if env.kind.ResponseKind? && env.id == request then
      if env.ok == Some(true) then Pass else Fail(IsUnauthorized(lx, ExtractErrorMessage(env)))
    else if env.kind.EventKind? && IsErrorEventName(Normal(lx, env.event)) then
      Fail(IsUnauthorized(lx, ExtractErrorMessage(env)))
    else Wait
  }

  function HandshakeVerdict(lx: Lexicon, g: Gateway, incoming: Incoming): Verdict
    requires g.AwaitChallenge? || g.AwaitAccept?
  {
    match incoming
    case ReadError => Fail(false)
    case Skipped => Wait
    case Message(env) => if g.AwaitChallenge? then OnChallenge(lx, env) else OnAccept(lx, g.request, env)
  }

  function HandshakeStep(lx: Lexicon, n: Node, a: Action): Option<GatewayMove>
    requires a.Work?
  {
    match n.gateway
    case Dial =>
      if !a.ok then Some(GatewayMove(Observe, Snapshot))
      else if a.conn in n.dialed then None
      else Some(GatewayMove(Dialed(a.conn), SetConn(a.conn)))
    case SetConn(c) => Some(GatewayMove(PutConn(c), ClearReady(c)))
    case ClearReady(c) => Some(GatewayMove(PutReady(false), AwaitChallenge(c)))
    case AwaitChallenge(c) =>
      (match HandshakeVerdict(lx, n.gateway, a.incoming)
       case Wait => None
       case Pass => Some(GatewayMove(Challenged(c), SendConnect(c)))
       case Fail(auth) => Some(GatewayMove(Observe, DropReady(auth))))
    case SendConnect(c) => Some(GatewayMove(Observe, if a.ok then AwaitAccept(c, a.newId) else DropReady(false)))
    case AwaitAccept(c, request) =>
      (match HandshakeVerdict(lx, n.gateway, a.incoming)
       case Wait => None
       case Pass => Some(GatewayMove(Accepted(c), SetReady(c)))
       case Fail(auth) => Some(GatewayMove(Observe, DropReady(auth))))
    case SetReady(c) => Some(GatewayMove(PutReady(true), Serve(c)))
    case DropReady(auth) => Some(GatewayMove(PutReady(false), DropConn(auth)))
    case DropConn(auth) => Some(GatewayMove(DropConnection, if auth then Stopped else Snapshot))
    case Snapshot => Some(GatewayMove(Observe, Broadcast(n.table)))
    case Broadcast(left) =>
      if left == map[] then Some(GatewayMove(Observe, Dial))
      else if a.choice !in left then None
      else Some(GatewayMove(
                  Forwards(Outgoing(a.choice, left[a.choice], Failure("GATEWAY_DISCONNECTED", []), None)),
                  Broadcast(left - {a.choice})))
    case _ => None
  }

  /** handleEvent starts with the session the payload names itself, if it names one. */
  function BeginEvent(lx: Lexicon, env: Envelope): (g: Gateway)
    ensures g.ByRequest? || (g.Emit? && WellFormed(g.batch) && g.cause.None?)
  {
    var p := DecodePayload(env.payload);
    if ExtractSessionId(p) != [] then Emit(ExtractSessionId(p), MapGatewayEvent(lx, env), None)
    else ByRequest(ExtractCorrelationId(env, p), ExtractRunId(p), env)
  }

  /** The connection the gateway reader goes back to serving. */
  function Resume(n: Node): Gateway {
    if n.conn.Some? then Serve(n.conn.value) else Dial
  }

  /** One message in the serving loop. The gateway answers a request only if it was written. */
  function OnMessage(lx: Lexicon, n: Node, env: Envelope): Option<GatewayMove> {
    match env.kind
    case EventKind => Some(GatewayMove(Observe, BeginEvent(lx, env)))
    case ResponseKind =>
      if env.id == [] || (env.id in n.tracked && env.id !in n.written) then None
      else Some(GatewayMove(Named(env.id), FindRequest(env)))
    case OtherKind => None
  }

  /** handleResponse, once the request's session is known. */
  function BeginResponse(lx: Lexicon, id: SessionId, env: Envelope): (g: Gateway)
    ensures (g.TrackRun? && g.env == env && g.sessionId == id) || g == EmitResponse(lx, id, env)
  {
    var runId := ExtractRunId(DecodePayload(env.payload));
    if runId != [] then TrackRun(runId, id, env) else EmitResponse(lx, id, env)
  }

  function EmitResponse(lx: Lexicon, id: SessionId, env: Envelope): (g: Gateway)
    ensures g.Emit? && g.sessionId == id && WellFormed(g.batch) && g.cause == Some(env.id)
  {
    Emit(id, ResponseEvents(lx, env), Some(env.id))
  }

  /** handleEvent, once the session is resolved; an empty id ends the call. */
  function EmitEvent(lx: Lexicon, n: Node, id: SessionId, env: Envelope): (g: Gateway)
    ensures g == Resume(n) || (g.Emit? && g.sessionId == id && WellFormed(g.batch) && g.cause.None?)
  {
    if id == [] then Resume(n) else Emit(id, MapGatewayEvent(lx, env), None)
  }

  /** After the first event of a batch has been handed over. */
  function NextInBatch(id: SessionId, batch: seq<Event>, cause: Cause): Gateway
    requires batch != []
  {
    if IsTerminal(batch[0]) then Clear(id, batch[1..], cause) else Emit(id, batch[1..], cause)
  }

  /** resolveSessionID after the payload's own session id: request, run, run by correlation, last. */
  function ResolveStep(lx: Lexicon, n: Node): Option<GatewayMove> {
    match n.gateway
    case ByRequest(corr, runId, env) =>
      Some(GatewayMove(Observe, if corr != [] && corr in n.requests then EmitEvent(lx, n, n.requests[corr], env)
                       else ByRun(corr, runId, env)))
    case ByRun(corr, runId, env) =>
      Some(GatewayMove(Observe, if runId != [] && runId in n.runs then EmitEvent(lx, n, n.runs[runId], env)
                       else ByRunCorrelation(corr, env)))
    case ByRunCorrelation(corr, env) =>
      Some(GatewayMove(Observe, if corr != [] && corr in n.runs then EmitEvent(lx, n, n.runs[corr], env)
                       else ByLast(env)))
    case ByLast(env) => Some(GatewayMove(Observe, EmitEvent(lx, n, n.last, env)))
    case _ => None
  }

  /** The loop that emits a batch; HandleGatewayEvent looks the session up before it sends. */
  function BatchStep(n: Node): Option<GatewayMove> {
    match n.gateway
    case Emit(id, batch, cause) =>
      if batch == [] then Some(GatewayMove(Observe, Resume(n)))
      else
        Some(GatewayMove(if cause.Some? && IsTerminal(batch[0]) then Terminal(cause.value) else Observe,
                         if id in n.table then Forward(id, n.table[id], batch, cause)
                         else NextInBatch(id, batch, cause)))
    case Forward(id, flags, batch, cause) =>
      if batch == [] then None
      else Some(GatewayMove(Forwards(Outgoing(id, flags, batch[0], cause)), NextInBatch(id, batch, cause)))
    case Clear(id, batch, cause) => Some(GatewayMove(ClearTracks(id), Emit(id, batch, cause)))
    case _ => None
  }

  function ServeStep(lx: Lexicon, n: Node, incoming: Incoming): Option<GatewayMove> {
    match n.gateway
    case Serve(c) =>
      (match incoming
       case ReadError => Some(GatewayMove(Observe, DropReady(false)))
       case Skipped => None
       case Message(env) => OnMessage(lx, n, env))
    case FindRequest(env) =>
      Some(GatewayMove(Observe, if env.id in n.requests then BeginResponse(lx, n.requests[env.id], env) else Resume(n)))
    case TrackRun(runId, id, env) => Some(GatewayMove(PutRun(runId, id), EmitResponse(lx, id, env)))
    case _ => None
  }

  function GatewayStep(lx: Lexicon, n: Node, a: Action): Option<GatewayMove>
    requires a.Work?
  {
    match n.gateway
    case Serve(_) | FindRequest(_) | TrackRun(_, _, _) => ServeStep(lx, n, a.incoming)
    case ByRequest(_, _, _) | ByRun(_, _, _) | ByRunCorrelation(_, _) | ByLast(_) => ResolveStep(lx, n)
    case Emit(_, _, _) | Forward(_, _, _, _) | Clear(_, _, _) => BatchStep(n)
    case _ => HandshakeStep(lx, n, a)
  }

  // ----- runs -----

  /** The move an action makes: by the relay reader or by the gateway reader. */
  function ReaderMoveOf(lx: Lexicon, n: Node, a: Action): Option<ReaderMove> {
    match a
    case Deliver(d) => if n.reader.Idle? then Some(OnDelivery(lx, d)) else None
    case Read(newId, ok) => ReaderStep(lx, n, newId, ok)
    case _ => None
  }

  function PerformReader(n: Node, m: ReaderMove): Node {
    Apply(n, m.access).(reader := m.next)
  }

  function PerformGateway(n: Node, m: GatewayMove): Node {
    Apply(n, m.access).(gateway := m.next)
  }

  /** One atomic step; an action that is not enabled leaves the connector as it is. */
  function Exec(lx: Lexicon, n: Node, a: Action): Node {
    if a.Work? then
      var m := GatewayStep(lx, n, a);
      if m.Some? then PerformGateway(n, m.value) else n
    else
      var m := ReaderMoveOf(lx, n, a);
      if m.Some? then PerformReader(n, m.value) else n
  }

  /** The SendData call the step makes, if any. */
  function Output(lx: Lexicon, n: Node, a: Action): Option<Outgoing> {
    if a.Work? then
      var m := GatewayStep(lx, n, a);
      if m.Some? then Sent(m.value.access) else None
    else
      var m := ReaderMoveOf(lx, n, a);
      if m.Some? then Sent(m.value.access) else None
  }

  function Run(lx: Lexicon, n: Node, actions: seq<Action>): Node
    decreases |actions|
  {
    if actions == [] then n
    else Exec(lx, Run(lx, n, actions[..|actions| - 1]), actions[|actions| - 1])
  }
}
