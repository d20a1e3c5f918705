/** Concrete stretches of connector runs: the handshake, a frame that makes a request, and a response
    that fails it. They show that what the theorems speak of does happen. */
module ConnectorRuns {
  import opened Protocol
  import opened DataFrame
  import opened Events
  import opened ConnectorSystem
  import opened ConnectorInvariants
  import opened ConnectorTheorems

  // ----- runs in pieces -----

  lemma {:induction false} RunAppend(lx: Lexicon, n: Node, a: seq<Action>, b: seq<Action>)
    ensures Run(lx, n, a + b) == Run(lx, Run(lx, n, a), b)
    decreases |b|
  {
    hide Exec;
    if b == [] {
      assert a + b == a;
    } else {
      RunAppend(lx, n, a, b[..|b| - 1]);
      assert (a + b)[..|a + b| - 1] == a + b[..|b| - 1];
    }
  }

  lemma RunNone(lx: Lexicon, n: Node)
    ensures Run(lx, n, []) == n
  {
  }

  lemma RunOne(lx: Lexicon, n: Node, a: Action)
    ensures Run(lx, n, [a]) == Exec(lx, n, a)
  {
    hide Exec;
    assert [a][..0] == [];
  }

  lemma RunThen(lx: Lexicon, n: Node, actions: seq<Action>, a: Action)
    ensures Run(lx, n, actions + [a]) == Exec(lx, Run(lx, n, actions), a)
  {
    hide Exec, Run;
    RunAppend(lx, n, actions, [a]);
    RunOne(lx, Run(lx, n, actions), a);
  }

  lemma RunTwo(lx: Lexicon, n: Node, a: Action, b: Action)
    ensures Run(lx, n, [a, b]) == Exec(lx, Exec(lx, n, a), b)
  {
    hide Exec, Run;
    assert [a, b] == [a] + [b];
    RunThen(lx, n, [a], b);
    RunOne(lx, n, a);
  }

  /** A step of the gateway reader, with what it may learn from outside. */
  function Wake(incoming: Incoming, conn: ConnId, choice: SessionId): Action {
    Work(incoming, [], conn, true, choice)
  }

  /** The states along a run. */
  ghost predicate Path(lx: Lexicon, nodes: seq<Node>, actions: seq<Action>) {
    && |nodes| == |actions| + 1
    && forall i {:trigger Exec(lx, nodes[i], actions[i])} ::
         0 <= i < |actions| ==> nodes[i + 1] == Exec(lx, nodes[i], actions[i])
  }

  lemma {:induction false} PathRuns(lx: Lexicon, nodes: seq<Node>, actions: seq<Action>, k: nat)
    requires Path(lx, nodes, actions) && k <= |actions|
    ensures Run(lx, nodes[0], actions[..k]) == nodes[k]
  {
    hide Exec;
    if k > 0 {
      PathRuns(lx, nodes, actions, k - 1);
      assert actions[..k][..k - 1] == actions[..k - 1];
      var _ := Exec(lx, nodes[k - 1], actions[k - 1]);
    }
  }

  // ----- the handshake -----

  const Challenge := Envelope(EventKind, "connect.challenge", [], None, Null, None)

  function Acceptance(request: RequestId): Envelope {
    Envelope(ResponseKind, [], request, Some(true), Null, None)
  }

  /** Dial, be challenged, send the connect request under this id, be accepted. */
  function Handshake(c: ConnId, request: RequestId): seq<Action> {
    var go := Work(Skipped, request, c, true, []);
    [go, go, go, Work(Message(Challenge), [], c, true, []), go, Work(Message(Acceptance(request)), [], c, true, []), go]
  }

  /** The state after a handshake on a new connection. */
  function Connected(n: Node, c: ConnId): Node {
    n.(conn := Some(c), ready := true, gateway := Serve(c),
    dialed := n.dialed + {c}, challenged := n.challenged + {c}, accepted := n.accepted + {c})
  }

  function Dialing(n: Node, c: ConnId): Node {
    n.(dialed := n.dialed + {c}, gateway := SetConn(c))
  }

  function Challenging(n: Node, c: ConnId): Node {
    Dialing(n, c).(conn := Some(c), ready := false, gateway := AwaitChallenge(c))
  }

  function Accepting(n: Node, c: ConnId, request: RequestId): Node {
    Challenging(n, c).(challenged := n.challenged + {c}, gateway := AwaitAccept(c, request))
  }

  lemma DialSteps(lx: Lexicon, n: Node, c: ConnId, request: RequestId)
    requires n.gateway.Dial? && c !in n.dialed
    ensures var go := Work(Skipped, request, c, true, []);
            && Exec(lx, n, go) == Dialing(n, c)
            && Exec(lx, Dialing(n, c), go) == Dialing(n, c).(conn := Some(c), gateway := ClearReady(c))
            && Exec(lx, Dialing(n, c).(conn := Some(c), gateway := ClearReady(c)), go) == Challenging(n, c)
  {
    hide Exec;
    var go := Work(Skipped, request, c, true, []);
    HandshakeMove(lx, n, go, GatewayMove(Dialed(c), SetConn(c)));
    HandshakeMove(lx, Dialing(n, c), go, GatewayMove(PutConn(c), ClearReady(c)));
    var dialed := Dialing(n, c).(conn := Some(c), gateway := ClearReady(c));
    HandshakeMove(lx, dialed, go, GatewayMove(PutReady(false), AwaitChallenge(c)));
  }

  lemma HandshakeMove(lx: Lexicon, n: Node, a: Action, m: GatewayMove)
    requires a.Work? && HandshakeStep(lx, n, a) == Some(m)
    ensures Exec(lx, n, a) == PerformGateway(n, m)
  {
    hide Apply, OnChallenge, OnAccept;
  }

  lemma ChallengeSteps(lx: Lexicon, n: Node, c: ConnId, request: RequestId)
    requires n.gateway == AwaitChallenge(c)
    ensures var challenged := n.(challenged := n.challenged + {c}, gateway := SendConnect(c));
            && Exec(lx, n, Work(Message(Challenge), [], c, true, [])) == challenged
            && Exec(lx, challenged, Work(Skipped, request, c, true, []))
               == challenged.(gateway := AwaitAccept(c, request))
  {
    hide Exec;
    HandshakeMove(lx, n, Work(Message(Challenge), [], c, true, []), GatewayMove(Challenged(c), SendConnect(c)));
    var challenged := n.(challenged := n.challenged + {c}, gateway := SendConnect(c));
    HandshakeMove(lx, challenged, Work(Skipped, request, c, true, []), GatewayMove(Observe, AwaitAccept(c, request)));
  }

  lemma AcceptSteps(lx: Lexicon, n: Node, c: ConnId, request: RequestId)
    requires n.gateway == AwaitAccept(c, request)
    ensures var accepted := n.(accepted := n.accepted + {c}, gateway := SetReady(c));
            && Exec(lx, n, Work(Message(Acceptance(request)), [], c, true, [])) == accepted
            && Exec(lx, accepted, Work(Skipped, request, c, true, [])) == accepted.(ready := true, gateway := Serve(c))
  {
    hide Exec;
    HandshakeMove(lx, n, Work(Message(Acceptance(request)), [], c, true, []), GatewayMove(Accepted(c), SetReady(c)));
    var accepted := n.(accepted := n.accepted + {c}, gateway := SetReady(c));
    HandshakeMove(lx, accepted, Work(Skipped, request, c, true, []), GatewayMove(PutReady(true), Serve(c)));
  }

  lemma HandshakeRuns(lx: Lexicon, n: Node, c: ConnId, request: RequestId)
    requires n.gateway.Dial? && c !in n.dialed
    ensures Run(lx, n, Handshake(c, request)) == Connected(n, c)
  {
    hide Run, Exec;
    var dialed := Dialing(n, c).(conn := Some(c), gateway := ClearReady(c));
    var accept := Accepting(n, c, request);
    var path := [n, Dialing(n, c), dialed, Challenging(n, c),
                 Challenging(n, c).(challenged := n.challenged + {c}, gateway := SendConnect(c)),
                 accept, accept.(accepted := n.accepted + {c}, gateway := SetReady(c)), Connected(n, c)];
    DialSteps(lx, n, c, request);
    ChallengeSteps(lx, Challenging(n, c), c, request);
    AcceptSteps(lx, accept, c, request);
    var h := Handshake(c, request);
    assert Path(lx, path, h);
    PathRuns(lx, path, h, 7);
    assert h[..7] == h;
  }

  // ----- a frame that makes a request -----

  /** The frame asks to stop; any connector library decodes it so. */
  ghost predicate AsksToStop(lx: Lexicon, frame: Bytes, id: SessionId, flags: byte) {
    var parsed := ParseDataFrame(frame);
    parsed.Ok? && parsed.value.sessionId == id && parsed.value.flags == flags
    && lx.decode(parsed.value.payload) == Some(ControlAction("stop"))
  }

  const CancelFailed := "GATEWAY_CANCEL_FAILED"

  /** The relay reader after it has opened the session, handled the frame, tracked the request under
      id r and passed the readiness check of writeJSON. */
  function Checked(n: Node, id: SessionId, flags: byte, frame: Bytes, r: RequestId): Node {
    n.(table := n.table[id := flags], handled := n.handled + [frame], last := id,
    requests := n.requests[r := id], tracked := n.tracked[r := Tracked(id, |n.handled| + 1, Abort)],
    order := n.order + [r], reader := WriteConn(id, flags, r, CancelFailed))
  }

  function AskActions(id: SessionId, frame: Bytes, r: RequestId): seq<Action> {
    [Deliver(SessionOpened(id)), Deliver(Frame(frame)), Read(r, true), Read(r, true), Read(r, true), Read(r, true)]
  }

  lemma DeliverSteps(lx: Lexicon, n: Node, id: SessionId, flags: byte, frame: Bytes)
    requires n.reader.Idle? && AsksToStop(lx, frame, id, flags)
    ensures var known := n.(table := Opened(n.table, id));
            var event := ControlAction("stop");
            && Exec(lx, n, Deliver(SessionOpened(id))) == known
            && Exec(lx, known, Deliver(Frame(frame)))
               == known.(handled := n.handled + [frame], reader := Lookup(id, flags, event))
  {
    hide ParseDataFrame, GatewayStep, ReaderStep;
  }

  lemma ReadMove(lx: Lexicon, n: Node, r: RequestId, ok: bool, m: ReaderMove)
    requires ReaderStep(lx, n, r, ok) == Some(m)
    ensures Exec(lx, n, Read(r, ok)) == PerformReader(n, m)
  {
    hide Apply, ReaderStep, GatewayStep;
  }

  lemma LookupSteps(lx: Lexicon, n: Node, id: SessionId, flags: byte, r: RequestId)
    requires n.reader == Lookup(id, flags, ControlAction("stop")) && id in n.table && n.ready
    ensures var found := n.(table := n.table[id := flags], reader := CheckReady(id, flags, ControlAction("stop")));
            && Exec(lx, n, Read(r, true)) == found
            && Exec(lx, found, Read(r, true)) == found.(reader := Track(id, flags, Abort, CancelFailed))
  {
    hide Exec;
    var event := ControlAction("stop");
    ReadMove(lx, n, r, true, ReaderMove(TableFlags(id, flags), CheckReady(id, flags, event)));
    var found := n.(table := n.table[id := flags], reader := CheckReady(id, flags, event));
    ReadMove(lx, found, r, true, ReaderMove(Observe, Track(id, flags, Abort, CancelFailed)));
  }

  lemma TrackSteps(lx: Lexicon, n: Node, id: SessionId, flags: byte, r: RequestId)
    requires n.reader == Track(id, flags, Abort, CancelFailed) && FreshRequest(n, r) && n.ready
    ensures var tracked := n.(requests := n.requests[r := id], last := id, order := n.order + [r],
                           tracked := n.tracked[r := Tracked(id, |n.handled|, Abort)],
                           reader := WriteReady(id, flags, r, CancelFailed));
            && Exec(lx, n, Read(r, true)) == tracked
            && Exec(lx, tracked, Read(r, true)) == tracked.(reader := WriteConn(id, flags, r, CancelFailed))
  {
    hide Exec;
    ReadMove(lx, n, r, true, ReaderMove(TrackRequest(r, id, Abort), WriteReady(id, flags, r, CancelFailed)));
    var tracked := n.(requests := n.requests[r := id], last := id, order := n.order + [r],
    tracked := n.tracked[r := Tracked(id, |n.handled|, Abort)],
    reader := WriteReady(id, flags, r, CancelFailed));
    ReadMove(lx, tracked, r, true, ReaderMove(Observe, WriteConn(id, flags, r, CancelFailed)));
  }

  lemma AskRuns(lx: Lexicon, n: Node, id: SessionId, flags: byte, frame: Bytes, r: RequestId)
    requires n.reader.Idle? && n.ready && AsksToStop(lx, frame, id, flags) && FreshRequest(n, r)
    ensures Run(lx, n, AskActions(id, frame, r)) == Checked(n, id, flags, frame, r)
  {
    hide Run, Exec, AsksToStop;
    var known := n.(table := Opened(n.table, id));
    var heard := known.(handled := n.handled + [frame], reader := Lookup(id, flags, ControlAction("stop")));
    var found := heard.(table := known.table[id := flags], reader := CheckReady(id, flags, ControlAction("stop")));
    var ready := found.(reader := Track(id, flags, Abort, CancelFailed));
    var tracked := ready.(requests := n.requests[r := id], last := id, order := n.order + [r],
    tracked := n.tracked[r := Tracked(id, |n.handled| + 1, Abort)],
    reader := WriteReady(id, flags, r, CancelFailed));
    DeliverSteps(lx, n, id, flags, frame);
    LookupSteps(lx, heard, id, flags, r);
    TrackSteps(lx, ready, id, flags, r);
    assert known.table[id := flags] == n.table[id := flags];
    var path := [n, known, heard, found, ready, tracked, Checked(n, id, flags, frame, r)];
    var h := AskActions(id, frame, r);
    assert Path(lx, path, h);
    PathRuns(lx, path, h, 6);
    assert h[..6] == h;
  }

  lemma WriteSteps(lx: Lexicon, n: Node)
    requires n.reader.WriteConn? && n.conn.Some?
    ensures Run(lx, n, [Read([], true), Read([], true)])
         == n.(written := n.written[n.reader.request := n.conn.value], reader := Idle)
  {
    hide Run, Exec;
    var me := n.reader;
    var write := Write(me.sessionId, me.flags, me.request, n.conn.value, me.code);
    RunTwo(lx, n, Read([], true), Read([], true));
    ReadMove(lx, n, [], true, ReaderMove(Observe, write));
    ReadMove(lx, n.(reader := write), [], true, ReaderMove(Wrote(me.request, n.conn.value), Idle));
  }

  // ----- a response that fails the request -----

  function Refusal(r: RequestId): Envelope {
    Envelope(ResponseKind, [], r, Some(false), Null, Some("refused"))
  }

  const Refused: seq<Event> := [Failure("GATEWAY_REQUEST_FAILED", "refused")]

  lemma NoRunId()
    ensures ExtractRunId(DecodePayload(Null)) == []
  {
    var p := DecodePayload(Null);
    assert forall keys :: FirstOf(p, keys) == [] by {
      forall keys ensures FirstOf(p, keys) == [] { NothingIn(p, keys); }
    }
    assert forall keys :: FirstOf(Null, keys) == [] by {
      forall keys ensures FirstOf(Null, keys) == [] { NothingIn(Null, keys); }
    }
    NoneNested(p, Nested);
  }

  lemma {:induction false} NothingIn(p: Json, keys: seq<Bytes>)
    requires p == Null || p == Object(map[])
    ensures FirstOf(p, keys) == []
  {
    if keys != [] {
      NothingIn(p, keys[1..]);
    }
  }

  lemma {:induction false} NoneNested(p: Json, keys: seq<Bytes>)
    requires p == Object(map[])
    ensures RunIdBelow(p, keys) == []
  {
    if keys != [] {
      NoneNested(p, keys[1..]);
    }
  }

  lemma RefusalFound(lx: Lexicon, n: Node, r: RequestId)
    requires n.gateway == FindRequest(Refusal(r)) && r in n.requests
    ensures Exec(lx, n, Wake(Skipped, 0, [])) == n.(gateway := Emit(n.requests[r], Refused, Some(r)))
  {
    hide ExtractRunId, HandshakeStep, ResolveStep, BatchStep, OnMessage;
    NoRunId();
  }

  /** A response that refuses the request has been read, and its terminal event is about to be sent. */
  lemma RefusalRuns(lx: Lexicon, n: Node, r: RequestId)
    requires n.gateway.Serve? && r != [] && r in n.written && r in n.requests && n.requests[r] in n.table
    ensures var id := n.requests[r];
            Run(lx, n, [Wake(Message(Refusal(r)), 0, []), Wake(Skipped, 0, []), Wake(Skipped, 0, [])])
            == n.(named := n.named + {r}, answered := n.answered + multiset{r},
            gateway := Forward(id, n.table[id], Refused, Some(r)))
  {
    hide Run, Exec;
    var id := n.requests[r];
    var read := n.(named := n.named + {r}, gateway := FindRequest(Refusal(r)));
    var emit := read.(gateway := Emit(id, Refused, Some(r)));
    var end := emit.(answered := n.answered + multiset{r}, gateway := Forward(id, n.table[id], Refused, Some(r)));
    RefusalRead(lx, n, r);
    RefusalFound(lx, read, r);
    RefusalEmitted(lx, emit, id, r);
    var h := [Wake(Message(Refusal(r)), 0, []), Wake(Skipped, 0, []), Wake(Skipped, 0, [])];
    var path := [n, read, emit, end];
    assert Path(lx, path, h);
    PathRuns(lx, path, h, 3);
    assert h[..3] == h;
  }

  lemma RefusalRead(lx: Lexicon, n: Node, r: RequestId)
    requires n.gateway.Serve? && r != [] && r in n.written
    ensures Exec(lx, n, Wake(Message(Refusal(r)), 0, []))
         == n.(named := n.named + {r}, gateway := FindRequest(Refusal(r)))
  {
    hide HandshakeStep, ResolveStep, BatchStep, BeginResponse;
  }

  lemma RefusalEmitted(lx: Lexicon, n: Node, id: SessionId, r: RequestId)
    requires n.gateway == Emit(id, Refused, Some(r)) && id in n.table
    ensures Exec(lx, n, Wake(Skipped, 0, []))
         == n.(answered := n.answered + multiset{r}, gateway := Forward(id, n.table[id], Refused, Some(r)))
  {
    hide HandshakeStep, ResolveStep, ServeStep;
  }

  // ----- whole runs from the start -----

  /** A run to writeJSON's second check, for one request, on an accepted connection. */
  function ToWrite(id: SessionId, frame: Bytes, r: RequestId): seq<Action> {
    Handshake(0, []) + AskActions(id, frame, r)
  }

  lemma ToWriteRuns(lx: Lexicon, id: SessionId, flags: byte, frame: Bytes, r: RequestId)
    requires AsksToStop(lx, frame, id, flags)
    ensures Run(lx, Start, ToWrite(id, frame, r)) == Checked(Connected(Start, 0), id, flags, frame, r)
  {
    hide Run, AsksToStop;
    HandshakeRuns(lx, Start, 0, []);
    AskRuns(lx, Connected(Start, 0), id, flags, frame, r);
    RunAppend(lx, Start, Handshake(0, []), AskActions(id, frame, r));
  }

  /** A run to the terminal event of the only request there ever was. */
  function ToTerminal(id: SessionId, frame: Bytes, r: RequestId): seq<Action> {
    ToWrite(id, frame, r) + [Read([], true), Read([], true)]
    + [Wake(Message(Refusal(r)), 0, []), Wake(Skipped, 0, []), Wake(Skipped, 0, [])]
  }

  function AtTerminal(id: SessionId, flags: byte, frame: Bytes, r: RequestId): Node {
    var n := Checked(Connected(Start, 0), id, flags, frame, r);
    n.(written := map[][r := 0], reader := Idle, named := {} + {r}, answered := multiset{} + multiset{r},
    gateway := Forward(id, flags, Refused, Some(r)))
  }

  lemma ToTerminalRuns(lx: Lexicon, id: SessionId, flags: byte, frame: Bytes, r: RequestId)
    requires AsksToStop(lx, frame, id, flags) && r != []
    ensures Run(lx, Start, ToTerminal(id, frame, r)) == AtTerminal(id, flags, frame, r)
  {
    hide Run, AsksToStop;
    ToWriteRuns(lx, id, flags, frame, r);
    var n := Checked(Connected(Start, 0), id, flags, frame, r);
    var write := [Read([], true), Read([], true)];
    WriteSteps(lx, n);
    var refuse := [Wake(Message(Refusal(r)), 0, []), Wake(Skipped, 0, []), Wake(Skipped, 0, [])];
    RefusalRuns(lx, Run(lx, n, write), r);
    RunAppend(lx, Start, ToWrite(id, frame, r), write);
    RunAppend(lx, Start, ToWrite(id, frame, r) + write, refuse);
  }

  /** A run in which one request has its terminal event, is still tracked, and is the only one there
      ever was: the simple accounting bound fails. */
  lemma SimpleBoundFails(lx: Lexicon, id: SessionId, flags: byte, frame: Bytes, r: RequestId)
    requires AsksToStop(lx, frame, id, flags) && r != []
    ensures var n := Run(lx, Start, ToTerminal(id, frame, r));
            && n.answered == multiset{r} && n.requests == map[r := id] && n.tracked.Keys == {r} && n.rolledBack == {}
            && |n.answered| + |n.requests| > |n.tracked| - |n.rolledBack|
  {
    hide Run, AsksToStop;
    ToTerminalRuns(lx, id, flags, frame, r);
    OneOfEach(AtTerminal(id, flags, frame, r), r, id);
  }

  // ----- a request sent between a terminal event and its clear -----

  lemma SendStep(lx: Lexicon, n: Node)
    requires n.gateway.Forward? && n.gateway.batch == Refused
    ensures var g := n.gateway; Exec(lx, n, Wake(Skipped, 0, [])) == n.(gateway := Clear(g.sessionId, [], g.cause))
  {
    hide Exec;
    var g := n.gateway;
    assert Refused[1..] == [];
    BatchMove(lx, n, Wake(Skipped, 0, []),
              GatewayMove(Forwards(Outgoing(g.sessionId, g.flags, Refused[0], g.cause)),
                          Clear(g.sessionId, [], g.cause)));
  }

  lemma ClearStep(lx: Lexicon, n: Node)
    requires n.gateway.Clear?
    ensures var g := n.gateway;
            Exec(lx, n, Wake(Skipped, 0, []))
            == n.(requests := Cleared(n.requests, g.sessionId), runs := Cleared(n.runs, g.sessionId),
            gateway := Emit(g.sessionId, g.batch, g.cause))
  {
    hide Exec, Cleared;
    var g := n.gateway;
    BatchMove(lx, n, Wake(Skipped, 0, []), GatewayMove(ClearTracks(g.sessionId), Emit(g.sessionId, g.batch, g.cause)));
  }

  /** Send the terminal event, then clear. */
  lemma ClearSteps(lx: Lexicon, n: Node, id: SessionId, flags: byte, cause: Cause)
    requires n.gateway == Forward(id, flags, Refused, cause)
    ensures var t := Run(lx, n, [Wake(Skipped, 0, []), Wake(Skipped, 0, [])]);
            && t.requests == Cleared(n.requests, id) && t.tracked == n.tracked
            && t.written == n.written && t.rolledBack == n.rolledBack && t.answered == n.answered
  {
    hide Run, Exec, Cleared;
    RunTwo(lx, n, Wake(Skipped, 0, []), Wake(Skipped, 0, []));
    SendStep(lx, n);
    ClearStep(lx, n.(gateway := Clear(id, [], cause)));
  }

  lemma BatchMove(lx: Lexicon, n: Node, a: Action, m: GatewayMove)
    requires a.Work? && BatchStep(n) == Some(m)
    ensures Exec(lx, n, a) == PerformGateway(n, m)
  {
    hide Apply, NextInBatch;
  }

  /** A run from the start in which a second request of the session is written after the terminal event
      for the first one and before the clear, and is lost to the clear: no response to it will be heard. */
  lemma LateRequestIsCleared(lx: Lexicon, id: SessionId, flags: byte, frame: Bytes, r: RequestId, q: RequestId)
    returns (actions: seq<Action>)
    requires AsksToStop(lx, frame, id, flags) && r != [] && q != r
    ensures var t := Run(lx, Start, actions);
            q in t.tracked && q in t.written && q !in t.rolledBack && q !in t.requests && t.answered[q] == 0
  {
    hide Run, AsksToStop;
    ToTerminalRuns(lx, id, flags, frame, r);
    var n := AtTerminal(id, flags, frame, r);
    var ask, write := AskActions(id, frame, q), [Read([], true), Read([], true)];
    var clear := [Wake(Skipped, 0, []), Wake(Skipped, 0, [])];
    AskRuns(lx, n, id, flags, frame, q);
    var asked := Checked(n, id, flags, frame, q);
    WriteSteps(lx, asked);
    ClearSteps(lx, Run(lx, asked, write), id, flags, Some(r));
    RunAppend(lx, Start, ToTerminal(id, frame, r), ask);
    RunAppend(lx, Start, ToTerminal(id, frame, r) + ask, write);
    RunAppend(lx, Start, ToTerminal(id, frame, r) + ask + write, clear);
    actions := ToTerminal(id, frame, r) + ask + write + clear;
  }

  lemma OneOfEach(n: Node, r: RequestId, id: SessionId)
    requires n.answered == multiset{} + multiset{r} && n.requests == map[][r := id] && n.rolledBack == {}
    requires n.tracked.Keys == {r}
    ensures n.answered == multiset{r} && n.requests == map[r := id]
    ensures |n.answered| + |n.requests| > |n.tracked| - |n.rolledBack|
  {
    assert |n.requests.Keys| == 1 && |n.tracked.Keys| == 1;
  }

  /** There is such a frame. */
  lemma SomeFrameAsks() returns (lx: Lexicon, frame: Bytes)
    ensures AsksToStop(lx, frame, "s", 0 as char)
  {
    lx := Lexicon(s => s, s => s, e => [], b => Some(ControlAction("stop")));
    var d := Parsed("s", 0 as char, []);
    ParseAfterBuild(d);
    frame := Layout(d);
  }
}
