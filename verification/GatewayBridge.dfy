/** connector/pkg/bridge/gateway_bridge.go and the sending half of connector/pkg/relayclient: the
    open-session table, one outcome for every frame, and the framing of what the bridge sends.
    Each method runs without another goroutine in between; ConnectorServer has HandleData with the
    other goroutine running. */
module GatewayBridge {
  import opened Protocol
  import opened DataFrame
  import opened Events
  import opened GatewayClient
  import opened BridgeTable
  import R = RelaySystem
  import C = ConnectorSystem

  // ----- the relay link -----

  /** connector/pkg/relayclient: the binary frames accepted by the relay connection. */
  class RelayClient {
    var connected: bool
    var wire: seq<Bytes>

    constructor ()
      ensures !connected && wire == []
    {
      connected, wire := false, [];
    }

    method SetConn()
      modifies this`connected
      ensures connected
    {
      connected := true;
    }

    method CloseConn()
      modifies this`connected
      ensures !connected
    {
      if connected {
        connected := false;
      }
    }

    method SendData(sessionId: SessionId, flags: byte, payload: Bytes, linkOk: bool) returns (ok: bool)
      modifies this`wire
      ensures ok == (1 <= |sessionId| <= 255 && connected && linkOk)
      ensures wire == if ok then old(wire) + [Layout(Parsed(sessionId, flags, payload))] else old(wire)
    {
      var frame := BuildDataFrame(sessionId, flags, payload);
      if frame.Err? {
        return false;
      }
      if !connected {
        return false;
      }
      if linkOk {
        wire := wire + [frame.value];
      }
      return linkOk;
    }
  }

  // ----- the bridge -----

  /** One call of SendData by the bridge. */
  datatype Attempt = Attempt(sessionId: SessionId, flags: byte, event: Event, ok: bool)

  /** The frames of the attempts that the link accepted. */
  function FramesOf(attempts: seq<Attempt>, encode: Event -> Bytes): seq<Bytes> {
    if attempts == [] then []
    else FramesOf(attempts[..|attempts| - 1], encode) + FrameOf(attempts[|attempts| - 1], encode)
  }

  function FrameOf(a: Attempt, encode: Event -> Bytes): seq<Bytes> {
    if a.ok && 1 <= |a.sessionId| <= 255
    then [Layout(Parsed(a.sessionId, a.flags, encode(a.event)))]
    else []
  }

  lemma FramesSnoc(attempts: seq<Attempt>, a: Attempt, encode: Event -> Bytes)
    ensures FramesOf(attempts + [a], encode) == FramesOf(attempts, encode) + FrameOf(a, encode)
  {
    assert (attempts + [a])[..|attempts|] == attempts;
  }

  /** Every frame on the link parses to the session, flags and encoded event of an attempt. */
  lemma {:induction false} FramesParse(attempts: seq<Attempt>, encode: Event -> Bytes, frame: Bytes)
    requires frame in FramesOf(attempts, encode)
    ensures exists i :: 0 <= i < |attempts| && attempts[i].ok
                        && ParseDataFrame(frame)
                           == Ok(Parsed(attempts[i].sessionId, attempts[i].flags, encode(attempts[i].event)))
  {
    var prior, a := attempts[..|attempts| - 1], attempts[|attempts| - 1];
    if frame in FramesOf(prior, encode) {
      FramesParse(prior, encode, frame);
      var i :| 0 <= i < |prior| && prior[i].ok
               && ParseDataFrame(frame) == Ok(Parsed(prior[i].sessionId, prior[i].flags, encode(prior[i].event)));
      assert attempts[i] == prior[i];
    } else {
      ParseAfterBuild(Parsed(a.sessionId, a.flags, encode(a.event)));
    }
  }

  /** The code of the error reply to a frame that makes no request. */
  function ReplyCode(event: Option<Event>, open: bool, configured: bool, ready: bool): string {
    if event.None? then "BAD_EVENT"
    else if !open then "SESSION_NOT_OPEN"
    else if !configured then "GATEWAY_NOT_CONFIGURED"
    else if !ready then "GATEWAY_NOT_READY"
    else match event.value
         case UserMessage(_) => "GATEWAY_SEND_FAILED"
         case ControlAction(action) => if action == "stop" then "GATEWAY_CANCEL_FAILED" else "UNSUPPORTED_CONTROL"
         case _ => "UNSUPPORTED_EVENT"
  }

  /** The code tells which condition was the first to fail. */
  lemma CodeTellsWhy(event: Option<Event>, open: bool, configured: bool, ready: bool)
    ensures var code, all := ReplyCode(event, open, configured, ready), event.Some? && open && configured && ready;
            && (code == "BAD_EVENT" <==> event.None?)
            && (code == "SESSION_NOT_OPEN" <==> event.Some? && !open)
            && (code == "GATEWAY_NOT_CONFIGURED" <==> event.Some? && open && !configured)
            && (code == "GATEWAY_NOT_READY" <==> event.Some? && open && configured && !ready)
            && (code == "GATEWAY_SEND_FAILED" <==> all && event.value.UserMessage?)
            && (code == "GATEWAY_CANCEL_FAILED" <==> all && event.value == ControlAction("stop"))
            && (code == "UNSUPPORTED_CONTROL" <==>
                all && event.value.ControlAction? && event.value != ControlAction("stop"))
            && (code == "UNSUPPORTED_EVENT" <==> all && !event.value.UserMessage? && !event.value.ControlAction?)
  {
  }

  /** The list holds every entry of the table exactly once. */
  ghost predicate Copies(list: seq<(SessionId, byte)>, table: map<SessionId, byte>) {
    && (forall i, j :: 0 <= i < j < |list| ==> list[i].0 != list[j].0)
    && (forall i :: 0 <= i < |list| ==> list[i].0 in table && table[list[i].0] == list[i].1)
    && (forall id :: id in table ==> (id, table[id]) in list)
  }

  lemma CopiesSnoc(list: seq<(SessionId, byte)>, table: map<SessionId, byte>, id: SessionId, flags: byte)
    requires Copies(list, table) && id !in table
    ensures Copies(list + [(id, flags)], table[id := flags])
  {
    var list', table' := list + [(id, flags)], table[id := flags];
    forall s | s in table' ensures (s, table'[s]) in list' {
      if s == id {
        assert list'[|list|] == (id, flags);
      } else {
        assert (s, table[s]) in list;
      }
    }
  }

  predicate Told(a: Attempt, id: SessionId, flags: byte, code: string) {
    a.sessionId == id && a.flags == flags && a.event.Failure? && a.event.code == code
  }

  class GatewayBridge {
    const relay: RelayClient
    const lx: Lexicon
    var gateway: Client?
    var sessions: map<SessionId, byte>
    // history: the calls, the SendData attempts, the frames handled and their outcomes
    ghost var calls: seq<Call>
    ghost var attempts: seq<Attempt>
    ghost var frames: nat
    ghost var replies: nat
    ghost var requests: nat

    /** The table is that of the history, the link carries exactly the accepted attempts, and every
        frame handled had one outcome. */
    ghost predicate Valid()
      reads this, relay, gateway
    {
      && sessions == TableOf(calls)
      && relay.wire == FramesOf(attempts, lx.encode)
      && frames == replies + requests
      && (gateway != null ==> gateway.Valid() && gateway.lx == lx)
    }

    constructor (relay: RelayClient, lx: Lexicon)
      requires relay.wire == []
      ensures Valid() && this.relay == relay && this.lx == lx
      ensures gateway == null && sessions == map[] && calls == [] && attempts == [] && frames == 0
    {
      this.relay, this.lx, gateway, sessions := relay, lx, null, map[];
      calls, attempts, frames, replies, requests := [], [], 0, 0, 0;
    }

    method BindGateway(gateway: Client)
      requires Valid() && gateway.Valid() && gateway.lx == lx
      modifies this`gateway
      ensures Valid() && this.gateway == gateway
    {
      this.gateway := gateway;
    }

    method OpenSession(id: SessionId)
      requires Valid()
      modifies this`sessions, this`calls
      ensures Valid() && calls == old(calls) + [Opened(id)]
      ensures sessions == if id in old(sessions) then old(sessions) else old(sessions)[id := 0 as char]
    {
      hide TableOf, FramesOf;
      if id !in sessions {
        sessions := sessions[id := 0 as char];
      }
      TableSnoc(calls, Opened(id));
      calls := calls + [Opened(id)];
    }

    method CloseSession(id: SessionId)
      requires Valid()
      modifies this`sessions, this`calls
      ensures Valid() && calls == old(calls) + [Closed(id)]
      ensures sessions == old(sessions) - {id}
    {
      hide TableOf, FramesOf;
      sessions := sessions - {id};
      TableSnoc(calls, Closed(id));
      calls := calls + [Closed(id)];
    }

    method SendEvent(id: SessionId, flags: byte, event: Event, linkOk: bool)
      requires Valid()
      modifies relay`wire, this`attempts
      ensures Valid()
      ensures attempts == old(attempts) + [Attempt(id, flags, event, 1 <= |id| <= 255 && relay.connected && linkOk)]
    {
      hide TableOf, FramesOf, Layout;
      var ok := relay.SendData(id, flags, lx.encode(event), linkOk);
      FramesSnoc(attempts, Attempt(id, flags, event, ok), lx.encode);
      attempts := attempts + [Attempt(id, flags, event, ok)];
    }

    /** Answers a frame with an error event. */
    method Refuse(id: SessionId, flags: byte, code: string, message: Bytes, linkOk: bool)
      requires Valid()
      modifies relay`wire, this`attempts, this`frames, this`replies
      ensures Valid() && frames == old(frames) + 1 && replies == old(replies) + 1
      ensures attempts == old(attempts)
                          + [Attempt(id, flags, Failure(code, message), 1 <= |id| <= 255 && relay.connected && linkOk)]
    {
      hide TableOf, FramesOf;
      SendEvent(id, flags, Failure(code, message), linkOk);
      frames, replies := frames + 1, replies + 1;
    }

    /** Records the flags of a frame on an open session. */
    method SetFlags(id: SessionId, flags: byte) returns (open: bool)
      requires Valid()
      modifies this`sessions, this`calls
      ensures Valid() && open == (id in old(sessions))
      ensures calls == old(calls) + [Handled(id, flags)]
      ensures sessions == if open then old(sessions)[id := flags] else old(sessions)
    {
      hide TableOf, FramesOf;
      open := id in sessions;
      if open {
        sessions := sessions[id := flags];
      }
      TableSnoc(calls, Handled(id, flags));
      calls := calls + [Handled(id, flags)];
    }

    /** A user message that is more than space, or a stop. */
    predicate Asks(event: Event) {
      (event.UserMessage? && lx.trim(event.content) != []) || event == ControlAction("stop")
    }

    /** One request has been written: under this id, for this session, and for what the event wants. */
    ghost predicate Written(before: seq<Request>, after: seq<Request>, newId: Bytes, id: SessionId, event: Event) {
      && |after| == |before| + 1 && after[..|before|] == before
      && after[|before|].id == newId && after[|before|].sessionId == id
      && C.Wants(lx, event, after[|before|].ask)
    }

    /** Exactly one outcome: a gateway request for this session and
        no reply, or one error reply to this session, with the frame's flags, and no request. */
    method HandleData(
      id: SessionId, flags: byte, payload: Bytes, newId: Bytes, message: Bytes, wireOk: bool, linkOk: bool)
      returns (asked: bool)
      requires Valid() && (gateway != null ==> newId !in gateway.reqToSession)
      modifies this`sessions, this`calls, this`attempts, this`frames, this`replies, this`requests
      modifies relay`wire, gateway
      ensures Valid() && frames == old(frames) + 1
      ensures calls == if lx.decode(payload).Some? then old(calls) + [Handled(id, flags)] else old(calls)
      ensures asked <==> lx.decode(payload).Some? && id in old(sessions) && gateway != null && old(gateway.ready)
                         && Asks(lx.decode(payload).value) && old(gateway.connected) && wireOk
      ensures asked ==>
                && attempts == old(attempts) && requests == old(requests) + 1
                && Written(old(gateway.written), gateway.written, newId, id, lx.decode(payload).value)
                && gateway.reqToSession == old(gateway.reqToSession)[newId := id]
      ensures !asked ==>
                && |attempts| == |old(attempts)| + 1 && attempts[..|old(attempts)|] == old(attempts)
                && Told(attempts[|old(attempts)|], id, flags,
                        ReplyCode(lx.decode(payload), id in old(sessions), gateway != null,
                                  gateway != null && old(gateway.ready)))
                && replies == old(replies) + 1
                && (gateway != null ==> gateway.written == old(gateway.written)
                                        && gateway.reqToSession == old(gateway.reqToSession))
      ensures gateway != null ==> gateway.emitted == old(gateway.emitted)
    {
      hide TableOf, FramesOf, C.Wants, Asks;
      asked := false;
      var event := lx.decode(payload);
      if event.None? {
        Refuse(id, flags, "BAD_EVENT", message, linkOk);
        return;
      }
      var open := SetFlags(id, flags);
      if !open {
        Refuse(id, flags, "SESSION_NOT_OPEN", message, linkOk);
        return;
      }
      if gateway == null {
        Refuse(id, flags, "GATEWAY_NOT_CONFIGURED", message, linkOk);
        return;
      }
      if !gateway.ready {
        Refuse(id, flags, "GATEWAY_NOT_READY", message, linkOk);
        return;
      }
      asked := Dispatch(id, flags, event.value, newId, message, wireOk, linkOk);
    }

    /** The switch on the event type: one request if the event asks for one and the gateway takes
        it, and otherwise one error reply. */
    method Dispatch(
      id: SessionId, flags: byte, event: Event, newId: Bytes, message: Bytes, wireOk: bool, linkOk: bool)
      returns (asked: bool)
      requires Valid() && gateway != null && gateway.ready && newId !in gateway.reqToSession
      modifies this`attempts, this`frames, this`replies, this`requests
      modifies relay`wire, gateway
      ensures Valid() && frames == old(frames) + 1
      ensures asked <==> Asks(event) && old(gateway.connected) && wireOk
      ensures asked ==>
                && attempts == old(attempts) && requests == old(requests) + 1
                && Written(old(gateway.written), gateway.written, newId, id, event)
                && gateway.reqToSession == old(gateway.reqToSession)[newId := id]
      ensures !asked ==>
                && |attempts| == |old(attempts)| + 1 && attempts[..|old(attempts)|] == old(attempts)
                && Told(attempts[|old(attempts)|], id, flags, ReplyCode(Some(event), true, true, true))
                && replies == old(replies) + 1 && gateway.written == old(gateway.written)
                && gateway.reqToSession == old(gateway.reqToSession)
      ensures gateway.emitted == old(gateway.emitted)
    {
      hide TableOf, FramesOf;
      match event {
        case UserMessage(content) =>
          asked := gateway.SendUserMessage(id, content, newId, wireOk);
          if !asked {
            Refuse(id, flags, "GATEWAY_SEND_FAILED", message, linkOk);
            return;
          }
        case ControlAction(action) =>
          if action != "stop" {
            Refuse(id, flags, "UNSUPPORTED_CONTROL", message, linkOk);
            return false;
          }
          asked := gateway.SendCancel(id, newId, wireOk);
          if !asked {
            Refuse(id, flags, "GATEWAY_CANCEL_FAILED", message, linkOk);
            return;
          }
        case _ =>
          Refuse(id, flags, "UNSUPPORTED_EVENT", message, linkOk);
          return false;
      }
      frames, requests := frames + 1, requests + 1;
    }

    /** The session an event goes to: the named one if it is open; with no name, the only open one. */
    method ResolveSession(id: SessionId) returns (r: Option<(SessionId, byte)>)
      ensures r.Some? <==> if id != [] then id in sessions else |sessions| == 1
      ensures r.Some? ==> r.value.0 in sessions && sessions[r.value.0] == r.value.1
      ensures r.Some? && id != [] ==> r.value.0 == id
      ensures r.Some? && id == [] ==> sessions == map[r.value.0 := r.value.1]
    {
      if id != [] {
        if id in sessions {
          return Some((id, sessions[id]));
        }
        return None;
      }
      if |sessions| == 1 {
        assert |sessions.Keys| == 1;
        var only :| only in sessions.Keys;
        SingletonKeys(sessions.Keys, only);
        return Some((only, sessions[only]));
      }
      return None;
    }

    lemma SingletonKeys(keys: set<SessionId>, only: SessionId)
      requires |keys| == 1 && only in keys
      ensures keys == {only}
    {
      assert |keys - {only}| == 0;
    }

    /** Sends the event to an open session, with the flags of the table, or drops it. */
    method HandleGatewayEvent(id: SessionId, event: Event, linkOk: bool)
      requires Valid()
      modifies relay`wire, this`attempts
      ensures Valid()
      ensures (if id != [] then id !in sessions else |sessions| != 1) ==> attempts == old(attempts)
      ensures id in sessions && id != [] ==>
                attempts == old(attempts)
                + [Attempt(id, sessions[id], event, |id| <= 255 && relay.connected && linkOk)]
      ensures id == [] && |sessions| == 1 ==>
                exists only, ok :: && sessions.Keys == {only}
                                   && attempts == old(attempts) + [Attempt(only, sessions[only], event, ok)]
    {
      hide TableOf, FramesOf;
      var r := ResolveSession(id);
      if r.None? {
        return;
      }
      SendEvent(r.value.0, r.value.1, event, linkOk);
      ghost var sent := attempts[|old(attempts)|];
      assert sessions.Keys == {r.value.0} ==>
          attempts == old(attempts) + [Attempt(r.value.0, sessions[r.value.0], event, sent.ok)];
    }

    /** The critical section of HandleGatewayDisconnected: every open session once, with its flags,
        in whatever order the map yields its keys. */
    method Snapshot() returns (active: seq<(SessionId, byte)>)
      ensures Copies(active, sessions)
    {
      active := [];
      var todo := sessions.Keys;
      ghost var done: map<SessionId, byte> := map[];
      while todo != {}
        invariant todo <= sessions.Keys && done.Keys == sessions.Keys - todo
        invariant forall id :: id in done ==> done[id] == sessions[id]
        invariant Copies(active, done)
        decreases todo
      {
        var id :| id in todo;
        CopiesSnoc(active, done, id, sessions[id]);
        active := active + [(id, sessions[id])];
        done := done[id := sessions[id]];
        todo := todo - {id};
      }
      assert done == sessions;
    }

    /** One error for every open session, with its own flags, and none for any other. The writes
        that fail are those in `refused`. */
    method HandleGatewayDisconnected(message: Bytes, refused: set<SessionId>)
      returns (ghost active: seq<(SessionId, byte)>)
      requires Valid()
      modifies relay`wire, this`attempts
      ensures Valid() && Copies(active, sessions)
      ensures |attempts| == |old(attempts)| + |active| && attempts[..|old(attempts)|] == old(attempts)
      ensures forall i :: 0 <= i < |active| ==>
                            Told(attempts[|old(attempts)| + i], active[i].0, active[i].1, "GATEWAY_DISCONNECTED")
    {
      hide TableOf, FramesOf, Copies;
      var snapshot := Snapshot();
      active := snapshot;
      for i := 0 to |snapshot|
        invariant Valid()
        invariant |attempts| == |old(attempts)| + i && attempts[..|old(attempts)|] == old(attempts)
        invariant forall j :: 0 <= j < i ==>
                                Told(attempts[|old(attempts)| + j], active[j].0, active[j].1, "GATEWAY_DISCONNECTED")
      {
        SendEvent(snapshot[i].0, snapshot[i].1, Failure("GATEWAY_DISCONNECTED", message), snapshot[i].0 !in refused);
      }
    }

    /** The relay reader's dispatch of a control message. */
    method HandleControl(m: Control)
      requires Valid()
      modifies this`sessions, this`calls
      ensures Valid()
      ensures m.SessionOpen? ==> calls == old(calls) + [Opened(m.sessionId)]
      ensures m.CloseSession? ==> calls == old(calls) + [Closed(m.sessionId)]
      ensures !m.SessionOpen? && !m.CloseSession? ==> calls == old(calls) && sessions == old(sessions)
    {
      match m {
        case SessionOpen(id, _) => OpenSession(id);
        case CloseSession(id) => CloseSession(id);
        case _ =>
      }
    }

    /** The relay reader's dispatch of a binary frame: one that does not parse is skipped, and any
        other has exactly one outcome, a request or an error reply for the session it names. */
    method HandleBinary(
      frame: Bytes, newId: Bytes, message: Bytes, wireOk: bool, linkOk: bool)
      requires Valid() && (gateway != null ==> newId !in gateway.reqToSession)
      modifies this`sessions, this`calls, this`attempts, this`frames, this`replies, this`requests
      modifies relay`wire, gateway
      ensures Valid() && calls == old(calls) + CallsOf(R.Data(frame), lx.decode)
      ensures gateway != null ==> gateway.reqToSession.Keys <= old(gateway.reqToSession.Keys) + {newId}
      ensures ParseDataFrame(frame).Err? ==>
                attempts == old(attempts) && frames == old(frames)
                && (gateway != null ==> gateway.written == old(gateway.written))
      ensures ParseDataFrame(frame).Ok? ==>
                var d := ParseDataFrame(frame).value;
                && frames == old(frames) + 1
                && (|| (gateway != null && attempts == old(attempts)
                        && |gateway.written| == |old(gateway.written)| + 1
                        && gateway.written[..|old(gateway.written)|] == old(gateway.written)
                        && gateway.written[|old(gateway.written)|].sessionId == d.sessionId)
                    || (|attempts| == |old(attempts)| + 1 && attempts[..|old(attempts)|] == old(attempts)
                        && (gateway != null ==> gateway.written == old(gateway.written))
                        && attempts[|old(attempts)|].sessionId == d.sessionId
                        && attempts[|old(attempts)|].flags == d.flags
                        && attempts[|old(attempts)|].event.Failure?))
    {
      hide TableOf, FramesOf, C.Wants, Asks, ReplyCode;
      var parsed := ParseDataFrame(frame);
      if parsed.Err? {
        return;
      }
      var d := parsed.value;
      var _ := HandleData(d.sessionId, d.flags, d.payload, newId, message, wireOk, linkOk);
    }

    /** The read loop of the relay connection: every message in order until a read fails, then the
        connection is dropped. `ids` are what newID returns, one for each message; `wireOk` and `linkOk`
        say which writes succeed. The table is the one of all calls the messages make; it does not
        start afresh with a new connection. */
    method ReadLoop(
      messages: seq<R.Input>, ids: seq<Bytes>, message: Bytes,
      wireOk: nat -> bool, linkOk: nat -> bool)
      returns (n: nat)
      requires Valid() && |ids| == |messages| && (forall i, j :: 0 <= i < j < |ids| ==> ids[i] != ids[j])
      requires gateway != null ==> forall i :: 0 <= i < |ids| ==> ids[i] !in gateway.reqToSession
      modifies this`sessions, this`calls, this`attempts, this`frames, this`replies, this`requests
      modifies relay, gateway
      ensures Valid() && !relay.connected
      ensures n <= |messages| && (n < |messages| ==> messages[n].ReadError?)
      ensures forall i :: 0 <= i < n ==> !messages[i].ReadError?
      ensures calls == old(calls) + AllCalls(messages[..n], lx.decode)
      ensures sessions == TableOf(old(calls) + AllCalls(messages[..n], lx.decode))
    {
      hide TableOf, FramesOf, CallsOf;
      n := 0;
      while n < |messages| && !messages[n].ReadError?
        invariant n <= |messages| && Valid() && forall i :: 0 <= i < n ==> !messages[i].ReadError?
        invariant calls == old(calls) + AllCalls(messages[..n], lx.decode)
        invariant gateway != null ==> forall i :: n <= i < |ids| ==> ids[i] !in gateway.reqToSession
      {
        AllCallsNext(messages, n, lx.decode);
        HandleMessage(messages[n], ids[n], message, wireOk(n), linkOk(n));
        n := n + 1;
      }
      relay.CloseConn();
    }

    method HandleMessage(
      m: R.Input, newId: Bytes, message: Bytes, wireOk: bool, linkOk: bool)
      requires Valid() && (gateway != null ==> newId !in gateway.reqToSession)
      modifies this`sessions, this`calls, this`attempts, this`frames, this`replies, this`requests
      modifies relay`wire, gateway
      ensures Valid() && calls == old(calls) + CallsOf(m, lx.decode)
      ensures gateway != null ==> gateway.reqToSession.Keys <= old(gateway.reqToSession.Keys) + {newId}
    {
      hide TableOf, FramesOf;
      match m {
        case Control(control) => HandleControl(control);
        case Data(frame) => HandleBinary(frame, newId, message, wireOk, linkOk);
        case _ =>
      }
    }
  }

  /** The calls that one message from the relay makes. */
  function CallsOf(m: R.Input, decode: Bytes -> Option<Event>): seq<Call> {
    match m
    case Control(SessionOpen(id, _)) => [Opened(id)]
    case Control(CloseSession(id)) => [Closed(id)]
    case Data(frame) =>
      var parsed := ParseDataFrame(frame);
      if parsed.Ok? && decode(parsed.value.payload).Some?
      then [Handled(parsed.value.sessionId, parsed.value.flags)]
      else []
    case _ => []
  }

  function AllCalls(messages: seq<R.Input>, decode: Bytes -> Option<Event>): seq<Call> {
    if messages == [] then []
    else AllCalls(messages[..|messages| - 1], decode) + CallsOf(messages[|messages| - 1], decode)
  }

  lemma AllCallsNext(messages: seq<R.Input>, n: nat, decode: Bytes -> Option<Event>)
    requires n < |messages|
    ensures AllCalls(messages[..n + 1], decode) == AllCalls(messages[..n], decode) + CallsOf(messages[n], decode)
  {
    assert messages[..n + 1][..n] == messages[..n];
  }
}
