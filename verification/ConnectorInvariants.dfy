/** What every atomic step of the connector keeps, for every interleaving of its two
    goroutines and every behaviour of the relay link and the gateway. */
module ConnectorInvariants {
  import opened Protocol
  import opened DataFrame
  import opened Events
  import opened ConnectorSystem

  // ----- requests -----

  /** The request that the relay reader has tracked but neither written nor rolled back. */
  function Pending(r: Reader): Option<RequestId> {
    match r
    case WriteReady(_, _, request, _) => Some(request)
    case WriteConn(_, _, request, _) => Some(request)
    case Write(_, _, request, _, _) => Some(request)
    case Untrack(_, _, request, _) => Some(request)
    case _ => None
  }

  /** Every tracked request was written, rolled back, or is pending, and only one of these. */
  ghost predicate Fate(n: Node, r: RequestId)
    requires r in n.tracked
  {
    && !(r in n.written && r in n.rolledBack)
    && (r in n.written || r in n.rolledBack || Pending(n.reader) == Some(r))
    && (Pending(n.reader) == Some(r) ==> r !in n.written && r !in n.rolledBack)
    && (r in n.requests ==> n.requests[r] == n.tracked[r].sessionId && r !in n.rolledBack)
    && r in n.order
  }

  ghost predicate RequestsInv(n: Node) {
    && (forall r {:trigger Fate(n, r)} :: r in n.tracked ==> Fate(n, r))
    && n.requests.Keys <= n.tracked.Keys
    && n.written.Keys <= n.tracked.Keys
    && n.rolledBack <= n.tracked.Keys
    && (Pending(n.reader).Some? ==> Pending(n.reader).value in n.tracked)
  }

  /** lastSessionID is the session of the latest tracked request, even of one rolled back. */
  ghost predicate OrderInv(n: Node) {
    && |n.order| == |n.tracked|
    && (forall r :: r in n.order ==> r in n.tracked)
    && (n.order == [] ==> n.last == [])
    && (n.order != [] ==> n.last == n.tracked[n.order[|n.order| - 1]].sessionId)
  }

  // ----- responses -----

  /** A request of this session that was written and still waits for its terminal event. */
  ghost predicate Answering(n: Node, r: RequestId, id: SessionId) {
    r in n.requests && n.requests[r] == id && r in n.written
  }

  ghost predicate ResponseInv(n: Node) {
    match n.gateway
    case FindRequest(env) => env.id in n.named && (env.id in n.tracked ==> env.id in n.written)
    case TrackRun(_, id, env) => Answering(n, env.id, id) && n.answered[env.id] == 0
    case Emit(id, batch, cause) =>
      WellFormed(batch) &&
      (cause.Some? && batch != [] ==> Answering(n, cause.value, id) && n.answered[cause.value] == 0)
    case Forward(id, _, batch, cause) =>
      WellFormed(batch) && batch != [] &&
      (cause.Some? ==> Answering(n, cause.value, id) &&
                       n.answered[cause.value] == if IsTerminal(batch[0]) then 1 else 0)
    case Clear(id, batch, cause) =>
      batch == [] && (cause.Some? ==> Answering(n, cause.value, id) && n.answered[cause.value] == 1)
    case _ => true
  }

  /** The gateway reader has emitted a terminal event for r and is about to clear its session. */
  ghost predicate Clearing(g: Gateway, r: RequestId) {
    || (g.Forward? && g.cause == Some(r) && g.batch != [] && IsTerminal(g.batch[0]))
    || (g.Clear? && g.cause == Some(r))
  }

  /** A request gets at most one terminal event by the response path, and is then untracked
      unless its clear is the gateway reader's very next access. */
  ghost predicate Answered(n: Node, r: RequestId) {
    && n.answered[r] <= 1
    && (n.answered[r] == 1 ==> r in n.written && (r in n.requests ==> Clearing(n.gateway, r)))
  }

  ghost predicate AnsweredInv(n: Node) {
    forall r {:trigger Answered(n, r)} :: Answered(n, r)
  }

  // ----- runs -----

  ghost predicate HasRequest(n: Node, id: SessionId) {
    exists r :: Answering(n, r, id)
  }

  ghost predicate RunsInv(n: Node) {
    forall x {:trigger n.runs[x]} :: x in n.runs ==> HasRequest(n, n.runs[x])
  }

  // ----- frames -----

  function Busy(n: Node): nat {
    if n.reader.Idle? then 0 else 1
  }

  ghost predicate FramesInv(n: Node) {
    n.replies + |n.written| + Busy(n) == |n.handled|
  }

  /** The frame names this session. */
  predicate FrameOf(frame: Bytes, id: SessionId) {
    ParseDataFrame(frame).Ok? && ParseDataFrame(frame).value.sessionId == id
  }

  /** A request belongs to the session of the handled frame that caused it. */
  ghost predicate Origin(n: Node, r: RequestId)
    requires r in n.tracked
  {
    var t := n.tracked[r];
    1 <= t.ordinal <= |n.handled| && FrameOf(n.handled[t.ordinal - 1], t.sessionId)
  }

  ghost predicate OriginInv(n: Node) {
    && (forall r {:trigger Origin(n, r)} :: r in n.tracked ==> Origin(n, r))
    && (!n.reader.Idle? ==> n.handled != [] && FrameOf(n.handled[|n.handled| - 1], n.reader.sessionId))
  }

  // ----- handshake -----

  ghost predicate Passed(n: Node, c: ConnId) {
    n.conn == Some(c) && c in n.challenged && c in n.accepted
  }

  /** The connection is the current one, and the gateway has not accepted it yet. */
  ghost predicate Unaccepted(n: Node, c: ConnId) {
    n.conn == Some(c) && c in n.dialed && c !in n.accepted
  }

  ghost predicate HandshakeInv(n: Node) {
    && (n.ready ==> n.conn.Some? && Passed(n, n.conn.value))
    && n.accepted <= n.dialed
    && match n.gateway
       case Dial | Snapshot | Broadcast(_) | Stopped => !n.ready && n.conn.None?
       case SetConn(c) => !n.ready && n.conn.None? && c in n.dialed && c !in n.accepted
       case ClearReady(c) => !n.ready && Unaccepted(n, c)
       case AwaitChallenge(c) => !n.ready && Unaccepted(n, c)
       case SendConnect(c) => !n.ready && Unaccepted(n, c) && c in n.challenged
       case AwaitAccept(c, _) => !n.ready && Unaccepted(n, c) && c in n.challenged
       case SetReady(c) => !n.ready && Passed(n, c)
       case Serve(c) => n.ready && n.conn == Some(c)
       case DropReady(auth) => n.conn.Some? && (auth ==> Unaccepted(n, n.conn.value))
       case DropConn(auth) => !n.ready && n.conn.Some? && (auth ==> Unaccepted(n, n.conn.value))
       case _ => n.ready
  }

  ghost predicate Inv(n: Node) {
    && RequestsInv(n) && OrderInv(n) && ResponseInv(n) && AnsweredInv(n) && RunsInv(n)
    && FramesInv(n) && OriginInv(n) && HandshakeInv(n)
  }

  // ----- the moves, without the text they depend on -----

  /** Where the gateway reader can go from where it is, whatever the messages say. */
  ghost predicate Edge(n: Node, m: GatewayMove) {
    match n.gateway
    case Dial => m == GatewayMove(Observe, Snapshot) ||
                 (m.access.Dialed? && m.access.conn !in n.dialed && m.next == SetConn(m.access.conn))
    case SetConn(c) => m == GatewayMove(PutConn(c), ClearReady(c))
    case ClearReady(c) => m == GatewayMove(PutReady(false), AwaitChallenge(c))
    case AwaitChallenge(c) =>
      m == GatewayMove(Challenged(c), SendConnect(c)) || (m.access.Observe? && m.next.DropReady?)
    case SendConnect(c) =>
      m.access.Observe? && ((m.next.AwaitAccept? && m.next.conn == c) || m.next == DropReady(false))
    case AwaitAccept(c, _) => m == GatewayMove(Accepted(c), SetReady(c)) || (m.access.Observe? && m.next.DropReady?)
    case SetReady(c) => m == GatewayMove(PutReady(true), Serve(c))
    case DropReady(auth) => m == GatewayMove(PutReady(false), DropConn(auth))
    case DropConn(auth) => m == GatewayMove(DropConnection, if auth then Stopped else Snapshot)
    case Snapshot => m == GatewayMove(Observe, Broadcast(n.table))
    case Broadcast(left) =>
      || m == GatewayMove(Observe, Dial)
      || (m.access.Forwards? && m.access.outgoing.sessionId in left && m.access.outgoing.cause.None?
          && m.next == Broadcast(left - {m.access.outgoing.sessionId}))
    case Stopped => false
    case Serve(_) =>
      || (m.access.Observe? && (m.next == DropReady(false) || m.next.ByRequest? || FreshBatch(m.next)))
      || (m.next.FindRequest? && m.access == Named(m.next.env.id)
          && (m.next.env.id in n.tracked ==> m.next.env.id in n.written))
    case FindRequest(env) =>
      m.access.Observe? &&
      if env.id in n.requests
      then (m.next.TrackRun? && m.next.env == env && m.next.sessionId == n.requests[env.id])
           || IsResponse(m.next, n.requests[env.id], env.id)
      else m.next == Resume(n)
    case TrackRun(x, id, env) => m.access == PutRun(x, id) && IsResponse(m.next, id, env.id)
    case ByRequest(_, _, _) | ByRun(_, _, _) | ByRunCorrelation(_, _) | ByLast(_) =>
      m.access.Observe? &&
      (m.next.ByRun? || m.next.ByRunCorrelation? || m.next.ByLast? || m.next == Resume(n) || FreshBatch(m.next))
    case Emit(id, batch, cause) =>
      if batch == [] then m == GatewayMove(Observe, Resume(n))
      else
        && m.access == (if cause.Some? && IsTerminal(batch[0]) then Terminal(cause.value) else Observe)
        && m.next == (if id in n.table then Forward(id, n.table[id], batch, cause) else NextInBatch(id, batch, cause))
    case Forward(id, flags, batch, cause) =>
      batch != [] && m == GatewayMove(Forwards(Outgoing(id, flags, batch[0], cause)), NextInBatch(id, batch, cause))
    case Clear(id, batch, cause) => m == GatewayMove(ClearTracks(id), Emit(id, batch, cause))
  }

  /** A batch for a gateway event. */
  ghost predicate FreshBatch(g: Gateway) {
    g.Emit? && WellFormed(g.batch) && g.cause.None?
  }

  /** The batch for a response to r of session id. */
  ghost predicate IsResponse(g: Gateway, id: SessionId, r: RequestId) {
    g.Emit? && WellFormed(g.batch) && g.sessionId == id && g.cause == Some(r)
  }

  lemma GatewayEdge(lx: Lexicon, n: Node, a: Action)
    requires a.Work? && GatewayStep(lx, n, a).Some?
    ensures Edge(n, GatewayStep(lx, n, a).value)
  {
    hide MapGatewayEvent, ResponseEvents, ExtractRunId, ExtractCorrelationId, ExtractSessionId,
      OnChallenge, OnAccept;
  }

  // ----- preservation by the gateway reader -----

  lemma ApplyConnection(n: Node, access: Access)
    ensures Apply(n, access).ready == if access.PutReady? then access.ready else n.ready
    ensures Apply(n, access).conn ==
            if access.PutConn? then Some(access.conn) else if access.DropConnection? then None else n.conn
    ensures Apply(n, access).dialed == if access.Dialed? then n.dialed + {access.conn} else n.dialed
    ensures Apply(n, access).challenged == if access.Challenged? then n.challenged + {access.conn} else n.challenged
    ensures Apply(n, access).accepted == if access.Accepted? then n.accepted + {access.conn} else n.accepted
  {
  }

  lemma GatewayHandshake(n: Node, m: GatewayMove)
    requires HandshakeInv(n) && Edge(n, m)
    ensures HandshakeInv(PerformGateway(n, m))
  {
    hide Apply;
    ApplyConnection(n, m.access);
  }

  /** The accesses that only the relay reader performs. */
  predicate OfReader(access: Access) {
    match access
    case TableOpen(_) | TableClose(_) | TableFlags(_, _) | TrackRequest(_, _, _) | UntrackRequest(_) => true
    case Answer(_) | Receive(_) | Wrote(_, _) => true
    case _ => false
  }

  lemma GatewayAccess(n: Node, m: GatewayMove)
    requires Edge(n, m)
    ensures !OfReader(m.access)
  {
  }

  /** The tracking state after an access of the gateway reader. */
  lemma ApplyTracking(n: Node, access: Access)
    requires !OfReader(access)
    ensures var t := Apply(n, access);
            && t.tracked == n.tracked && t.order == n.order && t.last == n.last
            && t.written == n.written && t.rolledBack == n.rolledBack
            && t.replies == n.replies && t.handled == n.handled && t.reader == n.reader
            && t.requests == (if access.ClearTracks? then Cleared(n.requests, access.sessionId) else n.requests)
            && t.answered == (if access.Terminal? then n.answered + multiset{access.request} else n.answered)
            && t.named == (if access.Named? then n.named + {access.request} else n.named)
            && t.runs == (if access.PutRun? then n.runs[access.runId := access.sessionId]
                          else if access.ClearTracks? then Cleared(n.runs, access.sessionId) else n.runs)
  {
  }

  lemma GatewayRequests(n: Node, m: GatewayMove)
    requires RequestsInv(n) && OrderInv(n) && FramesInv(n) && !OfReader(m.access)
    ensures RequestsInv(PerformGateway(n, m)) && OrderInv(PerformGateway(n, m)) && FramesInv(PerformGateway(n, m))
  {
    hide Apply;
    var t := PerformGateway(n, m);
    ApplyTracking(n, m.access);
    forall r | r in t.tracked ensures Fate(t, r) {
      assert Fate(n, r);
    }
  }

  lemma GatewayOrigin(n: Node, m: GatewayMove)
    requires OriginInv(n) && !OfReader(m.access)
    ensures OriginInv(PerformGateway(n, m))
  {
    hide Apply;
    var t := PerformGateway(n, m);
    ApplyTracking(n, m.access);
    forall r | r in t.tracked ensures Origin(t, r) {
      assert Origin(n, r);
    }
  }

  lemma RestOfBatch(batch: seq<Event>)
    requires WellFormed(batch) && batch != []
    ensures WellFormed(batch[1..])
    ensures IsTerminal(batch[0]) ==> batch[1..] == []
  {
  }

  lemma GatewayBatch(n: Node, m: GatewayMove)
    requires ResponseInv(n) && AnsweredInv(n) && Edge(n, m)
    requires n.gateway.Emit? || n.gateway.Forward? || n.gateway.Clear?
    ensures ResponseInv(PerformGateway(n, m))
  {
    hide Apply;
    GatewayAccess(n, m);
    ApplyTracking(n, m.access);
    if !n.gateway.Clear? && n.gateway.batch != [] {
      RestOfBatch(n.gateway.batch);
    }
  }

  lemma GatewayResponse(n: Node, m: GatewayMove)
    requires Inv(n) && Edge(n, m)
    ensures ResponseInv(PerformGateway(n, m))
  {
    hide HandshakeInv, OrderInv, FramesInv, OriginInv, RunsInv, WellFormed;
    if n.gateway.Emit? || n.gateway.Forward? || n.gateway.Clear? {
      GatewayBatch(n, m);
    } else {
      hide Apply, NextInBatch;
      GatewayAccess(n, m);
      ApplyTracking(n, m.access);
      if n.gateway.FindRequest? && n.gateway.env.id in n.requests {
        assert Fate(n, n.gateway.env.id) && Answered(n, n.gateway.env.id);
      }
    }
  }

  lemma GatewayAnswered(n: Node, m: GatewayMove)
    requires Inv(n) && Edge(n, m)
    ensures AnsweredInv(PerformGateway(n, m))
  {
    hide Apply, HandshakeInv, OrderInv, FramesInv, OriginInv, RunsInv;
    GatewayAccess(n, m);
    ApplyTracking(n, m.access);
    var t := PerformGateway(n, m);
    forall r ensures Answered(t, r) {
      assert Answered(n, r);
    }
  }

  lemma GatewayRuns(n: Node, m: GatewayMove)
    requires Inv(n) && Edge(n, m)
    ensures RunsInv(PerformGateway(n, m))
  {
    hide Apply;
    GatewayAccess(n, m);
    ApplyTracking(n, m.access);
    var t := PerformGateway(n, m);
    forall x | x in t.runs ensures HasRequest(t, t.runs[x]) {
      if x in n.runs && t.runs[x] == n.runs[x] {
        assert HasRequest(n, n.runs[x]);
        var r :| Answering(n, r, n.runs[x]);
        assert Answering(t, r, t.runs[x]);
      } else {
        assert Answering(t, n.gateway.env.id, t.runs[x]);
      }
    }
  }

  lemma GatewayInv(n: Node, m: GatewayMove)
    requires Inv(n) && Edge(n, m)
    ensures Inv(PerformGateway(n, m))
  {
    GatewayAccess(n, m);
    GatewayHandshake(n, m);
    GatewayRequests(n, m);
    GatewayOrigin(n, m);
    GatewayResponse(n, m);
    GatewayAnswered(n, m);
    GatewayRuns(n, m);
  }

  // ----- preservation by the relay reader -----

  lemma ReaderHandshake(n: Node, m: ReaderMove)
    requires HandshakeInv(n) && (OfReader(m.access) || m.access.Observe?)
    ensures HandshakeInv(PerformReader(n, m))
  {
    hide Apply;
    ApplyConnection(n, m.access);
    ApplyGateway(n, m.access);
  }

  lemma ApplyGateway(n: Node, access: Access)
    ensures Apply(n, access).gateway == n.gateway
  {
  }

  /** Where the relay reader can go from where it is. */
  ghost predicate ReaderEdge(n: Node, m: ReaderMove) {
    match n.reader
    case Idle =>
      || ((m.access.TableOpen? || m.access.TableClose? || m.access.Observe?) && m.next.Idle?)
      || (m.access.Receive? && (m.next.Lookup? || m.next.Reply?) && FrameOf(m.access.frame, m.next.sessionId))
    case Lookup(id, flags, event) =>
      || (id in n.table && m == ReaderMove(TableFlags(id, flags), CheckReady(id, flags, event)))
      || (id !in n.table && m == ReaderMove(Observe, Reply(id, flags, "SESSION_NOT_OPEN")))
    case CheckReady(id, flags, _) =>
      && m.access.Observe? && (m.next.Reply? || (n.ready && m.next.Track?))
      && m.next.sessionId == id && m.next.flags == flags
    case Track(id, flags, ask, code) =>
      && m.access.TrackRequest? && m.access.sessionId == id && m.access.ask == ask && FreshRequest(n, m.access.request)
      && m.next == WriteReady(id, flags, m.access.request, code)
    case WriteReady(id, flags, r, code) =>
      m.access.Observe? && (m.next == WriteConn(id, flags, r, code) || m.next == Untrack(id, flags, r, code))
    case WriteConn(id, flags, r, code) =>
      m.access.Observe? && (m.next == Untrack(id, flags, r, code) ||
                            (n.conn.Some? && m.next == Write(id, flags, r, n.conn.value, code)))
    case Write(id, flags, r, conn, code) =>
      m == ReaderMove(Wrote(r, conn), Idle) || m == ReaderMove(Observe, Untrack(id, flags, r, code))
    case Untrack(id, flags, r, code) => m == ReaderMove(UntrackRequest(r), Reply(id, flags, code))
    case Reply(id, flags, code) => m == ReaderMove(Answer(Outgoing(id, flags, Failure(code, []), None)), Idle)
  }

  lemma ReaderMoveEdge(lx: Lexicon, n: Node, a: Action)
    requires ReaderMoveOf(lx, n, a).Some?
    ensures ReaderEdge(n, ReaderMoveOf(lx, n, a).value)
    ensures OfReader(ReaderMoveOf(lx, n, a).value.access) || ReaderMoveOf(lx, n, a).value.access.Observe?
  {
    hide Dispatch;
  }

  /** The tracking state after an access of the relay reader. */
  lemma ApplyReading(n: Node, access: Access)
    requires OfReader(access) || access.Observe?
    ensures var t := Apply(n, access);
            && t.runs == n.runs && t.answered == n.answered && t.named == n.named && t.gateway == n.gateway
            && t.tracked == (if access.TrackRequest?
                             then n.tracked[access.request := Tracked(access.sessionId, |n.handled|, access.ask)]
                             else n.tracked)
            && t.order == (if access.TrackRequest? then n.order + [access.request] else n.order)
            && t.last == (if access.TrackRequest? then access.sessionId else n.last)
            && t.requests == (if access.TrackRequest? then n.requests[access.request := access.sessionId]
                              else if access.UntrackRequest? then n.requests - {access.request} else n.requests)
            && t.rolledBack == (if access.UntrackRequest? then n.rolledBack + {access.request} else n.rolledBack)
            && t.written == (if access.Wrote? then n.written[access.request := access.conn] else n.written)
            && t.replies == (if access.Answer? then n.replies + 1 else n.replies)
            && t.handled == (if access.Receive? then n.handled + [access.frame] else n.handled)
  {
  }

  lemma ReaderFate(n: Node, m: ReaderMove, r: RequestId)
    requires RequestsInv(n) && ReaderEdge(n, m) && (OfReader(m.access) || m.access.Observe?)
    requires r in PerformReader(n, m).tracked
    ensures Fate(PerformReader(n, m), r)
  {
    hide Apply;
    ApplyReading(n, m.access);
    if r in n.tracked {
      assert Fate(n, r);
    }
  }

  lemma ReaderRequests(n: Node, m: ReaderMove)
    requires RequestsInv(n) && ReaderEdge(n, m) && (OfReader(m.access) || m.access.Observe?)
    ensures RequestsInv(PerformReader(n, m))
  {
    hide Apply;
    var t := PerformReader(n, m);
    ApplyReading(n, m.access);
    forall r | r in t.tracked ensures Fate(t, r) {
      ReaderFate(n, m, r);
    }
  }

  /** Only a new id is tracked, for the session of the frame in hand. */
  lemma TracksNew(n: Node, m: ReaderMove)
    requires ReaderEdge(n, m) && m.access.TrackRequest?
    ensures m.access.request !in n.tracked && !n.reader.Idle? && m.access.sessionId == n.reader.sessionId
    ensures Pending(n.reader).None?
  {
  }

  lemma ReaderOrder(n: Node, m: ReaderMove)
    requires OrderInv(n) && ReaderEdge(n, m) && (OfReader(m.access) || m.access.Observe?)
    ensures OrderInv(PerformReader(n, m))
  {
    hide Apply, ReaderEdge;
    ApplyReading(n, m.access);
    if m.access.TrackRequest? {
      TracksNew(n, m);
    }
  }

  lemma ReaderFrames(n: Node, m: ReaderMove)
    requires FramesInv(n) && RequestsInv(n) && ReaderEdge(n, m) && (OfReader(m.access) || m.access.Observe?)
    ensures FramesInv(PerformReader(n, m))
  {
    hide Apply;
    ApplyReading(n, m.access);
    if n.reader.Write? {
      assert Fate(n, n.reader.request);
    }
  }

  lemma ReaderOrigin(n: Node, m: ReaderMove)
    requires OriginInv(n) && ReaderEdge(n, m) && (OfReader(m.access) || m.access.Observe?)
    ensures OriginInv(PerformReader(n, m))
  {
    hide Apply, ReaderEdge, FrameOf;
    var t := PerformReader(n, m);
    ApplyReading(n, m.access);
    ReaderFrame(n, m);
    forall r | r in t.tracked ensures Origin(t, r) {
      if m.access.TrackRequest? && r == m.access.request {
        TracksNew(n, m);
      } else {
        assert Origin(n, r);
      }
    }
  }

  /** The frame in hand changes only when a new one is received, from an idle reader. */
  lemma ReaderFrame(n: Node, m: ReaderMove)
    requires ReaderEdge(n, m)
    ensures m.access.Receive? ==> n.reader.Idle? && !m.next.Idle? && FrameOf(m.access.frame, m.next.sessionId)
    ensures !m.access.Receive? && !m.next.Idle? ==> !n.reader.Idle? && m.next.sessionId == n.reader.sessionId
  {
    hide FrameOf;
  }

  /** The reader takes away no request that was written. */
  lemma ReaderKeepsAnswering(n: Node, m: ReaderMove, r: RequestId, id: SessionId)
    requires RequestsInv(n) && ReaderEdge(n, m) && (OfReader(m.access) || m.access.Observe?)
    requires Answering(n, r, id)
    ensures Answering(PerformReader(n, m), r, id)
  {
    hide Apply;
    ApplyReading(n, m.access);
    assert Fate(n, r);
  }

  lemma ReaderRuns(n: Node, m: ReaderMove)
    requires RequestsInv(n) && RunsInv(n) && ReaderEdge(n, m) && (OfReader(m.access) || m.access.Observe?)
    ensures RunsInv(PerformReader(n, m))
  {
    hide Apply, ReaderEdge;
    var t := PerformReader(n, m);
    ApplyReading(n, m.access);
    forall x | x in t.runs ensures HasRequest(t, t.runs[x]) {
      assert HasRequest(n, n.runs[x]);
      var r :| Answering(n, r, n.runs[x]);
      ReaderKeepsAnswering(n, m, r, n.runs[x]);
    }
  }

  lemma ReaderAnswered(n: Node, m: ReaderMove)
    requires RequestsInv(n) && AnsweredInv(n) && ReaderEdge(n, m) && (OfReader(m.access) || m.access.Observe?)
    ensures AnsweredInv(PerformReader(n, m))
  {
    hide Apply;
    var t := PerformReader(n, m);
    ApplyReading(n, m.access);
    forall r ensures Answered(t, r) {
      assert Answered(n, r);
      assert r in n.tracked ==> Fate(n, r);
    }
  }

  lemma ReaderResponse(n: Node, m: ReaderMove)
    requires RequestsInv(n) && ResponseInv(n) && ReaderEdge(n, m) && (OfReader(m.access) || m.access.Observe?)
    ensures ResponseInv(PerformReader(n, m))
  {
    hide Apply;
    ApplyReading(n, m.access);
    forall r, id | Answering(n, r, id) ensures Answering(PerformReader(n, m), r, id) {
      ReaderKeepsAnswering(n, m, r, id);
    }
  }

  lemma ReaderInv(n: Node, m: ReaderMove)
    requires Inv(n) && ReaderEdge(n, m) && (OfReader(m.access) || m.access.Observe?)
    ensures Inv(PerformReader(n, m))
  {
    ReaderHandshake(n, m);
    ReaderRequests(n, m);
    ReaderOrder(n, m);
    ReaderFrames(n, m);
    ReaderOrigin(n, m);
    ReaderResponse(n, m);
    ReaderAnswered(n, m);
    ReaderRuns(n, m);
  }

  lemma ExecInv(lx: Lexicon, n: Node, a: Action)
    requires Inv(n)
    ensures Inv(Exec(lx, n, a))
  {
    if a.Work? {
      if GatewayStep(lx, n, a).Some? {
        GatewayEdge(lx, n, a);
        GatewayInv(n, GatewayStep(lx, n, a).value);
      }
    } else if ReaderMoveOf(lx, n, a).Some? {
      ReaderMoveEdge(lx, n, a);
      ReaderInv(n, ReaderMoveOf(lx, n, a).value);
    }
  }
}
