/** What travels on the outgoing channels: who may send what to whom, and in which order. */
module RelayRouting {
  import opened Protocol
  import opened DataFrame
  import opened RelaySystem
  import opened RelayInvariants

  predicate Opens(m: Message, id: SessionId) {
    m.Text? && m.control.SessionOpen? && m.control.sessionId == id
  }

  predicate Confirms(m: Message, id: SessionId) {
    m.Text? && m.control.ConnectOk? && m.control.sessionId == id
  }

  predicate Closes(m: Message, id: SessionId) {
    m == Text(CloseSession(id))
  }

  /** A DATA frame for this session. */
  predicate Carries(m: Message, id: SessionId) {
    m.Binary? && ParseDataFrame(m.frame).Ok? && ParseDataFrame(m.frame).value.sessionId == id
  }

  ghost predicate OpenedBefore(out: seq<Message>, n: nat, id: SessionId) {
    exists i :: 0 <= i < n && i < |out| && Opens(out[i], id)
  }

  ghost predicate ConfirmedBefore(out: seq<Message>, n: nat, id: SessionId) {
    exists i :: 0 <= i < n && i < |out| && Confirms(out[i], id)
  }

  /** SESSION_OPEN has been sent to the session's connector. */
  ghost predicate Announced(s: State, id: SessionId) {
    && id in s.created && s.created[id].connector in s.peers
    && OpenedBefore(s.peers[s.created[id].connector].out, |s.peers[s.created[id].connector].out|, id)
  }

  /** CONNECT_OK has been sent to the session's client. */
  ghost predicate Confirmed(s: State, id: SessionId) {
    && id in s.created && s.created[id].client in s.peers
    && ConfirmedBefore(s.peers[s.created[id].client].out, |s.peers[s.created[id].client].out|, id)
  }

  // ----- each message, by itself -----

  /** Every binary message with an index below this one may already have been forwarded. */
  function Horizon(q: Peer): nat {
    match q.pc
    case RouteGet(index, _) => index
    case RouteSend(index, _, _) => index
    case _ => |q.got|
  }

  /** A message may be on q's channel only if it belongs to a session q is an end of; and a
      forwarded frame is, byte for byte, one that the opposite end sent. */
  ghost predicate MessageInv(s: State, q: PeerId, m: Message) {
    match m
    case Binary(frame, source, index) =>
      && source in s.peers && index < |s.peers[source].got| && s.peers[source].got[index] == frame
      && index < Horizon(s.peers[source])
      && ParseDataFrame(frame).Ok? && ParseDataFrame(frame).value.sessionId in s.created
      && Opposite(s.created[ParseDataFrame(frame).value.sessionId], source, q)
    case Text(SessionOpen(id, e2ee)) =>
      id in s.created && s.created[id].connector == q && s.created[id].e2ee == e2ee && Confirmed(s, id)
    case Text(ConnectOk(id, _)) => id in s.created && s.created[id].client == q
    case Text(CloseSession(id)) => id in s.created && Involves(s.created[id], q)
    case _ => true
  }

  ghost predicate MessagesInv(s: State) {
    forall q, i {:trigger MessageInv(s, q, s.peers[q].out[i])} ::
      q in s.peers && 0 <= i < |s.peers[q].out| ==> MessageInv(s, q, s.peers[q].out[i])
  }

  // ----- goroutines that may forward -----

  /** The client has run handleClient to its end and is in clientLoop, or in a call from it. */
  predicate InLoop(pc: Pc) {
    match pc
    case Loop | RouteGet(_, _) | RouteSend(_, _, _) => true
    case SendError(_, next) => next.ToLoop?
    case CloseDelete(_, next) => next.ToLoop?
    case CloseNotifyClient(_, next) => next.ToLoop?
    case CloseNotifyConnector(_, next) => next.ToLoop?
    case _ => false
  }

  ghost predicate Position(s: State, p: PeerId)
    requires p in s.peers
  {
    var me := s.peers[p];
    && (me.role == Client && InLoop(me.pc) ==> me.mine.Some? && Announced(s, me.mine.value))
    && (me.pc.ClientSendOpen? ==> Confirmed(s, me.pc.session.id))
  }

  ghost predicate PositionsInv(s: State) {
    forall p {:trigger Position(s, p)} :: p in s.peers ==> Position(s, p)
  }

  // ----- order on one channel -----

  /** The connector is told of a session before it gets the session's first frame. */
  ghost predicate OpenFirst(s: State, q: PeerId)
    requires q in s.peers
  {
    s.peers[q].role == Connector ==>
      forall j, id {:trigger Carries(s.peers[q].out[j], id)} ::
        0 <= j < |s.peers[q].out| && Carries(s.peers[q].out[j], id) ==> OpenedBefore(s.peers[q].out, j, id)
  }

  /** Frames of one sender keep the order in which the relay read them, and none is repeated. */
  ghost predicate InOrder(out: seq<Message>) {
    forall i, j :: 0 <= i < j < |out| && out[i].Binary? && out[j].Binary? && out[i].source == out[j].source ==>
                     out[i].index < out[j].index
  }

  ghost predicate ChannelInv(s: State, q: PeerId)
    requires q in s.peers
  {
    OpenFirst(s, q) && InOrder(s.peers[q].out)
  }

  ghost predicate ChannelsInv(s: State) {
    forall q {:trigger ChannelInv(s, q)} :: q in s.peers ==> ChannelInv(s, q)
  }

  ghost predicate Routing(s: State) {
    MessagesInv(s) && PositionsInv(s) && ChannelsInv(s)
  }

  // ----- stability -----

  lemma OpenedGrows(a: seq<Message>, b: seq<Message>, n: nat, m: nat, id: SessionId)
    requires OpenedBefore(a, n, id) && a <= b && n <= m
    ensures OpenedBefore(b, m, id)
  {
    var i :| 0 <= i < n && i < |a| && Opens(a[i], id);
    assert b[i] == a[i];
  }

  lemma ConfirmedGrows(a: seq<Message>, b: seq<Message>, n: nat, m: nat, id: SessionId)
    requires ConfirmedBefore(a, n, id) && a <= b && n <= m
    ensures ConfirmedBefore(b, m, id)
  {
    var i :| 0 <= i < n && i < |a| && Confirms(a[i], id);
    assert b[i] == a[i];
  }

  lemma AnnouncedStable(s: State, t: State, id: SessionId)
    requires Grows(s, t) && Announced(s, id)
    ensures Announced(t, id)
  {
    var k := s.created[id].connector;
    OpenedGrows(s.peers[k].out, t.peers[k].out, |s.peers[k].out|, |t.peers[k].out|, id);
  }

  lemma ConfirmedStable(s: State, t: State, id: SessionId)
    requires Grows(s, t) && Confirmed(s, id)
    ensures Confirmed(t, id)
  {
    var c := s.created[id].client;
    ConfirmedGrows(s.peers[c].out, t.peers[c].out, |s.peers[c].out|, |t.peers[c].out|, id);
  }

  lemma MessageStable(s: State, t: State, q: PeerId, m: Message)
    requires Grows(s, t) && MessageInv(s, q, m)
    requires m.Binary? ==> Horizon(s.peers[m.source]) <= Horizon(t.peers[m.source])
    ensures MessageInv(t, q, m)
  {
    if m.Text? && m.control.SessionOpen? {
      ConfirmedStable(s, t, m.control.sessionId);
    }
  }

  // ----- what one move may send -----

  /** The message an access writes, and to whom. */
  function Sent(access: Access): Option<(PeerId, Message)> {
    match access
    case SendTo(q, m) => Some((q, m))
    case Notify(q, id) => Some((q, Text(CloseSession(id))))
    case _ => None
  }

  lemma ApplyOut(s: State, p: PeerId, access: Access)
    requires p in s.peers
    ensures forall q :: q in s.peers ==>
                          Apply(s, p, access).peers[q].out ==
                          if Sent(access).Some? && Sent(access).value.0 == q && s.peers[q].open
                          then s.peers[q].out + [Sent(access).value.1] else s.peers[q].out
  {
    hide Apply;
    ApplyTouches(s, p, access);
  }

  function NextHorizon(me: Peer, m: Move): nat {
    match m.pc
    case RouteGet(index, _) => index
    case RouteSend(index, _, _) => index
    case _ => if m.access.Receive? then |me.got| + 1 else |me.got|
  }

  lemma PerformHorizon(s: State, p: PeerId, m: Move)
    requires p in s.peers
    ensures forall q :: q in s.peers ==>
                          q in Perform(s, p, m).peers &&
                          Horizon(Perform(s, p, m).peers[q])
                          == if q == p then NextHorizon(s.peers[p], m) else Horizon(s.peers[q])
  {
    hide Apply;
    ApplyTouches(s, p, m.access);
  }

  /** A message is sent only from the line of the code that sends it. */
  ghost predicate Warranted(s: State, p: PeerId, m: Move)
    requires p in s.peers
  {
    var pc := s.peers[p].pc;
    Sent(m.access).Some? ==>
      var (q, message) := Sent(m.access).value;
      match message
      case Binary(frame, source, index) =>
        && source == p && pc.RouteSend? && pc.index == index && pc.target == q
        && index < |s.peers[p].got| && frame == s.peers[p].got[index] && index < NextHorizon(s.peers[p], m)
      case Text(SessionOpen(id, e2ee)) =>
        pc.ClientSendOpen? && pc.session.id == id && pc.session.connector == q && pc.session.e2ee == e2ee
      case Text(ConnectOk(id, _)) => pc.ClientSendOk? && pc.session.id == id && q == p
      case Text(CloseSession(id)) => id in s.created && Involves(s.created[id], q)
      case _ => true
  }

  /** How one move changes where its goroutine stands. */
  ghost predicate Advances(s: State, p: PeerId, m: Move)
    requires p in s.peers
  {
    var me := s.peers[p];
    && Horizon(me) <= NextHorizon(me, m)
    && (me.role == Client && InLoop(m.pc) && !InLoop(me.pc) ==>
          me.pc.ClientSendOpen? && Sendable(s, me.pc.session.connector)
          && m.access == SendTo(me.pc.session.connector, Text(SessionOpen(me.pc.session.id, me.pc.session.e2ee))))
    && (m.pc.ClientSendOpen? && me.pc.ClientSendOpen? ==> m.pc == me.pc)
    && (m.pc.ClientSendOpen? && !me.pc.ClientSendOpen? ==>
          me.pc.ClientSendOk? && Sendable(s, p) && m.pc.session == me.pc.session
          && m.access == SendTo(p, Text(ConnectOk(me.pc.session.id, Some(me.pc.caps)))))
  }

  lemma MoveWarranted(s: State, a: Action)
    requires Basic(s) && MoveOf(s, a).Some?
    ensures Warranted(s, a.peer, MoveOf(s, a).value)
  {
    assert At(s, a.peer);
  }

  lemma MoveAdvances(s: State, a: Action)
    requires Basic(s) && MoveOf(s, a).Some?
    ensures Advances(s, a.peer, MoveOf(s, a).value)
  {
    assert At(s, a.peer);
  }

  // ----- the moves keep the channels in order -----

  lemma SentMessageInv(s: State, t: State, p: PeerId, m: Move, q: PeerId, message: Message)
    requires Basic(s) && PositionsInv(s) && p in s.peers && Warranted(s, p, m)
    requires Sent(m.access) == Some((q, message))
    requires Grows(s, t) && p in t.peers && Horizon(t.peers[p]) == NextHorizon(s.peers[p], m)
    ensures MessageInv(t, q, message)
  {
    assert At(s, p) && Position(s, p);
    if message.Text? && message.control.SessionOpen? {
      ConfirmedStable(s, t, message.control.sessionId);
    }
  }

  /** The effect of a move on the channels and on how far each sender's frames may have got. */
  ghost predicate Writes(s: State, t: State, p: PeerId, m: Move)
    requires p in s.peers
  {
    && Grows(s, t)
    && (forall q :: q in t.peers <==> q in s.peers)
    && (forall q :: q in s.peers ==>
                      && t.peers[q].role == s.peers[q].role
                      && t.peers[q].pc == (if q == p then m.pc else s.peers[q].pc)
                      && Horizon(t.peers[q]) == (if q == p then NextHorizon(s.peers[p], m) else Horizon(s.peers[q]))
                      && t.peers[q].out == (if Sent(m.access).Some? && Sent(m.access).value.0 == q && s.peers[q].open
                                            then s.peers[q].out + [Sent(m.access).value.1] else s.peers[q].out))
  }

  lemma PerformWrites(s: State, p: PeerId, m: Move)
    requires Basic(s) && p in s.peers && Legit(s, p, m)
    ensures Writes(s, Perform(s, p, m), p, m)
  {
    hide Apply, StoreInv, SessionInv, PcsInv, AuthTyped, Justified, PcInv, Horizon, NextHorizon, Sent, Grows;
    PerformBasic(s, p, m);
    PerformHorizon(s, p, m);
    ApplyOut(s, p, m.access);
    ApplyFrame(s, p, m.access);
  }

  lemma WritesMessages(s: State, t: State, p: PeerId, m: Move)
    requires Basic(s) && MessagesInv(s) && PositionsInv(s) && p in s.peers && Writes(s, t, p, m)
    requires Warranted(s, p, m) && Horizon(s.peers[p]) <= NextHorizon(s.peers[p], m)
    ensures MessagesInv(t)
  {
    forall q, i | q in t.peers && 0 <= i < |t.peers[q].out| ensures MessageInv(t, q, t.peers[q].out[i]) {
      if i < |s.peers[q].out| {
        assert t.peers[q].out[i] == s.peers[q].out[i];
        assert MessageInv(s, q, s.peers[q].out[i]);
        MessageStable(s, t, q, s.peers[q].out[i]);
      } else {
        SentMessageInv(s, t, p, m, q, t.peers[q].out[i]);
      }
    }
  }

  lemma PositionStable(s: State, t: State, q: PeerId)
    requires q in s.peers && Position(s, q) && Grows(s, t)
    requires t.peers[q].pc == s.peers[q].pc
    ensures Position(t, q)
  {
    var me := s.peers[q];
    if me.role == Client && InLoop(me.pc) {
      AnnouncedStable(s, t, me.mine.value);
    }
    if me.pc.ClientSendOpen? {
      ConfirmedStable(s, t, me.pc.session.id);
    }
  }

  /** A client whose goroutine is in clientLoop has had its session announced. */
  lemma WritesAnnounced(s: State, t: State, p: PeerId, m: Move)
    requires Basic(s) && p in s.peers && Position(s, p) && Writes(s, t, p, m) && Advances(s, p, m)
    requires s.peers[p].role == Client && InLoop(m.pc)
    ensures t.peers[p].mine.Some? && Announced(t, t.peers[p].mine.value)
  {
    hide StoreInv, AuthTyped, MessageInv, Confirmed, Horizon, NextHorizon;
    var me := s.peers[p];
    assert At(s, p);
    if InLoop(me.pc) {
      AnnouncedStable(s, t, me.mine.value);
    } else {
      var x := me.pc.session;
      assert Opens(t.peers[x.connector].out[|s.peers[x.connector].out|], x.id);
      assert Joined(s, x.id);
    }
  }

  /** A client that has been sent CONNECT_OK keeps that on its channel. */
  lemma WritesConfirmed(s: State, t: State, p: PeerId, m: Move)
    requires Basic(s) && p in s.peers && Position(s, p) && Writes(s, t, p, m) && Advances(s, p, m) && Basic(t)
    requires m.pc.ClientSendOpen?
    ensures Confirmed(t, m.pc.session.id)
  {
    hide StoreInv, AuthTyped, SessionInv, MessageInv, Announced, Horizon, NextHorizon;
    assert At(s, p) && At(t, p);
    if s.peers[p].pc.ClientSendOpen? {
      ConfirmedStable(s, t, s.peers[p].pc.session.id);
    } else {
      assert Confirms(t.peers[p].out[|s.peers[p].out|], m.pc.session.id);
    }
  }

  lemma WritesPosition(s: State, t: State, p: PeerId, m: Move)
    requires Basic(s) && PositionsInv(s) && p in s.peers && Writes(s, t, p, m) && Advances(s, p, m) && Basic(t)
    ensures Position(t, p)
  {
    hide Basic, Grows, Advances, Announced, Confirmed, Horizon, NextHorizon;
    assert Position(s, p);
    if s.peers[p].role == Client && InLoop(m.pc) {
      WritesAnnounced(s, t, p, m);
    }
    if m.pc.ClientSendOpen? {
      WritesConfirmed(s, t, p, m);
    }
  }

  lemma WritesOpenFirst(s: State, t: State, p: PeerId, m: Move, q: PeerId)
    requires Basic(s) && Routing(s) && p in s.peers && Writes(s, t, p, m) && Warranted(s, p, m)
    requires q in s.peers && ChannelInv(s, q)
    ensures OpenFirst(t, q)
  {
    hide Grows, StoreInv, AuthTyped, MessageInv;
    var a, b := s.peers[q].out, t.peers[q].out;
    if t.peers[q].role == Connector {
      forall j, id | 0 <= j < |b| && Carries(b[j], id) ensures OpenedBefore(b, j, id) {
        if j < |a| {
          assert Carries(a[j], id);
          OpenedGrows(a, b, j, j, id);
        } else {
          assert At(s, p) && Position(s, p) && Joined(s, id);
          OpenedGrows(a, b, |a|, j, id);
        }
      }
    }
  }

  lemma InOrderAppend(out: seq<Message>, m: Message)
    requires InOrder(out)
    requires m.Binary? ==> forall i :: 0 <= i < |out| && out[i].Binary? && out[i].source == m.source ==>
                                         out[i].index < m.index
    ensures InOrder(out + [m])
  {
  }

  /** A frame about to be forwarded is later than all its sender's frames already on the channel. */
  lemma SentIsLatest(s: State, p: PeerId, m: Move, q: PeerId, i: nat)
    requires MessagesInv(s) && p in s.peers && Warranted(s, p, m) && q in s.peers && i < |s.peers[q].out|
    requires Sent(m.access).Some? && Sent(m.access).value.0 == q
    ensures var earlier, later := s.peers[q].out[i], Sent(m.access).value.1;
            earlier.Binary? && later.Binary? && earlier.source == later.source ==> earlier.index < later.index
  {
    assert MessageInv(s, q, s.peers[q].out[i]);
  }

  lemma WritesInOrder(s: State, t: State, p: PeerId, m: Move, q: PeerId)
    requires MessagesInv(s) && p in s.peers && Writes(s, t, p, m) && Warranted(s, p, m)
    requires q in s.peers && InOrder(s.peers[q].out)
    ensures InOrder(t.peers[q].out)
  {
    var out := s.peers[q].out;
    if t.peers[q].out != out {
      forall i: nat | i < |out|
        ensures var earlier, later := out[i], Sent(m.access).value.1;
                earlier.Binary? && later.Binary? && earlier.source == later.source ==> earlier.index < later.index
      {
        SentIsLatest(s, p, m, q, i);
      }
      InOrderAppend(out, Sent(m.access).value.1);
    }
  }

  lemma PerformRouting(s: State, p: PeerId, m: Move)
    requires Basic(s) && Routing(s) && p in s.peers && Legit(s, p, m) && Warranted(s, p, m) && Advances(s, p, m)
    ensures Routing(Perform(s, p, m))
  {
    var t := Perform(s, p, m);
    PerformWrites(s, p, m);
    PerformBasic(s, p, m);
    WritesMessages(s, t, p, m);
    forall q | q in t.peers ensures Position(t, q) && ChannelInv(t, q) {
      assert Position(s, q) && ChannelInv(s, q);
      if q == p {
        WritesPosition(s, t, p, m);
      } else {
        PositionStable(s, t, q);
      }
      WritesOpenFirst(s, t, p, m, q);
      WritesInOrder(s, t, p, m, q);
    }
  }

  lemma JoinRouting(s: State, p: PeerId, role: Role, pc: Pc)
    requires Basic(s) && Routing(s) && Fresh(s, p, role, pc)
    ensures Routing(Join(s, p, role, pc))
  {
    var t := Join(s, p, role, pc);
    JoinBasic(s, p, role, pc);
    forall q, i | q in t.peers && 0 <= i < |t.peers[q].out| ensures MessageInv(t, q, t.peers[q].out[i]) {
      assert MessageInv(s, q, s.peers[q].out[i]);
      MessageStable(s, t, q, s.peers[q].out[i]);
    }
    forall q | q in t.peers ensures Position(t, q) && ChannelInv(t, q) {
      if q != p {
        assert Position(s, q) && ChannelInv(s, q);
        PositionStable(s, t, q);
      }
    }
  }

  lemma ExecRouting(s: State, a: Action)
    requires Basic(s) && Routing(s)
    ensures Routing(Exec(s, a))
  {
    ExecCases(s, a);
    if MoveOf(s, a).Some? {
      MoveLegit(s, a);
      MoveWarranted(s, a);
      MoveAdvances(s, a);
      PerformRouting(s, a.peer, MoveOf(s, a).value);
    } else if Exec(s, a) != s {
      var pc :| Fresh(s, a.peer, a.role, pc) && Exec(s, a) == Join(s, a.peer, a.role, pc);
      JoinRouting(s, a.peer, a.role, pc);
    }
  }
}
