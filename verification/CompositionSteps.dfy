/** Each kind of step of the composed system keeps its invariant. */
module CompositionSteps {
  import opened Protocol
  import opened DataFrame
  import opened Events
  import R = RelaySystem
  import RI = RelayInvariants
  import RR = RelayRouting
  import RT = RelayTheorems
  import RO = RelayOrdering
  import C = ConnectorSystem
  import CI = ConnectorInvariants
  import CC = ConnectorContent
  import CT = ConnectorTheorems
  import opened Composition
  import opened CompositionInvariants

  // ----- steps of the relay -----

  /** Only a DATA read adds to what the relay has read from a peer. */
  lemma GotStep(s: R.State, a: R.Action, p: R.PeerId)
    requires p in s.peers
    ensures p in R.Exec(s, a).peers
    ensures R.Exec(s, a).peers[p].role == s.peers[p].role
    ensures R.Exec(s, a).peers[p].got ==
            if a.Read? && a.peer == p && a.input.Data? && s.peers[p].pc.Loop?
            then s.peers[p].got + [a.input.frame] else s.peers[p].got
  {
    hide R.Step;
    RI.ExecCases(s, a);
    if R.MoveOf(s, a).Some? {
      ApplyGot(s, a.peer, R.MoveOf(s, a).value.access, p);
      OnlyDataReceives(s, a);
    }
  }

  lemma ApplyGot(s: R.State, q: R.PeerId, access: R.Access, p: R.PeerId)
    requires p in s.peers && q in s.peers
    ensures p in R.Apply(s, q, access).peers
    ensures R.Apply(s, q, access).peers[p].role == s.peers[p].role
    ensures R.Apply(s, q, access).peers[p].got ==
            if access.Receive? && q == p then s.peers[p].got + [access.frame] else s.peers[p].got
  {
  }

  lemma OnlyDataReceives(s: R.State, a: R.Action)
    requires R.MoveOf(s, a).Some?
    ensures var access := R.MoveOf(s, a).value.access;
            && (access.Receive? <==> a.Read? && a.input.Data?)
            && (access.Receive? ==> access.frame == a.input.frame)
            && (a.Read? ==> s.peers[a.peer].pc.Loop?)
  {
  }

  lemma NewPeerGotNothing(s: R.State, a: R.Action, p: R.PeerId)
    requires p !in s.peers && p in R.Exec(s, a).peers
    ensures R.Exec(s, a).peers[p].got == []
  {
    hide R.Step;
    RI.ExecCases(s, a);
    if R.MoveOf(s, a).Some? {
      RI.ApplyFrame(s, a.peer, R.MoveOf(s, a).value.access);
    }
  }

  lemma UpsStable(w: World, v: World)
    requires UpsInv(w) && RI.Grows(w.relay, v.relay)
    requires v.lx == w.lx && v.nodes == w.nodes
    requires forall p :: p in v.links ==>
                           if p in w.links then v.links[p].node == w.links[p].node && v.links[p].up == w.links[p].up
                           else v.links[p].up == []
    ensures UpsInv(v)
  {
    forall p, i | p in v.links && 0 <= i < |v.links[p].up| ensures UpInv(v, p, i) {
      assert UpInv(w, p, i);
      RR.AnnouncedStable(w.relay, v.relay, v.links[p].up[i].outgoing.sessionId);
    }
  }

  lemma NodesStable(w: World, v: World)
    requires NodesInv(w) && Grows(w, v) && v.nodes == w.nodes
    requires forall node :: SameHeard(w, v, node)
    ensures NodesInv(v)
  {
    forall node | node in v.nodes ensures NodeInv(v, node) {
      assert NodeInv(w, node) && SameHeard(w, v, node);
      NodeStable(w, v, node);
    }
  }

  /** A link whose relay side may have read one more frame. */
  lemma LinkStep(w: World, v: World, a: R.Action, p: R.PeerId)
    requires p in w.links && LinkInv(w, p) && p in v.links
    requires v.relay == R.Exec(w.relay, a) && RI.Grows(w.relay, v.relay) && v.nodes == w.nodes
    requires if a.Read? && a.peer == p && a.input.Data? && w.relay.peers[p].pc.Loop?
             then w.links[p].taken < |w.links[p].up| && a.input.frame == w.links[p].up[w.links[p].taken].frame
                  && v.links[p] == w.links[p].(taken := w.links[p].taken + 1)
             else v.links[p] == w.links[p]
    ensures LinkInv(v, p)
  {
    hide R.Exec;
    GotStep(w.relay, a, p);
  }

  /** The relay's reads and the links' counters advance together. */
  ghost predicate LinkAdvances(w: World, v: World, a: R.Action, p: R.PeerId)
    requires p in w.links && p in v.links
  {
    if a.Read? && a.peer == p && a.input.Data? && p in w.relay.peers && w.relay.peers[p].pc.Loop?
    then w.links[p].taken < |w.links[p].up| && a.input.frame == w.links[p].up[w.links[p].taken].frame
         && v.links[p] == w.links[p].(taken := w.links[p].taken + 1)
    else v.links[p] == w.links[p]
  }

  lemma RelayMoves(w: World, v: World, a: R.Action)
    requires Inv(w) && RO.Honest(w.relay, a)
    requires v.relay == R.Exec(w.relay, a) && v.lx == w.lx && v.nodes == w.nodes && v.conns == w.conns
    requires forall p :: p in v.links <==> p in w.links
    requires forall p {:trigger LinkAdvances(w, v, a, p)} :: p in w.links ==> LinkAdvances(w, v, a, p)
    requires a.Read? && a.input.Data? && IsConnector(w.relay, a.peer) ==> a.peer in w.links
    ensures Inv(v)
  {
    hide R.Exec, RT.Inv, RO.HonestInv, NodeInv, UpInv;
    RT.ExecInv(w.relay, a);
    RO.ExecHonest(w.relay, a);
    forall p | p in v.links
      ensures LinkInv(v, p) && v.links[p].node == w.links[p].node && v.links[p].up == w.links[p].up
              && v.links[p].read == w.links[p].read
              && p in w.relay.peers && w.links[p].read <= |w.relay.peers[p].out|
    {
      assert LinkInv(w, p) && LinkAdvances(w, v, a, p);
      LinkStep(w, v, a, p);
    }
    UnlinkedStay(w, v, a);
    UpsStable(w, v);
    NodesStable(w, v);
  }

  lemma UnlinkedStay(w: World, v: World, a: R.Action)
    requires LinksInv(w) && v.relay == R.Exec(w.relay, a)
    requires forall p :: p in v.links <==> p in w.links
    requires a.Read? && a.input.Data? && IsConnector(w.relay, a.peer) ==> a.peer in w.links
    ensures forall p :: IsConnector(v.relay, p) && p !in v.links ==> v.relay.peers[p].got == []
  {
    hide R.Exec;
    forall p | IsConnector(v.relay, p) && p !in v.links ensures v.relay.peers[p].got == [] {
      if p in w.relay.peers {
        GotStep(w.relay, a, p);
      } else {
        NewPeerGotNothing(w.relay, a, p);
      }
    }
  }

  lemma RelayStep(w: World, v: World, a: R.Action)
    requires Inv(w) && Allowed(w.relay, a) && v == w.(relay := R.Exec(w.relay, a))
    ensures Inv(v)
  {
    hide R.Exec;
    forall p | p in w.links ensures LinkAdvances(w, v, a, p) {
      assert LinkInv(w, p);
    }
    RelayMoves(w, v, a);
  }

  lemma UplinkStep(w: World, v: World, p: R.PeerId)
    requires Inv(w) && p in w.links && p in w.relay.peers && w.relay.peers[p].pc.Loop?
    requires w.links[p].taken < |w.links[p].up|
    requires v.relay == R.Exec(w.relay, R.Read(p, R.Data(w.links[p].up[w.links[p].taken].frame)))
    requires v == w.(relay := v.relay, links := w.links[p := w.links[p].(taken := w.links[p].taken + 1)])
    ensures Inv(v)
  {
    hide R.Exec;
    var a := R.Read(p, R.Data(w.links[p].up[w.links[p].taken].frame));
    assert UpInv(w, p, w.links[p].taken);
    forall q | q in w.links ensures LinkAdvances(w, v, a, q) {
    }
    RelayMoves(w, v, a);
  }

  // ----- connections -----

  /** A connector that has just started has heard and sent nothing. */
  lemma NewNodeInv(w: World, v: World, node: NodeId)
    requires LinksInv(w) && node !in w.nodes && v == w.(nodes := w.nodes[node := C.Start])
    ensures NodeInv(v, node)
  {
    hide RI.Grows, RR.Announced;
    assert forall p :: p in w.links ==> LinkInv(w, p);
    assert forall p, j: nat :: !Heard(v, node, p, j);
  }

  lemma LaunchStep(w: World, v: World, node: NodeId)
    requires Inv(w) && node !in w.nodes && v == w.(nodes := w.nodes[node := C.Start])
    ensures Inv(v)
  {
    hide RT.Inv, RO.HonestInv, CI.Inv, RR.Announced, NodeInv;
    forall p | p in v.links ensures LinkInv(v, p) {
      assert LinkInv(w, p);
    }
    forall p, i | p in v.links && 0 <= i < |v.links[p].up| ensures UpInv(v, p, i) {
      assert LinkInv(w, p) && UpInv(w, p, i);
    }
    forall m | m in v.nodes ensures NodeInv(v, m) {
      if m == node {
        NewNodeInv(w, v, node);
      } else {
        assert NodeInv(w, m);
        NodeStable(w, v, m);
      }
    }
  }

  lemma AttachStep(w: World, v: World, node: NodeId, p: R.PeerId)
    requires Inv(w) && node in w.nodes && IsConnector(w.relay, p) && p !in w.links
    requires v == w.(conns := w.conns[node := p], links := w.links[p := Link(node, 0, [], 0)])
    ensures Inv(v)
  {
    hide RT.Inv, RO.HonestInv, NodeInv, UpInv, RI.Grows;
    RI.GrowsSelf(w.relay);
    forall q | q in v.links ensures LinkInv(v, q) {
      if q != p {
        assert LinkInv(w, q);
      }
    }
    UpsStable(w, v);
    NodesStable(w, v);
  }

  lemma DetachStep(w: World, v: World, node: NodeId)
    requires Inv(w) && v == w.(conns := w.conns - {node})
    ensures Inv(v)
  {
    hide RT.Inv, RO.HonestInv, NodeInv, UpInv;
    forall q | q in v.links ensures LinkInv(v, q) {
      assert LinkInv(w, q);
    }
    UpsStable(w, v);
    NodesStable(w, v);
  }

  // ----- steps inside a connector -----

  /** What a step of either goroutine, other than a delivery, does to what the connector knows. */
  ghost predicate KeepsKnowledge(n: C.Node, t: C.Node) {
    && t.table.Keys == n.table.Keys && t.handled == n.handled
    && (forall r :: r in n.tracked ==> r in t.tracked && t.tracked[r] == n.tracked[r])
    && (!t.reader.Idle? ==> !n.reader.Idle? && t.reader.sessionId == n.reader.sessionId)
    && (t.reader.Lookup? ==> n.reader.Lookup?)
    && (t.gateway.Forward? ==> t.gateway == n.gateway || t.gateway.sessionId in n.table)
    && (t.gateway.Broadcast? ==>
          t.gateway.left.Keys <= n.table.Keys || (n.gateway.Broadcast? && t.gateway.left.Keys <= n.gateway.left.Keys))
  }

  /** A frame goes out only for a session that the connector is already dealing with. */
  ghost predicate SendsKnown(n: C.Node, o: C.Outgoing) {
    || (!n.reader.Idle? && o.sessionId == n.reader.sessionId)
    || (n.gateway.Forward? && o.sessionId == n.gateway.sessionId)
    || (n.gateway.Broadcast? && o.sessionId in n.gateway.left)
  }

  lemma GatewayKeeps(n: C.Node, m: C.GatewayMove)
    requires CI.Edge(n, m)
    ensures KeepsKnowledge(n, C.PerformGateway(n, m))
    ensures C.Sent(m.access).Some? ==> SendsKnown(n, C.Sent(m.access).value)
  {
    hide C.Apply;
    CI.GatewayAccess(n, m);
    CI.ApplyTracking(n, m.access);
    ApplyTable(n, m.access);
  }

  lemma ApplyTable(n: C.Node, access: C.Access)
    ensures C.Apply(n, access).table ==
            match access
            case TableOpen(id) => C.Opened(n.table, id)
            case TableClose(id) => n.table - {id}
            case TableFlags(id, flags) => n.table[id := flags]
            case _ => n.table
  {
  }

  lemma ReaderKeeps(n: C.Node, m: C.ReaderMove)
    requires CI.RequestsInv(n) && CI.ReaderEdge(n, m) && !n.reader.Idle?
    requires CI.OfReader(m.access) || m.access.Observe?
    ensures KeepsKnowledge(n, C.PerformReader(n, m))
    ensures C.Sent(m.access).Some? ==> SendsKnown(n, C.Sent(m.access).value)
  {
    hide C.Apply;
    CI.ApplyReading(n, m.access);
    ApplyTable(n, m.access);
  }

  lemma NodeKeeps(lx: Lexicon, n: C.Node, a: C.Action)
    requires CI.Inv(n) && !a.Deliver?
    ensures KeepsKnowledge(n, C.Exec(lx, n, a))
    ensures C.Output(lx, n, a).Some? ==> SendsKnown(n, C.Output(lx, n, a).value)
  {
    if a.Work? {
      if C.GatewayStep(lx, n, a).Some? {
        CI.GatewayEdge(lx, n, a);
        GatewayKeeps(n, C.GatewayStep(lx, n, a).value);
      }
    } else if C.ReaderMoveOf(lx, n, a).Some? {
      CI.ReaderMoveEdge(lx, n, a);
      ReaderKeeps(n, C.ReaderMoveOf(lx, n, a).value);
    }
  }

  /** The connector moves and hears nothing; the links' reads do not change. */
  ghost predicate NodeMoves(w: World, v: World, node: NodeId, t: C.Node) {
    && v.lx == w.lx && v.relay == w.relay && v.conns == w.conns
    && node in w.nodes && v.nodes == w.nodes[node := t]
    && (forall p :: p in v.links <==> p in w.links)
    && (forall p :: p in w.links ==>
                      && v.links[p].node == w.links[p].node && v.links[p].read == w.links[p].read
                      && v.links[p].taken == w.links[p].taken && w.links[p].up <= v.links[p].up)
  }

  lemma MovedNode(w: World, v: World, node: NodeId, t: C.Node)
    requires Inv(w) && NodeMoves(w, v, node, t) && KeepsKnowledge(w.nodes[node], t)
    requires CI.Inv(t) && CC.ContentInv(w.lx, t)
    ensures NodesInv(v)
  {
    hide RelayInv, CI.Inv, Knows, RR.Announced;
    assert Grows(w, v);
    forall m | m in v.nodes ensures NodeInv(v, m) {
      assert NodeInv(w, m) && SameHeard(w, v, m);
      if m == node {
        MovedTable(w, v, node);
        MovedKnows(w, v, node, t);
        forall i | 0 <= i < |t.handled| ensures HeardFrame(v, node, t.handled[i]) {
          HeardFrameGrows(w, v, node, t.handled[i]);
        }
      } else {
        NodeStable(w, v, m);
      }
    }
  }

  lemma MovedKnows(w: World, v: World, node: NodeId, t: C.Node)
    requires node in w.nodes && Knows(w, node) && Grows(w, v)
    requires NodeMoves(w, v, node, t) && KeepsKnowledge(w.nodes[node], t)
    ensures Knows(v, node)
  {
    hide RI.Grows, RR.Announced;
    if t.reader.Lookup? {
      HeardOpenGrows(w, v, node, t.reader.sessionId);
    }
  }

  lemma MovedTable(w: World, v: World, node: NodeId)
    requires Grows(w, v) && SameHeard(w, v, node) && node in w.nodes && node in v.nodes && TableInv(w, node)
    requires v.nodes[node].table.Keys == w.nodes[node].table.Keys
    ensures TableInv(v, node)
  {
    hide OpenLast;
    forall id ensures id in v.nodes[node].table <==> OpenLast(v, node, id) {
      OpenLastSame(w, v, node, id);
      assert id in w.nodes[node].table.Keys <==> id in v.nodes[node].table.Keys;
    }
  }

  lemma MovedLinks(w: World, v: World, node: NodeId, t: C.Node)
    requires LinksInv(w) && NodeMoves(w, v, node, t)
    ensures LinksInv(v)
  {
    forall p | p in v.links ensures LinkInv(v, p) {
      assert LinkInv(w, p);
    }
  }

  lemma MovedUps(w: World, v: World, node: NodeId, t: C.Node)
    requires UpsInv(w) && NodeMoves(w, v, node, t) && KeepsKnowledge(w.nodes[node], t)
    requires forall p, i {:trigger UpInv(v, p, i)} ::
               p in w.links && |w.links[p].up| <= i < |v.links[p].up| ==> UpInv(v, p, i)
    ensures UpsInv(v)
  {
    forall p, i | p in v.links && 0 <= i < |v.links[p].up| ensures UpInv(v, p, i) {
      if i < |w.links[p].up| {
        assert UpInv(w, p, i);
      }
    }
  }

  /** What a connector sends is for an announced session, and for the asker if it is an answer. */
  ghost predicate Rightful(w: World, n: C.Node, o: C.Outgoing) {
    && RR.Announced(w.relay, o.sessionId)
    && (o.cause.Some? ==> o.cause.value in n.tracked && n.tracked[o.cause.value].sessionId == o.sessionId)
  }

  lemma CauseTracked(lx: Lexicon, n: C.Node, a: C.Action)
    requires CI.Inv(n) && C.Output(lx, n, a).Some? && C.Output(lx, n, a).value.cause.Some?
    ensures var o := C.Output(lx, n, a).value;
            o.cause.value in n.tracked && n.tracked[o.cause.value].sessionId == o.sessionId
  {
    hide C.Exec, C.Output;
    CT.OutputCause(lx, n, a);
    assert CI.Fate(n, C.Output(lx, n, a).value.cause.value);
  }

  lemma OutputRightful(w: World, node: NodeId, a: C.Action)
    requires node in w.nodes && CI.Inv(w.nodes[node]) && Knows(w, node)
    requires !a.Deliver? && C.Output(w.lx, w.nodes[node], a).Some?
    ensures Rightful(w, w.nodes[node], C.Output(w.lx, w.nodes[node], a).value)
  {
    hide C.Exec, C.Output, CI.Inv;
    NodeKeeps(w.lx, w.nodes[node], a);
    if C.Output(w.lx, w.nodes[node], a).value.cause.Some? {
      CauseTracked(w.lx, w.nodes[node], a);
    }
  }

  lemma SentUp(w: World, v: World, node: NodeId, t: C.Node, o: C.Outgoing, p: R.PeerId)
    requires NodeMoves(w, v, node, t) && KeepsKnowledge(w.nodes[node], t) && Rightful(w, w.nodes[node], o)
    requires p in w.links && w.links[p].node == node && 1 <= |o.sessionId| <= 255
    requires v.links[p].up == w.links[p].up + [Up(Layout(Parsed(o.sessionId, o.flags, w.lx.encode(o.event))), o)]
    ensures UpInv(v, p, |w.links[p].up|)
  {
    ParseAfterBuild(Parsed(o.sessionId, o.flags, w.lx.encode(o.event)));
  }

  lemma OnNodeMoves(w: World, node: NodeId, a: C.Action, ok: bool)
    requires node in w.nodes
    ensures var v := OnNode(w, node, a, ok);
            && NodeMoves(w, v, node, C.Exec(w.lx, w.nodes[node], a))
            && (forall p :: p in w.links && v.links[p].up != w.links[p].up ==>
                              && node in w.conns && p == w.conns[node]
                              && C.Output(w.lx, w.nodes[node], a).Some?
                              && var o := C.Output(w.lx, w.nodes[node], a).value;
                              && 1 <= |o.sessionId| <= 255
                              && v.links[p].up
                                 == w.links[p].up + [Up(Layout(Parsed(o.sessionId, o.flags, w.lx.encode(o.event))), o)])
  {
    hide C.Exec, C.Output, Layout;
  }

  /** Whatever the step adds to a link is what its connector may send. */
  lemma NodeUps(w: World, node: NodeId, a: C.Action, ok: bool)
    requires Inv(w) && node in w.nodes && !a.Deliver?
    requires KeepsKnowledge(w.nodes[node], C.Exec(w.lx, w.nodes[node], a))
    ensures var v := OnNode(w, node, a, ok);
            forall p, i :: p in w.links && p in v.links && |w.links[p].up| <= i < |v.links[p].up| ==> UpInv(v, p, i)
  {
    hide C.Exec, C.Output, OnNode, RT.Inv, CI.Inv, KeepsKnowledge, Layout, UpInv, Rightful, CC.ContentInv;
    var v := OnNode(w, node, a, ok);
    var n := w.nodes[node];
    assert NodeInv(w, node);
    OnNodeMoves(w, node, a, ok);
    forall p, i | p in w.links && p in v.links && |w.links[p].up| <= i < |v.links[p].up| ensures UpInv(v, p, i) {
      OutputRightful(w, node, a);
      SentUp(w, v, node, C.Exec(w.lx, n, a), C.Output(w.lx, n, a).value, p);
    }
  }

  lemma NodeStep(w: World, node: NodeId, a: C.Action, ok: bool)
    requires Inv(w) && node in w.nodes && !a.Deliver?
    ensures Inv(OnNode(w, node, a, ok))
  {
    hide C.Exec, C.Output, OnNode, RT.Inv, CI.Inv, KeepsKnowledge, Layout;
    var v := OnNode(w, node, a, ok);
    var n := w.nodes[node];
    var t := C.Exec(w.lx, n, a);
    assert NodeInv(w, node);
    CI.ExecInv(w.lx, n, a);
    CC.ExecContent(w.lx, n, a);
    NodeKeeps(w.lx, n, a);
    OnNodeMoves(w, node, a, ok);
    MovedLinks(w, v, node, t);
    MovedNode(w, v, node, t);
    NodeUps(w, node, a, ok);
    MovedUps(w, v, node, t);
  }

  // ----- the connector reads its channel -----

  /** What reading one message does to an idle connector. */
  ghost predicate Heeds(n: C.Node, t: C.Node, m: R.Message) {
    && t.gateway == n.gateway && t.tracked == n.tracked
    && match m
       case Text(SessionOpen(id, _)) =>
         t.reader.Idle? && t.table.Keys == n.table.Keys + {id} && t.handled == n.handled
       case Text(CloseSession(id)) =>
         t.reader.Idle? && t.table.Keys == n.table.Keys - {id} && t.handled == n.handled
       case Text(_) => t == n
       case Binary(frame, _, _) =>
         && t.table == n.table && t.handled == n.handled + [frame]
         && !t.reader.Idle? && CI.FrameOf(frame, t.reader.sessionId)
  }

  lemma DeliveredMove(lx: Lexicon, n: C.Node, d: C.Delivery)
    requires n.reader.Idle?
    ensures C.Exec(lx, n, C.Deliver(d)) == C.PerformReader(n, C.OnDelivery(lx, d))
  {
    hide C.Apply, C.OnDelivery;
  }

  lemma FrameHeeded(lx: Lexicon, n: C.Node, m: R.Message)
    requires m.Binary? && ParseDataFrame(m.frame).Ok?
    ensures Heeds(n, C.PerformReader(n, C.OnDelivery(lx, C.Frame(m.frame))), m)
  {
    hide ParseDataFrame;
  }

  lemma ControlHeeded(lx: Lexicon, n: C.Node, m: R.Message)
    requires n.reader.Idle? && m.Text? && DeliveryOf(m).Some?
    ensures Heeds(n, C.PerformReader(n, C.OnDelivery(lx, DeliveryOf(m).value)), m)
  {
    hide C.Apply;
    var access := C.OnDelivery(lx, DeliveryOf(m).value).access;
    CI.ApplyReading(n, access);
    ApplyTable(n, access);
  }

  lemma DeliveryHeeded(lx: Lexicon, n: C.Node, m: R.Message)
    requires n.reader.Idle? && (m.Binary? ==> ParseDataFrame(m.frame).Ok?)
    ensures var d := DeliveryOf(m);
            Heeds(n, if d.Some? then C.Exec(lx, n, C.Deliver(d.value)) else n, m)
  {
    hide C.Exec, C.PerformReader, C.OnDelivery;
    var d := DeliveryOf(m);
    if d.Some? {
      DeliveredMove(lx, n, d.value);
      if m.Binary? {
        FrameHeeded(lx, n, m);
      } else {
        ControlHeeded(lx, n, m);
      }
    }
  }

  /** The node reads the next message of its connection p and becomes t. */
  ghost predicate Hears(w: World, v: World, node: NodeId, p: R.PeerId, t: C.Node) {
    && node in w.nodes && p in w.links && w.links[p].node == node
    && p in w.relay.peers && w.links[p].read < |w.relay.peers[p].out|
    && v == w.(nodes := w.nodes[node := t], links := w.links[p := w.links[p].(read := w.links[p].read + 1)])
  }

  /** Whatever the node has heard now, it had heard before or has just read. */
  lemma HeardNext(w: World, v: World, node: NodeId, p: R.PeerId, t: C.Node, q: R.PeerId, j: nat)
    requires Hears(w, v, node, p, t) && Heard(v, node, q, j)
    ensures Heard(w, node, q, j) || (q == p && j == w.links[p].read)
  {
  }

  /** A message about another session, or about none, changes nothing for this one. */
  lemma HearOther(w: World, v: World, node: NodeId, p: R.PeerId, t: C.Node, id: SessionId)
    requires Hears(w, v, node, p, t)
    requires var m := w.relay.peers[p].out[w.links[p].read]; !RR.Opens(m, id) && !RR.Closes(m, id)
    ensures OpenLast(v, node, id) <==> OpenLast(w, node, id)
  {
    forall q, j: nat
      ensures Heard(v, node, q, j) <==> Heard(w, node, q, j) || (q == p && j == w.links[p].read)
    {
    }
    hide Hears;
    assert v.relay == w.relay;
    if q, j: nat :| OpensLastAt(w, node, id, q, j) {
      assert OpensLastAt(v, node, id, q, j);
    }
    if q, j: nat :| OpensLastAt(v, node, id, q, j) {
      assert OpensLastAt(w, node, id, q, j);
    }
  }

  lemma HearOpen(w: World, v: World, node: NodeId, p: R.PeerId, t: C.Node, id: SessionId)
    requires Hears(w, v, node, p, t) && RR.Opens(w.relay.peers[p].out[w.links[p].read], id)
    ensures OpenLast(v, node, id)
  {
    var j := w.links[p].read;
    assert Heard(v, node, p, j) && forall i: nat :: j < i ==> !Heard(v, node, p, i);
    assert OpensLastAt(v, node, id, p, j);
  }

  /** A session is opened on one channel only, and closed on that one and its client's. */
  lemma HearClose(w: World, v: World, node: NodeId, p: R.PeerId, t: C.Node, id: SessionId)
    requires RelayInv(w) && LinksInv(w)
    requires Hears(w, v, node, p, t) && RR.Closes(w.relay.peers[p].out[w.links[p].read], id)
    ensures !OpenLast(v, node, id)
  {
    var i := w.links[p].read;
    assert Heard(v, node, p, i) && LinkInv(w, p);
    if q, j: nat :| OpensLastAt(v, node, id, q, j) {
      HeardNext(w, v, node, p, t, q, j);
      OneChannel(w.relay, p, i, q, j, id);
      assert false;
    }
  }

  lemma OneChannel(s: R.State, p: R.PeerId, i: nat, q: R.PeerId, j: nat, id: SessionId)
    requires RT.Inv(s) && p in s.peers && i < |s.peers[p].out| && RR.Closes(s.peers[p].out[i], id)
    requires q in s.peers && j < |s.peers[q].out| && RR.Opens(s.peers[q].out[j], id)
    ensures p == q || s.peers[p].role == R.Client
  {
    assert RR.MessageInv(s, p, s.peers[p].out[i]) && RR.MessageInv(s, q, s.peers[q].out[j]);
    assert RI.Basic(s) && RI.Joined(s, id);
  }

  lemma HearTable(w: World, v: World, node: NodeId, p: R.PeerId, t: C.Node)
    requires RelayInv(w) && LinksInv(w)
    requires Hears(w, v, node, p, t) && TableInv(w, node)
    requires Heeds(w.nodes[node], t, w.relay.peers[p].out[w.links[p].read])
    ensures TableInv(v, node)
  {
    hide OpenLast, RelayInv, LinksInv;
    var m := w.relay.peers[p].out[w.links[p].read];
    forall id ensures id in t.table <==> OpenLast(v, node, id) {
      assert id in w.nodes[node].table <==> OpenLast(w, node, id);
      if RR.Opens(m, id) {
        HearOpen(w, v, node, p, t, id);
      } else if RR.Closes(m, id) {
        HearClose(w, v, node, p, t, id);
      } else {
        HearOther(w, v, node, p, t, id);
      }
      assert id in t.table <==> id in t.table.Keys;
    }
  }

  /** A message on a connector's channel that opens a session announces it. */
  lemma OpenAnnounces(w: World, p: R.PeerId, j: nat, id: SessionId)
    requires RR.MessagesInv(w.relay) && p in w.relay.peers && j < |w.relay.peers[p].out|
    requires RR.Opens(w.relay.peers[p].out[j], id)
    ensures RR.Announced(w.relay, id)
  {
    assert RR.MessageInv(w.relay, p, w.relay.peers[p].out[j]);
  }

  /** A connector that reads a frame has been told of its session on the same channel. */
  lemma FrameAnnounced(w: World, v: World, node: NodeId, p: R.PeerId, t: C.Node, id: SessionId)
    requires RR.MessagesInv(w.relay) && RR.ChannelsInv(w.relay) && IsConnector(w.relay, p) && Hears(w, v, node, p, t)
    requires RR.Carries(w.relay.peers[p].out[w.links[p].read], id)
    ensures RR.Announced(w.relay, id) && HeardOpen(v, node, id)
  {
    var j := w.links[p].read;
    assert RR.ChannelInv(w.relay, p);
    assert RR.OpenedBefore(w.relay.peers[p].out, j, id);
    var i: nat :| i < j && i < |w.relay.peers[p].out| && RR.Opens(w.relay.peers[p].out[i], id);
    assert Heard(v, node, p, i);
    OpenAnnounces(w, p, i, id);
  }

  lemma HearKnows(w: World, v: World, node: NodeId, p: R.PeerId, t: C.Node)
    requires RR.MessagesInv(w.relay) && RR.ChannelsInv(w.relay) && IsConnector(w.relay, p)
    requires Hears(w, v, node, p, t) && Knows(w, node)
    requires w.nodes[node].reader.Idle? && Heeds(w.nodes[node], t, w.relay.peers[p].out[w.links[p].read])
    ensures Knows(v, node)
  {
    var m := w.relay.peers[p].out[w.links[p].read];
    match m
    case Text(SessionOpen(id, _)) => OpenAnnounces(w, p, w.links[p].read, id);
    case Text(_) =>
    case Binary(frame, _, _) => FrameAnnounced(w, v, node, p, t, t.reader.sessionId);
  }

  lemma HearHandled(w: World, v: World, node: NodeId, p: R.PeerId, t: C.Node)
    requires Hears(w, v, node, p, t) && HandledInv(w, node) && Grows(w, v)
    requires Heeds(w.nodes[node], t, w.relay.peers[p].out[w.links[p].read])
    ensures HandledInv(v, node)
  {
    var n := w.nodes[node];
    forall i | 0 <= i < |t.handled| ensures HeardFrame(v, node, t.handled[i]) {
      if i < |n.handled| {
        HeardFrameGrows(w, v, node, n.handled[i]);
      } else {
        assert Heard(v, node, p, w.links[p].read);
      }
    }
  }

  lemma RelayFacts(w: World)
    requires RelayInv(w)
    ensures RR.MessagesInv(w.relay) && RR.ChannelsInv(w.relay)
  {
  }

  lemma HearLinks(w: World, v: World, node: NodeId, p: R.PeerId, t: C.Node)
    requires LinksInv(w) && UpsInv(w) && Hears(w, v, node, p, t) && t.tracked == w.nodes[node].tracked
    ensures LinksInv(v) && UpsInv(v)
  {
    assert LinkInv(w, p);
    forall q | q in v.links ensures LinkInv(v, q) {
      assert LinkInv(w, q);
    }
    forall q, i | q in v.links && 0 <= i < |v.links[q].up| ensures UpInv(v, q, i) {
      assert UpInv(w, q, i);
    }
  }

  lemma HearStep(w: World, v: World, node: NodeId, p: R.PeerId, t: C.Node)
    requires Inv(w) && Hears(w, v, node, p, t) && CI.Inv(t) && CC.ContentInv(w.lx, t)
    requires w.nodes[node].reader.Idle?
    requires Heeds(w.nodes[node], t, w.relay.peers[p].out[w.links[p].read])
    ensures Inv(v)
  {
    hide RT.Inv, CI.Inv, RO.HonestInv;
    RelayFacts(w);
    assert LinkInv(w, p);
    HearLinks(w, v, node, p, t);
    assert Grows(w, v);
    forall k | k in v.nodes ensures NodeInv(v, k) {
      assert NodeInv(w, k);
      if k == node {
        HearTable(w, v, node, p, t);
        HearKnows(w, v, node, p, t);
        HearHandled(w, v, node, p, t);
      } else {
        NodeStable(w, v, k);
      }
    }
  }

  lemma DownlinkStep(w: World, node: NodeId)
    requires Inv(w) && Readable(w, node)
    ensures Inv(OnDownlink(w, node))
  {
    hide C.Exec, RT.Inv, CI.Inv, RO.HonestInv, Heeds;
    var p := w.conns[node];
    var m := w.relay.peers[p].out[w.links[p].read];
    var d := DeliveryOf(m);
    RelayFacts(w);
    assert NodeInv(w, node) && RR.MessageInv(w.relay, p, m);
    if d.Some? {
      CI.ExecInv(w.lx, w.nodes[node], C.Deliver(d.value));
      CC.ExecContent(w.lx, w.nodes[node], C.Deliver(d.value));
    }
    DeliveryHeeded(w.lx, w.nodes[node], m);
    var v := OnDownlink(w, node);
    HearStep(w, v, node, p, v.nodes[node]);
  }

  lemma ExecInv(w: World, a: Action)
    requires Inv(w)
    ensures Inv(Exec(w, a))
  {
    hide R.Exec, C.Exec, OnNode, OnDownlink, Inv;
    if Exec(w, a) != w {
      match a
      case OfRelay(ra) => RelayStep(w, Exec(w, a), ra);
      case Uplink(p) => UplinkStep(w, Exec(w, a), p);
      case Launch(node) => LaunchStep(w, Exec(w, a), node);
      case Attach(node, p) => AttachStep(w, Exec(w, a), node, p);
      case Detach(node) => DetachStep(w, Exec(w, a), node);
      case Downlink(node) => DownlinkStep(w, node);
      case OfNode(node, na, ok) => NodeStep(w, node, na, ok);
    }
  }
}
