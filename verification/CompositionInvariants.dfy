/** What every step of the composed system keeps. */
module CompositionInvariants {
  import opened Protocol
  import opened DataFrame
  import opened Events
  import R = RelaySystem
  import RI = RelayInvariants
  import RR = RelayRouting
  import RT = RelayTheorems
  import RO = RelayOrdering
  import C = ConnectorSystem
  import CI = ConnectorInvariants
  import CC = ConnectorContent
  import opened Composition

  // ----- links -----

  ghost predicate LinkInv(w: World, p: R.PeerId)
    requires p in w.links
  {
    var link := w.links[p];
    && IsConnector(w.relay, p)
    && link.node in w.nodes
    && link.read <= |w.relay.peers[p].out|
    && link.taken <= |link.up|
    && |w.relay.peers[p].got| == link.taken
    && (forall i :: 0 <= i < link.taken ==> w.relay.peers[p].got[i] == link.up[i].frame)
  }

  ghost predicate LinksInv(w: World) {
    && (forall p {:trigger LinkInv(w, p)} :: p in w.links ==> LinkInv(w, p))
    && (forall p :: IsConnector(w.relay, p) && p !in w.links ==> w.relay.peers[p].got == [])
    && (forall node :: node in w.conns ==> w.conns[node] in w.links && w.links[w.conns[node]].node == node)
  }

  /** What a connector has written: a frame for an announced session, and if a response caused
      it, for the session of the request that was answered. */
  ghost predicate UpInv(w: World, p: R.PeerId, i: nat)
    requires p in w.links && i < |w.links[p].up|
  {
    var up := w.links[p].up[i];
    && ParseDataFrame(up.frame)
       == Ok(Parsed(up.outgoing.sessionId, up.outgoing.flags, w.lx.encode(up.outgoing.event)))
    && RR.Announced(w.relay, up.outgoing.sessionId)
    && (up.outgoing.cause.Some? ==>
          var node := w.links[p].node;
          && node in w.nodes && up.outgoing.cause.value in w.nodes[node].tracked
          && w.nodes[node].tracked[up.outgoing.cause.value].sessionId == up.outgoing.sessionId)
  }

  ghost predicate UpsInv(w: World) {
    forall p, i {:trigger UpInv(w, p, i)} :: p in w.links && 0 <= i < |w.links[p].up| ==> UpInv(w, p, i)
  }

  // ----- what a connector has been told -----

  /** The connector has read the j-th message of the channel of its connection p. */
  ghost predicate Heard(w: World, node: NodeId, p: R.PeerId, j: nat) {
    p in w.links && w.links[p].node == node && j < w.links[p].read && p in w.relay.peers && j < |w.relay.peers[p].out|
  }

  ghost predicate HeardOpen(w: World, node: NodeId, id: SessionId) {
    exists p, j: nat :: Heard(w, node, p, j) && RR.Opens(w.relay.peers[p].out[j], id)
  }

  ghost predicate HeardFrame(w: World, node: NodeId, frame: Bytes) {
    exists p, j: nat ::
      Heard(w, node, p, j) && w.relay.peers[p].out[j].Binary? && w.relay.peers[p].out[j].frame == frame
  }

  // ----- the connectors -----

  /** The sessions the gateway reader is about to send to. */
  ghost predicate GatewayKnows(w: World, g: C.Gateway) {
    match g
    case Forward(id, _, _, _) => RR.Announced(w.relay, id)
    case Broadcast(left) => forall id :: id in left ==> RR.Announced(w.relay, id)
    case _ => true
  }

  ghost predicate Knows(w: World, node: NodeId)
    requires node in w.nodes
  {
    var n := w.nodes[node];
    && (forall id :: id in n.table ==> RR.Announced(w.relay, id))
    && (!n.reader.Idle? ==> RR.Announced(w.relay, n.reader.sessionId))
    && (n.reader.Lookup? ==> HeardOpen(w, node, n.reader.sessionId))
    && GatewayKnows(w, n.gateway)
  }

  /** The j-th message of this channel opened the session, and no later one that was read closed it. */
  ghost predicate OpensLastAt(w: World, node: NodeId, id: SessionId, p: R.PeerId, j: nat) {
    && Heard(w, node, p, j) && RR.Opens(w.relay.peers[p].out[j], id)
    && forall i: nat :: j < i && Heard(w, node, p, i) ==> !RR.Closes(w.relay.peers[p].out[i], id)
  }

  /** The last thing the connector has read about the session is that it is open. */
  ghost predicate OpenLast(w: World, node: NodeId, id: SessionId) {
    exists p, j: nat :: OpensLastAt(w, node, id, p, j)
  }

  /** The bridge's table holds exactly the sessions whose last message was SESSION_OPEN. */
  ghost predicate TableInv(w: World, node: NodeId)
    requires node in w.nodes
  {
    forall id {:trigger OpenLast(w, node, id)} :: id in w.nodes[node].table <==> OpenLast(w, node, id)
  }

  ghost predicate HandledInv(w: World, node: NodeId)
    requires node in w.nodes
  {
    forall i :: 0 <= i < |w.nodes[node].handled| ==> HeardFrame(w, node, w.nodes[node].handled[i])
  }

  ghost predicate NodeInv(w: World, node: NodeId)
    requires node in w.nodes
  {
    && CI.Inv(w.nodes[node]) && CC.ContentInv(w.lx, w.nodes[node])
    && Knows(w, node) && TableInv(w, node) && HandledInv(w, node)
  }

  ghost predicate NodesInv(w: World) {
    forall node {:trigger NodeInv(w, node)} :: node in w.nodes ==> NodeInv(w, node)
  }

  ghost predicate RelayInv(w: World) {
    RT.Inv(w.relay) && RO.HonestInv(w.relay)
  }

  ghost predicate Inv(w: World) {
    RelayInv(w) && LinksInv(w) && UpsInv(w) && NodesInv(w)
  }

  // ----- stability -----

  /** Nothing a connector relies on is taken back: channels, announcements, links and reads grow. */
  ghost predicate Grows(w: World, v: World) {
    && v.lx == w.lx && RI.Grows(w.relay, v.relay)
    && (forall p :: p in w.links ==>
                      p in v.links && v.links[p].node == w.links[p].node && w.links[p].read <= v.links[p].read)
  }

  /** v has heard nothing that w had not. */
  ghost predicate SameHeard(w: World, v: World, node: NodeId) {
    forall p, j: nat :: Heard(v, node, p, j) ==> Heard(w, node, p, j)
  }

  lemma HeardGrows(w: World, v: World, node: NodeId, p: R.PeerId, j: nat)
    requires Grows(w, v) && Heard(w, node, p, j)
    ensures Heard(v, node, p, j) && v.relay.peers[p].out[j] == w.relay.peers[p].out[j]
  {
  }

  lemma HeardOpenGrows(w: World, v: World, node: NodeId, id: SessionId)
    requires Grows(w, v) && HeardOpen(w, node, id)
    ensures HeardOpen(v, node, id)
  {
    var p, j: nat :| Heard(w, node, p, j) && RR.Opens(w.relay.peers[p].out[j], id);
    HeardGrows(w, v, node, p, j);
  }

  lemma HeardFrameGrows(w: World, v: World, node: NodeId, frame: Bytes)
    requires Grows(w, v) && HeardFrame(w, node, frame)
    ensures HeardFrame(v, node, frame)
  {
    var p, j: nat :| Heard(w, node, p, j) && w.relay.peers[p].out[j].Binary? && w.relay.peers[p].out[j].frame == frame;
    HeardGrows(w, v, node, p, j);
  }

  lemma OpenLastSame(w: World, v: World, node: NodeId, id: SessionId)
    requires Grows(w, v) && SameHeard(w, v, node)
    ensures OpenLast(w, node, id) <==> OpenLast(v, node, id)
  {
    forall p, j: nat
      ensures Heard(w, node, p, j) <==> Heard(v, node, p, j)
      ensures Heard(w, node, p, j) ==> v.relay.peers[p].out[j] == w.relay.peers[p].out[j]
    {
      if Heard(w, node, p, j) {
        HeardGrows(w, v, node, p, j);
      }
    }
    hide Heard, Grows, SameHeard;
    assert forall p, j: nat :: OpensLastAt(w, node, id, p, j) <==> OpensLastAt(v, node, id, p, j);
  }

  /** A connector that did not move and heard nothing new keeps its invariant. */
  lemma NodeStable(w: World, v: World, node: NodeId)
    requires Grows(w, v) && SameHeard(w, v, node)
    requires node in w.nodes && node in v.nodes && v.nodes[node] == w.nodes[node] && NodeInv(w, node)
    ensures NodeInv(v, node)
  {
    var n := v.nodes[node];
    KnowsStable(w, v, node);
    TableStable(w, v, node);
    forall i | 0 <= i < |n.handled| ensures HeardFrame(v, node, n.handled[i]) {
      HeardFrameGrows(w, v, node, n.handled[i]);
    }
  }

  lemma KnowsStable(w: World, v: World, node: NodeId)
    requires Grows(w, v) && node in w.nodes && node in v.nodes && v.nodes[node] == w.nodes[node] && Knows(w, node)
    ensures Knows(v, node)
  {
    var n := v.nodes[node];
    forall id | RR.Announced(w.relay, id) ensures RR.Announced(v.relay, id) {
      RR.AnnouncedStable(w.relay, v.relay, id);
    }
    if n.reader.Lookup? {
      HeardOpenGrows(w, v, node, n.reader.sessionId);
    }
  }

  lemma TableStable(w: World, v: World, node: NodeId)
    requires Grows(w, v) && SameHeard(w, v, node)
    requires node in w.nodes && node in v.nodes && v.nodes[node].table == w.nodes[node].table && TableInv(w, node)
    ensures TableInv(v, node)
  {
    hide OpenLast;
    forall id ensures id in v.nodes[node].table <==> OpenLast(v, node, id) {
      OpenLastSame(w, v, node, id);
    }
  }
}
