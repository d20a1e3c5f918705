/** End-to-end facts about every run of relay, links, connectors and clients together: ordering
    and isolation that no component can guarantee alone. */
module CompositionTheorems {
  import opened Protocol
  import opened DataFrame
  import opened Events
  import R = RelaySystem
  import RI = RelayInvariants
  import RR = RelayRouting
  import RT = RelayTheorems
  import RO = RelayOrdering
  import C = ConnectorSystem
  import CI = ConnectorInvariants
  import CC = ConnectorContent
  import opened Composition
  import opened CompositionInvariants
  import opened CompositionSteps
  import Cli

  lemma EmptyInv(lx: Lexicon)
    ensures Inv(Empty(lx))
  {
    RT.InitialInv();
  }

  lemma SameLexicon(w: World, a: Action)
    ensures Exec(w, a).lx == w.lx
  {
    hide R.Exec, C.Exec, C.Output;
  }

  lemma {:induction false} RunInv(lx: Lexicon, actions: seq<Action>)
    ensures Inv(Run(lx, actions)) && Run(lx, actions).lx == lx
    decreases |actions|
  {
    hide Inv, Exec;
    if actions == [] {
      EmptyInv(lx);
    } else {
      RunInv(lx, actions[..|actions| - 1]);
      SameLexicon(Run(lx, actions[..|actions| - 1]), actions[|actions| - 1]);
      ExecInv(Run(lx, actions[..|actions| - 1]), actions[|actions| - 1]);
    }
  }

  /** In every run a connector's table holds exactly the sessions about which the last message it has
      read is SESSION_OPEN, whatever is in the relay's store. */
  lemma TableFollowsChannel(lx: Lexicon, actions: seq<Action>, node: NodeId, id: SessionId)
    requires node in Run(lx, actions).nodes
    ensures id in Run(lx, actions).nodes[node].table <==> OpenLast(Run(lx, actions), node, id)
  {
    hide Run, Exec, OpenLast;
    RunInv(lx, actions);
    assert NodeInv(Run(lx, actions), node);
  }

  /** When the bridge is about to answer SESSION_NOT_OPEN to a routed frame, CLOSE_SESSION for that
      session has been delivered to the connector, after SESSION_OPEN for it. */
  lemma NotOpenOnlyAfterClose(lx: Lexicon, actions: seq<Action>, node: NodeId)
    requires var w := Run(lx, actions);
             && node in w.nodes && w.nodes[node].reader.Lookup?
             && w.nodes[node].reader.sessionId !in w.nodes[node].table
    ensures var w := Run(lx, actions);
            var id := w.nodes[node].reader.sessionId;
            exists p, j: nat, i: nat :: j < i && HeardOpenThenClose(w, node, id, p, j, i)
  {
    hide Run, Exec;
    RunInv(lx, actions);
    var w := Run(lx, actions);
    assert NodeInv(w, node);
    var id := w.nodes[node].reader.sessionId;
    var p, j: nat :| Heard(w, node, p, j) && RR.Opens(w.relay.peers[p].out[j], id);
    assert !OpenLast(w, node, id) && !OpensLastAt(w, node, id, p, j);
    var i: nat :| j < i && Heard(w, node, p, i) && RR.Closes(w.relay.peers[p].out[i], id);
    assert HeardOpenThenClose(w, node, id, p, j, i);
  }

  ghost predicate HeardOpenThenClose(w: World, node: NodeId, id: SessionId, p: R.PeerId, j: nat, i: nat) {
    && Heard(w, node, p, j) && RR.Opens(w.relay.peers[p].out[j], id)
    && Heard(w, node, p, i) && RR.Closes(w.relay.peers[p].out[i], id)
  }

  /** On a client's channel CONNECT_OK for the session precedes every one of its frames. */
  lemma OkPrecedesData(lx: Lexicon, actions: seq<Action>, c: R.PeerId, j: nat, id: SessionId)
    requires var s := Run(lx, actions).relay;
             && c in s.peers && s.peers[c].role == R.Client
             && j < |s.peers[c].out| && RR.Carries(s.peers[c].out[j], id)
    ensures RR.ConfirmedBefore(Run(lx, actions).relay.peers[c].out, j, id)
  {
    hide Run, Exec;
    RunInv(lx, actions);
    assert RO.Sound(Run(lx, actions).relay, c);
  }

  /** What a step of a connector asks its link to carry is written to its current connection, as a frame that
      parses to it; and nothing is written to any other link, or for an id that cannot be framed. */
  lemma SendsAreWritten(w: World, node: NodeId, a: C.Action, ok: bool, p: R.PeerId)
    requires node in w.nodes && !a.Deliver? && p in w.links
    ensures var v, o := Exec(w, OfNode(node, a, ok)), C.Output(w.lx, w.nodes[node], a);
            && p in v.links
            && if o.Some? && ok && node in w.conns && w.conns[node] == p && 1 <= |o.value.sessionId| <= 255 then
                 && |v.links[p].up| == |w.links[p].up| + 1 && w.links[p].up <= v.links[p].up
                 && var up := v.links[p].up[|w.links[p].up|];
                 && up.outgoing == o.value
                 && ParseDataFrame(up.frame)
                    == Ok(Parsed(o.value.sessionId, o.value.flags, w.lx.encode(o.value.event)))
               else v.links[p].up == w.links[p].up
  {
    hide C.Exec, C.Output, Layout, ParseDataFrame;
    var o := C.Output(w.lx, w.nodes[node], a);
    if o.Some? && 1 <= |o.value.sessionId| <= 255 {
      ParseAfterBuild(Parsed(o.value.sessionId, o.value.flags, w.lx.encode(o.value.event)));
    }
  }

  /** What a connector reads from its channel is delivered to it: a frame, an opened or a closed session. Other
      messages are passed over, and each message is read once. */
  lemma ReadsAreDelivered(w: World, node: NodeId)
    requires Readable(w, node)
    ensures var v, p := Exec(w, Downlink(node)), w.conns[node];
            && node in v.nodes && p in v.links && v.links[p] == w.links[p].(read := w.links[p].read + 1)
            && var n := w.nodes[node];
            v.nodes[node] == match w.relay.peers[p].out[w.links[p].read]
                             case Binary(frame, _, _) => C.Exec(w.lx, n, C.Deliver(C.Frame(frame)))
                             case Text(SessionOpen(id, _)) => C.Exec(w.lx, n, C.Deliver(C.SessionOpened(id)))
                             case Text(CloseSession(id)) => C.Exec(w.lx, n, C.Deliver(C.SessionClosed(id)))
                             case Text(_) => n
  {
    hide C.Exec;
  }

  function AsInput(m: R.Message): R.Input {
    match m
    case Text(control) => R.Control(control)
    case Binary(frame, _, _) => R.Data(frame)
  }

  /** The binary frames that waitConnectOK skips never belong to the session it returns, which is
      the client's own. */
  lemma SkippedFramesAreForeign(lx: Lexicon, actions: seq<Action>, c: R.PeerId, n: nat, id: SessionId)
    requires var s := Run(lx, actions).relay;
             && c in s.peers && s.peers[c].role == R.Client && 0 < n <= |s.peers[c].out|
             && RR.Confirms(s.peers[c].out[n - 1], id)
             && forall i :: 0 <= i < n - 1 ==> !Cli.IsOk(AsInput(s.peers[c].out[i]))
    ensures var s := Run(lx, actions).relay;
            && s.peers[c].mine == Some(id)
            && forall i :: 0 <= i < n ==> !RR.Carries(s.peers[c].out[i], id)
  {
    hide Run, Exec, NodesInv, LinksInv, UpsInv;
    var s := Run(lx, actions).relay;
    RunInv(lx, actions);
    var out := s.peers[c].out;
    assert RR.MessageInv(s, c, out[n - 1]) && RI.Joined(s, id);
    forall k | 0 <= k < n - 1 ensures !RR.Confirms(out[k], id) {
      assert !Cli.IsOk(AsInput(out[k]));
    }
    forall i | 0 <= i < n ensures !RR.Carries(out[i], id) {
      if RR.Carries(out[i], id) {
        OkPrecedesData(lx, actions, c, i, id);
        assert false;
      }
    }
  }

  /** A frame on a client's channel was built by a connector: it parses to the session id, the flags and
      the encoded event of that connector's sendEvent call, and the session is the client's own. */
  lemma ClientFramesComeFromConnector(lx: Lexicon, actions: seq<Action>, c: R.PeerId, j: nat)
    requires var s := Run(lx, actions).relay;
             c in s.peers && s.peers[c].role == R.Client && j < |s.peers[c].out| && s.peers[c].out[j].Binary?
    ensures var w := Run(lx, actions);
            var m := w.relay.peers[c].out[j];
            && m.source in w.links && m.index < w.links[m.source].taken <= |w.links[m.source].up|
            && var up := w.links[m.source].up[m.index];
            && up.frame == m.frame
            && ParseDataFrame(m.frame)
               == Ok(Parsed(up.outgoing.sessionId, up.outgoing.flags, lx.encode(up.outgoing.event)))
            && w.relay.peers[c].mine == Some(up.outgoing.sessionId)
  {
    hide Run, Exec, NodesInv;
    var w := Run(lx, actions);
    RunInv(lx, actions);
    var m := w.relay.peers[c].out[j];
    assert RR.MessageInv(w.relay, c, m);
    assert RI.Joined(w.relay, ParseDataFrame(m.frame).value.sessionId);
    assert m.source in w.links ==> LinkInv(w, m.source);
    assert m.source in w.links && m.index < |w.links[m.source].up| ==> UpInv(w, m.source, m.index);
  }

  /** What a client's readLoop takes from such a frame is the very event that the connector emitted, if the
      event encoding can be read back. */
  lemma ClientDecodesWhatWasEmitted(lx: Lexicon, actions: seq<Action>, c: R.PeerId, j: nat)
    requires var s := Run(lx, actions).relay;
             c in s.peers && s.peers[c].role == R.Client && j < |s.peers[c].out| && s.peers[c].out[j].Binary?
    ensures var w := Run(lx, actions);
            var m := w.relay.peers[c].out[j];
            && m.source in w.links && m.index < |w.links[m.source].up|
            && var o := w.links[m.source].up[m.index].outgoing;
            lx.decode(lx.encode(o.event)) == Some(o.event) ==>
              Cli.EventFor(AsInput(m), o.sessionId, lx.decode) == Some(o.event)
  {
    hide Run, Exec, Inv, ParseDataFrame;
    ClientFramesComeFromConnector(lx, actions, c, j);
  }

  /** A handled frame was sent by the client of the session it names. */
  lemma HandledComesFromClient(w: World, node: NodeId, frame: Bytes, id: SessionId, c: R.PeerId)
    requires Inv(w) && node in w.nodes && HeardFrame(w, node, frame) && CI.FrameOf(frame, id)
    requires c in w.relay.peers && w.relay.peers[c].role == R.Client && w.relay.peers[c].mine == Some(id)
    ensures frame in w.relay.peers[c].got
  {
    var p, j: nat :| Heard(w, node, p, j) && w.relay.peers[p].out[j].Binary? && w.relay.peers[p].out[j].frame == frame;
    assert LinkInv(w, p);
    assert RR.MessageInv(w.relay, p, w.relay.peers[p].out[j]);
    assert RI.Owner(w.relay, c) && RI.Joined(w.relay, id);
  }

  lemma OriginOf(n: C.Node, r: C.RequestId)
    requires CI.Inv(n) && r in n.tracked
    ensures CI.Origin(n, r)
  {
  }

  /** End-to-end correlation. When a frame that a response to request r caused reaches a client,
      r belongs to that client's session, the DATA frame that made the connector send r to the gateway
      is one that this very client sent, and r asks for an agent run with the trimmed text if the event in that
      frame is a user message, and to abort if it is a stop. */
  lemma ResponseReachesAsker(lx: Lexicon, actions: seq<Action>, c: R.PeerId, j: nat, r: C.RequestId)
    requires var w := Run(lx, actions);
             && c in w.relay.peers && w.relay.peers[c].role == R.Client
             && j < |w.relay.peers[c].out| && w.relay.peers[c].out[j].Binary?
             && var m := w.relay.peers[c].out[j];
             && m.source in w.links && m.index < |w.links[m.source].up|
             && w.links[m.source].up[m.index].outgoing.cause == Some(r)
    ensures var w := Run(lx, actions);
            var node := w.links[w.relay.peers[c].out[j].source].node;
            && node in w.nodes && r in w.nodes[node].tracked
            && w.relay.peers[c].mine == Some(w.nodes[node].tracked[r].sessionId)
            && 1 <= w.nodes[node].tracked[r].ordinal <= |w.nodes[node].handled|
            && var frame := w.nodes[node].handled[w.nodes[node].tracked[r].ordinal - 1];
            frame in w.relay.peers[c].got && CC.AskedBy(lx, frame, w.nodes[node].tracked[r].ask)
  {
    hide Run, RT.Inv, CI.Inv, RO.HonestInv, RI.Grows, CC.FrameAsk, CC.ReaderFaithful, ParseDataFrame;
    var w := Run(lx, actions);
    RunInv(lx, actions);
    ClientFramesComeFromConnector(lx, actions, c, j);
    var m := w.relay.peers[c].out[j];
    var node := w.links[m.source].node;
    assert LinkInv(w, m.source) && UpInv(w, m.source, m.index) && NodeInv(w, node);
    var n := w.nodes[node];
    OriginOf(n, r);
    assert CC.Asks(lx, n, r);
    HandledComesFromClient(w, node, n.handled[n.tracked[r].ordinal - 1], n.tracked[r].sessionId, c);
    CC.FrameAsksFor(lx, n.handled[n.tracked[r].ordinal - 1], n.tracked[r].ask);
  }
}
