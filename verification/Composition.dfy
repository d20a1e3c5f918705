/** The relay, the connectors attached to it, and the ordered links between them. */
module Composition {
  import opened Protocol
  import opened DataFrame
  import opened Events
  import R = RelaySystem
  import C = ConnectorSystem

  type NodeId = nat

  /** A frame a connector has written to its link, and the SendData call it came from. */
  datatype Up = Up(frame: Bytes, outgoing: C.Outgoing)

  /** One relay connection of a connector: how much of the relay's channel it has read, what it
      has written, and how much of that the relay has read. */
  datatype Link = Link(node: NodeId, read: nat, up: seq<Up>, taken: nat)

  /** `conns` is each connector's current connection; a connector keeps its state when it
      reconnects, while the relay sees a new peer. `lx` is what the connectors' library does. */
  datatype World = World(
    lx: Lexicon, relay: R.State, nodes: map<NodeId, C.Node>, conns: map<NodeId, R.PeerId>, links: map<R.PeerId, Link>)

  function Empty(lx: Lexicon): World {
    World(lx, R.Initial, map[], map[], map[])
  }

  /** The schedule. Every connector is a bridge, so a connector's DATA frames reach the relay
      only through Uplink; everything else a peer may send is arbitrary. */
  datatype Action =
    | OfRelay(relayAction: R.Action)
    | Uplink(peer: R.PeerId)
    | Launch(node: NodeId)
    | Attach(node: NodeId, peer: R.PeerId)
    | Detach(node: NodeId)
    | Downlink(node: NodeId)
    | OfNode(node: NodeId, nodeAction: C.Action, ok: bool)

  predicate IsConnector(s: R.State, p: R.PeerId) {
    p in s.peers && s.peers[p].role == R.Connector
  }

  predicate Allowed(s: R.State, a: R.Action) {
    !(a.Read? && a.input.Data? && IsConnector(s, a.peer))
  }

  /** What the connector's read loop makes of a message on its channel. */
  function DeliveryOf(m: R.Message): Option<C.Delivery> {
    match m
    case Binary(frame, _, _) => Some(C.Frame(frame))
    case Text(SessionOpen(id, _)) => Some(C.SessionOpened(id))
    case Text(CloseSession(id)) => Some(C.SessionClosed(id))
    case Text(_) => None
  }

  predicate Readable(w: World, node: NodeId) {
    && node in w.nodes && w.nodes[node].reader.Idle?
    && node in w.conns && w.conns[node] in w.links && w.conns[node] in w.relay.peers
    && w.links[w.conns[node]].read < |w.relay.peers[w.conns[node]].out|
  }

  function OnDownlink(w: World, node: NodeId): World
    requires Readable(w, node)
  {
    var p := w.conns[node];
    var link := w.links[p];
    var d := DeliveryOf(w.relay.peers[p].out[link.read]);
    var n := if d.Some? then C.Exec(w.lx, w.nodes[node], C.Deliver(d.value)) else w.nodes[node];
    w.(nodes := w.nodes[node := n], links := w.links[p := link.(read := link.read + 1)])
  }

  /** sendEvent and SendData: encode the event, build the frame and write it to the current connection,
      if there is one. */
  function SendData(w: World, node: NodeId, o: C.Outgoing, ok: bool): World {
    if ok && node in w.conns && w.conns[node] in w.links && 1 <= |o.sessionId| <= 255 then
      var p := w.conns[node];
      var up := Up(Layout(Parsed(o.sessionId, o.flags, w.lx.encode(o.event))), o);
      w.(links := w.links[p := w.links[p].(up := w.links[p].up + [up])])
    else w
  }

  function OnNode(w: World, node: NodeId, a: C.Action, ok: bool): World
    requires node in w.nodes
  {
    var n := w.nodes[node];
    var o := C.Output(w.lx, n, a);
    var w' := w.(nodes := w.nodes[node := C.Exec(w.lx, n, a)]);
    if o.Some? then SendData(w', node, o.value, ok) else w'
  }

  function Exec(w: World, a: Action): World {
    match a
    case OfRelay(ra) => if Allowed(w.relay, ra) then w.(relay := R.Exec(w.relay, ra)) else w
    case Uplink(p) =>
      if p in w.links && p in w.relay.peers && w.relay.peers[p].pc.Loop? && w.links[p].taken < |w.links[p].up| then
        w.(relay := R.Exec(w.relay, R.Read(p, R.Data(w.links[p].up[w.links[p].taken].frame))),
        links := w.links[p := w.links[p].(taken := w.links[p].taken + 1)])
      else w
    case Launch(node) => if node in w.nodes then w else w.(nodes := w.nodes[node := C.Start])
    case Attach(node, p) =>
      if node in w.nodes && w.nodes[node].reader.Idle? && IsConnector(w.relay, p) && p !in w.links then
        w.(conns := w.conns[node := p], links := w.links[p := Link(node, 0, [], 0)])
      else w
    case Detach(node) =>
      if node in w.nodes && w.nodes[node].reader.Idle? then w.(conns := w.conns - {node}) else w
    case Downlink(node) => if Readable(w, node) then OnDownlink(w, node) else w
    case OfNode(node, na, ok) =>
      if node in w.nodes && !na.Deliver? then OnNode(w, node, na, ok) else w
  }

  function Run(lx: Lexicon, actions: seq<Action>): World
    decreases |actions|
  {
    if actions == [] then Empty(lx)
    else Exec(Run(lx, actions[..|actions| - 1]), actions[|actions| - 1])
  }
}
