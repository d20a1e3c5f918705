/** The relay as a concurrent step system. Every connection has one goroutine; a step is one
    lock-protected store call, one send, or one read, so any two goroutines may interleave
    between any two of them. */
module RelaySystem {
  import opened Protocol
  import opened DataFrame

  /** Peers are identified with the fresh id that newID gave their connection. */
  type PeerId = nat

  datatype Role = Connector | Client

  datatype Entry = Entry(peer: PeerId, generation: int, caps: Caps)

  datatype Session = Session(id: SessionId, client: PeerId, connector: PeerId, e2ee: bool)

  /** A message on a peer's outgoing channel. A binary message carries, beside the frame,
      which peer the relay read the frame from and as that peer's how-manieth binary message. */
  datatype Message = Text(control: Control) | Binary(frame: Bytes, source: PeerId, index: nat)

  /** What a goroutine does once it has finished an error reply or a close. */
  datatype Next = ToLoop | ToCleanup

  /** The program counter of one peer's goroutine, with the locals that are live there. */
  datatype Pc =
      // handleTunnel
    | TunnelAdd(hash: Bytes, entry: Entry)
    | TunnelSet(hash: Bytes, entry: Entry)
    | TunnelClosePrevious(previous: PeerId)
      // handleClient
    | ClientAdd(hash: Bytes, e2ee: bool)
    | ClientLookup(hash: Bytes, e2ee: bool)
    | ClientInsert(entry: Entry, e2ee: bool)
    | ClientSendOk(session: Session, caps: Caps)
    | ClientSendOpen(session: Session)
      // connectorLoop and clientLoop
    | Loop
    | SendError(code: string, next: Next)
      // routeBinary, for the binary message with this index
    | RouteGet(index: nat, sessionId: SessionId)
    | RouteSend(index: nat, sessionId: SessionId, target: PeerId)
      // closeSession
    | CloseDelete(sessionId: SessionId, next: Next)
    | CloseNotifyClient(session: Session, next: Next)
    | CloseNotifyConnector(session: Session, next: Next)
      // cleanupPeer
    | CleanAuth
    | CleanSessions
    | CleanNotify(left: map<SessionId, Session>)
    | CleanHub
    | CleanConn
    | Done

  /** One connection. `open` says whether a write can still succeed. The last three fields
      are history: the binary messages read so far, the close notices that were attempted
      towards this peer, and the id of the session a client created. */
  datatype Peer = Peer(
    role: Role, pc: Pc, open: bool, out: seq<Message>,
    got: seq<Bytes>, notices: multiset<SessionId>, mine: Option<SessionId>)

  datatype Removal = ByClose(remover: PeerId) | ByCleanup(remover: PeerId)

  datatype Registration = Registration(hash: Bytes, entry: Entry)

  /** The three shared stores, the peers, and three history fields: every session ever
      inserted, how each removed session left the store, and all registrations in order. */
  datatype State = State(
    hub: set<PeerId>,
    auth: map<Bytes, Entry>,
    sessions: map<SessionId, Session>,
    peers: map<PeerId, Peer>,
    created: map<SessionId, Session>,
    removed: map<SessionId, Removal>,
    registrations: seq<Registration>)

  const Initial := State({}, map[], map[], map[], map[], map[], [])

  /** What ReadMessage may return: an error, a text message that does or does not decode
      as a control message, or a binary message. */
  datatype Input = ReadError | BadText | Control(message: Control) | Data(frame: Bytes)

  /** The schedule: who moves, and how the environment resolves what the relay cannot know.
      `Go` runs the peer's next atomic step; its id is the fresh id a client is given at
      ClientInsert, or the next removed session to announce at CleanNotify. */
  datatype Action =
    | Accept(peer: PeerId, role: Role, first: Input)
    | Break(peer: PeerId)
    | Read(peer: PeerId, input: Input)
    | Go(peer: PeerId, choice: SessionId)

  // ----- the stores' specifications (authmap.go, sessions.go) -----

  function WithoutPeer(auth: map<Bytes, Entry>, p: PeerId): map<Bytes, Entry> {
    map h | h in auth && auth[h].peer != p :: auth[h]
  }

  predicate Involves(x: Session, p: PeerId) {
    x.client == p || x.connector == p
  }

  function SessionsOf(sessions: map<SessionId, Session>, p: PeerId): map<SessionId, Session> {
    map id | id in sessions && Involves(sessions[id], p) :: sessions[id]
  }

  function SessionsWithout(sessions: map<SessionId, Session>, p: PeerId): map<SessionId, Session> {
    map id | id in sessions && !Involves(sessions[id], p) :: sessions[id]
  }

  // ----- one atomic access to shared state -----

  /** Everything one atomic step of a goroutine may touch besides its own program counter. */
  datatype Access =
    | Observe
    | Receive(frame: Bytes)
    | HubAdd
    | HubRemove
    | AuthSet(hash: Bytes, entry: Entry)
    | AuthDeleteByPeer
    | SessionSet(session: Session)
    | SessionDelete(session: Session)
    | SessionDeleteByPeer
    | SendTo(target: PeerId, message: Message)
    | Notify(target: PeerId, id: SessionId)
    | CloseConn(target: PeerId)

  predicate Sendable(s: State, q: PeerId) {
    q in s.peers && s.peers[q].open
  }

  /** A send appends to the channel, or fails when the connection is no longer open. */
  function Write(q: Peer, m: Message): Peer {
    if q.open then q.(out := q.out + [m]) else q
  }

  /** An attempt to tell q that a session is closed; its result is ignored. */
  function Notice(q: Peer, id: SessionId): Peer {
    Write(q, Text(CloseSession(id))).(notices := q.notices + multiset{id})
  }

  /** The peer whose record an access may change. */
  function Touched(p: PeerId, access: Access): PeerId {
    match access
    case SendTo(q, _) => q
    case Notify(q, _) => q
    case CloseConn(q) => q
    case _ => p
  }

  /** What becomes of that record. */
  function PeerAfter(q: Peer, access: Access): Peer {
    match access
    case Receive(frame) => q.(got := q.got + [frame])
    case SessionSet(x) => q.(mine := Some(x.id))
    case SendTo(_, m) => Write(q, m)
    case Notify(_, id) => Notice(q, id)
    case CloseConn(_) => q.(open := false)
    case _ => q
  }

  function PeersAfter(peers: map<PeerId, Peer>, q: PeerId, access: Access): map<PeerId, Peer> {
    if q in peers then peers[q := PeerAfter(peers[q], access)] else peers
  }

  function Apply(s: State, p: PeerId, access: Access): State {
    match access
    case Observe => s
    case HubAdd => s.(hub := s.hub + {p})
    case HubRemove => s.(hub := s.hub - {p})
    case AuthSet(hash, entry) =>
      s.(auth := s.auth[hash := entry], registrations := s.registrations + [Registration(hash, entry)])
    case AuthDeleteByPeer => s.(auth := WithoutPeer(s.auth, p))
    case SessionSet(x) =>
      s.(sessions := s.sessions[x.id := x], created := s.created[x.id := x],
      peers := PeersAfter(s.peers, p, access))
    case SessionDelete(x) => s.(sessions := s.sessions - {x.id}, removed := s.removed[x.id := ByClose(p)])
    case SessionDeleteByPeer =>
      s.(sessions := SessionsWithout(s.sessions, p),
      removed := s.removed + map id | id in SessionsOf(s.sessions, p) :: ByCleanup(p))
    case _ => s.(peers := PeersAfter(s.peers, Touched(p, access), access))
  }

  // ----- the goroutines -----

  /** One atomic step: the access, and where the goroutine is afterwards. */
  datatype Move = Move(access: Access, pc: Pc)

  function Goto(s: State, p: PeerId, pc: Pc): State
    requires p in s.peers
  {
    s.(peers := s.peers[p := s.peers[p].(pc := pc)])
  }

  function Perform(s: State, p: PeerId, m: Move): State
    requires p in s.peers
  {
    Goto(Apply(s, p, m.access), p, m.pc)
  }

  function Resume(next: Next): Pc {
    match next
    case ToLoop => Loop
    case ToCleanup => CleanAuth
  }

  /** The endpoint of a session that is not p: Go's `other` in cleanupPeer. */
  function OtherEnd(x: Session, p: PeerId): PeerId {
    if x.client == p then x.connector else x.client
  }

  /** The handshake up to NewPeer: only a well-formed first message creates a peer. */
  function FirstPc(p: PeerId, role: Role, first: Input): Option<Pc> {
    match (role, first)
    case (Connector, Control(Register(hash, generation, caps))) =>
      if hash == [] then None
      else Some(TunnelAdd(hash, Entry(p, generation, if caps.Some? then caps.value else Caps(false))))
    case (Client, Control(Connect(code, hash, e2ee))) =>
      if code == [] then None else Some(ClientAdd(hash, e2ee))
    case _ => None
  }

  /** handleControl */
  function OnControl(message: Control): Pc {
    if message.Heartbeat? then Loop
    else if message.CloseSession? && message.sessionId != [] then CloseDelete(message.sessionId, ToLoop)
    else SendError("UNSUPPORTED_CONTROL", ToLoop)
  }

  /** One iteration of connectorLoop or clientLoop up to its first shared access. */
  function OnRead(me: Peer, input: Input): Move {
    match input
    case ReadError => Move(Observe, CleanAuth)
    case BadText => Move(Observe, SendError("BAD_CONTROL", ToLoop))
    case Control(message) => Move(Observe, OnControl(message))
    case Data(frame) =>
      var parsed := ParseDataFrame(frame);
      Move(Receive(frame), if parsed.Err? then SendError("BAD_DATA_FRAME", ToLoop)
           else RouteGet(|me.got|, parsed.value.sessionId))
  }

  /** An id newID may return: long enough to frame, and never used before. */
  predicate FreshId(s: State, id: SessionId) {
    1 <= |id| <= 255 && id !in s.created
  }

  /** p's next atomic step, if it has one. Loop waits for a read; Done has finished. */
  function Step(s: State, p: PeerId, choice: SessionId): Option<Move>
    requires p in s.peers
  {
    var me := s.peers[p];
    match me.pc
    // handleTunnel
    case TunnelAdd(hash, entry) => Some(Move(HubAdd, TunnelSet(hash, entry)))
    case TunnelSet(hash, entry) =>
      var replaced := hash in s.auth && s.auth[hash].peer != p;
      Some(Move(AuthSet(hash, entry), if replaced then TunnelClosePrevious(s.auth[hash].peer) else Loop))
    case TunnelClosePrevious(previous) => Some(Move(CloseConn(previous), Loop))
    // handleClient
    case ClientAdd(hash, e2ee) => Some(Move(HubAdd, ClientLookup(hash, e2ee)))
    case ClientLookup(hash, e2ee) =>
      Some(Move(Observe, if hash in s.auth then ClientInsert(s.auth[hash], e2ee)
                else SendError("CONNECTOR_NOT_FOUND", ToCleanup)))
    case ClientInsert(entry, e2ee) =>
      if !FreshId(s, choice) then None
      else
        var x := Session(choice, p, entry.peer, e2ee);
        Some(Move(SessionSet(x), ClientSendOk(x, entry.caps)))
    case ClientSendOk(x, caps) =>
      Some(Move(SendTo(p, Text(ConnectOk(x.id, Some(caps)))),
                if Sendable(s, p) then ClientSendOpen(x) else CloseDelete(x.id, ToCleanup)))
    case ClientSendOpen(x) =>
      Some(Move(SendTo(x.connector, Text(SessionOpen(x.id, x.e2ee))),
                if Sendable(s, x.connector) then Loop else CloseDelete(x.id, ToCleanup)))
    // sendError
    case SendError(code, next) => Some(Move(SendTo(p, Text(Error(code))), Resume(next)))
    // routeBinary
    case RouteGet(index, id) =>
      Some(Move(Observe,
                if id !in s.sessions then SendError("SESSION_NOT_FOUND", ToLoop)
                else if p == s.sessions[id].client then RouteSend(index, id, s.sessions[id].connector)
                else if p == s.sessions[id].connector then RouteSend(index, id, s.sessions[id].client)
                else SendError("SESSION_PEER_MISMATCH", ToLoop)))
    case RouteSend(index, id, target) =>
      if index >= |me.got| then None
      else Some(Move(SendTo(target, Binary(me.got[index], p, index)),
                     if Sendable(s, target) then Loop else CloseDelete(id, ToLoop)))
    // closeSession
    case CloseDelete(id, next) =>
      Some(if id in s.sessions then Move(SessionDelete(s.sessions[id]), CloseNotifyClient(s.sessions[id], next))
           else Move(Observe, Resume(next)))
    case CloseNotifyClient(x, next) => Some(Move(Notify(x.client, x.id), CloseNotifyConnector(x, next)))
    case CloseNotifyConnector(x, next) => Some(Move(Notify(x.connector, x.id), Resume(next)))
    // cleanupPeer
    case CleanAuth => Some(Move(AuthDeleteByPeer, CleanSessions))
    case CleanSessions => Some(Move(SessionDeleteByPeer, CleanNotify(SessionsOf(s.sessions, p))))
    case CleanNotify(left) =>
      if left == map[] then Some(Move(Observe, CleanHub))
      else if choice !in left then None
      else Some(Move(Notify(OtherEnd(left[choice], p), choice), CleanNotify(left - {choice})))
    case CleanHub => Some(Move(HubRemove, CleanConn))
    case CleanConn => Some(Move(CloseConn(p), Done))
    case Loop => None
    case Done => None
  }

  /** A new connection that passed the handshake. */
  function Join(s: State, p: PeerId, role: Role, pc: Pc): State {
    s.(peers := s.peers[p := Peer(role, pc, true, [], [], multiset{}, None)])
  }

  /** The move an action makes for an existing peer. A broken link moves no goroutine. */
  function MoveOf(s: State, a: Action): Option<Move> {
    if a.Accept? || a.peer !in s.peers then None
    else
      var me := s.peers[a.peer];
      match a
      case Break(p) => Some(Move(CloseConn(p), me.pc))
      case Read(p, input) => if me.pc.Loop? then Some(OnRead(me, input)) else None
      case Go(p, choice) => Step(s, p, choice)
  }

  /** An action that is not enabled leaves the state as it is. */
  function Exec(s: State, a: Action): State {
    if a.Accept? then
      var pc := FirstPc(a.peer, a.role, a.first);
      if a.peer in s.peers || pc.None? then s else Join(s, a.peer, a.role, pc.value)
    else
      var move := MoveOf(s, a);
      if move.Some? then Perform(s, a.peer, move.value) else s
  }

  function Run(s: State, actions: seq<Action>): State
    decreases |actions|
  {
    if actions == [] then s
    else Exec(Run(s, actions[..|actions| - 1]), actions[|actions| - 1])
  }

  /** The state the whole system has reached after the first n actions of a schedule. */
  function After(actions: seq<Action>, n: nat): State
    requires n <= |actions|
  {
    Run(Initial, actions[..n])
  }
}
