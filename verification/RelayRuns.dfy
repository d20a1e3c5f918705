/** Concrete runs of the relay: the race between a connect and a disconnect, and a session that is
    closed while it is being opened. */
module RelayRuns {
  import opened Protocol
  import opened RelaySystem
  import opened RelayInvariants
  import opened RelayLifecycle
  import opened RelayRouting
  import opened RelayTheorems
  import opened RelayRefinement
  import opened RelayClosing
  import opened RelayLimits
  import Race = RelayRace

  // ----- runs in pieces -----

  /** The states along a run. */
  ghost predicate Path(states: seq<State>, actions: seq<Action>) {
    && |states| == |actions| + 1
    && forall i {:trigger Exec(states[i], actions[i])} ::
         0 <= i < |actions| ==> states[i + 1] == Exec(states[i], actions[i])
  }

  lemma {:induction false} PathRuns(states: seq<State>, actions: seq<Action>, k: nat)
    requires Path(states, actions) && k <= |actions|
    ensures Run(states[0], actions[..k]) == states[k]
  {
    hide Exec;
    if k > 0 {
      PathRuns(states, actions, k - 1);
      assert actions[..k][..k - 1] == actions[..k - 1];
      var _ := Exec(states[k - 1], actions[k - 1]);
    }
  }

  // ----- a connector registers -----

  function NewPeer(role: Role, pc: Pc): Peer {
    Peer(role, pc, true, [], [], multiset{}, None)
  }

  function EntryOf(k: PeerId): Entry {
    Entry(k, 1, Caps(false))
  }

  function Register(k: PeerId, hash: Bytes): seq<Action> {
    [Accept(k, Connector, Input.Control(Control.Register(hash, 1, None))), Go(k, []), Go(k, [])]
  }

  function Registered(s: State, k: PeerId, hash: Bytes): State {
    s.(hub := s.hub + {k}, auth := s.auth[hash := EntryOf(k)],
    registrations := s.registrations + [Registration(hash, EntryOf(k))],
    peers := s.peers[k := NewPeer(Connector, Loop)])
  }

  function Joining(s: State, p: PeerId, peer: Peer): State {
    s.(peers := s.peers[p := peer])
  }

  lemma JoinRegisters(s: State, k: PeerId, hash: Bytes)
    requires k !in s.peers && hash != []
    ensures Exec(s, Register(k, hash)[0]) == Joining(s, k, NewPeer(Connector, TunnelAdd(hash, EntryOf(k))))
  {
  }

  lemma AddStep(s: State, p: PeerId, role: Role, pc: Pc, next: Pc)
    requires Step(Joining(s, p, NewPeer(role, pc)), p, []) == Some(Move(HubAdd, next))
    ensures Exec(Joining(s, p, NewPeer(role, pc)), Go(p, []))
         == Joining(s.(hub := s.hub + {p}), p, NewPeer(role, next))
  {
    hide Step;
  }

  lemma SetStep(s: State, k: PeerId, hash: Bytes)
    requires hash !in s.auth
    ensures Exec(Joining(s.(hub := s.hub + {k}), k, NewPeer(Connector, TunnelSet(hash, EntryOf(k)))), Go(k, []))
         == Registered(s, k, hash)
  {
  }

  lemma RegisterRuns(s: State, k: PeerId, hash: Bytes)
    requires k !in s.peers && hash != [] && hash !in s.auth
    ensures Run(s, Register(k, hash)) == Registered(s, k, hash)
  {
    hide Exec, Run;
    var joined := Joining(s, k, NewPeer(Connector, TunnelAdd(hash, EntryOf(k))));
    var added := Joining(s.(hub := s.hub + {k}), k, NewPeer(Connector, TunnelSet(hash, EntryOf(k))));
    JoinRegisters(s, k, hash);
    AddStep(s, k, Connector, TunnelAdd(hash, EntryOf(k)), TunnelSet(hash, EntryOf(k)));
    SetStep(s, k, hash);
    var path := [s, joined, added, Registered(s, k, hash)];
    assert Path(path, Register(k, hash));
    PathRuns(path, Register(k, hash), 3);
    assert Register(k, hash)[..3] == Register(k, hash);
  }

  // ----- a client connects -----

  /** The client has found its connector, and not yet inserted the session. */
  function LookUp(c: PeerId, code: Bytes, hash: Bytes): seq<Action> {
    [Accept(c, Client, Input.Control(Connect(code, hash, false))), Go(c, []), Go(c, [])]
  }

  function LookedUp(s: State, c: PeerId, entry: Entry): State {
    s.(hub := s.hub + {c}, peers := s.peers[c := NewPeer(Client, ClientInsert(entry, false))])
  }

  lemma JoinLooksUp(s: State, c: PeerId, code: Bytes, hash: Bytes)
    requires c !in s.peers && code != []
    ensures Exec(s, LookUp(c, code, hash)[0]) == Joining(s, c, NewPeer(Client, ClientAdd(hash, false)))
  {
  }

  lemma FindStep(s: State, c: PeerId, hash: Bytes)
    requires hash in s.auth
    ensures Exec(Joining(s.(hub := s.hub + {c}), c, NewPeer(Client, ClientLookup(hash, false))), Go(c, []))
         == LookedUp(s, c, s.auth[hash])
  {
  }

  lemma LookUpRuns(s: State, c: PeerId, code: Bytes, hash: Bytes)
    requires c !in s.peers && code != [] && hash in s.auth
    ensures Run(s, LookUp(c, code, hash)) == LookedUp(s, c, s.auth[hash])
  {
    hide Exec, Run;
    var joined := Joining(s, c, NewPeer(Client, ClientAdd(hash, false)));
    var added := Joining(s.(hub := s.hub + {c}), c, NewPeer(Client, ClientLookup(hash, false)));
    JoinLooksUp(s, c, code, hash);
    AddStep(s, c, Client, ClientAdd(hash, false), ClientLookup(hash, false));
    FindStep(s, c, hash);
    var path := [s, joined, added, LookedUp(s, c, s.auth[hash])];
    assert Path(path, LookUp(c, code, hash));
    PathRuns(path, LookUp(c, code, hash), 3);
    assert LookUp(c, code, hash)[..3] == LookUp(c, code, hash);
  }

  function SessionFor(c: PeerId, id: SessionId, entry: Entry): Session {
    Session(id, c, entry.peer, false)
  }

  lemma InsertStep(s: State, c: PeerId, entry: Entry, id: SessionId)
    requires c in s.peers && s.peers[c].pc == ClientInsert(entry, false) && FreshId(s, id)
    ensures var x := SessionFor(c, id, entry);
            Exec(s, Go(c, id))
            == s.(sessions := s.sessions[id := x], created := s.created[id := x],
            peers := s.peers[c := s.peers[c].(mine := Some(id), pc := ClientSendOk(x, entry.caps))])
  {
  }

  lemma ConfirmStep(s: State, c: PeerId, x: Session, caps: Caps)
    requires c in s.peers && s.peers[c].pc == ClientSendOk(x, caps) && s.peers[c].open
    ensures Exec(s, Go(c, []))
         == s.(peers := s.peers[c := s.peers[c].(out := s.peers[c].out + [Text(ConnectOk(x.id, Some(caps)))],
            pc := ClientSendOpen(x))])
  {
  }

  // ----- the connector goes away between the lookup and the insertion -----

  /** The connector's connection fails; its cleanup deletes its registration and its sessions. */
  function Leave(k: PeerId): seq<Action> {
    [Read(k, ReadError), Go(k, []), Go(k, [])]
  }

  lemma FailStep(s: State, k: PeerId)
    requires k in s.peers && s.peers[k].pc.Loop?
    ensures Exec(s, Read(k, ReadError)) == Joining(s, k, s.peers[k].(pc := CleanAuth))
  {
  }

  lemma GoStep(s: State, p: PeerId, choice: SessionId, m: Move)
    requires p in s.peers && Step(s, p, choice) == Some(m)
    ensures Exec(s, Go(p, choice)) == Perform(s, p, m)
  {
    hide Step, Apply;
  }

  lemma UnregisterStep(s: State, k: PeerId, me: Peer)
    requires me.pc.CleanAuth?
    ensures Exec(Joining(s, k, me), Go(k, []))
         == Joining(s.(auth := WithoutPeer(s.auth, k)), k, me.(pc := CleanSessions))
  {
    hide Exec;
    GoStep(Joining(s, k, me), k, [], Move(AuthDeleteByPeer, CleanSessions));
  }

  lemma DropStep(s: State, k: PeerId, me: Peer)
    requires me.pc.CleanSessions? && SessionsOf(s.sessions, k) == map[]
    ensures var t := Exec(Joining(s, k, me), Go(k, []));
            && t.peers == s.peers[k := me.(pc := CleanNotify(map[]))]
            && t.created == s.created && t.sessions == SessionsWithout(s.sessions, k)
  {
    hide Exec, SessionsWithout, SessionsOf;
    GoStep(Joining(s, k, me), k, [], Move(SessionDeleteByPeer, CleanNotify(map[])));
  }

  lemma LeaveRuns(s: State, k: PeerId)
    requires k in s.peers && s.peers[k].pc.Loop? && SessionsOf(s.sessions, k) == map[]
    ensures var t := Run(s, Leave(k));
            && t.peers == s.peers[k := s.peers[k].(pc := CleanNotify(map[]))]
            && t.created == s.created && t.sessions == SessionsWithout(s.sessions, k)
  {
    hide Exec, Run;
    var me := s.peers[k];
    var unregistered := Joining(s.(auth := WithoutPeer(s.auth, k)), k, me.(pc := CleanSessions));
    FailStep(s, k);
    UnregisterStep(s, k, me.(pc := CleanAuth));
    DropStep(s.(auth := WithoutPeer(s.auth, k)), k, me.(pc := CleanSessions));
    var path := [s, Joining(s, k, me.(pc := CleanAuth)), unregistered, Exec(unregistered, Go(k, []))];
    assert Path(path, Leave(k));
    PathRuns(path, Leave(k), 3);
    assert Leave(k)[..3] == Leave(k);
  }

  /** Ten actions that end in the race: the connector deletes its sessions after the client has looked it
      up and before the client inserts the session, which is then stored with a connector that is gone. */
  function RaceRun(hash: Bytes, code: Bytes, id: SessionId): seq<Action> {
    Register(0, hash) + LookUp(1, code, hash) + Leave(0) + [Go(1, id)]
  }

  lemma RaceHappens(hash: Bytes, code: Bytes, id: SessionId)
    requires hash != [] && code != [] && 1 <= |id| <= 255
    ensures var s := Run(Initial, RaceRun(hash, code, id));
            && id in s.sessions && s.sessions[id].connector == 0
            && 0 in s.peers && PastSessions(s.peers[0].pc)
  {
    hide Run, Exec;
    RegisterRuns(Initial, 0, hash);
    var s1 := Registered(Initial, 0, hash);
    LookUpRuns(s1, 1, code, hash);
    RunAppend(Initial, Register(0, hash), LookUp(1, code, hash));
    var s2 := LookedUp(s1, 1, EntryOf(0));
    assert SessionsOf(s2.sessions, 0) == map[];
    LeaveRuns(s2, 0);
    RunAppend(Initial, Register(0, hash) + LookUp(1, code, hash), Leave(0));
    var s3 := Run(s2, Leave(0));
    InsertStep(s3, 1, EntryOf(0), id);
    RunThen(Initial, Register(0, hash) + LookUp(1, code, hash) + Leave(0), Go(1, id));
  }

  // ----- a session closed while it is being opened -----

  /** A run to the moment at which client 1 has its CONNECT_OK and is about to send SESSION_OPEN, with an
      unrelated connector 2 in its read loop. */
  function ToWindow(hash: Bytes, other: Bytes, code: Bytes, id: SessionId): seq<Action> {
    Register(0, hash) + Register(2, other) + LookUp(1, code, hash) + [Go(1, id)] + [Go(1, [])]
  }

  lemma WindowIsReached(hash: Bytes, other: Bytes, code: Bytes, id: SessionId)
    requires hash != [] && other != [] && hash != other && code != [] && 1 <= |id| <= 255
    ensures var s := Run(Initial, ToWindow(hash, other, code, id));
            var x := SessionFor(1, id, EntryOf(0));
            && 2 in s.peers && s.peers[2].pc.Loop? && 1 in s.peers && s.peers[1].pc == ClientSendOpen(x)
            && id in s.sessions && s.sessions[id] == x && Sendable(s, 0) && s.peers[0].out == []
            && s.peers[0].role == Connector
  {
    hide Run, Exec;
    RegisterRuns(Initial, 0, hash);
    var s1 := Registered(Initial, 0, hash);
    RegisterRuns(s1, 2, other);
    RunAppend(Initial, Register(0, hash), Register(2, other));
    var s2 := Registered(s1, 2, other);
    LookUpRuns(s2, 1, code, hash);
    RunAppend(Initial, Register(0, hash) + Register(2, other), LookUp(1, code, hash));
    var s3 := LookedUp(s2, 1, EntryOf(0));
    var before := Register(0, hash) + Register(2, other) + LookUp(1, code, hash);
    InsertStep(s3, 1, EntryOf(0), id);
    RunThen(Initial, before, Go(1, id));
    ConfirmStep(Exec(s3, Go(1, id)), 1, SessionFor(1, id, EntryOf(0)), Caps(false));
    RunThen(Initial, before + [Go(1, id)], Go(1, []));
  }

  function CloseInWindow(id: SessionId): seq<Action> {
    [AskToClose(2, id), Go(2, []), Go(2, []), Go(2, []), Go(1, [])]
  }

  /** A run from the start in which the connector hears CLOSE_SESSION before SESSION_OPEN, for a session
      that is gone. */
  lemma CloseBeforeOpenHappens(hash: Bytes, other: Bytes, code: Bytes, id: SessionId)
    requires hash != [] && other != [] && hash != other && code != [] && 1 <= |id| <= 255
    ensures var s := Run(Initial, ToWindow(hash, other, code, id) + CloseInWindow(id));
            && id !in s.sessions && 0 in s.peers
            && s.peers[0].out == [Text(Control.CloseSession(id)), Text(SessionOpen(id, false))]
            && s.peers[0].role == Connector
  {
    hide Run, Exec;
    var before := ToWindow(hash, other, code, id);
    WindowIsReached(hash, other, code, id);
    var s := Run(Initial, before);
    InitialInv();
    RunInv(Initial, before);
    CloseMayPrecedeOpen(s, 2, 1, SessionFor(1, id, EntryOf(0)));
    Race.RunGrows(s, CloseInWindow(id));
    RoleStays(s, Run(s, CloseInWindow(id)), 0);
    RunAppend(Initial, before, CloseInWindow(id));
  }
}
