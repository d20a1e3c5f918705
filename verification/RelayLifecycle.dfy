/** Where each goroutine's cleanup leaves the three stores: no leaks, and the auth map as a
    function of the registrations. */
module RelayLifecycle {
  import opened Protocol
  import opened RelaySystem
  import opened RelayInvariants

  predicate InHub(pc: Pc) {
    !pc.TunnelAdd? && !pc.ClientAdd? && !pc.CleanConn? && !pc.Done?
  }

  predicate PastAuth(pc: Pc) {
    pc.CleanSessions? || PastSessions(pc)
  }

  predicate PastSessions(pc: Pc) {
    pc.CleanNotify? || pc.CleanHub? || pc.CleanConn? || pc.Done?
  }

  predicate Unregistered(pc: Pc) {
    pc.TunnelAdd? || pc.TunnelSet?
  }

  ghost predicate LatestAt(rs: seq<Registration>, i: nat, hash: Bytes, entry: Entry) {
    i < |rs| && rs[i] == Registration(hash, entry) && forall j :: i < j < |rs| ==> rs[j].hash != hash
  }

  /** The latest registration for the hash was made with this entry. */
  ghost predicate MostRecent(rs: seq<Registration>, hash: Bytes, entry: Entry) {
    exists i: nat :: LatestAt(rs, i, hash, entry)
  }

  ghost predicate Live(s: State, p: PeerId) {
    p in s.peers && !PastAuth(s.peers[p].pc)
  }

  ghost predicate HubAt(s: State, p: PeerId) {
    p in s.hub <==> p in s.peers && InHub(s.peers[p].pc)
  }

  ghost predicate HubInv(s: State) {
    forall p {:trigger HubAt(s, p)} :: HubAt(s, p)
  }

  ghost predicate ClientStays(s: State, id: SessionId) {
    id in s.created && s.created[id].client in s.peers && !PastSessions(s.peers[s.created[id].client].pc)
  }

  ghost predicate SessionsInv(s: State) {
    forall id {:trigger ClientStays(s, id)} :: id in s.sessions ==> ClientStays(s, id)
  }

  ghost predicate Registered(s: State, hash: Bytes, entry: Entry) {
    hash in s.auth && s.auth[hash] == entry
  }

  ghost predicate AuthInv(s: State) {
    forall h, e {:trigger Registered(s, h, e)} {:trigger MostRecent(s.registrations, h, e)} ::
      Registered(s, h, e) <==> MostRecent(s.registrations, h, e) && Live(s, e.peer)
  }

  /** A connection registers at most once. */
  ghost predicate RegistrationsInv(s: State) {
    && (forall i :: 0 <= i < |s.registrations| ==>
                      var p := s.registrations[i].entry.peer;
                      p in s.peers && !Unregistered(s.peers[p].pc))
    && (forall i, j :: 0 <= i < j < |s.registrations| ==>
                         s.registrations[i].entry.peer != s.registrations[j].entry.peer)
  }

  ghost predicate Lifecycle(s: State) {
    HubInv(s) && SessionsInv(s) && AuthInv(s) && RegistrationsInv(s)
  }

  /** Which access carries a goroutine past which point. */
  ghost predicate Shape(from: Pc, m: Move) {
    && (InHub(m.pc) <==> (m.access.HubAdd? || (InHub(from) && !m.access.HubRemove?)))
    && (PastAuth(m.pc) <==> (m.access.AuthDeleteByPeer? || PastAuth(from)))
    && (PastSessions(m.pc) <==> (m.access.SessionDeleteByPeer? || PastSessions(from)))
    && (m.access.AuthSet? ==> Unregistered(from) && !PastAuth(m.pc))
    && (m.access.SessionSet? ==> !PastSessions(m.pc))
    && (Unregistered(m.pc) ==> Unregistered(from))
    && (Unregistered(m.pc) ==> !m.access.AuthSet?)
  }

  lemma MoveShape(s: State, a: Action)
    requires MoveOf(s, a).Some?
    ensures Shape(s.peers[a.peer].pc, MoveOf(s, a).value)
  {
  }

  lemma MostRecentAppend(rs: seq<Registration>, r: Registration, h: Bytes, e: Entry)
    ensures MostRecent(rs + [r], h, e) <==>
            if r.hash == h then r.entry == e else MostRecent(rs, h, e)
  {
    var rs' := rs + [r];
    assert rs'[|rs|] == r;
    assert forall j :: 0 <= j < |rs| ==> rs'[j] == rs[j];
    if r == Registration(h, e) {
      assert LatestAt(rs', |rs|, h, e);
    }
    if r.hash != h && MostRecent(rs, h, e) {
      var i: nat :| LatestAt(rs, i, h, e);
      assert LatestAt(rs', i, h, e);
    }
    if MostRecent(rs', h, e) {
      var i: nat :| LatestAt(rs', i, h, e);
      assert r.hash != h ==> LatestAt(rs, i, h, e);
    }
  }

  lemma PerformLive(s: State, p: PeerId, m: Move)
    requires p in s.peers && Shape(s.peers[p].pc, m)
    ensures forall q :: Live(Perform(s, p, m), q) <==> Live(s, q) && !(q == p && m.access.AuthDeleteByPeer?)
    ensures Perform(s, p, m).auth == Apply(s, p, m.access).auth
    ensures Perform(s, p, m).registrations == Apply(s, p, m.access).registrations
  {
    PerformPcs(s, p, m);
    hide Apply, InHub, PastSessions, Unregistered;
  }

  lemma PerformAuth(s: State, p: PeerId, m: Move)
    requires AuthInv(s) && RegistrationsInv(s)
    requires p in s.peers && Justified(s, p, m.access) && Shape(s.peers[p].pc, m)
    ensures AuthInv(Perform(s, p, m))
  {
    hide Apply, Perform;
    var t := Perform(s, p, m);
    PerformLive(s, p, m);
    ApplyAuth(s, p, m.access);
    forall h, e
      ensures Registered(t, h, e) <==> MostRecent(t.registrations, h, e) && Live(t, e.peer)
    {
      assert Registered(s, h, e) <==> MostRecent(s.registrations, h, e) && Live(s, e.peer);
      match m.access
      case AuthSet(hash, entry) => MostRecentAppend(s.registrations, Registration(hash, entry), h, e);
      case AuthDeleteByPeer =>
      case _ => assert t.auth == s.auth && t.registrations == s.registrations;
    }
  }

  lemma PerformRegistrations(s: State, p: PeerId, m: Move)
    requires RegistrationsInv(s)
    requires p in s.peers && Justified(s, p, m.access) && Shape(s.peers[p].pc, m)
    ensures RegistrationsInv(Perform(s, p, m))
  {
    hide Apply, Perform, InHub, PastAuth, PastSessions;
    PerformPcs(s, p, m);
    PerformLive(s, p, m);
    ApplyAuth(s, p, m.access);
  }

  lemma PerformHub(s: State, p: PeerId, m: Move)
    requires HubInv(s) && p in s.peers && Shape(s.peers[p].pc, m)
    ensures HubInv(Perform(s, p, m))
  {
    hide Apply, InHub, PastAuth, PastSessions, Unregistered;
    var t := Perform(s, p, m);
    PerformPcs(s, p, m);
    ApplyHub(s, p, m.access);
    forall q ensures HubAt(t, q) {
      assert HubAt(s, q);
    }
  }

  lemma PerformSessions(s: State, p: PeerId, m: Move)
    requires Basic(s) && SessionsInv(s) && p in s.peers && Legit(s, p, m) && Shape(s.peers[p].pc, m)
    ensures SessionsInv(Perform(s, p, m))
  {
    var t := Perform(s, p, m);
    ApplyGrows(s, p, m.access);
    ApplyStoreInv(s, p, m.access);
    forall id | id in t.sessions ensures ClientStays(t, id) {
      if id in s.sessions {
        assert ClientStays(s, id);
      }
    }
  }

  lemma PerformLifecycle(s: State, p: PeerId, m: Move)
    requires Basic(s) && Lifecycle(s) && p in s.peers && Legit(s, p, m) && Shape(s.peers[p].pc, m)
    ensures Lifecycle(Perform(s, p, m))
  {
    PerformAuth(s, p, m);
    PerformRegistrations(s, p, m);
    PerformHub(s, p, m);
    PerformSessions(s, p, m);
  }

  lemma JoinLifecycle(s: State, p: PeerId, role: Role, pc: Pc)
    requires Basic(s) && Lifecycle(s) && Fresh(s, p, role, pc)
    ensures Lifecycle(Join(s, p, role, pc))
  {
    var t := Join(s, p, role, pc);
    forall q ensures HubAt(t, q) {
      assert HubAt(s, q);
    }
    forall id | id in t.sessions ensures ClientStays(t, id) {
      assert ClientStays(s, id);
    }
    forall h, e
      ensures Registered(t, h, e) <==> MostRecent(t.registrations, h, e) && Live(t, e.peer)
    {
      assert Registered(s, h, e) <==> MostRecent(s.registrations, h, e) && Live(s, e.peer);
    }
  }

  lemma ExecLifecycle(s: State, a: Action)
    requires Basic(s) && Lifecycle(s)
    ensures Lifecycle(Exec(s, a))
  {
    ExecCases(s, a);
    if MoveOf(s, a).Some? {
      MoveLegit(s, a);
      MoveShape(s, a);
      PerformLifecycle(s, a.peer, MoveOf(s, a).value);
    } else if Exec(s, a) != s {
      var pc :| Fresh(s, a.peer, a.role, pc) && Exec(s, a) == Join(s, a.peer, a.role, pc);
      JoinLifecycle(s, a.peer, a.role, pc);
    }
  }
}
