/** What every atomic step of the relay keeps, whatever the schedule. */
module RelayInvariants {
  import opened Protocol
  import opened DataFrame
  import opened RelaySystem

  // ----- history only grows -----

  ghost predicate PeerGrows(a: Peer, b: Peer) {
    && a.role == b.role
    && a.out <= b.out
    && a.got <= b.got
    && a.notices <= b.notices
    && (a.mine.Some? ==> b.mine == a.mine)
    && (b.open ==> a.open)
  }

  ghost predicate Grows(s: State, t: State) {
    && (forall p :: p in s.peers ==> p in t.peers && PeerGrows(s.peers[p], t.peers[p]))
    && (forall id :: id in s.created ==> id in t.created && t.created[id] == s.created[id])
    && (forall id :: id in s.removed ==> id in t.removed && t.removed[id] == s.removed[id])
    && s.registrations <= t.registrations
  }

  lemma GrowsSelf(s: State)
    ensures Grows(s, s)
  {
  }

  lemma RoleStays(s: State, t: State, p: PeerId)
    requires Grows(s, t) && p in s.peers
    ensures p in t.peers && t.peers[p].role == s.peers[p].role
  {
  }

  lemma StaysCreated(s: State, t: State, id: SessionId)
    requires Grows(s, t) && id in s.created
    ensures id in t.created && t.created[id] == s.created[id]
  {
  }

  // ----- sessions and the store -----

  /** A session is in the store exactly until it is removed, and keeps the endpoints it was created with. */
  ghost predicate StoreInv(s: State) {
    && (forall id :: id in s.sessions ==> id in s.created && s.created[id] == s.sessions[id])
    && (forall id :: id in s.created ==> (id in s.sessions <==> id !in s.removed))
    && s.removed.Keys <= s.created.Keys
  }

  ghost predicate HasRole(s: State, p: PeerId, role: Role) {
    p in s.peers && s.peers[p].role == role
  }

  /** A session joins the client that created it to a connector. */
  ghost predicate Joined(s: State, id: SessionId)
    requires id in s.created
  {
    && s.created[id].id == id && 1 <= |id| <= 255
    && HasRole(s, s.created[id].client, Client)
    && HasRole(s, s.created[id].connector, Connector)
    && s.peers[s.created[id].client].mine == Some(id)
  }

  /** The one session a client created is its own. */
  ghost predicate Owner(s: State, p: PeerId)
    requires p in s.peers
  {
    s.peers[p].mine.Some? ==>
      s.peers[p].mine.value in s.created && s.created[s.peers[p].mine.value].client == p
  }

  ghost predicate SessionInv(s: State) {
    && (forall id {:trigger Joined(s, id)} :: id in s.created ==> Joined(s, id))
    && (forall p {:trigger Owner(s, p)} :: p in s.peers ==> Owner(s, p))
  }

  ghost predicate Created(s: State, x: Session) {
    x.id in s.created && s.created[x.id] == x
  }

  ghost predicate RemovedBy(s: State, x: Session, r: Removal) {
    Created(s, x) && x.id in s.removed && s.removed[x.id] == r
  }

  ghost predicate Opposite(x: Session, p: PeerId, q: PeerId) {
    (p == x.client && q == x.connector) || (p == x.connector && q == x.client)
  }

  /** p read this frame as its index-th binary message and it names the session id. */
  ghost predicate ReadFrame(s: State, p: PeerId, index: nat, id: SessionId) {
    p in s.peers && index < |s.peers[p].got| &&
    var parsed := ParseDataFrame(s.peers[p].got[index]);
    parsed.Ok? && parsed.value.sessionId == id
  }

  /** The locals a goroutine holds are what its position in the code promises. */
  ghost predicate PcInv(s: State, p: PeerId, pc: Pc)
    requires p in s.peers
  {
    var me := s.peers[p];
    match pc
    case TunnelAdd(_, entry) => me.role == Connector && entry.peer == p
    case TunnelSet(_, entry) => me.role == Connector && entry.peer == p
    case TunnelClosePrevious(previous) => me.role == Connector
    case ClientAdd(_, _) => me.role == Client && me.mine.None?
    case ClientLookup(_, _) => me.role == Client && me.mine.None?
    case ClientInsert(entry, _) => me.role == Client && me.mine.None? && HasRole(s, entry.peer, Connector)
    case ClientSendOk(x, _) => Created(s, x) && x.client == p
    case ClientSendOpen(x) => Created(s, x) && x.client == p
    case RouteGet(index, id) => ReadFrame(s, p, index, id)
    case RouteSend(index, id, target) =>
      ReadFrame(s, p, index, id) && id in s.created && Opposite(s.created[id], p, target)
    case CloseNotifyClient(x, _) => RemovedBy(s, x, ByClose(p))
    case CloseNotifyConnector(x, _) => RemovedBy(s, x, ByClose(p))
    case CleanNotify(left) =>
      forall id :: id in left ==> left[id].id == id && RemovedBy(s, left[id], ByCleanup(p)) && Involves(left[id], p)
    case _ => true
  }

  ghost predicate At(s: State, p: PeerId)
    requires p in s.peers
  {
    PcInv(s, p, s.peers[p].pc)
  }

  ghost predicate PcsInv(s: State) {
    forall p {:trigger At(s, p)} :: p in s.peers ==> At(s, p)
  }

  ghost predicate AuthTyped(s: State) {
    forall h :: h in s.auth ==> HasRole(s, s.auth[h].peer, Connector)
  }

  ghost predicate Basic(s: State) {
    StoreInv(s) && SessionInv(s) && PcsInv(s) && AuthTyped(s)
  }

  // ----- an access is made only when its position in the code justifies it -----

  /** What the goroutine p knows when it performs an access. */
  ghost predicate Justified(s: State, p: PeerId, access: Access)
    requires p in s.peers
  {
    match access
    case AuthSet(_, entry) => entry.peer == p && s.peers[p].role == Connector
    case SessionSet(x) =>
      && FreshId(s, x.id) && x.client == p && s.peers[p].role == Client && s.peers[p].mine.None?
      && HasRole(s, x.connector, Connector)
    case SessionDelete(x) => x.id in s.sessions && s.sessions[x.id] == x
    case SendTo(_, _) => true
    case _ => true
  }

  lemma MoveJustified(s: State, a: Action)
    requires Basic(s) && MoveOf(s, a).Some?
    ensures Justified(s, a.peer, MoveOf(s, a).value.access)
  {
    assert At(s, a.peer);
    assert forall id :: id in s.sessions ==> Joined(s, id);
  }

  lemma PeerAfterGrows(q: Peer, access: Access)
    requires access.SessionSet? ==> q.mine.None?
    ensures PeerGrows(q, PeerAfter(q, access))
  {
  }

  lemma PeerAfterStays(q: Peer, access: Access)
    ensures PeerAfter(q, access).pc == q.pc && PeerAfter(q, access).role == q.role
    ensures !access.SessionSet? ==> PeerAfter(q, access).mine == q.mine
  {
  }

  /** An access changes only the peer it touches. */
  ghost predicate OnlyTouched(s: State, t: State, p: PeerId, access: Access) {
    && t.peers.Keys == s.peers.Keys
    && forall q :: q in s.peers ==>
                     t.peers[q] == if q == Touched(p, access) then PeerAfter(s.peers[q], access) else s.peers[q]
  }

  lemma ApplyTouches(s: State, p: PeerId, access: Access)
    ensures OnlyTouched(s, Apply(s, p, access), p, access)
  {
    hide Write, Notice, WithoutPeer, SessionsWithout, SessionsOf;
  }

  lemma ApplyHistory(s: State, p: PeerId, access: Access)
    ensures s.registrations <= Apply(s, p, access).registrations
    ensures !access.SessionSet? ==> Apply(s, p, access).created == s.created
    ensures access.SessionSet? ==> Apply(s, p, access).created == s.created[access.session.id := access.session]
    ensures !access.SessionDelete? && !access.SessionDeleteByPeer? ==> Apply(s, p, access).removed == s.removed
  {
    hide PeersAfter, PeerAfter, WithoutPeer, SessionsWithout, SessionsOf;
  }

  lemma RemovedStays(s: State, p: PeerId, access: Access, id: SessionId)
    requires StoreInv(s) && p in s.peers && Justified(s, p, access) && id in s.removed
    ensures id in Apply(s, p, access).removed && Apply(s, p, access).removed[id] == s.removed[id]
  {
    hide PeersAfter, PeerAfter, WithoutPeer, SessionsWithout;
  }

  lemma ApplyGrows(s: State, p: PeerId, access: Access)
    requires StoreInv(s) && p in s.peers && Justified(s, p, access)
    ensures Grows(s, Apply(s, p, access))
  {
    hide Apply, PeerAfter, PeerGrows, StoreInv;
    var t := Apply(s, p, access);
    ApplyTouches(s, p, access);
    ApplyHistory(s, p, access);
    forall q | q in s.peers ensures q in t.peers && PeerGrows(s.peers[q], t.peers[q]) {
      if t.peers[q] == s.peers[q] {
        PeerGrowsSelf(s.peers[q]);
      } else {
        PeerAfterGrows(s.peers[q], access);
      }
    }
    forall id | id in s.removed ensures id in t.removed && t.removed[id] == s.removed[id] {
      RemovedStays(s, p, access, id);
    }
  }

  lemma PeerGrowsSelf(q: Peer)
    ensures PeerGrows(q, q)
  {
  }

  lemma ApplyStoreInv(s: State, p: PeerId, access: Access)
    requires StoreInv(s) && p in s.peers && Justified(s, p, access)
    ensures StoreInv(Apply(s, p, access))
  {
  }

  /** An access never moves a goroutine, and only SessionSet creates a session. */
  ghost predicate Frame(s: State, t: State) {
    && (forall q :: q in t.peers <==> q in s.peers)
    && (forall q :: q in s.peers ==> t.peers[q].pc == s.peers[q].pc && t.peers[q].role == s.peers[q].role)
  }

  ghost predicate SameSessions(s: State, t: State) {
    && t.created == s.created
    && (forall q :: q in t.peers <==> q in s.peers)
    && (forall q :: q in s.peers ==> t.peers[q].role == s.peers[q].role && t.peers[q].mine == s.peers[q].mine)
  }

  lemma ApplyFrame(s: State, p: PeerId, access: Access)
    requires p in s.peers
    ensures Frame(s, Apply(s, p, access))
    ensures !access.SessionSet? ==> SameSessions(s, Apply(s, p, access))
    ensures forall q :: q in s.peers && q != p ==> Apply(s, p, access).peers[q].mine == s.peers[q].mine
  {
    hide Apply, PeerAfter;
    var t := Apply(s, p, access);
    ApplyTouches(s, p, access);
    ApplyHistory(s, p, access);
    forall q | q in s.peers
      ensures t.peers[q].pc == s.peers[q].pc && t.peers[q].role == s.peers[q].role
      ensures !access.SessionSet? || q != p ==> t.peers[q].mine == s.peers[q].mine
    {
      if t.peers[q] != s.peers[q] {
        PeerAfterStays(s.peers[q], access);
      }
    }
  }

  /** What an access does to the hub, the auth map and the registrations. */
  lemma ApplyHub(s: State, p: PeerId, access: Access)
    ensures Apply(s, p, access).hub ==
            if access.HubAdd? then s.hub + {p} else if access.HubRemove? then s.hub - {p} else s.hub
  {
    hide PeersAfter, WithoutPeer, SessionsWithout, SessionsOf;
  }

  lemma ApplyAuth(s: State, p: PeerId, access: Access)
    ensures Apply(s, p, access).auth ==
            if access.AuthSet? then s.auth[access.hash := access.entry]
            else if access.AuthDeleteByPeer? then WithoutPeer(s.auth, p) else s.auth
    ensures Apply(s, p, access).registrations ==
            if access.AuthSet? then s.registrations + [Registration(access.hash, access.entry)] else s.registrations
  {
    hide PeersAfter, WithoutPeer, SessionsWithout, SessionsOf;
  }

  /** A move changes the program counter of its own goroutine only. */
  lemma PerformPcs(s: State, p: PeerId, m: Move)
    requires p in s.peers
    ensures Perform(s, p, m).peers.Keys == s.peers.Keys
    ensures forall q :: q in s.peers ==>
                          && Perform(s, p, m).peers[q].pc == (if q == p then m.pc else s.peers[q].pc)
                          && Perform(s, p, m).peers[q].role == s.peers[q].role
  {
    hide Apply;
    ApplyFrame(s, p, m.access);
  }

  lemma SessionInvFrame(s: State, t: State)
    requires SessionInv(s) && SameSessions(s, t)
    ensures SessionInv(t)
  {
    forall id | id in t.created ensures Joined(t, id) {
      assert Joined(s, id);
    }
    forall p | p in t.peers ensures Owner(t, p) {
      assert Owner(s, p);
    }
  }

  lemma SessionInvInsert(s: State, p: PeerId, x: Session)
    requires SessionInv(s) && p in s.peers && Justified(s, p, SessionSet(x))
    ensures SessionInv(Apply(s, p, SessionSet(x)))
  {
    var t := Apply(s, p, SessionSet(x));
    forall id | id in t.created ensures Joined(t, id) {
      if id != x.id {
        assert Joined(s, id);
      }
    }
    forall q | q in t.peers ensures Owner(t, q) {
      assert Owner(s, q);
    }
  }

  lemma ApplySessionInv(s: State, p: PeerId, access: Access)
    requires SessionInv(s) && p in s.peers && Justified(s, p, access)
    ensures SessionInv(Apply(s, p, access))
  {
    if access.SessionSet? {
      SessionInvInsert(s, p, access.session);
    } else {
      ApplyFrame(s, p, access);
      SessionInvFrame(s, Apply(s, p, access));
    }
  }

  lemma PcInvStable(s: State, t: State, p: PeerId, pc: Pc)
    requires Grows(s, t) && p in s.peers && PcInv(s, p, pc)
    requires s.peers[p].mine == t.peers[p].mine
    ensures PcInv(t, p, pc)
  {
  }

  /** Accesses after which the goroutine relies on something that was not so before. */
  predicate Establishes(access: Access) {
    access.Receive? || access.SessionSet? || access.SessionDelete? || access.SessionDeleteByPeer?
  }

  lemma MovePcInvBefore(s: State, a: Action)
    requires Basic(s) && MoveOf(s, a).Some? && !Establishes(MoveOf(s, a).value.access)
    ensures PcInv(s, a.peer, MoveOf(s, a).value.pc)
  {
    assert At(s, a.peer);
  }

  lemma MovePcInvRead(s: State, a: Action)
    requires Basic(s) && a.Read? && MoveOf(s, a).Some? && Establishes(MoveOf(s, a).value.access)
    ensures PcInv(Apply(s, a.peer, MoveOf(s, a).value.access), a.peer, MoveOf(s, a).value.pc)
  {
    hide StoreInv, SessionInv, PcsInv, AuthTyped, Step;
  }

  lemma MovePcInvDelete(s: State, p: PeerId, x: Session, next: Next)
    requires StoreInv(s) && SessionInv(s) && p in s.peers && x.id in s.sessions && s.sessions[x.id] == x
    ensures PcInv(Apply(s, p, SessionDelete(x)), p, CloseNotifyClient(x, next))
  {
  }

  lemma MovePcInvDeleteByPeer(s: State, p: PeerId)
    requires StoreInv(s) && SessionInv(s) && p in s.peers
    ensures PcInv(Apply(s, p, SessionDeleteByPeer), p, CleanNotify(SessionsOf(s.sessions, p)))
  {
    var t, left := Apply(s, p, SessionDeleteByPeer), SessionsOf(s.sessions, p);
    forall id | id in left
      ensures left[id].id == id && RemovedBy(t, left[id], ByCleanup(p)) && Involves(left[id], p)
    {
      assert Joined(s, id);
    }
  }

  lemma MovePcInvInsert(s: State, p: PeerId, x: Session, caps: Caps)
    requires p in s.peers && x.client == p
    ensures PcInv(Apply(s, p, SessionSet(x)), p, ClientSendOk(x, caps))
  {
  }

  /** Where the goroutine is after a deletion or an insertion. */
  lemma EstablishingMove(s: State, a: Action)
    requires MoveOf(s, a).Some? && !a.Read? && Establishes(MoveOf(s, a).value.access)
    ensures var m := MoveOf(s, a).value;
            var pc := s.peers[a.peer].pc;
            && (m.access.SessionDelete? ==>
                  pc.CloseDelete? && pc.sessionId in s.sessions && m.access.session == s.sessions[pc.sessionId]
                  && m.pc == CloseNotifyClient(m.access.session, pc.next))
            && (m.access.SessionDeleteByPeer? ==> m.pc == CleanNotify(SessionsOf(s.sessions, a.peer)))
            && (m.access.SessionSet? ==> m.pc.ClientSendOk? && m.pc.session == m.access.session
                                         && m.access.session.client == a.peer)
            && !m.access.Receive?
  {
  }

  lemma MovePcInvAfter(s: State, a: Action)
    requires Basic(s) && MoveOf(s, a).Some? && Establishes(MoveOf(s, a).value.access)
    ensures PcInv(Apply(s, a.peer, MoveOf(s, a).value.access), a.peer, MoveOf(s, a).value.pc)
  {
    hide Apply, PcInv, Step, OnRead;
    var p, m := a.peer, MoveOf(s, a).value;
    if a.Read? {
      MovePcInvRead(s, a);
    } else {
      EstablishingMove(s, a);
      if m.access.SessionDelete? {
        var id := s.peers[p].pc.sessionId;
        assert StoreInv(s) && Joined(s, id);
        MovePcInvDelete(s, p, s.sessions[id], s.peers[p].pc.next);
      } else if m.access.SessionDeleteByPeer? {
        MovePcInvDeleteByPeer(s, p);
      } else {
        MovePcInvInsert(s, p, m.access.session, m.pc.caps);
      }
    }
  }

  /** A move is legitimate when its access is justified and leads to a position that may be held. */
  ghost predicate Legit(s: State, p: PeerId, m: Move)
    requires p in s.peers
  {
    && Justified(s, p, m.access)
    && Frame(s, Apply(s, p, m.access))
    && PcInv(Apply(s, p, m.access), p, m.pc)
  }

  lemma MoveLegit(s: State, a: Action)
    requires Basic(s) && MoveOf(s, a).Some?
    ensures Legit(s, a.peer, MoveOf(s, a).value)
  {
    var p, m := a.peer, MoveOf(s, a).value;
    MoveJustified(s, a);
    ApplyFrame(s, p, m.access);
    if Establishes(m.access) {
      MovePcInvAfter(s, a);
    } else {
      MovePcInvBefore(s, a);
      ApplyGrows(s, p, m.access);
      PcInvStable(s, Apply(s, p, m.access), p, m.pc);
    }
  }

  lemma ApplyAuthTyped(s: State, p: PeerId, access: Access)
    requires AuthTyped(s) && p in s.peers && Justified(s, p, access)
    ensures AuthTyped(Apply(s, p, access))
  {
    ApplyFrame(s, p, access);
  }

  lemma GotoBasic(s: State, p: PeerId, pc: Pc)
    requires StoreInv(s) && SessionInv(s) && AuthTyped(s) && p in s.peers && PcInv(s, p, pc)
    requires forall q :: q in s.peers && q != p ==> At(s, q)
    ensures Basic(Goto(s, p, pc))
  {
    var t := Goto(s, p, pc);
    SessionInvFrame(s, t);
    forall q | q in t.peers ensures At(t, q) {
      PcInvStable(s, t, q, t.peers[q].pc);
    }
  }

  lemma OthersStay(s: State, t: State, p: PeerId)
    requires PcsInv(s) && Grows(s, t) && Frame(s, t)
    requires forall q :: q in s.peers && q != p ==> t.peers[q].mine == s.peers[q].mine
    ensures forall q {:trigger At(t, q)} :: q in t.peers && q != p ==> At(t, q)
  {
    forall q | q in t.peers && q != p ensures At(t, q) {
      assert At(s, q);
      PcInvStable(s, t, q, s.peers[q].pc);
    }
  }

  lemma GrowsThenGoto(s: State, t: State, p: PeerId, pc: Pc)
    requires Grows(s, t) && p in t.peers
    ensures Grows(s, Goto(t, p, pc))
  {
  }

  lemma PerformBasic(s: State, p: PeerId, m: Move)
    requires Basic(s) && p in s.peers && Legit(s, p, m)
    ensures Basic(Perform(s, p, m)) && Grows(s, Perform(s, p, m))
  {
    hide Apply, StoreInv, SessionInv, PcInv, AuthTyped, Justified, Grows, Goto, FreshId;
    ApplyFrame(s, p, m.access);
    ApplyGrows(s, p, m.access);
    GrowsThenGoto(s, Apply(s, p, m.access), p, m.pc);
    ApplyStoreInv(s, p, m.access);
    ApplySessionInv(s, p, m.access);
    ApplyAuthTyped(s, p, m.access);
    OthersStay(s, Apply(s, p, m.access), p);
    GotoBasic(Apply(s, p, m.access), p, m.pc);
  }

  /** A peer that joins is about to run its handler from the top. */
  ghost predicate Fresh(s: State, p: PeerId, role: Role, pc: Pc) {
    p !in s.peers &&
    match role
    case Connector => pc.TunnelAdd? && pc.entry.peer == p
    case Client => pc.ClientAdd?
  }

  lemma JoinBasic(s: State, p: PeerId, role: Role, pc: Pc)
    requires Basic(s) && Fresh(s, p, role, pc)
    ensures Basic(Join(s, p, role, pc)) && Grows(s, Join(s, p, role, pc))
  {
    var t := Join(s, p, role, pc);
    forall id | id in t.created ensures Joined(t, id) {
      assert Joined(s, id);
    }
    forall q | q in t.peers ensures Owner(t, q) && At(t, q) {
      if q != p {
        assert Owner(s, q) && At(s, q);
        PcInvStable(s, t, q, s.peers[q].pc);
      }
    }
  }

  /** The three things an action can do. */
  lemma ExecCases(s: State, a: Action)
    ensures
      || Exec(s, a) == s
      || (a.Accept? && exists pc :: Fresh(s, a.peer, a.role, pc) && Exec(s, a) == Join(s, a.peer, a.role, pc))
      || (MoveOf(s, a).Some? && Exec(s, a) == Perform(s, a.peer, MoveOf(s, a).value))
  {
    if a.Accept? && FirstPc(a.peer, a.role, a.first).Some? && a.peer !in s.peers {
      assert Fresh(s, a.peer, a.role, FirstPc(a.peer, a.role, a.first).value);
    }
  }

  lemma ExecBasic(s: State, a: Action)
    requires Basic(s)
    ensures Basic(Exec(s, a)) && Grows(s, Exec(s, a))
  {
    ExecCases(s, a);
    if MoveOf(s, a).Some? {
      MoveLegit(s, a);
      PerformBasic(s, a.peer, MoveOf(s, a).value);
    } else if Exec(s, a) != s {
      var pc :| Fresh(s, a.peer, a.role, pc) && Exec(s, a) == Join(s, a.peer, a.role, pc);
      JoinBasic(s, a.peer, a.role, pc);
    }
  }
}
