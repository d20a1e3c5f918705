/** Close notices are conserved: whoever wins the race to remove a session owes each end
    exactly the notices the code promises, and nobody else owes any. */
module RelayNotices {
  import opened Protocol
  import opened RelaySystem
  import opened RelayInvariants

  /** The goroutine g, at this position, still has to tell the peer e that the session is closed. */
  ghost predicate Owes(g: PeerId, pc: Pc, id: SessionId, e: PeerId) {
    match pc
    case CloseNotifyClient(x, _) => x.id == id && (e == x.client || e == x.connector)
    case CloseNotifyConnector(x, _) => x.id == id && e == x.connector
    case CleanNotify(left) => id in left && e == OtherEnd(left[id], g)
    case _ => false
  }

  ghost predicate OwesNow(s: State, g: PeerId, id: SessionId, e: PeerId) {
    g in s.peers && Owes(g, s.peers[g].pc, id, e)
  }

  function Count(b: bool): nat {
    if b then 1 else 0
  }

  /** cleanupPeer(p) sends nothing to p itself. */
  ghost predicate Waived(s: State, id: SessionId, e: PeerId) {
    id in s.removed && s.removed[id] == ByCleanup(e)
  }

  function Notices(s: State, e: PeerId, id: SessionId): nat {
    if e in s.peers then s.peers[e].notices[id] else 0
  }

  ghost predicate IsEnd(s: State, id: SessionId, e: PeerId) {
    id in s.created && Involves(s.created[id], e)
  }

  /** The account of one end of one session. */
  ghost predicate Balanced(s: State, id: SessionId, e: PeerId) {
    if id in s.removed
    then Count(OwesNow(s, s.removed[id].remover, id, e)) + Notices(s, e, id) + Count(Waived(s, id, e)) == 1
    else Notices(s, e, id) == 0
  }

  ghost predicate NoticeInv(s: State) {
    && (forall id, e {:trigger Balanced(s, id, e)} :: IsEnd(s, id, e) ==> Balanced(s, id, e))
    && (forall id, e {:trigger Notices(s, e, id)} :: id !in s.created ==> Notices(s, e, id) == 0)
  }

  /** How one move changes what its goroutine owes and what has been attempted, for one end. */
  ghost predicate SettlesFor(s: State, p: PeerId, m: Move, id: SessionId, e: PeerId)
    requires p in s.peers
  {
    Count(Owes(p, m.pc, id, e)) + Count(m.access == Notify(e, id)) ==
    Count(Owes(p, s.peers[p].pc, id, e)) + Count(
      || (m.access.SessionDelete? && m.access.session.id == id && Involves(m.access.session, e))
      || (m.access.SessionDeleteByPeer? && id in SessionsOf(s.sessions, p) && e == OtherEnd(s.sessions[id], p)))
  }

  ghost predicate Settles(s: State, p: PeerId, m: Move)
    requires p in s.peers
  {
    forall id, e {:trigger Owes(p, m.pc, id, e)} :: SettlesFor(s, p, m, id, e)
  }

  lemma MoveSettles(s: State, a: Action)
    requires Basic(s) && MoveOf(s, a).Some?
    ensures Settles(s, a.peer, MoveOf(s, a).value)
  {
    hide Step, Basic, OnRead;
    forall id, e ensures SettlesFor(s, a.peer, MoveOf(s, a).value, id, e) {
      MoveSettlesFor(s, a, id, e);
    }
  }

  lemma MoveSettlesFor(s: State, a: Action, id: SessionId, e: PeerId)
    requires Basic(s) && MoveOf(s, a).Some?
    ensures SettlesFor(s, a.peer, MoveOf(s, a).value, id, e)
  {
    assert At(s, a.peer);
    assert id in s.created ==> Joined(s, id);
    hide PcsInv, SessionInv, AuthTyped, StoreInv;
  }

  /** Attempts are counted where they are made; only Notify makes one. */
  lemma ApplyNotices(s: State, p: PeerId, access: Access)
    requires p in s.peers
    ensures forall e, id {:trigger Notices(Apply(s, p, access), e, id)} ::
              Notices(Apply(s, p, access), e, id) ==
              Notices(s, e, id) + Count(access == Notify(e, id) && e in s.peers)
  {
    hide Apply;
    ApplyTouches(s, p, access);
  }

  lemma ApplyRemoved(s: State, p: PeerId, access: Access)
    requires p in s.peers && StoreInv(s) && Justified(s, p, access)
    ensures forall id :: id in Apply(s, p, access).removed <==>
                         || id in s.removed
                         || (access.SessionDelete? && access.session.id == id)
                         || (access.SessionDeleteByPeer? && id in SessionsOf(s.sessions, p))
    ensures forall id :: id in Apply(s, p, access).removed && id !in s.removed ==>
                           Apply(s, p, access).removed[id] ==
                           if access.SessionDelete? then ByClose(p) else ByCleanup(p)
  {
    hide PeersAfter;
    match access
    case SessionDelete(x) =>
    case SessionDeleteByPeer =>
    case _ => assert Apply(s, p, access).removed == s.removed;
  }

  /** Only the goroutine that removed a session owes notices for it. */
  lemma OnlyRemoverOwes(s: State, g: PeerId, id: SessionId, e: PeerId)
    requires PcsInv(s) && OwesNow(s, g, id, e)
    ensures id in s.created && id in s.removed && s.removed[id].remover == g
    ensures Involves(s.created[id], e)
  {
    assert At(s, g);
  }

  /** What a move of p means for the account of one end e of one session. */
  ghost predicate Books(s: State, t: State, p: PeerId, m: Move, id: SessionId, e: PeerId)
    requires p in s.peers
  {
    var closes := m.access.SessionDelete? && m.access.session.id == id;
    var cleans := m.access.SessionDeleteByPeer? && id in SessionsOf(s.sessions, p);
    && Notices(t, e, id) == Notices(s, e, id) + Count(m.access == Notify(e, id))
    && (forall g :: OwesNow(t, g, id, e) <==> if g == p then Owes(p, m.pc, id, e) else OwesNow(s, g, id, e))
    && (id in t.removed <==> id in s.removed || closes || cleans)
    && (id in s.removed ==> t.removed[id] == s.removed[id] && !closes && !cleans)
    && (id in t.removed && id !in s.removed ==> t.removed[id] == if closes then ByClose(p) else ByCleanup(p))
  }

  lemma PerformOwes(s: State, p: PeerId, m: Move, id: SessionId, e: PeerId)
    requires p in s.peers
    ensures forall g :: OwesNow(Perform(s, p, m), g, id, e) <==>
                        if g == p then Owes(p, m.pc, id, e) else OwesNow(s, g, id, e)
  {
    ApplyFrame(s, p, m.access);
  }

  lemma PerformBooks(s: State, p: PeerId, m: Move, id: SessionId, e: PeerId)
    requires StoreInv(s) && p in s.peers && Justified(s, p, m.access) && e in s.peers
    ensures Books(s, Perform(s, p, m), p, m, id, e)
  {
    ApplyNotices(s, p, m.access);
    ApplyRemoved(s, p, m.access);
    ApplyFrame(s, p, m.access);
    ApplyGrows(s, p, m.access);
    PerformOwes(s, p, m, id, e);
    assert Notices(Perform(s, p, m), e, id) == Notices(Apply(s, p, m.access), e, id);
  }

  lemma PerformBalanced(s: State, t: State, p: PeerId, m: Move, id: SessionId, e: PeerId)
    requires StoreInv(s) && PcsInv(s) && p in s.peers && Justified(s, p, m.access) && Settles(s, p, m)
    requires PcsInv(t) && Books(s, t, p, m, id, e)
    requires IsEnd(s, id, e) && Balanced(s, id, e)
    requires s.created[id].client != s.created[id].connector
    ensures Balanced(t, id, e)
  {
    if OwesNow(s, p, id, e) { OnlyRemoverOwes(s, p, id, e); }
    if OwesNow(t, p, id, e) { OnlyRemoverOwes(t, p, id, e); }
  }

  lemma PerformAccount(s: State, t: State, p: PeerId, m: Move, id: SessionId, e: PeerId)
    requires Basic(s) && NoticeInv(s) && p in s.peers && Justified(s, p, m.access) && Settles(s, p, m)
    requires t == Perform(s, p, m) && Basic(t) && Grows(s, t) && IsEnd(t, id, e)
    ensures Balanced(t, id, e)
  {
    hide Apply, Settles, Justified, Books, Grows;
    assert Joined(t, id);
    ApplyFrame(s, p, m.access);
    if id in s.created {
      StaysCreated(s, t, id);
      assert Joined(s, id) && Balanced(s, id, e);
      ApplyGrows(s, p, m.access);
      PerformBooks(s, p, m, id, e);
      PerformBalanced(s, t, p, m, id, e);
    } else {
      ApplyNotices(s, p, m.access);
      ApplyRemoved(s, p, m.access);
      assert Notices(t, e, id) == Notices(Apply(s, p, m.access), e, id);
    }
  }

  lemma PerformUnknown(s: State, p: PeerId, m: Move, id: SessionId, e: PeerId)
    requires Basic(s) && NoticeInv(s) && p in s.peers && Justified(s, p, m.access) && Settles(s, p, m)
    requires id !in s.created
    ensures Notices(Perform(s, p, m), e, id) == 0
  {
    ApplyNotices(s, p, m.access);
    assert Notices(Perform(s, p, m), e, id) == Notices(Apply(s, p, m.access), e, id);
    var _ := Owes(p, m.pc, id, e);
    if Owes(p, s.peers[p].pc, id, e) {
      OnlyRemoverOwes(s, p, id, e);
    }
  }

  lemma PerformNotices(s: State, p: PeerId, m: Move)
    requires Basic(s) && NoticeInv(s) && p in s.peers && Legit(s, p, m) && Settles(s, p, m)
    ensures NoticeInv(Perform(s, p, m))
  {
    var t := Perform(s, p, m);
    PerformBasic(s, p, m);
    forall id, e | IsEnd(t, id, e) ensures Balanced(t, id, e) {
      PerformAccount(s, t, p, m, id, e);
    }
    forall id, e | id !in t.created ensures Notices(t, e, id) == 0 {
      PerformUnknown(s, p, m, id, e);
    }
  }

  lemma JoinNotices(s: State, p: PeerId, role: Role, pc: Pc)
    requires Basic(s) && NoticeInv(s) && Fresh(s, p, role, pc)
    ensures NoticeInv(Join(s, p, role, pc))
  {
    var t := Join(s, p, role, pc);
    forall id, e | IsEnd(t, id, e) ensures Balanced(t, id, e) {
      assert Balanced(s, id, e) && Joined(s, id);
      if OwesNow(s, p, id, e) { OnlyRemoverOwes(s, p, id, e); }
    }
    forall id, e | id !in t.created ensures Notices(t, e, id) == 0 {
      assert Notices(s, e, id) == 0;
    }
  }

  lemma ExecNotices(s: State, a: Action)
    requires Basic(s) && NoticeInv(s)
    ensures NoticeInv(Exec(s, a))
  {
    ExecCases(s, a);
    if MoveOf(s, a).Some? {
      MoveLegit(s, a);
      MoveSettles(s, a);
      PerformNotices(s, a.peer, MoveOf(s, a).value);
    } else if Exec(s, a) != s {
      var pc :| Fresh(s, a.peer, a.role, pc) && Exec(s, a) == Join(s, a.peer, a.role, pc);
      JoinNotices(s, a.peer, a.role, pc);
    }
  }

  /** The goroutines that still owe the end e a notice for the session. */
  ghost function Debtors(s: State, id: SessionId, e: PeerId): set<PeerId> {
    set g | g in s.peers && OwesNow(s, g, id, e)
  }

  /** Stored, still owed, attempted or waived: for each end of each session exactly one of these. */
  lemma Conservation(s: State, id: SessionId, e: PeerId)
    requires Basic(s) && NoticeInv(s) && IsEnd(s, id, e)
    ensures Count(id in s.sessions) + |Debtors(s, id, e)| + Notices(s, e, id) + Count(Waived(s, id, e)) == 1
  {
    assert Balanced(s, id, e);
    forall g | g in Debtors(s, id, e) ensures id in s.removed && s.removed[id].remover == g {
      OnlyRemoverOwes(s, g, id, e);
    }
    if id in s.removed && OwesNow(s, s.removed[id].remover, id, e) {
      assert Debtors(s, id, e) == {s.removed[id].remover};
    } else {
      assert Debtors(s, id, e) == {};
    }
  }
}
