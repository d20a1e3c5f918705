/** What a close or a replacement does to others: to the connector that is replaced, and to sessions
    whose ends did not ask for it. */
module RelayLimits {
  import opened Protocol
  import opened RelaySystem
  import opened RelayInvariants
  import opened RelayTheorems
  import opened RelayRefinement
  import opened RelayClosing
  import Race = RelayRace

  /** Any connected peer that knows the id of a stored session can close it, an end of it or not. */
  lemma AnyPeerMayClose(s: State, p: PeerId, id: SessionId)
    requires Inv(s) && p in s.peers && s.peers[p].pc.Loop? && id != [] && id in s.sessions
    ensures var t := Exec(Exec(s, AskToClose(p, id)), Go(p, []));
            var x := s.sessions[id];
            && t.sessions == s.sessions - {id} && WiresOf(t) == WiresOf(s)
            && p in t.peers && t.peers[p].pc == CloseNotifyClient(x, ToLoop)
  {
    hide Exec, Apply;
    assert Joined(s, id);
    hide Inv;
    ReadStep(s, p, AskToClose(p, id).input);
    var s1 := Exec(s, AskToClose(p, id));
    DeleteMove(s1, p, id);
    OwnStep(s1, p, [], Move(SessionDelete(s.sessions[id]), CloseNotifyClient(s.sessions[id], ToLoop)));
    DeleteSessions(s1, p, s.sessions[id]);
  }

  lemma DeleteMove(s: State, p: PeerId, id: SessionId)
    requires p in s.peers && s.peers[p].pc == CloseDelete(id, ToLoop) && id in s.sessions
    ensures Step(s, p, []) == Some(Move(SessionDelete(s.sessions[id]), CloseNotifyClient(s.sessions[id], ToLoop)))
  {
  }

  lemma DeleteSessions(s: State, p: PeerId, x: Session)
    ensures Apply(s, p, SessionDelete(x)).sessions == s.sessions - {x.id}
  {
  }

  /** The message reached q if its connection was open, and nothing else was written. */
  ghost predicate Delivered(s: State, t: State, q: PeerId, m: Message) {
    forall k :: k in s.peers ==>
                  && k in t.peers && t.peers[k].open == s.peers[k].open
                  && t.peers[k].out == if k == q && s.peers[k].open then s.peers[k].out + [m] else s.peers[k].out
  }

  lemma WrittenIsDelivered(s: State, t: State, q: PeerId, m: Message)
    requires WiresOf(t) == Written(WiresOf(s), q, m)
    ensures Delivered(s, t, q, m)
  {
    forall k | k in s.peers
      ensures k in t.peers && t.peers[k].open == s.peers[k].open
      ensures t.peers[k].out == if k == q && s.peers[k].open then s.peers[k].out + [m] else s.peers[k].out
    {
      assert k in WiresOf(s) && k in WiresOf(t) && WiresOf(t)[k] == Written(WiresOf(s), q, m)[k];
    }
  }

  lemma NotifyStep(s: State, p: PeerId, q: PeerId, id: SessionId, next: Pc)
    requires p in s.peers && Step(s, p, []) == Some(Move(Notify(q, id), next))
    ensures var t := Exec(s, Go(p, []));
            && t.sessions == s.sessions && p in t.peers && t.peers[p].pc == next
            && Delivered(s, t, q, Text(Control.CloseSession(id)))
  {
    hide Exec, Step;
    OwnStep(s, p, [], Move(Notify(q, id), next));
    WrittenIsDelivered(s, Exec(s, Go(p, [])), q, Text(Control.CloseSession(id)));
  }

  lemma OpenStep(s: State, c: PeerId, x: Session)
    requires c in s.peers && s.peers[c].pc == ClientSendOpen(x) && Sendable(s, x.connector)
    ensures var t := Exec(s, Go(c, []));
            && t.sessions == s.sessions
            && Delivered(s, t, x.connector, Text(SessionOpen(x.id, x.e2ee)))
  {
    hide Exec;
    OwnStep(s, c, [], Move(SendTo(x.connector, Text(SessionOpen(x.id, x.e2ee))), Loop));
    WrittenIsDelivered(s, Exec(s, Go(c, [])), x.connector, Text(SessionOpen(x.id, x.e2ee)));
  }

  /** The notices of one closeSession, sent while the session's client is still in handleClient. */
  lemma NoticesThenOpen(s: State, p: PeerId, c: PeerId, x: Session)
    requires p in s.peers && s.peers[p].pc == CloseNotifyClient(x, ToLoop)
    requires c in s.peers && s.peers[c].pc == ClientSendOpen(x) && x.client != x.connector
    requires Sendable(s, x.connector)
    ensures var t := Exec(Exec(Exec(s, Go(p, [])), Go(p, [])), Go(c, []));
            && t.sessions == s.sessions && x.connector in t.peers
            && t.peers[x.connector].out
               == s.peers[x.connector].out + [Text(Control.CloseSession(x.id)), Text(SessionOpen(x.id, x.e2ee))]
  {
    NotifyStep(s, p, x.client, x.id, CloseNotifyConnector(x, ToLoop));
    OtherExec(s, Go(p, []), c);
    hide Exec, Step;
    var s1 := Exec(s, Go(p, []));
    NotifyLast(s1, p, x);
    OtherExec(s1, Go(p, []), c);
    OpenStep(Exec(s1, Go(p, [])), c, x);
  }

  lemma NotifyLast(s: State, p: PeerId, x: Session)
    requires p in s.peers && s.peers[p].pc == CloseNotifyConnector(x, ToLoop)
    ensures var t := Exec(s, Go(p, []));
            t.sessions == s.sessions && Delivered(s, t, x.connector, Text(Control.CloseSession(x.id)))
  {
    hide Exec;
    NotifyStep(s, p, x.connector, x.id, Loop);
  }

  lemma RunFive(s: State, a: Action, b: Action, c: Action)
    ensures Run(s, [a, b, b, b, c]) == Exec(Exec(Exec(Exec(Exec(s, a), b), b), b), c)
  {
    hide Exec;
    RunThen(s, [], a);
    RunThen(s, [a], b);
    RunThen(s, [a, b], b);
    RunThen(s, [a, b, b], b);
    RunThen(s, [a, b, b, b], c);
    assert [] + [a] == [a] && [a] + [b] == [a, b] && [a, b] + [b] == [a, b, b];
    assert [a, b, b] + [b] == [a, b, b, b] && [a, b, b, b] + [c] == [a, b, b, b, c];
  }

  /** A stored session may be closed between its CONNECT_OK and its SESSION_OPEN. Its connector then
      hears CLOSE_SESSION first and SESSION_OPEN second, although the session is gone. */
  lemma CloseMayPrecedeOpen(s: State, p: PeerId, c: PeerId, x: Session)
    requires Inv(s) && p in s.peers && s.peers[p].pc.Loop?
    requires c in s.peers && s.peers[c].pc == ClientSendOpen(x) && x.id in s.sessions && s.sessions[x.id] == x
    requires Sendable(s, x.connector)
    ensures var t := Run(s, [AskToClose(p, x.id), Go(p, []), Go(p, []), Go(p, []), Go(c, [])]);
            && x.id !in t.sessions && x.connector in t.peers
            && t.peers[x.connector].out
               == s.peers[x.connector].out + [Text(Control.CloseSession(x.id)), Text(SessionOpen(x.id, x.e2ee))]
  {
    hide Exec, Run;
    assert Joined(s, x.id);
    hide Inv;
    AnyPeerMayClose(s, p, x.id);
    var s1 := Exec(s, AskToClose(p, x.id));
    var s2 := Exec(s1, Go(p, []));
    OtherExec(s, AskToClose(p, x.id), c);
    OtherExec(s1, Go(p, []), c);
    assert x.connector in WiresOf(s) && WiresOf(s2)[x.connector] == WiresOf(s)[x.connector];
    NoticesThenOpen(s2, p, c, x);
    RunFive(s, AskToClose(p, x.id), Go(p, []), Go(c, []));
  }

  /** A connector that registers under a taken hash owns the entry at once, and by its second step,
      whatever runs in between, the connection of the one it replaced is closed. */
  lemma ReplacedIsClosed(s: State, p: PeerId, hash: Bytes, entry: Entry, q: PeerId, between: seq<Action>)
    requires Inv(s) && p in s.peers && s.peers[p].pc == TunnelSet(hash, entry)
    requires hash in s.auth && s.auth[hash].peer == q && q != p && OthersOnly(between, p)
    ensures var s1 := Exec(s, Go(p, []));
            var t := Exec(Run(s1, between), Go(p, []));
            && hash in s1.auth && s1.auth[hash] == entry
            && q in t.peers && !t.peers[q].open && p in t.peers && t.peers[p].pc == Loop
  {
    hide Exec, Run, Apply, Step, Grows, WiresOf, WiresAfter;
    assert AuthTyped(s);
    hide Inv;
    RegisterStep(s, p, hash, entry);
    var m := Move(AuthSet(hash, entry), TunnelClosePrevious(q));
    OwnStep(s, p, [], m);
    ApplyAuth(s, p, m.access);
    ExecInv(s, Go(p, []));
    var s1 := Exec(s, Go(p, []));
    RoleStays(s, s1, q);
    OthersKeep(s1, between, p);
    Race.RunGrows(s1, between);
    var s2 := Run(s1, between);
    RoleStays(s1, s2, q);
    CloseStep(s2, p, q);
  }

  lemma RegisterStep(s: State, p: PeerId, hash: Bytes, entry: Entry)
    requires p in s.peers && s.peers[p].pc == TunnelSet(hash, entry)
    requires hash in s.auth && s.auth[hash].peer != p
    ensures Step(s, p, []) == Some(Move(AuthSet(hash, entry), TunnelClosePrevious(s.auth[hash].peer)))
  {
  }

  lemma CloseStep(s: State, p: PeerId, q: PeerId)
    requires p in s.peers && q in s.peers && s.peers[p].pc == TunnelClosePrevious(q)
    ensures var t := Exec(s, Go(p, []));
            q in t.peers && !t.peers[q].open && p in t.peers && t.peers[p].pc == Loop
  {
    hide Exec;
    OwnStep(s, p, [], Move(Access.CloseConn(q), Loop));
    var t := Exec(s, Go(p, []));
    assert q in WiresOf(s) && q in WiresOf(t) && WiresOf(t)[q] == WiresOf(s)[q].(open := false);
  }
}
