/** Runs in which connectors send DATA only for sessions that have been announced. The
    composition shows that the bridge is such a connector; session ids are unguessable only
    by assumption, so the relay alone cannot enforce it. */
module RelayOrdering {
  import opened Protocol
  import opened DataFrame
  import opened RelaySystem
  import opened RelayInvariants
  import opened RelayRouting
  import opened RelayTheorems

  /** A frame that this action has a connector send names an announced session. */
  ghost predicate Honest(s: State, a: Action) {
    a.Read? && a.input.Data? && HasRole(s, a.peer, Connector) && ParseDataFrame(a.input.frame).Ok? ==>
      Announced(s, ParseDataFrame(a.input.frame).value.sessionId)
  }

  /** A connector's goroutine that handles a frame handles one for an announced session. */
  ghost predicate Truthful(s: State, p: PeerId)
    requires p in s.peers
  {
    s.peers[p].role == Connector ==>
      match s.peers[p].pc
      case RouteGet(_, id) => Announced(s, id)
      case RouteSend(_, id, _) => Announced(s, id)
      case _ => true
  }

  /** The client is told its session id before it gets the session's first frame. */
  ghost predicate ConfirmFirst(s: State, q: PeerId)
    requires q in s.peers
  {
    s.peers[q].role == Client ==>
      forall j, id {:trigger Carries(s.peers[q].out[j], id)} ::
        0 <= j < |s.peers[q].out| && Carries(s.peers[q].out[j], id) ==> ConfirmedBefore(s.peers[q].out, j, id)
  }

  ghost predicate Sound(s: State, p: PeerId)
    requires p in s.peers
  {
    Truthful(s, p) && ConfirmFirst(s, p)
  }

  ghost predicate HonestInv(s: State) {
    forall p {:trigger Sound(s, p)} :: p in s.peers ==> Sound(s, p)
  }

  /** SESSION_OPEN is sent after CONNECT_OK, so an announced session is a confirmed one. */
  lemma AnnouncedIsConfirmed(s: State, id: SessionId)
    requires MessagesInv(s) && Announced(s, id)
    ensures Confirmed(s, id)
  {
    var k := s.created[id].connector;
    var i :| 0 <= i < |s.peers[k].out| && Opens(s.peers[k].out[i], id);
    assert MessageInv(s, k, s.peers[k].out[i]);
  }

  lemma TruthfulStable(s: State, t: State, p: PeerId)
    requires p in s.peers && Truthful(s, p) && Grows(s, t) && t.peers[p].pc == s.peers[p].pc
    ensures Truthful(t, p)
  {
    hide Grows;
    RoleStays(s, t, p);
    match s.peers[p].pc
    case RouteGet(_, id) => if s.peers[p].role == Connector { AnnouncedStable(s, t, id); }
    case RouteSend(_, id, _) => if s.peers[p].role == Connector { AnnouncedStable(s, t, id); }
    case _ =>
  }

  lemma MoveTruthful(s: State, t: State, a: Action)
    requires Basic(s) && HonestInv(s) && Honest(s, a) && MoveOf(s, a).Some?
    requires Grows(s, t) && t.peers[a.peer].pc == MoveOf(s, a).value.pc
    ensures Truthful(t, a.peer)
  {
    hide Basic, Grows;
    RoleStays(s, t, a.peer);
    var p, m := a.peer, MoveOf(s, a).value;
    assert Sound(s, p);
    if s.peers[p].role == Connector {
      match m.pc
      case RouteGet(_, id) => AnnouncedStable(s, t, id);
      case RouteSend(_, id, _) => AnnouncedStable(s, t, id);
      case _ =>
    }
  }

  lemma WritesConfirmFirst(s: State, t: State, p: PeerId, m: Move, q: PeerId)
    requires Basic(s) && Routing(s) && p in s.peers && Writes(s, t, p, m) && Warranted(s, p, m)
    requires Truthful(s, p) && q in s.peers && ConfirmFirst(s, q)
    ensures ConfirmFirst(t, q)
  {
    var a, b := s.peers[q].out, t.peers[q].out;
    if t.peers[q].role == Client {
      forall j, id | 0 <= j < |b| && Carries(b[j], id) ensures ConfirmedBefore(b, j, id) {
        if j < |a| {
          assert Carries(a[j], id);
          ConfirmedGrows(a, b, j, j, id);
        } else {
          assert At(s, p) && Joined(s, id);
          AnnouncedIsConfirmed(s, id);
          ConfirmedGrows(a, b, |a|, j, id);
        }
      }
    }
  }

  lemma ExecHonest(s: State, a: Action)
    requires Inv(s) && HonestInv(s) && Honest(s, a)
    ensures HonestInv(Exec(s, a))
  {
    var t := Exec(s, a);
    ExecInv(s, a);
    ExecCases(s, a);
    if MoveOf(s, a).Some? {
      var p, m := a.peer, MoveOf(s, a).value;
      MoveLegit(s, a);
      MoveWarranted(s, a);
      PerformWrites(s, p, m);
      forall q | q in t.peers ensures Sound(t, q) {
        assert Sound(s, q) && Sound(s, p);
        if q == p {
          MoveTruthful(s, t, a);
        } else {
          TruthfulStable(s, t, q);
        }
        WritesConfirmFirst(s, t, p, m, q);
      }
    } else {
      forall q | q in t.peers ensures Sound(t, q) {
        if q in s.peers {
          assert Sound(s, q);
          TruthfulStable(s, t, q);
        }
      }
    }
  }
}
