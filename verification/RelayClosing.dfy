/** Who closes a session, and in which order its connector hears SESSION_OPEN and CLOSE_SESSION. */
module RelayClosing {
  import opened Protocol
  import opened DataFrame
  import opened RelaySystem
  import opened RelayInvariants
  import opened RelayNotices
  import opened RelayRouting
  import opened RelayTheorems
  import opened RelayOrdering
  import Race = RelayRace

  function AskToClose(p: PeerId, id: SessionId): Action {
    Read(p, Input.Control(Control.CloseSession(id)))
  }

  /** At action i the goroutine of p reads CLOSE_SESSION for this session. */
  ghost predicate Asked(actions: seq<Action>, i: nat, p: PeerId, id: SessionId) {
    && i < |actions| && actions[i] == AskToClose(p, id)
    && p in After(actions, i).peers && After(actions, i).peers[p].pc.Loop?
  }

  ghost predicate AskedBefore(actions: seq<Action>, n: nat, p: PeerId, id: SessionId) {
    exists i :: 0 <= i < n && Asked(actions, i, p, id)
  }

  // ----- who closes -----

  /** The goroutine is about to delete the session in closeSession. */
  predicate AboutToClose(pc: Pc, id: SessionId) {
    pc.CloseDelete? && pc.sessionId == id
  }

  /** closeSession is called for an end of the session, or for a peer that asks for it. */
  lemma WhoCloses(s: State, a: Action, id: SessionId)
    requires Basic(s) && MoveOf(s, a).Some? && AboutToClose(MoveOf(s, a).value.pc, id)
    requires !AboutToClose(s.peers[a.peer].pc, id)
    ensures IsEnd(s, id, a.peer) || (a == AskToClose(a.peer, id) && s.peers[a.peer].pc.Loop?)
  {
    hide StoreInv, SessionInv, AuthTyped;
    assert At(s, a.peer);
  }

  lemma {:induction false} CloserIsEndOrAsked(actions: seq<Action>, n: nat, p: PeerId, id: SessionId)
    requires n <= |actions| && p in After(actions, n).peers && AboutToClose(After(actions, n).peers[p].pc, id)
    ensures IsEnd(After(actions, n), id, p) || AskedBefore(actions, n, p, id)
    decreases n
  {
    hide Run, Exec, Basic, Step, AboutToClose;
    if n == 0 {
      AfterNone(actions);
    } else {
      var s, a := After(actions, n - 1), actions[n - 1];
      AfterStep(actions, n - 1);
      AfterInv(actions, n - 1);
      if p !in s.peers {
        Race.JoinsAtTop(s, a, p);
        JoinersDoNotClose(After(actions, n).peers[p].pc, id);
      } else {
        Race.PcChange(s, a, p);
        if AboutToClose(s.peers[p].pc, id) {
          CloserIsEndOrAsked(actions, n - 1, p, id);
        } else {
          WhoCloses(s, a, id);
          assert a == AskToClose(p, id) && s.peers[p].pc.Loop? ==> Asked(actions, n - 1, p, id);
        }
        if IsEnd(s, id, p) {
          AfterGrows(actions, n - 1, n);
        }
      }
    }
  }

  lemma JoinersDoNotClose(pc: Pc, id: SessionId)
    requires pc.TunnelAdd? || pc.ClientAdd?
    ensures !AboutToClose(pc, id)
  {
  }

  /** A session is removed by a goroutine in closeSession, or by the cleanup of one of its ends. */
  lemma RemovalStep(s: State, a: Action, id: SessionId)
    requires Basic(s) && id !in s.removed && id in Exec(s, a).removed
    ensures a.peer in s.peers && Exec(s, a).removed[id].remover == a.peer
    ensures || AboutToClose(s.peers[a.peer].pc, id)
            || (IsEnd(s, id, a.peer) && s.peers[a.peer].pc == CleanSessions
                && Exec(s, a).removed[id] == ByCleanup(a.peer))
  {
    hide Exec, Step;
    ExecCases(s, a);
    if MoveOf(s, a).Some? {
      var p, m := a.peer, MoveOf(s, a).value;
      hide Apply, Justified;
      MoveJustified(s, a);
      ApplyRemoved(s, p, m.access);
      if m.access.SessionDelete? {
        DeletingMove(s, a);
      } else {
        CleaningMove(s, a);
      }
    }
  }

  lemma DeletingMove(s: State, a: Action)
    requires Basic(s) && MoveOf(s, a).Some? && MoveOf(s, a).value.access.SessionDelete?
    ensures AboutToClose(s.peers[a.peer].pc, MoveOf(s, a).value.access.session.id)
  {
    EstablishingMove(s, a);
    assert Joined(s, s.peers[a.peer].pc.sessionId);
  }

  lemma CleaningMove(s: State, a: Action)
    requires MoveOf(s, a).Some?
    ensures MoveOf(s, a).value.access.SessionDeleteByPeer? ==> s.peers[a.peer].pc == CleanSessions
  {
  }

  /** In every run a session is removed only by one of its two ends, or by a peer that had read
      CLOSE_SESSION for it: the one guard that handleControl lacks. */
  lemma {:induction false} RemoverIsEndOrAsked(actions: seq<Action>, n: nat, id: SessionId)
    requires n <= |actions| && id in After(actions, n).removed
    ensures var p := After(actions, n).removed[id].remover;
            IsEnd(After(actions, n), id, p) || AskedBefore(actions, n, p, id)
    decreases n
  {
    hide Run, Exec, Basic;
    if n == 0 {
      AfterNone(actions);
    } else {
      var s := After(actions, n - 1);
      AfterStep(actions, n - 1);
      AfterInv(actions, n - 1);
      AfterGrows(actions, n - 1, n);
      if id in s.removed {
        RemoverIsEndOrAsked(actions, n - 1, id);
      } else {
        RemovalStep(s, actions[n - 1], id);
        if AboutToClose(s.peers[actions[n - 1].peer].pc, id) {
          CloserIsEndOrAsked(actions, n - 1, actions[n - 1].peer, id);
        }
      }
    }
  }

  // ----- close notices on the channel -----

  function CloseCount(out: seq<Message>, id: SessionId): nat {
    if out == [] then 0
    else CloseCount(out[..|out| - 1], id) + if Closes(out[|out| - 1], id) then 1 else 0
  }

  lemma CloseCountSnoc(out: seq<Message>, m: Message, id: SessionId)
    ensures CloseCount(out + [m], id) == CloseCount(out, id) + if Closes(m, id) then 1 else 0
  {
    assert (out + [m])[..|out|] == out;
  }

  lemma {:induction false} CountedIfPresent(out: seq<Message>, id: SessionId)
    ensures CloseCount(out, id) > 0 <==> exists i :: 0 <= i < |out| && Closes(out[i], id)
  {
    if out != [] {
      var before := out[..|out| - 1];
      CountedIfPresent(before, id);
      if i :| 0 <= i < |before| && Closes(before[i], id) {
        assert Closes(out[i], id);
      }
      if i :| 0 <= i < |out| && Closes(out[i], id) {
        assert i < |before| ==> Closes(before[i], id);
      }
      if Closes(out[|out| - 1], id) {
        assert 0 <= |out| - 1 < |out|;
      }
    }
  }

  /** Every attempted notice is on the channel while the connection is open. */
  ghost predicate Tidy(q: Peer) {
    forall id {:trigger q.notices[id]} ::
      CloseCount(q.out, id) <= q.notices[id] && (q.open ==> CloseCount(q.out, id) == q.notices[id])
  }

  ghost predicate AllTidy(s: State) {
    forall q {:trigger s.peers[q]} :: q in s.peers ==> Tidy(s.peers[q])
  }

  lemma PeerAfterTidy(q: Peer, access: Access)
    requires Tidy(q) && (access.SendTo? ==> forall id :: !Closes(access.message, id))
    ensures Tidy(PeerAfter(q, access))
  {
    hide Closes, CloseCount;
    var t := PeerAfter(q, access);
    forall id ensures CloseCount(t.out, id) <= t.notices[id] && (t.open ==> CloseCount(t.out, id) == t.notices[id]) {
      assert CloseCount(q.out, id) <= q.notices[id];
      if access.SendTo? {
        CloseCountSnoc(q.out, access.message, id);
      } else if access.Notify? {
        CloseCountSnoc(q.out, Text(CloseSession(access.id)), id);
        NoticeCloses(access.id, id);
      }
    }
  }

  lemma NoticeCloses(id: SessionId, other: SessionId)
    ensures Closes(Text(CloseSession(id)), other) <==> id == other
  {
  }

  lemma SendsNoClose(s: State, a: Action)
    requires MoveOf(s, a).Some? && MoveOf(s, a).value.access.SendTo?
    ensures forall id :: !Closes(MoveOf(s, a).value.access.message, id)
  {
  }

  lemma ExecTidy(s: State, a: Action)
    requires AllTidy(s)
    ensures AllTidy(Exec(s, a))
  {
    hide Exec, Step, Tidy;
    var t := Exec(s, a);
    ExecCases(s, a);
    if MoveOf(s, a).Some? {
      var p, m := a.peer, MoveOf(s, a).value;
      hide Apply, PeerAfter;
      if m.access.SendTo? {
        SendsNoClose(s, a);
      }
      ApplyTouches(s, p, m.access);
      forall q | q in t.peers ensures Tidy(t.peers[q]) {
        PeerAfterTidy(s.peers[q], m.access);
        GotoTidy(Apply(s, p, m.access).peers[q], m.pc);
      }
    } else {
      NewPeerTidy();
    }
  }

  lemma GotoTidy(q: Peer, pc: Pc)
    requires Tidy(q)
    ensures Tidy(q.(pc := pc))
  {
  }

  lemma NewPeerTidy()
    ensures forall role, pc :: Tidy(Peer(role, pc, true, [], [], multiset{}, None))
  {
  }

  lemma {:induction false} AfterTidy(actions: seq<Action>, n: nat)
    requires n <= |actions|
    ensures AllTidy(After(actions, n))
    decreases n
  {
    hide Run, Exec, Tidy;
    if n == 0 {
      AfterNone(actions);
    } else {
      AfterTidy(actions, n - 1);
      AfterStep(actions, n - 1);
      ExecTidy(After(actions, n - 1), actions[n - 1]);
    }
  }

  // ----- SESSION_OPEN against CLOSE_SESSION -----

  /** The client c is about to send SESSION_OPEN for its session. */
  ghost predicate AboutToOpen(s: State, x: Session) {
    x.client in s.peers && s.peers[x.client].pc == ClientSendOpen(x) && Created(s, x)
  }

  /** What one action adds to one channel. */
  lemma ChannelStep(s: State, a: Action, q: PeerId)
    requires Inv(s) && q in s.peers
    ensures q in Exec(s, a).peers
    ensures Exec(s, a).peers[q].out != s.peers[q].out ==>
              && MoveOf(s, a).Some? && Sent(MoveOf(s, a).value.access).Some?
              && Sent(MoveOf(s, a).value.access).value.0 == q && s.peers[q].open
              && Exec(s, a).peers[q].out == s.peers[q].out + [Sent(MoveOf(s, a).value.access).value.1]
              && Warranted(s, a.peer, MoveOf(s, a).value)
  {
    hide Exec, Step;
    ExecCases(s, a);
    if MoveOf(s, a).Some? {
      hide Apply, Legit, Warranted, Writes;
      MoveLegit(s, a);
      MoveWarranted(s, a);
      PerformWrites(s, a.peer, MoveOf(s, a).value);
      assert Exec(s, a) == s || Exec(s, a) == Perform(s, a.peer, MoveOf(s, a).value);
      WritesOut(s, Perform(s, a.peer, MoveOf(s, a).value), a.peer, MoveOf(s, a).value, q);
    }
  }

  lemma WritesOut(s: State, t: State, p: PeerId, m: Move, q: PeerId)
    requires p in s.peers && q in s.peers && Writes(s, t, p, m)
    ensures q in t.peers
    ensures t.peers[q].out == if Sent(m.access).Some? && Sent(m.access).value.0 == q && s.peers[q].open
                              then s.peers[q].out + [Sent(m.access).value.1] else s.peers[q].out
  {
  }

  /** The action that put the j-th message on q's channel. */
  lemma {:induction false} SendingStep(actions: seq<Action>, n: nat, q: PeerId, j: nat) returns (m: nat)
    requires n <= |actions| && q in After(actions, n).peers && j < |After(actions, n).peers[q].out|
    ensures m < n && q in After(actions, m).peers
    ensures After(actions, m).peers[q].out == After(actions, n).peers[q].out[..j]
    ensures q in After(actions, m + 1).peers
    ensures After(actions, m + 1).peers[q].out == After(actions, n).peers[q].out[..j + 1]
    decreases n
  {
    hide Run, Exec, Inv;
    if n == 0 {
      AfterNone(actions);
      assert false;
    } else {
      var s, t := After(actions, n - 1), After(actions, n);
      AfterInv(actions, n - 1);
      AfterStep(actions, n - 1);
      if q !in s.peers {
        NewChannelIsEmpty(s, actions[n - 1], q);
        assert false;
      } else {
        ChannelStep(s, actions[n - 1], q);
        if j < |s.peers[q].out| {
          m := SendingStep(actions, n - 1, q, j);
        } else {
          m := n - 1;
        }
      }
    }
  }

  lemma NewChannelIsEmpty(s: State, a: Action, q: PeerId)
    requires q !in s.peers && q in Exec(s, a).peers
    ensures Exec(s, a).peers[q].out == []
  {
    hide Exec, Step;
    ExecCases(s, a);
    if MoveOf(s, a).Some? {
      ApplyFrame(s, a.peer, MoveOf(s, a).value.access);
    }
  }

  /** SESSION_OPEN is put on a channel only by the client that created the session, in handleClient. */
  lemma OpeningStep(actions: seq<Action>, n: nat, k: PeerId, j: nat, id: SessionId) returns (m: nat, x: Session)
    requires n <= |actions| && k in After(actions, n).peers && j < |After(actions, n).peers[k].out|
    requires Opens(After(actions, n).peers[k].out[j], id)
    ensures m < n && x.id == id && x.connector == k && AboutToOpen(After(actions, m), x)
    ensures actions[m].peer == x.client && Sendable(After(actions, m), k)
    ensures After(actions, m).peers[k].out == After(actions, n).peers[k].out[..j]
    ensures k in After(actions, m + 1).peers
    ensures After(actions, m + 1).peers[k].out == After(actions, n).peers[k].out[..j + 1]
  {
    hide Run, Exec, Inv, Step;
    m := SendingStep(actions, n, k, j);
    var s := After(actions, m);
    AfterInv(actions, m);
    AfterStep(actions, m);
    ChannelStep(s, actions[m], k);
    assert After(actions, m + 1).peers[k].out[j] == After(actions, n).peers[k].out[j];
    x := s.peers[actions[m].peer].pc.session;
    OpenerIsClient(s, actions[m].peer);
  }

  lemma OpenerIsClient(s: State, p: PeerId)
    requires Inv(s) && p in s.peers && s.peers[p].pc.ClientSendOpen?
    ensures AboutToOpen(s, s.peers[p].pc.session) && s.peers[p].pc.session.client == p
  {
    assert Basic(s) && At(s, p);
  }

  /** The session has left the store, and its notice to the end e has been attempted. */
  ghost predicate ClosedTowards(s: State, id: SessionId, e: PeerId) {
    id !in s.sessions && Debtors(s, id, e) == {} && !Waived(s, id, e)
  }

  lemma ClosedTowardsIff(s: State, id: SessionId, e: PeerId)
    requires Inv(s) && AllTidy(s) && IsEnd(s, id, e) && Sendable(s, e)
    ensures ClosedTowards(s, id, e) <==> exists i :: 0 <= i < |s.peers[e].out| && Closes(s.peers[e].out[i], id)
  {
    hide Tidy, Routing;
    Conservation(s, id, e);
    CountedIfPresent(s.peers[e].out, id);
    OpenIsExact(s.peers[e], id);
  }

  lemma OpenIsExact(q: Peer, id: SessionId)
    requires Tidy(q) && q.open
    ensures CloseCount(q.out, id) == q.notices[id]
  {
  }

  /** Exactly when a connector hears CLOSE_SESSION before SESSION_OPEN: when handleClient, at the very
      action that puts SESSION_OPEN on the channel, finds the session gone from the store and the connector
      already told. */
  lemma CloseBeforeOpenIff(actions: seq<Action>, k: PeerId, j: nat, id: SessionId) returns (m: nat, x: Session)
    requires k in After(actions, |actions|).peers && j < |After(actions, |actions|).peers[k].out|
    requires Opens(After(actions, |actions|).peers[k].out[j], id)
    ensures m < |actions| && x.id == id && x.connector == k && actions[m].peer == x.client
    ensures AboutToOpen(After(actions, m), x)
    ensures var out := After(actions, |actions|).peers[k].out;
            && k in After(actions, m).peers && After(actions, m).peers[k].out == out[..j]
            && k in After(actions, m + 1).peers && After(actions, m + 1).peers[k].out == out[..j + 1]
    ensures ClosedTowards(After(actions, m), id, k) <==>
            exists i :: 0 <= i < j && Closes(After(actions, |actions|).peers[k].out[i], id)
  {
    hide Run, Exec, Inv, ClosedTowards, AllTidy;
    m, x := OpeningStep(actions, |actions|, k, j, id);
    AfterInv(actions, m);
    AfterTidy(actions, m);
    ClosedTowardsIff(After(actions, m), id, k);
    var out := After(actions, |actions|).peers[k].out;
    assert forall i :: 0 <= i < j ==> out[..j][i] == out[i];
  }

  // ----- when SESSION_OPEN does come first -----

  /** Nobody asks to close the session before SESSION_OPEN has been sent for it. (Its client cannot: it
      reads nothing before that.) */
  ghost predicate AskedOnlyWhenOpen(actions: seq<Action>, id: SessionId) {
    forall i, p :: Asked(actions, i, p, id) ==> Announced(After(actions, i), id)
  }

  ghost predicate HonestRun(actions: seq<Action>) {
    forall i {:trigger After(actions, i)} :: 0 <= i < |actions| ==> Honest(After(actions, i), actions[i])
  }

  /** The goroutine is in handleClient between inserting the session and sending SESSION_OPEN. */
  predicate Opener(pc: Pc, x: Session) {
    (pc.ClientSendOk? && pc.session == x) || pc == ClientSendOpen(x)
  }

  ghost predicate Opening(s: State, id: SessionId) {
    id in s.created && s.created[id].client in s.peers && Opener(s.peers[s.created[id].client].pc, s.created[id])
  }

  /** No SESSION_OPEN for the session comes after a CLOSE_SESSION for it. */
  ghost predicate OpensFirst(out: seq<Message>, id: SessionId) {
    forall i, j :: 0 <= i < |out| && 0 <= j < |out| && Closes(out[i], id) && Opens(out[j], id) ==> j < i
  }

  /** While a session is being opened SESSION_OPEN has not been sent for it. */
  ghost predicate Unannounced(s: State, id: SessionId) {
    Opening(s, id) ==> !Announced(s, id)
  }

  ghost predicate ClosesLater(s: State, p: PeerId, id: SessionId)
    requires p in s.peers
  {
    AboutToClose(s.peers[p].pc, id) ==> id in s.created && !Opening(s, id)
  }

  /** While a session is being opened nobody is about to close it, it is gone at most because its connector
      is, and SESSION_OPEN has not been sent. */
  ghost predicate Orderly(s: State, id: SessionId) {
    && (forall p {:trigger ClosesLater(s, p, id)} :: p in s.peers ==> ClosesLater(s, p, id))
    && Unannounced(s, id)
    && (Opening(s, id) && id in s.removed ==> s.removed[id] == ByCleanup(s.created[id].connector))
    && (forall q {:trigger OpensFirst(s.peers[q].out, id)} :: q in s.peers ==> OpensFirst(s.peers[q].out, id))
  }

  lemma PcAfter(s: State, a: Action, q: PeerId)
    requires q in s.peers
    ensures q in Exec(s, a).peers && Exec(s, a).peers[q].role == s.peers[q].role
    ensures Exec(s, a).peers[q].pc == if MoveOf(s, a).Some? && a.peer == q then MoveOf(s, a).value.pc else s.peers[q].pc
  {
    hide MoveOf, Perform;
    if MoveOf(s, a).Some? {
      MoveIsNoAccept(s, a);
      PerformPcs(s, a.peer, MoveOf(s, a).value);
    }
  }

  lemma MoveIsNoAccept(s: State, a: Action)
    requires MoveOf(s, a).Some?
    ensures !a.Accept? && a.peer in s.peers
  {
    hide Step;
  }

  /** A goroutine that is opening the session after its move was opening it before, and has not sent
      SESSION_OPEN. */
  lemma OpenerMove(s: State, a: Action, id: SessionId)
    requires id in s.created && MoveOf(s, a).Some? && s.peers[a.peer].mine == Some(id) && At(s, a.peer)
    requires Opener(MoveOf(s, a).value.pc, s.created[id])
    ensures Opener(s.peers[a.peer].pc, s.created[id])
    ensures var sent := Sent(MoveOf(s, a).value.access); sent.None? || !Opens(sent.value.1, id)
  {
  }

  lemma OpeningBefore(s: State, a: Action, id: SessionId)
    requires Inv(s) && Opening(Exec(s, a), id) && id in s.created
    ensures Opening(s, id)
    ensures MoveOf(s, a).Some? && a.peer == s.created[id].client ==>
              var sent := Sent(MoveOf(s, a).value.access); sent.None? || !Opens(sent.value.1, id)
  {
    hide Exec, MoveOf, Opener;
    var x := s.created[id];
    ClientOf(s, id);
    CreatedKept(s, a, id);
    PcAfter(s, a, x.client);
    if MoveOf(s, a).Some? && a.peer == x.client {
      OpenerMove(s, a, id);
    }
  }

  lemma ClientOf(s: State, id: SessionId)
    requires Inv(s) && id in s.created
    ensures var x := s.created[id];
            && x.id == id && x.client in s.peers && s.peers[x.client].mine == Some(id) && At(s, x.client)
            && HasRole(s, x.client, Client) && HasRole(s, x.connector, Connector)
  {
    assert Basic(s) && Joined(s, id);
    assert At(s, s.created[id].client);
  }

  lemma CreatedKept(s: State, a: Action, id: SessionId)
    requires Inv(s) && id in s.created
    ensures id in Exec(s, a).created && Exec(s, a).created[id] == s.created[id]
  {
    hide Exec;
    ExecBasic(s, a);
    StaysCreated(s, Exec(s, a), id);
  }

  // ----- what each step keeps -----

  /** The action does not ask to close a session that has not been opened. */
  ghost predicate AsksInTime(s: State, a: Action, id: SessionId) {
    a == AskToClose(a.peer, id) && a.peer in s.peers && s.peers[a.peer].pc.Loop? ==> Announced(s, id)
  }

  /** A goroutine that is about to close a session that is being opened got there by giving it up. */
  lemma ClosersMove(s: State, a: Action, id: SessionId)
    requires Inv(s) && HonestInv(s) && Orderly(s, id) && AsksInTime(s, a, id)
    requires MoveOf(s, a).Some? && AboutToClose(MoveOf(s, a).value.pc, id)
    ensures id in s.created
    ensures Opening(s, id) ==> a.peer == s.created[id].client
  {
    hide MoveOf, Announced, OpensFirst, AboutToClose;
    var p := a.peer;
    MoveIsNoAccept(s, a);
    assert ClosesLater(s, p, id) && Basic(s);
    if !AboutToClose(s.peers[p].pc, id) {
      WhoCloses(s, a, id);
      if Announced(s, id) {
        AnnouncedIsCreated(s, id);
      } else {
        ClientOf(s, id);
        if p == s.created[id].connector {
          ConnectorCloses(s, a, id);
        }
      }
    }
  }

  lemma AnnouncedIsCreated(s: State, id: SessionId)
    requires Announced(s, id)
    ensures id in s.created
  {
  }

  lemma ConnectorsDoNotOpen(s: State, p: PeerId)
    requires Basic(s) && HasRole(s, p, Connector)
    ensures !s.peers[p].pc.ClientSendOk? && !s.peers[p].pc.ClientSendOpen?
  {
    assert At(s, p);
    forall id | id in s.created ensures HasRole(s, s.created[id].client, Client) {
      assert Joined(s, id);
    }
  }

  /** An honest connector gives up a session only after it has been announced. */
  lemma ConnectorCloses(s: State, a: Action, id: SessionId)
    requires Basic(s) && HonestInv(s) && MoveOf(s, a).Some? && AboutToClose(MoveOf(s, a).value.pc, id)
    requires !AboutToClose(s.peers[a.peer].pc, id) && HasRole(s, a.peer, Connector)
    ensures Announced(s, id) || (a == AskToClose(a.peer, id) && s.peers[a.peer].pc.Loop?)
  {
    hide Announced;
    assert Sound(s, a.peer);
    ConnectorsDoNotOpen(s, a.peer);
    hide Basic, HonestInv;
  }

  lemma KeepsClosesLater(s: State, a: Action, id: SessionId, p: PeerId)
    requires Inv(s) && HonestInv(s) && Orderly(s, id) && AsksInTime(s, a, id) && p in Exec(s, a).peers
    ensures ClosesLater(Exec(s, a), p, id)
  {
    hide Exec, MoveOf, Inv, HonestInv, Announced, OpensFirst, Opener;
    var t := Exec(s, a);
    if p !in s.peers {
      Race.JoinsAtTop(s, a, p);
    } else if AboutToClose(t.peers[p].pc, id) {
      PcAfter(s, a, p);
      assert ClosesLater(s, p, id);
      if MoveOf(s, a).Some? && a.peer == p {
        ClosersMove(s, a, id);
      }
      CreatedKept(s, a, id);
      if Opening(t, id) {
        OpeningBefore(s, a, id);
        CloserDoesNotOpen(t.peers[p].pc, id);
        assert false;
      }
    }
  }

  lemma CloserDoesNotOpen(pc: Pc, id: SessionId)
    requires AboutToClose(pc, id)
    ensures forall x :: !Opener(pc, x)
  {
  }

  /** SESSION_OPEN is sent for a session only while it is being opened, by its client. */
  lemma OpenSender(s: State, p: PeerId, m: Move, id: SessionId)
    requires Inv(s) && p in s.peers && Warranted(s, p, m) && Sent(m.access).Some? && Opens(Sent(m.access).value.1, id)
    ensures Opening(s, id) && p == s.created[id].client && Sent(m.access).value.0 == s.created[id].connector
  {
    hide Inv;
    var x := s.peers[p].pc.session;
    OpenerIsClient(s, p);
  }

  lemma StaysUnannounced(s: State, a: Action, id: SessionId)
    requires Inv(s) && Unannounced(s, id) && Opening(Exec(s, a), id) && id in s.created
    ensures !Announced(Exec(s, a), id)
  {
    hide Exec, MoveOf, Inv, OpensFirst, ClosesLater, Warranted, Opening;
    var t := Exec(s, a);
    OpeningBefore(s, a, id);
    CreatedKept(s, a, id);
    ClientOf(s, id);
    var k := s.created[id].connector;
    ChannelStep(s, a, k);
    if MoveOf(s, a).Some? && t.peers[k].out != s.peers[k].out {
      MoveIsNoAccept(s, a);
      if Opens(t.peers[k].out[|s.peers[k].out|], id) {
        OpenSender(s, a.peer, MoveOf(s, a).value, id);
        assert false;
      }
    }
  }

  lemma NewIsUnannounced(s: State, a: Action, id: SessionId)
    requires Inv(s) && id !in s.created && id in Exec(s, a).created
    ensures !Announced(Exec(s, a), id)
  {
    hide Exec, Inv, Warranted;
    var t := Exec(s, a);
    Race.CreationStep(s, a, id);
    var k := t.created[id].connector;
    if k in s.peers {
      ChannelStep(s, a, k);
      if MoveOf(s, a).Some? {
        InsertSendsNothing(s, a);
      }
      if j: nat :| j < |s.peers[k].out| && Opens(s.peers[k].out[j], id) {
        OpenIsOfCreated(s, k, j, id);
        assert false;
      }
    } else if k in t.peers {
      NewChannelIsEmpty(s, a, k);
    }
  }

  lemma InsertSendsNothing(s: State, a: Action)
    requires a.peer in s.peers && s.peers[a.peer].pc.ClientInsert? && MoveOf(s, a).Some?
    ensures Sent(MoveOf(s, a).value.access).None?
  {
  }

  lemma OpenIsOfCreated(s: State, k: PeerId, j: nat, id: SessionId)
    requires Inv(s) && k in s.peers && j < |s.peers[k].out| && Opens(s.peers[k].out[j], id)
    ensures id in s.created
  {
    assert Routing(s) && MessageInv(s, k, s.peers[k].out[j]);
  }

  /** While it is being opened a session is not removed, unless its connector's cleanup does. */
  lemma StaysForOpening(s: State, a: Action, id: SessionId)
    requires Inv(s) && Orderly(s, id) && Opening(Exec(s, a), id)
    ensures var t := Exec(s, a); id in t.removed ==> t.removed[id] == ByCleanup(t.created[id].connector)
  {
    hide Exec, MoveOf, OpensFirst, Announced;
    var t := Exec(s, a);
    assert Basic(s);
    hide Inv, Basic;
    if id in t.removed && id !in s.removed {
      RemovalStep(s, a, id);
      assert ClosesLater(s, a.peer, id);
    }
    if id in s.created {
      OpeningBefore(s, a, id);
      CreatedKept(s, a, id);
      RemovedKept(s, a, id);
    } else {
      Race.CreationStep(s, a, id);
      if id in s.removed {
        RemovedIsCreated(s, id);
      }
    }
  }

  lemma RemovedKept(s: State, a: Action, id: SessionId)
    requires Inv(s)
    ensures id in s.removed ==> id in Exec(s, a).removed && Exec(s, a).removed[id] == s.removed[id]
  {
    hide Exec;
    ExecBasic(s, a);
  }

  lemma RemovedIsCreated(s: State, id: SessionId)
    requires Inv(s) && id in s.removed
    ensures id in s.created
  {
    assert Basic(s);
  }

  lemma NoCloseWhileOpening(s: State, id: SessionId)
    requires Inv(s) && AllTidy(s) && Orderly(s, id) && Opening(s, id)
    ensures var k := s.created[id].connector;
            k in s.peers && forall i :: 0 <= i < |s.peers[k].out| ==> !Closes(s.peers[k].out[i], id)
  {
    hide OpensFirst, ClosesLater, Tidy;
    var k := s.created[id].connector;
    ClientOf(s, id);
    assert Balanced(s, id, k);
    AtMostNoticed(s.peers[k], id);
    CountedIfPresent(s.peers[k].out, id);
  }

  lemma AtMostNoticed(q: Peer, id: SessionId)
    requires Tidy(q)
    ensures CloseCount(q.out, id) <= q.notices[id]
  {
  }

  lemma AppendOpensFirst(out: seq<Message>, m: Message, id: SessionId)
    requires OpensFirst(out, id)
    requires Opens(m, id) ==> forall i :: 0 <= i < |out| ==> !Closes(out[i], id)
    ensures OpensFirst(out + [m], id)
  {
  }

  lemma KeepsOpensFirst(s: State, a: Action, id: SessionId, q: PeerId)
    requires Inv(s) && AllTidy(s) && Orderly(s, id) && q in Exec(s, a).peers
    ensures OpensFirst(Exec(s, a).peers[q].out, id)
  {
    hide Exec, MoveOf, Inv, AllTidy, ClosesLater, Warranted, Opening;
    if q !in s.peers {
      NewChannelIsEmpty(s, a, q);
    } else {
      assert OpensFirst(s.peers[q].out, id);
      ChannelStep(s, a, q);
      if MoveOf(s, a).Some? && Exec(s, a).peers[q].out != s.peers[q].out {
        MoveIsNoAccept(s, a);
        var m := Sent(MoveOf(s, a).value.access).value.1;
        if Opens(m, id) {
          OpenSender(s, a.peer, MoveOf(s, a).value, id);
          NoCloseWhileOpening(s, id);
        }
        AppendOpensFirst(s.peers[q].out, m, id);
      }
    }
  }

  lemma ExecOrderly(s: State, a: Action, id: SessionId)
    requires Inv(s) && AllTidy(s) && HonestInv(s) && Orderly(s, id) && AsksInTime(s, a, id)
    ensures Orderly(Exec(s, a), id)
  {
    hide Exec, Inv, AllTidy, HonestInv, AsksInTime, ClosesLater, OpensFirst, Announced;
    var t := Exec(s, a);
    forall p | p in t.peers ensures ClosesLater(t, p, id) && OpensFirst(t.peers[p].out, id) {
      KeepsClosesLater(s, a, id, p);
      KeepsOpensFirst(s, a, id, p);
    }
    ExecUnannounced(s, a, id);
    if Opening(t, id) {
      StaysForOpening(s, a, id);
    }
  }

  lemma ExecUnannounced(s: State, a: Action, id: SessionId)
    requires Inv(s) && Unannounced(s, id)
    ensures Unannounced(Exec(s, a), id)
  {
    hide Exec, Inv, Announced;
    if Opening(Exec(s, a), id) {
      if id in s.created {
        StaysUnannounced(s, a, id);
      } else {
        NewIsUnannounced(s, a, id);
      }
    }
  }

  lemma {:induction false} AfterUnannounced(actions: seq<Action>, n: nat, id: SessionId)
    requires n <= |actions|
    ensures Unannounced(After(actions, n), id)
    decreases n
  {
    hide Run, Exec, Inv;
    if n == 0 {
      AfterNone(actions);
    } else {
      AfterUnannounced(actions, n - 1, id);
      AfterInv(actions, n - 1);
      AfterStep(actions, n - 1);
      ExecUnannounced(After(actions, n - 1), actions[n - 1], id);
    }
  }

  /** SESSION_OPEN is sent at most once for a session. */
  lemma OpenedOnce(actions: seq<Action>, k: PeerId, i: nat, j: nat, id: SessionId)
    requires var s := After(actions, |actions|);
             && k in s.peers && i < |s.peers[k].out| && j < |s.peers[k].out|
             && Opens(s.peers[k].out[i], id) && Opens(s.peers[k].out[j], id)
    ensures i == j
  {
    hide Run, Exec, Inv;
    var first, second := if i < j then i else j, if i < j then j else i;
    if first < second {
      var out := After(actions, |actions|).peers[k].out;
      var m, x := OpeningStep(actions, |actions|, k, second, id);
      var s := After(actions, m);
      assert out[..second][first] == out[first];
      AfterUnannounced(actions, m, id);
    }
  }

  /** CLOSE_SESSION is sent at most once for a session to each of its ends. */
  lemma ClosedOnce(actions: seq<Action>, q: PeerId, i: nat, j: nat, id: SessionId)
    requires var s := After(actions, |actions|);
             && q in s.peers && i < |s.peers[q].out| && j < |s.peers[q].out|
             && Closes(s.peers[q].out[i], id) && Closes(s.peers[q].out[j], id)
    ensures i == j
  {
    hide Run, Exec, Inv, Tidy;
    var s := After(actions, |actions|);
    AfterInv(actions, |actions|);
    AfterTidy(actions, |actions|);
    AtMostNoticed(s.peers[q], id);
    NoticedOnce(s, q, i, id);
    if i < j {
      CountTwo(s.peers[q].out, i, j, id);
    } else if j < i {
      CountTwo(s.peers[q].out, j, i, id);
    }
  }

  lemma NoticedOnce(s: State, q: PeerId, i: nat, id: SessionId)
    requires Inv(s) && q in s.peers && i < |s.peers[q].out| && Closes(s.peers[q].out[i], id)
    ensures id in s.created && s.peers[q].notices[id] <= 1
  {
    assert Routing(s) && MessageInv(s, q, s.peers[q].out[i]);
    assert NoticeInv(s) && Balanced(s, id, q);
  }

  lemma {:induction false} CountTwo(out: seq<Message>, i: nat, j: nat, id: SessionId)
    requires i < j < |out| && Closes(out[i], id) && Closes(out[j], id)
    ensures CloseCount(out, id) >= 2
  {
    var before := out[..|out| - 1];
    if j < |before| {
      CountTwo(before, i, j, id);
    } else {
      assert Closes(before[i], id);
      CountedIfPresent(before, id);
    }
  }

  /** A session that has been closed towards some end is gone from the store. */
  lemma ClosedIsGone(actions: seq<Action>, q: PeerId, i: nat, id: SessionId)
    requires var s := After(actions, |actions|);
             q in s.peers && i < |s.peers[q].out| && Closes(s.peers[q].out[i], id)
    ensures id !in After(actions, |actions|).sessions
  {
    hide Run, Exec, Inv, Tidy;
    var s := After(actions, |actions|);
    AfterInv(actions, |actions|);
    AfterTidy(actions, |actions|);
    AtMostNoticed(s.peers[q], id);
    CountedIfPresent(s.peers[q].out, id);
    NoticedIsGone(s, q, i, id);
  }

  lemma NoticedIsGone(s: State, q: PeerId, i: nat, id: SessionId)
    requires Inv(s) && q in s.peers && i < |s.peers[q].out| && Closes(s.peers[q].out[i], id)
    requires s.peers[q].notices[id] >= 1
    ensures id !in s.sessions
  {
    assert Routing(s) && MessageInv(s, q, s.peers[q].out[i]);
    assert NoticeInv(s) && Balanced(s, id, q) && Basic(s);
  }

  lemma {:induction false} AfterHonest(actions: seq<Action>, n: nat)
    requires n <= |actions| && HonestRun(actions)
    ensures HonestInv(After(actions, n))
    decreases n
  {
    hide Run, Exec, Inv, HonestInv;
    if n == 0 {
      AfterNone(actions);
      NobodyIsHonest();
    } else {
      AfterHonest(actions, n - 1);
      AfterInv(actions, n - 1);
      AfterStep(actions, n - 1);
      ExecHonest(After(actions, n - 1), actions[n - 1]);
    }
  }

  lemma NobodyIsHonest()
    ensures HonestInv(Initial)
    ensures forall id :: Orderly(Initial, id)
  {
  }

  lemma {:induction false} AfterOrderly(actions: seq<Action>, n: nat, id: SessionId)
    requires n <= |actions| && HonestRun(actions) && AskedOnlyWhenOpen(actions, id)
    ensures Orderly(After(actions, n), id)
    decreases n
  {
    hide Run, Exec, Inv, HonestInv, Orderly, AllTidy, Announced;
    if n == 0 {
      AfterNone(actions);
      NobodyIsHonest();
    } else {
      AfterOrderly(actions, n - 1, id);
      AfterInv(actions, n - 1);
      AfterTidy(actions, n - 1);
      AfterHonest(actions, n - 1);
      AfterStep(actions, n - 1);
      assert Asked(actions, n - 1, actions[n - 1].peer, id) ==> Announced(After(actions, n - 1), id);
      ExecOrderly(After(actions, n - 1), actions[n - 1], id);
    }
  }

  /** In every run in which connectors are honest and nobody asks to close a session before SESSION_OPEN
      has been sent for it, no channel carries CLOSE_SESSION for it before SESSION_OPEN. */
  lemma OpenPrecedesClose(actions: seq<Action>, q: PeerId, i: nat, j: nat, id: SessionId)
    requires HonestRun(actions) && AskedOnlyWhenOpen(actions, id)
    requires var s := After(actions, |actions|);
             && q in s.peers && i < |s.peers[q].out| && j < |s.peers[q].out|
             && Closes(s.peers[q].out[i], id) && Opens(s.peers[q].out[j], id)
    ensures j < i
  {
    hide Run, Exec;
    AfterOrderly(actions, |actions|, id);
    assert OpensFirst(After(actions, |actions|).peers[q].out, id);
  }
}
