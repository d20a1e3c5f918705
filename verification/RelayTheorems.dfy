/** What holds in every run of the relay, for every schedule and every behaviour of the peers. */
module RelayTheorems {
  import opened Protocol
  import opened DataFrame
  import opened RelaySystem
  import opened RelayInvariants
  import opened RelayLifecycle
  import opened RelayNotices
  import opened RelayRouting

  ghost predicate Inv(s: State) {
    Basic(s) && Lifecycle(s) && NoticeInv(s) && Routing(s)
  }

  lemma InitialInv()
    ensures Inv(Initial)
  {
  }

  lemma ExecInv(s: State, a: Action)
    requires Inv(s)
    ensures Inv(Exec(s, a)) && Grows(s, Exec(s, a))
  {
    hide Exec;
    ExecBasic(s, a);
    ExecLifecycle(s, a);
    ExecNotices(s, a);
    ExecRouting(s, a);
  }

  lemma {:induction false} RunInv(s: State, actions: seq<Action>)
    requires Inv(s)
    ensures Inv(Run(s, actions))
    decreases |actions|
  {
    hide Exec;
    if actions != [] {
      RunInv(s, actions[..|actions| - 1]);
      ExecInv(Run(s, actions[..|actions| - 1]), actions[|actions| - 1]);
    }
  }

  lemma AfterInv(actions: seq<Action>, n: nat)
    requires n <= |actions|
    ensures Inv(After(actions, n))
  {
    hide Run, Exec;
    InitialInv();
    RunInv(Initial, actions[..n]);
  }

  lemma AfterNone(actions: seq<Action>)
    ensures After(actions, 0) == Initial
  {
  }

  lemma AfterStep(actions: seq<Action>, n: nat)
    requires n < |actions|
    ensures After(actions, n + 1) == Exec(After(actions, n), actions[n])
  {
    hide Exec;
    assert actions[..n + 1][..n] == actions[..n];
  }

  lemma GrowsTransitive(s: State, t: State, u: State)
    requires Grows(s, t) && Grows(t, u)
    ensures Grows(s, u)
  {
  }

  lemma {:induction false} AfterGrows(actions: seq<Action>, m: nat, n: nat)
    requires m <= n <= |actions|
    ensures Grows(After(actions, m), After(actions, n))
    decreases n
  {
    hide Run, Exec;
    if m < n {
      AfterGrows(actions, m, n - 1);
      AfterInv(actions, n - 1);
      AfterStep(actions, n - 1);
      ExecInv(After(actions, n - 1), actions[n - 1]);
      GrowsTransitive(After(actions, m), After(actions, n - 1), After(actions, n));
    }
  }

  // ----- no leaks -----

  ghost predicate AtRest(s: State) {
    forall p :: p in s.peers ==> s.peers[p].pc.Done?
  }

  lemma StoredIsLive(s: State)
    requires Lifecycle(s)
    ensures forall h :: h in s.auth ==> Live(s, s.auth[h].peer)
    ensures forall id :: id in s.sessions ==> ClientStays(s, id)
  {
    forall h | h in s.auth ensures Live(s, s.auth[h].peer) {
      assert Registered(s, h, s.auth[h]);
    }
    forall id | id in s.sessions ensures ClientStays(s, id) {
      assert ClientStays(s, id);
    }
  }

  /** Once every goroutine has finished its cleanup, nothing is left in any of the three stores,
      whichever way each handler ended. */
  lemma NoLeaksAtRest(actions: seq<Action>)
    requires AtRest(After(actions, |actions|))
    ensures var s := After(actions, |actions|); s.hub == {} && s.auth == map[] && s.sessions == map[]
  {
    hide Run, Exec;
    var s := After(actions, |actions|);
    AfterInv(actions, |actions|);
    forall p ensures p !in s.hub {
      assert HubAt(s, p);
    }
    StoredIsLive(s);
    assert s.auth == map[] && s.sessions == map[];
  }

  ghost predicate ClosedIfDone(s: State, p: PeerId) {
    p in s.peers && s.peers[p].pc.Done? ==> !s.peers[p].open
  }

  lemma DoneStep(s: State, a: Action, p: PeerId)
    requires Inv(s) && ClosedIfDone(s, p)
    ensures ClosedIfDone(Exec(s, a), p)
  {
    hide Inv, Exec, Grows;
    ExecInv(s, a);
    ExecCases(s, a);
    if MoveOf(s, a).Some? && Exec(s, a) == Perform(s, a.peer, MoveOf(s, a).value) {
      if MoveOf(s, a).value.pc.Done? {
        DoneMove(s, a);
      }
      PerformPcs(s, a.peer, MoveOf(s, a).value);
      if p in s.peers {
        StaysShut(s, Exec(s, a), p);
      }
    }
  }

  lemma StaysShut(s: State, t: State, p: PeerId)
    requires Grows(s, t) && p in s.peers
    ensures p in t.peers && (!s.peers[p].open ==> !t.peers[p].open)
  {
  }

  /** The last thing that a goroutine does is to close its own connection. */
  lemma DoneMove(s: State, a: Action)
    requires MoveOf(s, a).Some? && MoveOf(s, a).value.pc.Done?
    ensures var t := Perform(s, a.peer, MoveOf(s, a).value);
            a.peer in t.peers && (!t.peers[a.peer].open || s.peers[a.peer].pc.Done?)
  {
    hide OnRead;
    if a.Read? {
      ReadStays(s.peers[a.peer], a.input);
    }
  }

  lemma ReadStays(me: Peer, input: Input)
    ensures !OnRead(me, input).pc.Done?
  {
    hide ParseDataFrame;
  }

  /** Whoever has finished has closed its connection. */
  lemma {:induction false} FinishedIsClosed(actions: seq<Action>, n: nat, p: PeerId)
    requires n <= |actions|
    ensures ClosedIfDone(After(actions, n), p)
    decreases n
  {
    hide Run, Exec, Inv;
    if n == 0 {
      AfterNone(actions);
    } else {
      FinishedIsClosed(actions, n - 1, p);
      AfterInv(actions, n - 1);
      AfterStep(actions, n - 1);
      DoneStep(After(actions, n - 1), actions[n - 1], p);
    }
  }

  // ----- the auth map is a function of the registrations -----

  /** auth[h] is an entry of p exactly when p made the latest registration for h with it and has
      not yet run its own deletion. In particular a replaced connector's late cleanup cannot
      evict its successor. */
  lemma AuthIsTrace(actions: seq<Action>, h: Bytes, e: Entry)
    ensures var s := After(actions, |actions|);
            (h in s.auth && s.auth[h] == e) <==>
            MostRecent(s.registrations, h, e) && e.peer in s.peers && !PastAuth(s.peers[e.peer].pc)
  {
    hide Run, Exec;
    var s := After(actions, |actions|);
    AfterInv(actions, |actions|);
    assert Registered(s, h, e) <==> MostRecent(s.registrations, h, e) && Live(s, e.peer);
  }

  /** Two hashes never map to one peer, so DeleteByPeer returns at most one hash. */
  lemma OneHashPerPeer(actions: seq<Action>, h: Bytes, k: Bytes)
    requires var s := After(actions, |actions|); h in s.auth && k in s.auth && s.auth[h].peer == s.auth[k].peer
    ensures h == k
  {
    hide Run, Exec;
    var s := After(actions, |actions|);
    AfterInv(actions, |actions|);
    assert Registered(s, h, s.auth[h]) && Registered(s, k, s.auth[k]);
    var i: nat :| LatestAt(s.registrations, i, h, s.auth[h]);
    var j: nat :| LatestAt(s.registrations, j, k, s.auth[k]);
  }

  // ----- close notices -----

  /** At any moment of any run: stored, owed by some goroutine, attempted, or waived because
      this end's own cleanup removed the session. Exactly one, for each end of each session. */
  lemma NoticesConserved(actions: seq<Action>, id: SessionId, e: PeerId)
    requires IsEnd(After(actions, |actions|), id, e)
    ensures var s := After(actions, |actions|);
            Count(id in s.sessions) + |Debtors(s, id, e)| + Notices(s, e, id) + Count(Waived(s, id, e)) == 1
  {
    hide Run, Exec;
    AfterInv(actions, |actions|);
    Conservation(After(actions, |actions|), id, e);
  }

  /** When all goroutines have finished, every end of every session was told once, except the
      end whose own disconnect removed the session, which was not told at all. */
  lemma ToldOnceAtRest(actions: seq<Action>, id: SessionId, e: PeerId)
    requires AtRest(After(actions, |actions|)) && IsEnd(After(actions, |actions|), id, e)
    ensures var s := After(actions, |actions|);
            id in s.removed && e in s.peers &&
            s.peers[e].notices[id] == if s.removed[id] == ByCleanup(e) then 0 else 1
  {
    hide Run, Exec;
    var s := After(actions, |actions|);
    NoLeaksAtRest(actions);
    AfterInv(actions, |actions|);
    assert Balanced(s, id, e) && Joined(s, id);
  }

  ghost predicate Leaves(actions: seq<Action>, i: nat, id: SessionId) {
    i < |actions| && id in After(actions, i).sessions && id !in After(actions, i + 1).sessions
  }

  lemma GoneForever(actions: seq<Action>, m: nat, n: nat, id: SessionId)
    requires m <= n <= |actions|
    requires id in After(actions, m).created && id !in After(actions, m).sessions
    ensures id !in After(actions, n).sessions
  {
    hide Run, Exec;
    AfterInv(actions, m);
    AfterInv(actions, n);
    AfterGrows(actions, m, n);
  }

  /** A session id leaves the store at most once in a run, and never comes back. */
  lemma LeavesOnce(actions: seq<Action>, i: nat, j: nat, id: SessionId)
    requires Leaves(actions, i, id) && Leaves(actions, j, id)
    ensures i == j
  {
    hide Run, Exec;
    var first, second := if i < j then i else j, if i < j then j else i;
    if first < second {
      AfterInv(actions, first);
      AfterGrows(actions, first, first + 1);
      GoneForever(actions, first + 1, second, id);
    }
  }

  // ----- routing -----

  /** Every forwarded frame is byte for byte one the opposite end of the named session sent, and
      the two ends are those the session was created with. */
  lemma RoutingIsolation(actions: seq<Action>, q: PeerId, j: nat)
    requires var s := After(actions, |actions|); q in s.peers && j < |s.peers[q].out| && s.peers[q].out[j].Binary?
    ensures var s := After(actions, |actions|);
            var m := s.peers[q].out[j];
            && m.source in s.peers && m.index < |s.peers[m.source].got| && s.peers[m.source].got[m.index] == m.frame
            && ParseDataFrame(m.frame).Ok?
            && var id := ParseDataFrame(m.frame).value.sessionId;
            && id in s.created && Opposite(s.created[id], m.source, q)
            && s.peers[m.source].role != s.peers[q].role
  {
    hide Run, Exec;
    var s := After(actions, |actions|);
    AfterInv(actions, |actions|);
    assert MessageInv(s, q, s.peers[q].out[j]);
    assert Joined(s, ParseDataFrame(s.peers[q].out[j].frame).value.sessionId);
  }

  /** A client receives frames of its own session only. */
  lemma ClientSeesOwnSession(actions: seq<Action>, c: PeerId, j: nat, id: SessionId)
    requires var s := After(actions, |actions|);
             && c in s.peers && s.peers[c].role == Client
             && j < |s.peers[c].out| && Carries(s.peers[c].out[j], id)
    ensures After(actions, |actions|).peers[c].mine == Some(id)
  {
    hide Run, Exec;
    var s := After(actions, |actions|);
    AfterInv(actions, |actions|);
    assert MessageInv(s, c, s.peers[c].out[j]);
    assert Joined(s, id);
  }

  /** No frame is forwarded twice: neither on one channel nor on two. */
  lemma ForwardedOnce(actions: seq<Action>, p: PeerId, i: nat, q: PeerId, j: nat)
    requires var s := After(actions, |actions|);
             && p in s.peers && i < |s.peers[p].out| && s.peers[p].out[i].Binary?
             && q in s.peers && j < |s.peers[q].out| && s.peers[q].out[j] == s.peers[p].out[i]
    ensures p == q && i == j
  {
    hide Run, Exec;
    var s := After(actions, |actions|);
    AfterInv(actions, |actions|);
    assert MessageInv(s, p, s.peers[p].out[i]) && MessageInv(s, q, s.peers[q].out[j]);
    assert Joined(s, ParseDataFrame(s.peers[p].out[i].frame).value.sessionId);
    assert ChannelInv(s, p);
  }

  /** Two frames of one sender arrive in the order in which the relay read them. */
  lemma ForwardedInOrder(actions: seq<Action>, q: PeerId, i: nat, j: nat)
    requires var s := After(actions, |actions|);
             && q in s.peers && i < j < |s.peers[q].out|
             && s.peers[q].out[i].Binary? && s.peers[q].out[j].Binary?
             && s.peers[q].out[i].source == s.peers[q].out[j].source
    ensures var s := After(actions, |actions|); s.peers[q].out[i].index < s.peers[q].out[j].index
  {
    hide Run, Exec;
    AfterInv(actions, |actions|);
    assert ChannelInv(After(actions, |actions|), q);
  }

  /** On a connector's channel SESSION_OPEN(id) precedes every DATA frame for id. */
  lemma OpenPrecedesData(actions: seq<Action>, k: PeerId, j: nat, id: SessionId)
    requires var s := After(actions, |actions|);
             && k in s.peers && s.peers[k].role == Connector
             && j < |s.peers[k].out| && Carries(s.peers[k].out[j], id)
    ensures OpenedBefore(After(actions, |actions|).peers[k].out, j, id)
  {
    hide Run, Exec;
    AfterInv(actions, |actions|);
    assert ChannelInv(After(actions, |actions|), k);
  }
}
