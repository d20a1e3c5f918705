/** The race between a client that connects and a connector that disconnects. */
module RelayRace {
  import opened Protocol
  import opened DataFrame
  import opened RelaySystem
  import opened RelayInvariants
  import opened RelayLifecycle
  import opened RelayRouting
  import opened RelayTheorems

  // ----- events of a run -----

  ghost predicate AtPc(s: State, p: PeerId, pc: Pc) {
    p in s.peers && s.peers[p].pc == pc
  }

  /** At action i the client c finds this entry in the auth map. */
  ghost predicate LooksUp(actions: seq<Action>, i: nat, c: PeerId, entry: Entry) {
    && i < |actions| && c in After(actions, i).peers
    && After(actions, i).peers[c].pc.ClientLookup?
    && Registered(After(actions, i), After(actions, i).peers[c].pc.hash, entry)
    && AtPc(After(actions, i + 1), c, ClientInsert(entry, After(actions, i).peers[c].pc.e2ee))
  }

  /** At action i the cleanup of p deletes p's sessions. */
  ghost predicate DeletesSessions(actions: seq<Action>, i: nat, p: PeerId) {
    && i < |actions| && AtPc(After(actions, i), p, CleanSessions)
    && AtPc(After(actions, i + 1), p, CleanNotify(SessionsOf(After(actions, i).sessions, p)))
  }

  /** At action i the session is inserted. */
  ghost predicate Inserts(actions: seq<Action>, i: nat, id: SessionId) {
    i < |actions| && id !in After(actions, i).created && id in After(actions, i + 1).created
  }

  /** A property that is false at m and true at n becomes true somewhere in between. */
  lemma {:induction false} Switch(actions: seq<Action>, holds: State -> bool, m: nat, n: nat) returns (i: nat)
    requires m <= n <= |actions| && !holds(After(actions, m)) && holds(After(actions, n))
    ensures m <= i < n && !holds(After(actions, i)) && holds(After(actions, i + 1))
    decreases n
  {
    hide Run, Exec;
    i := n - 1;
    if holds(After(actions, n - 1)) {
      i := Switch(actions, holds, m, n - 1);
    }
  }

  // ----- what one action can do to a goroutine -----

  lemma PcChange(s: State, a: Action, p: PeerId)
    requires p in s.peers
    ensures p in Exec(s, a).peers
    ensures Exec(s, a).peers[p].pc != s.peers[p].pc ==>
              a.peer == p && MoveOf(s, a).Some? && Exec(s, a).peers[p].pc == MoveOf(s, a).value.pc
              && Exec(s, a) == Perform(s, p, MoveOf(s, a).value)
  {
    hide Exec, Perform;
    ExecCases(s, a);
    if MoveOf(s, a).Some? {
      PerformPcs(s, a.peer, MoveOf(s, a).value);
    }
  }

  /** Past its session deletion a goroutine stays past it, and only the deletion takes it there. */
  lemma PastStep(s: State, t: State, a: Action, p: PeerId)
    requires p in s.peers && t == Exec(s, a)
    ensures p in t.peers
    ensures PastSessions(s.peers[p].pc) ==> PastSessions(t.peers[p].pc)
    ensures !PastSessions(s.peers[p].pc) && PastSessions(t.peers[p].pc) ==>
              && a.peer == p && s.peers[p].pc == CleanSessions
              && t.peers[p].pc == CleanNotify(SessionsOf(s.sessions, p))
              && t.sessions == SessionsWithout(s.sessions, p)
  {
    hide Exec;
    PcChange(s, a, p);
    if MoveOf(s, a).Some? {
      MoveShape(s, a);
      if a.peer == p && !PastSessions(s.peers[p].pc) && PastSessions(MoveOf(s, a).value.pc) {
        PassesAtCleanSessions(s, a);
      }
    }
  }

  lemma PassesAtCleanSessions(s: State, a: Action)
    requires MoveOf(s, a).Some?
    requires !PastSessions(s.peers[a.peer].pc) && PastSessions(MoveOf(s, a).value.pc)
    ensures s.peers[a.peer].pc == CleanSessions
    ensures MoveOf(s, a).value == Move(SessionDeleteByPeer, CleanNotify(SessionsOf(s.sessions, a.peer)))
  {
  }

  lemma {:induction false} PastStays(actions: seq<Action>, m: nat, n: nat, p: PeerId)
    requires m <= n <= |actions| && p in After(actions, m).peers && PastSessions(After(actions, m).peers[p].pc)
    ensures p in After(actions, n).peers && PastSessions(After(actions, n).peers[p].pc)
    decreases n
  {
    hide Run, Exec;
    if m < n {
      PastStays(actions, m, n - 1, p);
      AfterStep(actions, n - 1);
      PastStep(After(actions, n - 1), After(actions, n), actions[n - 1], p);
    }
  }

  /** A session is created only by its client's goroutine, at ClientInsert. */
  lemma CreationStep(s: State, a: Action, id: SessionId)
    requires id !in s.created && id in Exec(s, a).created
    ensures a.peer in s.peers && s.peers[a.peer].pc.ClientInsert?
    ensures Exec(s, a).created[id] == Session(id, a.peer, s.peers[a.peer].pc.entry.peer, s.peers[a.peer].pc.e2ee)
  {
    hide Exec, Apply, MoveOf;
    ExecCases(s, a);
    if MoveOf(s, a).Some? {
      ApplyHistory(s, a.peer, MoveOf(s, a).value.access);
      if MoveOf(s, a).value.access.SessionSet? {
        CreatingMove(s, a);
      }
    }
  }

  lemma CreatingMove(s: State, a: Action)
    requires MoveOf(s, a).Some? && MoveOf(s, a).value.access.SessionSet?
    ensures a.peer in s.peers && s.peers[a.peer].pc.ClientInsert?
    ensures var pc := s.peers[a.peer].pc;
            var x := MoveOf(s, a).value.access.session;
            x == Session(x.id, a.peer, pc.entry.peer, pc.e2ee)
  {
  }

  lemma JoinsAtTop(s: State, a: Action, c: PeerId)
    requires c !in s.peers && c in Exec(s, a).peers
    ensures Exec(s, a).peers[c].pc.TunnelAdd? || Exec(s, a).peers[c].pc.ClientAdd?
  {
    hide Exec;
    ExecCases(s, a);
    if MoveOf(s, a).Some? {
      ApplyFrame(s, a.peer, MoveOf(s, a).value.access);
    }
  }

  /** Only a successful lookup leads to ClientInsert. */
  lemma InsertMove(s: State, a: Action, entry: Entry, e2ee: bool)
    requires MoveOf(s, a).Some? && MoveOf(s, a).value.pc == ClientInsert(entry, e2ee)
    requires s.peers[a.peer].pc != ClientInsert(entry, e2ee)
    ensures var pc := s.peers[a.peer].pc; pc.ClientLookup? && pc.e2ee == e2ee && Registered(s, pc.hash, entry)
  {
  }

  lemma LookupStep(s: State, a: Action, c: PeerId, entry: Entry, e2ee: bool)
    requires !AtPc(s, c, ClientInsert(entry, e2ee)) && AtPc(Exec(s, a), c, ClientInsert(entry, e2ee))
    ensures c in s.peers && a.peer == c
    ensures var pc := s.peers[c].pc; pc.ClientLookup? && pc.e2ee == e2ee && Registered(s, pc.hash, entry)
  {
    hide Exec;
    if c in s.peers {
      PcChange(s, a, c);
      InsertMove(s, a, entry, e2ee);
    } else {
      JoinsAtTop(s, a, c);
    }
  }

  /** The lookup that led to this insertion, and the connector was still live then. */
  lemma LookupBefore(actions: seq<Action>, m: nat, c: PeerId, entry: Entry, e2ee: bool) returns (i: nat)
    requires m <= |actions| && AtPc(After(actions, m), c, ClientInsert(entry, e2ee))
    ensures i < m && LooksUp(actions, i, c, entry)
    ensures entry.peer in After(actions, i + 1).peers && !PastSessions(After(actions, i + 1).peers[entry.peer].pc)
  {
    hide Run, Exec;
    var holds := (s: State) => AtPc(s, c, ClientInsert(entry, e2ee));
    AfterNone(actions);
    i := Switch(actions, holds, 0, m);
    AfterStep(actions, i);
    var s := After(actions, i);
    LookupStep(s, actions[i], c, entry, e2ee);
    AfterInv(actions, i);
    assert Registered(s, s.peers[c].pc.hash, entry) <==>
           MostRecent(s.registrations, s.peers[c].pc.hash, entry) && Live(s, entry.peer);
    PcChange(s, actions[i], entry.peer);
    PcChange(s, actions[i], c);
  }

  /** The connector's deletion fell between the client's lookup and its insertion of the session. */
  ghost predicate Raced(actions: seq<Action>, i: nat, j: nat, m: nat, entry: Entry, x: Session) {
    && i < j < m && entry.peer == x.connector
    && LooksUp(actions, i, x.client, entry)
    && DeletesSessions(actions, j, x.connector)
    && Inserts(actions, m, x.id)
  }

  lemma StoredEnds(actions: seq<Action>, id: SessionId)
    requires id in After(actions, |actions|).sessions
    ensures var s := After(actions, |actions|);
            && id in s.created && s.created[id] == s.sessions[id]
            && s.sessions[id].id == id && s.sessions[id].connector in s.peers
  {
    hide Run, Exec;
    AfterInv(actions, |actions|);
    assert Joined(After(actions, |actions|), id);
  }

  /** A stored session's connector can be past its session deletion only if that deletion fell
      between the client's auth lookup and the insertion; and if it did, it is. */
  lemma ConnectDisconnectRace(actions: seq<Action>, id: SessionId)
    requires id in After(actions, |actions|).sessions
    ensures var s := After(actions, |actions|);
            var x := s.sessions[id];
            x.connector in s.peers &&
            (PastSessions(s.peers[x.connector].pc) <==>
             exists i: nat, j: nat, m: nat, entry: Entry :: Raced(actions, i, j, m, entry, x))
  {
    hide Run, Exec;
    var n := |actions|;
    var s := After(actions, n);
    var x := s.sessions[id];
    StoredEnds(actions, id);
    if PastSessions(s.peers[x.connector].pc) {
      var i, j, m, entry := RaceWitness(actions, id, x);
      assert Raced(actions, i, j, m, entry, x);
    } else if i: nat, j: nat, m: nat, entry: Entry :| Raced(actions, i, j, m, entry, x) {
      PastStays(actions, j + 1, n, x.connector);
    }
  }

  lemma PeerStays(actions: seq<Action>, m: nat, n: nat, p: PeerId)
    requires m <= n <= |actions| && p in After(actions, m).peers
    ensures p in After(actions, n).peers
  {
    hide Run, Exec;
    AfterGrows(actions, m, n);
  }

  lemma CreatedStays(actions: seq<Action>, m: nat, n: nat, id: SessionId)
    requires m <= n <= |actions| && id in After(actions, m).created
    ensures id in After(actions, n).created && After(actions, n).created[id] == After(actions, m).created[id]
  {
    hide Run, Exec;
    AfterGrows(actions, m, n);
  }

  /** A cleanup that runs after the insertion takes the session with it. */
  lemma DeletionTakes(actions: seq<Action>, m: nat, j: nat, id: SessionId, x: Session)
    requires m <= j < |actions| && id in After(actions, m).created && After(actions, m).created[id] == x
    requires Involves(x, x.connector)
    requires After(actions, j + 1).sessions == SessionsWithout(After(actions, j).sessions, x.connector)
    ensures id !in After(actions, |actions|).sessions
  {
    hide Run, Exec;
    CreatedStays(actions, m, j, id);
    CreatedStays(actions, m, j + 1, id);
    AfterInv(actions, j);
    GoneForever(actions, j + 1, |actions|, id);
  }

  /** Where a goroutine passes its session deletion. */
  lemma FindDeletion(actions: seq<Action>, m: nat, n: nat, k: PeerId) returns (j: nat)
    requires m <= n <= |actions| && k in After(actions, m).peers && !PastSessions(After(actions, m).peers[k].pc)
    requires k in After(actions, n).peers && PastSessions(After(actions, n).peers[k].pc)
    ensures m <= j < n && DeletesSessions(actions, j, k)
    ensures actions[j].peer == k
    ensures After(actions, j + 1).sessions == SessionsWithout(After(actions, j).sessions, k)
  {
    hide Run, Exec;
    j := Switch(actions, (s: State) => k in s.peers && PastSessions(s.peers[k].pc), m, n);
    AfterStep(actions, j);
    PeerStays(actions, m, j, k);
    PastStep(After(actions, j), After(actions, j + 1), actions[j], k);
  }

  lemma PastBeforeInsert(actions: seq<Action>, m: nat, id: SessionId, x: Session)
    requires Inserts(actions, m, id) && After(actions, m + 1).created[id] == x
    requires x.connector in After(actions, m).peers && id in After(actions, |actions|).sessions
    requires x.connector in After(actions, |actions|).peers
    requires PastSessions(After(actions, |actions|).peers[x.connector].pc)
    ensures PastSessions(After(actions, m).peers[x.connector].pc)
  {
    hide Run, Exec;
    var k := x.connector;
    if !PastSessions(After(actions, m).peers[k].pc) {
      var j := FindDeletion(actions, m, |actions|, k);
      if j == m {
        AfterStep(actions, m);
        CreationStep(After(actions, m), actions[m], id);
      } else {
        DeletionTakes(actions, m + 1, j, id, x);
      }
    }
  }

  lemma FindInsertion(actions: seq<Action>, id: SessionId) returns (m: nat, entry: Entry)
    requires id in After(actions, |actions|).created
    ensures var x := After(actions, |actions|).created[id];
            && Inserts(actions, m, id) && entry.peer == x.connector
            && After(actions, m + 1).created[id] == x
            && AtPc(After(actions, m), x.client, ClientInsert(entry, x.e2ee))
  {
    hide Run, Exec;
    AfterNone(actions);
    m := Switch(actions, (s: State) => id in s.created, 0, |actions|);
    AfterStep(actions, m);
    CreationStep(After(actions, m), actions[m], id);
    CreatedStays(actions, m + 1, |actions|, id);
    entry := After(actions, m).peers[actions[m].peer].pc.entry;
  }

  lemma RaceWitness(actions: seq<Action>, id: SessionId, x: Session)
    returns (i: nat, j: nat, m: nat, entry: Entry)
    requires var s := After(actions, |actions|);
             && id in s.sessions && id in s.created && s.created[id] == x
             && x.connector in s.peers && PastSessions(s.peers[x.connector].pc)
    ensures i < j < m && entry.peer == x.connector
    ensures LooksUp(actions, i, x.client, entry)
    ensures DeletesSessions(actions, j, x.connector)
    ensures Inserts(actions, m, id)
  {
    hide Run, Exec;
    m, entry := FindInsertion(actions, id);
    i := LookupBefore(actions, m, x.client, entry, x.e2ee);
    PeerStays(actions, i + 1, m, x.connector);
    PastBeforeInsert(actions, m, id, x);
    j := FindDeletion(actions, i + 1, m, x.connector);
  }

  /** A session's connector is the auth entry its client read when it connected, whatever has
      been registered or removed since. */
  lemma ConnectorIsLookedUp(actions: seq<Action>, id: SessionId)
    requires id in After(actions, |actions|).created
    ensures var x := After(actions, |actions|).created[id];
            exists i: nat, m: nat, entry: Entry ::
              i < m && entry.peer == x.connector && LooksUp(actions, i, x.client, entry) && Inserts(actions, m, id)
  {
    hide Run, Exec;
    var x := After(actions, |actions|).created[id];
    var m, entry := FindInsertion(actions, id);
    var i := LookupBefore(actions, m, x.client, entry, x.e2ee);
  }

  // ----- how such a session goes away -----

  /** How often p's goroutine is scheduled. */
  function Turns(actions: seq<Action>, p: PeerId): nat {
    if actions == [] then 0
    else Turns(actions[..|actions| - 1], p) +
         if actions[|actions| - 1].Go? && actions[|actions| - 1].peer == p then 1 else 0
  }

  /** How many more turns of the client remove the session, once it has read a frame for it
      and the connector's connection is closed. */
  ghost predicate Within(s: State, x: Session, turns: int) {
    || x.id !in s.sessions
    || (x.client in s.peers &&
        match s.peers[x.client].pc
        case RouteGet(_, id) => id == x.id && 3 <= turns
        case RouteSend(_, id, target) => id == x.id && target == x.connector && 2 <= turns
        case CloseDelete(id, _) => id == x.id && 1 <= turns
        case _ => false)
  }

  lemma DrainStep(s: State, a: Action, x: Session, turns: int)
    requires Inv(s) && Created(s, x) && Within(s, x, turns)
    requires x.connector in s.peers && !s.peers[x.connector].open
    requires a.Go? && a.peer == x.client && x.id in s.sessions
    ensures Within(Exec(s, a), x, turns - 1)
  {
    assert At(s, x.client) && s.sessions[x.id] == x;
  }

  /** A goroutine that is not reading stands still unless it is scheduled. */
  lemma StandsStill(s: State, a: Action, c: PeerId)
    requires c in s.peers && !s.peers[c].pc.Loop? && !(a.Go? && a.peer == c)
    ensures c in Exec(s, a).peers && Exec(s, a).peers[c].pc == s.peers[c].pc
  {
    hide Exec;
    PcChange(s, a, c);
  }

  lemma StillGone(s: State, a: Action, x: Session)
    requires Inv(s) && Created(s, x) && x.id !in s.sessions
    ensures x.id !in Exec(s, a).sessions
  {
    hide Exec;
    ExecBasic(s, a);
  }

  lemma OtherStep(s: State, a: Action, x: Session, turns: int)
    requires Inv(s) && Created(s, x) && Within(s, x, turns)
    requires !(a.Go? && a.peer == x.client)
    ensures Within(Exec(s, a), x, turns)
  {
    hide Exec, Inv;
    if x.id in s.sessions {
      StandsStill(s, a, x.client);
    } else {
      StillGone(s, a, x);
    }
  }

  lemma {:induction false} RunGrows(s: State, actions: seq<Action>)
    requires Inv(s)
    ensures Inv(Run(s, actions)) && Grows(s, Run(s, actions))
    decreases |actions|
  {
    hide Exec;
    if actions != [] {
      var before, a := actions[..|actions| - 1], actions[|actions| - 1];
      RunGrows(s, before);
      ExecInv(Run(s, before), a);
      GrowsTransitive(s, Run(s, before), Run(s, actions));
    }
  }

  lemma StillClosed(s: State, t: State, x: Session)
    requires Inv(s) && Grows(s, t) && x.id in s.sessions && s.sessions[x.id] == x
    requires x.connector in s.peers && !s.peers[x.connector].open
    ensures Created(t, x) && x.connector in t.peers && !t.peers[x.connector].open
  {
  }

  lemma DrainsOn(t: State, a: Action, x: Session, turns: int)
    requires Inv(t) && Created(t, x) && Within(t, x, turns)
    requires x.connector in t.peers && !t.peers[x.connector].open
    ensures Within(Exec(t, a), x, if a.Go? && a.peer == x.client then turns - 1 else turns)
  {
    hide Exec;
    if !(a.Go? && a.peer == x.client) {
      OtherStep(t, a, x, turns);
    } else if x.id in t.sessions {
      DrainStep(t, a, x, turns);
    } else {
      ExecInv(t, a);
    }
  }

  /** While the connector's connection is closed, a frame that the client has sent on the session
      leads, within three turns of the client and whatever runs in between, to its removal. */
  lemma {:induction false} ClosedConnectorDrains(s: State, x: Session, actions: seq<Action>)
    requires Inv(s) && x.id in s.sessions && s.sessions[x.id] == x
    requires x.connector in s.peers && !s.peers[x.connector].open
    requires x.client in s.peers && s.peers[x.client].pc.RouteGet? && s.peers[x.client].pc.sessionId == x.id
    ensures Within(Run(s, actions), x, 3 - Turns(actions, x.client))
    ensures Turns(actions, x.client) >= 3 ==> x.id !in Run(s, actions).sessions
    decreases |actions|
  {
    hide Exec, Inv;
    if actions != [] {
      var before, a := actions[..|actions| - 1], actions[|actions| - 1];
      ClosedConnectorDrains(s, x, before);
      RunGrows(s, before);
      StillClosed(s, Run(s, before), x);
      DrainsOn(Run(s, before), a, x, 3 - Turns(before, x.client));
    }
  }
}
