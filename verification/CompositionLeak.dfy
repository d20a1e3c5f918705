/** When a connector keeps a session that the relay has closed, and a run in which it does. */
module CompositionLeak {
  import opened Protocol
  import opened DataFrame
  import opened Events
  import R = RelaySystem
  import RI = RelayInvariants
  import RR = RelayRouting
  import RF = RelayRefinement
  import RC = RelayClosing
  import RL = RelayRuns
  import C = ConnectorSystem
  import opened Composition
  import opened CompositionInvariants
  import CompositionSteps
  import opened CompositionTheorems
  import opened CompositionRelay

  /** The relay's state at the end of a run of the composition. */
  lemma RelayAtEnd(lx: Lexicon, actions: seq<Action>)
    ensures var all := RelaySchedule(lx, actions); R.After(all, |all|) == Run(lx, actions).relay
  {
    hide Run, R.Run;
    RelayRuns(lx, actions);
    assert RelaySchedule(lx, actions)[..|RelaySchedule(lx, actions)|] == RelaySchedule(lx, actions);
  }

  /** Exactly when a connector that has heard both SESSION_OPEN and CLOSE_SESSION for a session still has
      it in its table, now and in every later state: when CLOSE_SESSION came first. The session is gone
      from the relay's store either way. */
  lemma StaleIffClosedFirst(
    lx: Lexicon, actions: seq<Action>, node: NodeId, p: R.PeerId, j: nat, i: nat, id: SessionId)
    requires var w := Run(lx, actions); node in w.nodes && HeardOpenThenClose(w, node, id, p, j, i)
    ensures id !in Run(lx, actions).relay.sessions
    ensures id in Run(lx, actions).nodes[node].table <==> i < j
  {
    hide Run, Exec, R.Run, RelaySchedule;
    var w := Run(lx, actions);
    var all := RelaySchedule(lx, actions);
    RelayAtEnd(lx, actions);
    RC.ClosedIsGone(all, p, i, id);
    TableFollowsChannel(lx, actions, node, id);
    RunInv(lx, actions);
    hide Inv;
    if i < j {
      forall k: nat | j < k && Heard(w, node, p, k) ensures !RR.Closes(w.relay.peers[p].out[k], id) {
        if RR.Closes(w.relay.peers[p].out[k], id) {
          RC.ClosedOnce(all, p, i, k, id);
        }
      }
      assert OpensLastAt(w, node, id, p, j);
    } else {
      OpenIsNotClose(w.relay.peers[p].out[i], id);
      if q, k: nat :| OpensLastAt(w, node, id, q, k) {
        OpenedOnChannel(lx, actions, p, j, q, k, id);
        RC.OpenedOnce(all, p, j, k, id);
        assert false;
      }
    }
  }

  lemma OpenIsNotClose(m: R.Message, id: SessionId)
    ensures !(RR.Opens(m, id) && RR.Closes(m, id))
  {
  }

  lemma OpenedOnChannel(lx: Lexicon, actions: seq<Action>, p: R.PeerId, j: nat, q: R.PeerId, k: nat, id: SessionId)
    requires var s := Run(lx, actions).relay;
             && p in s.peers && j < |s.peers[p].out| && RR.Opens(s.peers[p].out[j], id)
             && q in s.peers && k < |s.peers[q].out| && RR.Opens(s.peers[q].out[k], id)
    ensures p == q
  {
    hide Run, Exec;
    var s := Run(lx, actions).relay;
    RunInv(lx, actions);
    assert RR.MessageInv(s, p, s.peers[p].out[j]) && RR.MessageInv(s, q, s.peers[q].out[k]);
  }

  /** If nobody asks to close a session before SESSION_OPEN has been sent for it, a connector that has
      heard CLOSE_SESSION for it does not keep it. */
  lemma ClosedIsForgotten(
    lx: Lexicon, actions: seq<Action>, node: NodeId, p: R.PeerId, i: nat, id: SessionId)
    requires RC.AskedOnlyWhenOpen(RelaySchedule(lx, actions), id)
    requires var w := Run(lx, actions);
             node in w.nodes && Heard(w, node, p, i) && RR.Closes(w.relay.peers[p].out[i], id)
    ensures id !in Run(lx, actions).nodes[node].table
  {
    hide Run, Exec, R.Run, RelaySchedule, RC.AskedOnlyWhenOpen, RC.HonestRun;
    var w := Run(lx, actions);
    var all := RelaySchedule(lx, actions);
    TableFollowsChannel(lx, actions, node, id);
    if q, j: nat :| OpensLastAt(w, node, id, q, j) {
      HeardOnOneChannel(lx, actions, node, p, i, q, j, id);
      RelayAtEnd(lx, actions);
      ScheduleIsHonest(lx, actions);
      RC.OpenPrecedesClose(all, p, i, j, id);
      assert false;
    }
  }

  lemma HeardOnOneChannel(
    lx: Lexicon, actions: seq<Action>, node: NodeId, p: R.PeerId, i: nat, q: R.PeerId, j: nat, id: SessionId)
    requires var w := Run(lx, actions);
             && Heard(w, node, p, i) && RR.Closes(w.relay.peers[p].out[i], id)
             && Heard(w, node, q, j) && RR.Opens(w.relay.peers[q].out[j], id)
    ensures p == q
  {
    hide Run, Exec;
    var w := Run(lx, actions);
    RunInv(lx, actions);
    CompositionSteps.OneChannel(w.relay, p, i, q, j, id);
    assert LinkInv(w, p);
  }

  // ----- a run in which it happens -----

  function OfRelays(actions: seq<R.Action>): seq<Action> {
    seq(|actions|, i requires 0 <= i < |actions| => OfRelay(actions[i]))
  }

  lemma {:induction false} RelayAlone(lx: Lexicon, actions: seq<R.Action>)
    requires forall a :: a in actions ==> !(a.Read? && a.input.Data?)
    ensures Run(lx, OfRelays(actions)) == Empty(lx).(relay := R.Run(R.Initial, actions))
    decreases |actions|
  {
    hide R.Exec;
    if actions != [] {
      var before := actions[..|actions| - 1];
      RelayAlone(lx, before);
      assert OfRelays(actions)[..|actions| - 1] == OfRelays(before);
      assert actions[|actions| - 1] in actions;
    }
  }

  lemma RunThen(lx: Lexicon, actions: seq<Action>, a: Action)
    ensures Run(lx, actions + [a]) == Exec(Run(lx, actions), a)
  {
    hide Exec;
    assert (actions + [a])[..|actions|] == actions;
  }

  /** The connector starts, is attached to connection 0 and reads two messages from it. */
  const Listen: seq<Action> := [Launch(0), Attach(0, 0), Downlink(0), Downlink(0)]

  function Leak(hash: Bytes, other: Bytes, code: Bytes, id: SessionId): seq<R.Action> {
    RL.ToWindow(hash, other, code, id) + RL.CloseInWindow(id)
  }

  /** A run from the start in which the bridge's table holds a session that the relay has closed, and of
      which the connector has read everything there will ever be. */
  lemma SessionLeaks(lx: Lexicon, hash: Bytes, other: Bytes, code: Bytes, id: SessionId)
    requires hash != [] && other != [] && hash != other && code != [] && 1 <= |id| <= 255
    ensures var w := Run(lx, OfRelays(Leak(hash, other, code, id)) + Listen);
            && id !in w.relay.sessions
            && 0 in w.nodes && id in w.nodes[0].table
            && HeardOpenThenClose(w, 0, id, 0, 1, 0)
  {
    hide Run, Exec, R.Run;
    var actions := Leak(hash, other, code, id);
    RelayAlone(lx, actions);
    RL.CloseBeforeOpenHappens(hash, other, code, id);
    var s := R.Run(R.Initial, actions);
    var w0 := Empty(lx).(relay := s);
    var w1 := w0.(nodes := map[0 := C.Start]);
    var w2 := w1.(conns := map[0 := 0], links := map[0 := Link(0, 0, [], 0)]);
    var done := OfRelays(actions);
    RunThen(lx, done, Launch(0));
    LaunchAndAttach(w0);
    RunThen(lx, done + [Launch(0)], Attach(0, 0));
    RunThen(lx, done + [Launch(0), Attach(0, 0)], Downlink(0));
    HearsClose(w2, id);
    var w3 := Exec(w2, Downlink(0));
    RunThen(lx, done + [Launch(0), Attach(0, 0), Downlink(0)], Downlink(0));
    HearsOpen(w3, id);
    assert done + [Launch(0)] + [Attach(0, 0)] == done + [Launch(0), Attach(0, 0)];
    assert done + [Launch(0), Attach(0, 0)] + [Downlink(0)] == done + [Launch(0), Attach(0, 0), Downlink(0)];
    assert done + [Launch(0), Attach(0, 0), Downlink(0)] + [Downlink(0)] == done + Listen;
  }

  lemma LaunchAndAttach(w: World)
    requires w.nodes == map[] && w.conns == map[] && w.links == map[] && IsConnector(w.relay, 0)
    ensures var w1 := w.(nodes := map[0 := C.Start]);
            && Exec(w, Launch(0)) == w1
            && Exec(w1, Attach(0, 0)) == w1.(conns := map[0 := 0], links := map[0 := Link(0, 0, [], 0)])
  {
    hide R.Exec, C.Exec;
    assert w.nodes[0 := C.Start] == map[0 := C.Start];
    assert w.conns[0 := 0] == map[0 := 0];
    assert w.links[0 := Link(0, 0, [], 0)] == map[0 := Link(0, 0, [], 0)];
  }

  lemma HearsClose(w: World, id: SessionId)
    requires w.nodes == map[0 := C.Start] && w.conns == map[0 := 0] && w.links == map[0 := Link(0, 0, [], 0)]
    requires 0 in w.relay.peers && |w.relay.peers[0].out| == 2
    requires w.relay.peers[0].out[0] == R.Text(Control.CloseSession(id))
    ensures Exec(w, Downlink(0)) == w.(links := map[0 := Link(0, 1, [], 0)])
  {
    hide R.Exec;
    var n := C.Exec(w.lx, C.Start, C.Deliver(C.SessionClosed(id)));
    ClosesNothing(w.lx, id);
    hide C.Exec;
    assert w.nodes[0 := C.Start] == w.nodes;
    assert w.links[0 := Link(0, 1, [], 0)] == map[0 := Link(0, 1, [], 0)];
  }

  lemma ClosesNothing(lx: Lexicon, id: SessionId)
    ensures C.Exec(lx, C.Start, C.Deliver(C.SessionClosed(id))) == C.Start
  {
    assert C.Start.table - {id} == C.Start.table;
  }

  lemma HearsOpen(w: World, id: SessionId)
    requires w.nodes == map[0 := C.Start] && w.conns == map[0 := 0] && w.links == map[0 := Link(0, 1, [], 0)]
    requires 0 in w.relay.peers && |w.relay.peers[0].out| == 2
    requires w.relay.peers[0].out[0] == R.Text(Control.CloseSession(id))
    requires w.relay.peers[0].out[1].Text? && w.relay.peers[0].out[1].control.SessionOpen?
    requires w.relay.peers[0].out[1].control.sessionId == id
    ensures var v := Exec(w, Downlink(0));
            v.relay == w.relay && 0 in v.nodes && id in v.nodes[0].table && HeardOpenThenClose(v, 0, id, 0, 1, 0)
  {
    hide R.Exec;
    OpensOne(w.lx, id);
    hide C.Exec;
  }

  lemma OpensOne(lx: Lexicon, id: SessionId)
    ensures id in C.Exec(lx, C.Start, C.Deliver(C.SessionOpened(id))).table
  {
  }
}
