/** The relay inside the composition runs as a relay does: what holds in all its runs holds there. */
module CompositionRelay {
  import opened Protocol
  import opened DataFrame
  import opened Events
  import R = RelaySystem
  import RI = RelayInvariants
  import RR = RelayRouting
  import RT = RelayTheorems
  import RO = RelayOrdering
  import RF = RelayRefinement
  import RC = RelayClosing
  import C = ConnectorSystem
  import opened Composition
  import opened CompositionInvariants
  import opened CompositionTheorems

  /** What one action of the composition does in the relay, if anything. */
  function RelayAction(w: World, a: Action): seq<R.Action> {
    match a
    case OfRelay(ra) => if Allowed(w.relay, ra) then [ra] else []
    case Uplink(p) =>
      if p in w.links && p in w.relay.peers && w.relay.peers[p].pc.Loop? && w.links[p].taken < |w.links[p].up|
      then [R.Read(p, R.Data(w.links[p].up[w.links[p].taken].frame))]
      else []
    case _ => []
  }

  /** The relay's schedule in a run of the composition. */
  function RelaySchedule(lx: Lexicon, actions: seq<Action>): seq<R.Action>
    decreases |actions|
  {
    if actions == [] then []
    else
      var before := actions[..|actions| - 1];
      RelaySchedule(lx, before) + RelayAction(Run(lx, before), actions[|actions| - 1])
  }

  lemma RelayStep(w: World, a: Action)
    ensures Exec(w, a).relay == if RelayAction(w, a) == [] then w.relay else R.Exec(w.relay, RelayAction(w, a)[0])
    ensures |RelayAction(w, a)| <= 1
  {
    hide R.Exec, C.Exec, C.Output;
  }

  lemma {:induction false} RelayRuns(lx: Lexicon, actions: seq<Action>)
    ensures Run(lx, actions).relay == R.Run(R.Initial, RelaySchedule(lx, actions))
    decreases |actions|
  {
    hide Exec, R.Exec, RelayAction;
    if actions != [] {
      var before, a := actions[..|actions| - 1], actions[|actions| - 1];
      RelayRuns(lx, before);
      var w := Run(lx, before);
      RelayStep(w, a);
      if RelayAction(w, a) == [] {
        assert RelaySchedule(lx, actions) == RelaySchedule(lx, before);
      } else {
        assert RelayAction(w, a) == [RelayAction(w, a)[0]];
        RF.RunThen(R.Initial, RelaySchedule(lx, before), RelayAction(w, a)[0]);
      }
    }
  }

  /** Every connector is a bridge, so what it sends is for announced sessions. */
  lemma NextIsHonest(w: World, a: Action)
    requires Inv(w) && RelayAction(w, a) != []
    ensures RO.Honest(w.relay, RelayAction(w, a)[0])
  {
    if a.Uplink? {
      assert LinkInv(w, a.peer) && UpInv(w, a.peer, w.links[a.peer].taken);
    }
  }

  lemma {:induction false} ScheduleIsHonest(lx: Lexicon, actions: seq<Action>)
    ensures RC.HonestRun(RelaySchedule(lx, actions))
    decreases |actions|
  {
    hide Exec, Run, R.Exec, R.Run, RelayAction, Inv, RO.Honest;
    if actions != [] {
      var before, a := actions[..|actions| - 1], actions[|actions| - 1];
      var prior, all := RelaySchedule(lx, before), RelaySchedule(lx, actions);
      var w := Run(lx, before);
      ScheduleIsHonest(lx, before);
      RelayStep(w, a);
      RunInv(lx, before);
      RelayRuns(lx, before);
      forall i | 0 <= i < |all| ensures RO.Honest(R.After(all, i), all[i]) {
        if i < |prior| {
          assert all[..i] == prior[..i];
          assert RO.Honest(R.After(prior, i), prior[i]);
        } else {
          assert all[..i] == prior;
          NextIsHonest(w, a);
        }
      }
    }
  }
}
