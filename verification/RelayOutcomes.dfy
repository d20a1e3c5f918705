/** Every binary message the relay reads has exactly one outcome. */
module RelayOutcomes {
  import opened Protocol
  import opened DataFrame
  import opened RelaySystem
  import opened RelayInvariants
  import opened RelayTheorems
  import opened RelayClosing

  /** The goroutine of p reads a binary message. */
  ghost predicate ReadsFrame(s: State, a: Action, p: PeerId) {
    p in s.peers && s.peers[p].pc.Loop? && a.Read? && a.peer == p && a.input.Data?
  }

  /** Where a goroutine can be while it handles its index-th binary message. */
  predicate Routing(pc: Pc, index: nat) {
    match pc
    case RouteGet(i, _) => i == index
    case RouteSend(i, _, _) => i == index
    case SendError(_, next) => next.ToLoop?
    case CloseDelete(_, next) => next.ToLoop?
    case CloseNotifyClient(_, next) => next.ToLoop?
    case CloseNotifyConnector(_, next) => next.ToLoop?
    case _ => false
  }

  /** How many outcomes the message in hand has had: one once the goroutine is past its send. */
  function Outcomes(pc: Pc): nat {
    if pc.RouteGet? || pc.RouteSend? || pc.SendError? then 0 else 1
  }

  /** The move is an outcome: the message forwarded to a peer, or an error to its sender. Either may fail
      to be delivered. */
  ghost predicate IsOutcome(s: State, a: Action, p: PeerId, index: nat) {
    && a.peer == p && MoveOf(s, a).Some? && MoveOf(s, a).value.access.SendTo?
    && var access := MoveOf(s, a).value.access;
    match access.message
    case Binary(frame, source, i) =>
      source == p && i == index && p in s.peers && index < |s.peers[p].got| && frame == s.peers[p].got[index]
    case Text(Error(_)) => access.target == p
    case _ => false
  }

  /** The outcomes in actions i to k. */
  ghost function OutcomesIn(actions: seq<Action>, i: nat, k: nat, p: PeerId, index: nat): nat
    requires i <= k <= |actions|
    decreases k
  {
    if k == i then 0
    else OutcomesIn(actions, i, k - 1, p, index)
         + if IsOutcome(After(actions, k - 1), actions[k - 1], p, index) then 1 else 0
  }

  lemma RoutingStep(s: State, a: Action, p: PeerId, index: nat)
    requires p in s.peers && Routing(s.peers[p].pc, index)
    ensures p in Exec(s, a).peers
    ensures var pc := Exec(s, a).peers[p].pc;
            && (Routing(pc, index) || pc.Loop?)
            && Outcomes(pc) == Outcomes(s.peers[p].pc) + if IsOutcome(s, a, p, index) then 1 else 0
  {
    hide Exec;
    PcAfter(s, a, p);
    if MoveOf(s, a).Some? && a.peer == p {
      RoutingMove(s, a, index);
    }
  }

  lemma RoutingMove(s: State, a: Action, index: nat)
    requires MoveOf(s, a).Some? && Routing(s.peers[a.peer].pc, index)
    ensures var pc := MoveOf(s, a).value.pc;
            && (Routing(pc, index) || pc.Loop?)
            && Outcomes(pc)
               == Outcomes(s.peers[a.peer].pc) + if IsOutcome(s, a, a.peer, index) then 1 else 0
  {
  }

  lemma ReadStarts(s: State, a: Action, p: PeerId)
    requires ReadsFrame(s, a, p)
    ensures p in Exec(s, a).peers && Routing(Exec(s, a).peers[p].pc, |s.peers[p].got|)
    ensures Outcomes(Exec(s, a).peers[p].pc) == 0
  {
    hide Exec;
    PcAfter(s, a, p);
    hide ParseDataFrame, Step;
  }

  /** In every run: between reading a binary message and being back in its read loop, a goroutine makes
      exactly one outcome for it, whatever the others do; and while it is still at it, at most one. */
  lemma {:induction false} OneOutcomePerMessage(actions: seq<Action>, i: nat, k: nat, p: PeerId)
    requires i < k <= |actions| && ReadsFrame(After(actions, i), actions[i], p)
    requires forall j :: i < j < k ==> p in After(actions, j).peers && !After(actions, j).peers[p].pc.Loop?
    ensures p in After(actions, k).peers
    ensures var index := |After(actions, i).peers[p].got|;
            var pc := After(actions, k).peers[p].pc;
            && (Routing(pc, index) || pc.Loop?)
            && OutcomesIn(actions, i + 1, k, p, index) == Outcomes(pc)
    ensures After(actions, k).peers[p].pc.Loop? ==>
              OutcomesIn(actions, i + 1, k, p, |After(actions, i).peers[p].got|) == 1
    decreases k
  {
    hide Run, Exec, IsOutcome, MoveOf;
    var index := |After(actions, i).peers[p].got|;
    AfterStep(actions, k - 1);
    if k == i + 1 {
      ReadStarts(After(actions, i), actions[i], p);
    } else {
      OneOutcomePerMessage(actions, i, k - 1, p);
      RoutingStep(After(actions, k - 1), actions[k - 1], p, index);
    }
  }
}
