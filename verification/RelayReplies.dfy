/** What the relay does with each message it reads: which of the outcomes occurs, and to whom anything
    is written, in runs with any interleaving. */
module RelayReplies {
  import opened Protocol
  import opened DataFrame
  import opened RelaySystem
  import opened RelayInvariants
  import opened RelayTheorems
  import opened RelayRefinement

  // ----- what a goroutine writes, and when -----

  /** What has been added to q's channel. */
  function Growth(v: map<PeerId, Wire>, w: map<PeerId, Wire>, q: PeerId): seq<Message> {
    if q in v && q in w && v[q].out <= w[q].out then w[q].out[|v[q].out|..] else []
  }

  /** What p's goroutine puts on q's channel in action k. */
  function SentIn(actions: seq<Action>, k: nat, p: PeerId, q: PeerId): seq<Message>
    requires k < |actions|
  {
    if actions[k].peer == p then Growth(WiresOf(After(actions, k)), WiresOf(After(actions, k + 1)), q) else []
  }

  /** Everything that p's goroutine puts on q's channel in actions i to k, in order. */
  function SentBy(actions: seq<Action>, i: nat, k: nat, p: PeerId, q: PeerId): seq<Message>
    requires i <= k <= |actions|
    decreases k
  {
    if k == i then [] else SentBy(actions, i, k - 1, p, q) + SentIn(actions, k - 1, p, q)
  }

  /** The action is p's goroutine's own next step. */
  predicate IsTurn(s: State, a: Action, p: PeerId) {
    a.Go? && a.peer == p && p in s.peers && Step(s, p, a.choice).Some?
  }

  /** The turns that p's goroutine has in actions i to k. */
  function Turns(actions: seq<Action>, i: nat, k: nat, p: PeerId): (turns: seq<nat>)
    requires i <= k <= |actions|
    ensures forall n :: 0 <= n < |turns| ==> i <= turns[n] < k && actions[turns[n]].Go?
    decreases k
  {
    if k == i then []
    else
      Turns(actions, i, k - 1, p) + if IsTurn(After(actions, k - 1), actions[k - 1], p) then [k - 1] else []
  }

  /** p's goroutine writes these messages to one peer, and nothing else to anybody. */
  ghost predicate Writes(actions: seq<Action>, i: nat, k: nat, p: PeerId, to: PeerId, messages: seq<Message>)
    requires i <= k <= |actions|
  {
    forall q :: SentBy(actions, i, k, p, q) == if q == to then messages else []
  }

  ghost predicate Silent(actions: seq<Action>, i: nat, k: nat, p: PeerId)
    requires i <= k <= |actions|
  {
    forall q :: SentBy(actions, i, k, p, q) == []
  }

  // ----- the outcomes -----

  /** The m-th turn is an error reply; it fails if p's connection is closed by then. */
  ghost predicate Refused(actions: seq<Action>, i: nat, k: nat, p: PeerId, m: nat, code: string)
    requires i <= k <= |actions|
  {
    var turns := Turns(actions, i, k, p);
    && m < |turns|
    && Writes(actions, i, k, p, p, if Sendable(After(actions, turns[m]), p) then [Text(Error(code))] else [])
  }

  /** What a notice of the session's close puts on q's channel. */
  ghost function NoticeTo(s: State, to: PeerId, id: SessionId, q: PeerId): seq<Message> {
    if q == to && Sendable(s, to) then [Text(CloseSession(id))] else []
  }

  /** The m-th turn takes the session out of the store. If it was there, the next two turns tell the client
      and then the connector, each unless its connection is closed by then, and the session is gone. */
  ghost predicate Closed(actions: seq<Action>, i: nat, k: nat, p: PeerId, m: nat, id: SessionId)
    requires i <= k <= |actions|
  {
    var turns := Turns(actions, i, k, p);
    && m < |turns|
    && var sessions := After(actions, turns[m]).sessions;
    if id !in sessions then Silent(actions, i, k, p)
    else
      && m + 2 < |turns| && id !in After(actions, k).sessions
      && forall q :: SentBy(actions, i, k, p, q)
                     == NoticeTo(After(actions, turns[m + 1]), sessions[id].client, id, q)
                        + NoticeTo(After(actions, turns[m + 2]), sessions[id].connector, id, q)
  }

  /** The frame goes to this peer as it was read. If that peer's connection is closed by then, the session is
      closed instead. */
  ghost predicate Forwarded(
    actions: seq<Action>, i: nat, k: nat, p: PeerId, to: PeerId, frame: Bytes, index: nat, id: SessionId)
    requires i <= k <= |actions|
  {
    var turns := Turns(actions, i, k, p);
    && |turns| >= 2
    && if Sendable(After(actions, turns[1]), to) then Writes(actions, i, k, p, to, [Binary(frame, p, index)])
       else Closed(actions, i, k, p, 2, id) && id !in After(actions, k).sessions
  }

  /** A frame that names this session: the first turn looks it up. */
  ghost predicate Routed(
    actions: seq<Action>, i: nat, k: nat, p: PeerId, frame: Bytes, index: nat, id: SessionId)
    requires i <= k <= |actions|
  {
    var turns := Turns(actions, i, k, p);
    && |turns| >= 1
    && var sessions := After(actions, turns[0]).sessions;
    if id !in sessions then Refused(actions, i, k, p, 1, "SESSION_NOT_FOUND")
    else if p == sessions[id].client then Forwarded(actions, i, k, p, sessions[id].connector, frame, index, id)
    else if p == sessions[id].connector then Forwarded(actions, i, k, p, sessions[id].client, frame, index, id)
    else Refused(actions, i, k, p, 1, "SESSION_PEER_MISMATCH")
  }

  /** What has become of a message in actions i to k, since p's goroutine took it in action i - 1. */
  ghost predicate Outcome(actions: seq<Action>, i: nat, k: nat, p: PeerId, input: Input, index: nat)
    requires i <= k <= |actions|
  {
    match input
    case BadText => Refused(actions, i, k, p, 0, "BAD_CONTROL")
    case Control(Heartbeat) => Silent(actions, i, k, p)
    case Control(CloseSession(id)) =>
      if id == [] then Refused(actions, i, k, p, 0, "UNSUPPORTED_CONTROL") else Closed(actions, i, k, p, 0, id)
    case Control(_) => Refused(actions, i, k, p, 0, "UNSUPPORTED_CONTROL")
    case Data(frame) =>
      var parsed := ParseDataFrame(frame);
      if parsed.Err? then Refused(actions, i, k, p, 0, "BAD_DATA_FRAME")
      else Routed(actions, i, k, p, frame, index, parsed.value.sessionId)
    case ReadError => false
  }

  // ----- where a goroutine is while it handles the message -----

  /** The message is a frame that names this session. */
  ghost predicate Names(input: Input, id: SessionId) {
    && input.Data? && ParseDataFrame(input.frame).Ok?
    && ParseDataFrame(input.frame).value.sessionId == id
  }

  /** The goroutine p still has the frame that it read as its index-th. */
  ghost predicate Kept(s: State, p: PeerId, input: Input, index: nat) {
    p in s.peers && input.Data? && index < |s.peers[p].got| && s.peers[p].got[index] == input.frame
  }

  /** The first turn has found the session, and p at one end of it. */
  ghost predicate Found(s: State, p: PeerId, id: SessionId, to: PeerId) {
    && id in s.sessions
    && if p == s.sessions[id].client then to == s.sessions[id].connector
       else p == s.sessions[id].connector && to == s.sessions[id].client
  }

  /** This code is to be sent after these turns. */
  ghost predicate ErrorDue(actions: seq<Action>, i: nat, k: nat, p: PeerId, input: Input, code: string)
    requires i <= k <= |actions|
  {
    var turns := Turns(actions, i, k, p);
    match input
    case BadText => turns == [] && code == "BAD_CONTROL"
    case Control(m) =>
      turns == [] && !m.Heartbeat? && !(m.CloseSession? && m.sessionId != []) && code == "UNSUPPORTED_CONTROL"
    case Data(frame) =>
      if ParseDataFrame(frame).Err? then turns == [] && code == "BAD_DATA_FRAME"
      else
        && |turns| == 1
        && var id := ParseDataFrame(frame).value.sessionId;
        var sessions := After(actions, turns[0]).sessions;
        if id !in sessions then code == "SESSION_NOT_FOUND"
        else !Involves(sessions[id], p) && code == "SESSION_PEER_MISMATCH"
    case ReadError => false
  }

  /** How many turns the message takes before closeSession. */
  function Before(input: Input): nat {
    if input.Data? then 2 else 0
  }

  /** The session is to be closed because the message asks for it, or because the other end of it could not
      be reached. */
  ghost predicate CloseDue(actions: seq<Action>, i: nat, k: nat, p: PeerId, input: Input, id: SessionId)
    requires i <= k <= |actions|
  {
    var turns := Turns(actions, i, k, p);
    if input.Data? then
      && |turns| >= 2 && Names(input, id)
      && exists to :: Found(After(actions, turns[0]), p, id, to) && !Sendable(After(actions, turns[1]), to)
    else input == Control(Control.CloseSession(id)) && id != []
  }

  /** The session that closeSession has taken out of the store. */
  ghost predicate TakenOut(actions: seq<Action>, i: nat, k: nat, p: PeerId, input: Input, x: Session)
    requires i <= k <= |actions|
  {
    var turns := Turns(actions, i, k, p);
    && |turns| > Before(input)
    && var sessions := After(actions, turns[Before(input)]).sessions;
    && x.id in sessions && sessions[x.id] == x && x.id !in After(actions, k).sessions
  }

  ghost predicate Phase(actions: seq<Action>, i: nat, k: nat, p: PeerId, input: Input, index: nat)
    requires i <= k <= |actions| && p in After(actions, k).peers
  {
    var turns := Turns(actions, i, k, p);
    match After(actions, k).peers[p].pc
    case RouteGet(x, id) =>
      && x == index && Names(input, id) && Kept(After(actions, k), p, input, index)
      && turns == [] && Silent(actions, i, k, p)
    case RouteSend(x, id, to) =>
      && x == index && Names(input, id) && Kept(After(actions, k), p, input, index)
      && |turns| == 1 && Found(After(actions, turns[0]), p, id, to) && Silent(actions, i, k, p)
    case SendError(code, next) =>
      next.ToLoop? && ErrorDue(actions, i, k, p, input, code) && Silent(actions, i, k, p)
    case CloseDelete(id, next) =>
      && next.ToLoop? && |turns| == Before(input) && CloseDue(actions, i, k, p, input, id)
      && Silent(actions, i, k, p)
    case CloseNotifyClient(x, next) =>
      && next.ToLoop? && |turns| == Before(input) + 1 && CloseDue(actions, i, k, p, input, x.id)
      && TakenOut(actions, i, k, p, input, x) && Silent(actions, i, k, p)
    case CloseNotifyConnector(x, next) =>
      && next.ToLoop? && |turns| == Before(input) + 2 && CloseDue(actions, i, k, p, input, x.id)
      && TakenOut(actions, i, k, p, input, x)
      && forall q :: SentBy(actions, i, k, p, q)
                     == NoticeTo(After(actions, turns[Before(input) + 1]), x.client, x.id, q)
    case Loop => Outcome(actions, i, k, p, input, index)
    case _ => false
  }

  // ----- one step -----

  /** What an access puts on q's channel. */
  ghost function Puts(s: State, access: Access, q: PeerId): seq<Message> {
    match access
    case SendTo(to, m) => if q == to && Sendable(s, to) then [m] else []
    case Notify(to, id) => NoticeTo(s, to, id, q)
    case _ => []
  }

  lemma AccessAdds(s: State, access: Access, q: PeerId)
    ensures Growth(WiresOf(s), WiresAfter(WiresOf(s), access), q) == Puts(s, access, q)
  {
  }

  lemma GotoWires(s: State, p: PeerId, pc: Pc)
    requires p in s.peers
    ensures WiresOf(Goto(s, p, pc)) == WiresOf(s)
  {
  }

  lemma MoveWires(s: State, a: Action)
    requires MoveOf(s, a).Some?
    ensures WiresOf(Exec(s, a)) == WiresAfter(WiresOf(s), MoveOf(s, a).value.access)
  {
    hide MoveOf, Exec, Apply, WiresAfter, WiresOf, Goto;
    var m := MoveOf(s, a).value;
    MoveExec(s, a);
    ApplyWires(s, a.peer, m.access);
    ApplyFrame(s, a.peer, m.access);
    GotoWires(Apply(s, a.peer, m.access), a.peer, m.pc);
  }

  lemma MoveExec(s: State, a: Action)
    requires MoveOf(s, a).Some?
    ensures a.peer in s.peers && Exec(s, a) == Perform(s, a.peer, MoveOf(s, a).value)
  {
    hide Step, OnRead, Perform;
  }

  lemma MoveWrites(s: State, a: Action, q: PeerId)
    requires MoveOf(s, a).Some?
    ensures Growth(WiresOf(s), WiresOf(Exec(s, a)), q) == Puts(s, MoveOf(s, a).value.access, q)
  {
    hide MoveOf, Exec, WiresAfter, WiresOf, Growth, Puts;
    MoveWires(s, a);
    AccessAdds(s, MoveOf(s, a).value.access, q);
  }

  lemma NothingAdded(s: State, q: PeerId)
    ensures Growth(WiresOf(s), WiresOf(s), q) == []
  {
  }

  /** An action that is neither a turn of p nor a read of p's leaves p's goroutine where it is, and is no
      write of p's. */
  lemma OtherAction(s: State, a: Action, p: PeerId, q: PeerId)
    requires p in s.peers && !IsTurn(s, a, p) && !(a.Read? && a.peer == p)
    ensures Undisturbed(s, Exec(s, a), p)
    ensures a.peer == p ==> Growth(WiresOf(s), WiresOf(Exec(s, a)), q) == []
  {
    hide WiresOf, Growth, Step, OnRead, Perform;
    if a.peer != p || a.Break? {
      OtherExec(s, a, p);
      if MoveOf(s, a).Some? {
        MoveWrites(s, a, q);
      } else {
        NothingAdded(s, q);
      }
    } else {
      NothingAdded(s, q);
    }
  }

  /** What a turn does to the schedule's accounts. */
  ghost predicate Advances(actions: seq<Action>, i: nat, k: nat, n: nat, p: PeerId, m: Move)
    requires i <= k <= n <= |actions|
  {
    var s, t := After(actions, k), After(actions, n);
    && Turns(actions, i, n, p) == Turns(actions, i, k, p) + [k]
    && p in s.peers && p in t.peers && t.peers[p].pc == m.pc && t.peers[p].got == s.peers[p].got
    && t.peers[p].mine == (if m.access.SessionSet? then Some(m.access.session.id) else s.peers[p].mine)
    && t.sessions == SessionsAfter(s, m.access)
    && forall q :: SentBy(actions, i, n, p, q) == SentBy(actions, i, k, p, q) + Puts(s, m.access, q)
  }

  /** What an access does to the session store, cleanupPeer's deletion excepted. */
  function SessionsAfter(s: State, access: Access): map<SessionId, Session> {
    match access
    case SessionSet(x) => s.sessions[x.id := x]
    case SessionDelete(x) => s.sessions - {x.id}
    case _ => s.sessions
  }

  lemma StoreAccess(s: State, p: PeerId, access: Access)
    requires !access.SessionDeleteByPeer?
    ensures Apply(s, p, access).sessions == SessionsAfter(s, access)
  {
  }

  lemma TurnAdvances(actions: seq<Action>, i: nat, k: nat, p: PeerId, m: Move)
    requires i <= k < |actions| && IsTurn(After(actions, k), actions[k], p) && p in After(actions, k).peers
    requires Step(After(actions, k), p, actions[k].choice) == Some(m)
    requires !m.access.Receive? && !m.access.SessionDeleteByPeer?
    ensures Advances(actions, i, k, k + 1, p, m)
  {
    hide Run, Exec, Step, Apply, Growth, WiresOf, Puts, WiresAfter, After, SessionsAfter;
    var s := After(actions, k);
    AfterStep(actions, k);
    OwnStep(s, p, actions[k].choice, m);
    StoreAccess(s, p, m.access);
    GoMove(s, actions[k]);
    forall q {
      MoveWrites(s, actions[k], q);
    }
  }

  lemma GoMove(s: State, a: Action)
    requires a.Go? && a.peer in s.peers
    ensures MoveOf(s, a) == Step(s, a.peer, a.choice)
  {
    hide Step;
  }

  /** What every other action does to them, reads of p's excepted. */
  ghost predicate Pauses(actions: seq<Action>, i: nat, k: nat, n: nat, p: PeerId)
    requires i <= k <= n <= |actions|
  {
    && Turns(actions, i, n, p) == Turns(actions, i, k, p)
    && Undisturbed(After(actions, k), After(actions, n), p)
    && forall q :: SentBy(actions, i, n, p, q) == SentBy(actions, i, k, p, q)
  }

  lemma OtherPauses(actions: seq<Action>, i: nat, k: nat, p: PeerId)
    requires i <= k < |actions| && p in After(actions, k).peers
    requires !IsTurn(After(actions, k), actions[k], p) && !(actions[k].Read? && actions[k].peer == p)
    ensures Pauses(actions, i, k, k + 1, p)
  {
    hide Run, Exec, Growth, WiresOf, After;
    AfterStep(actions, k);
    forall q ensures SentBy(actions, i, k + 1, p, q) == SentBy(actions, i, k, p, q) {
      OtherAction(After(actions, k), actions[k], p, q);
    }
    OtherAction(After(actions, k), actions[k], p, 0);
  }

  /** A session that was stored and is not any more does not come back in the next step. */
  lemma GoneStays(actions: seq<Action>, j: nat, k: nat, id: SessionId)
    requires j <= k < |actions| && id in After(actions, j).sessions && id !in After(actions, k).sessions
    ensures id !in After(actions, k + 1).sessions
  {
    hide Run, Exec;
    AfterInv(actions, j);
    AfterGrows(actions, j, k);
    GoneForever(actions, k, k + 1, id);
  }

  // ----- an outcome stays, and every step leads on -----

  /** p's goroutine writes nothing in actions k to n. */
  ghost predicate Continues(actions: seq<Action>, i: nat, k: nat, n: nat, p: PeerId)
    requires i <= k <= n <= |actions|
  {
    && Turns(actions, i, k, p) <= Turns(actions, i, n, p)
    && forall q :: SentBy(actions, i, n, p, q) == SentBy(actions, i, k, p, q)
  }

  lemma RefusedStays(actions: seq<Action>, i: nat, k: nat, p: PeerId, m: nat, code: string)
    requires i <= k < |actions| && Continues(actions, i, k, k + 1, p) && Refused(actions, i, k, p, m, code)
    ensures Refused(actions, i, k + 1, p, m, code)
  {
    hide SentBy, Turns, After, Sendable;
  }

  lemma ClosedStays(actions: seq<Action>, i: nat, k: nat, p: PeerId, m: nat, id: SessionId)
    requires i <= k < |actions| && Continues(actions, i, k, k + 1, p) && Closed(actions, i, k, p, m, id)
    ensures Closed(actions, i, k + 1, p, m, id)
  {
    hide SentBy, Turns, After, NoticeTo;
    var t := Turns(actions, i, k, p)[m];
    if id in After(actions, t).sessions {
      GoneStays(actions, t, k, id);
    }
  }

  lemma ForwardedStays(
    actions: seq<Action>, i: nat, k: nat, p: PeerId, to: PeerId, frame: Bytes, index: nat, id: SessionId)
    requires i <= k < |actions| && Continues(actions, i, k, k + 1, p)
    requires Forwarded(actions, i, k, p, to, frame, index, id)
    requires |Turns(actions, i, k, p)| > 0 && id in After(actions, Turns(actions, i, k, p)[0]).sessions
    ensures Forwarded(actions, i, k + 1, p, to, frame, index, id)
  {
    hide SentBy, Turns, After, Sendable, Closed;
    if !Sendable(After(actions, Turns(actions, i, k, p)[1]), to) {
      ClosedStays(actions, i, k, p, 2, id);
      GoneStays(actions, Turns(actions, i, k, p)[0], k, id);
    }
  }

  lemma RoutedStays(actions: seq<Action>, i: nat, k: nat, p: PeerId, frame: Bytes, index: nat, id: SessionId)
    requires i <= k < |actions| && Continues(actions, i, k, k + 1, p) && Routed(actions, i, k, p, frame, index, id)
    ensures Routed(actions, i, k + 1, p, frame, index, id)
  {
    hide SentBy, Turns, After, Refused, Forwarded;
    var sessions := After(actions, Turns(actions, i, k, p)[0]).sessions;
    if id in sessions && p == sessions[id].client {
      ForwardedStays(actions, i, k, p, sessions[id].connector, frame, index, id);
    } else if id in sessions && p == sessions[id].connector {
      ForwardedStays(actions, i, k, p, sessions[id].client, frame, index, id);
    } else {
      RefusedStays(actions, i, k, p, 1, if id in sessions then "SESSION_PEER_MISMATCH" else "SESSION_NOT_FOUND");
    }
  }

  lemma OutcomeStays(actions: seq<Action>, i: nat, k: nat, p: PeerId, input: Input, index: nat)
    requires i <= k < |actions| && Continues(actions, i, k, k + 1, p) && Outcome(actions, i, k, p, input, index)
    ensures Outcome(actions, i, k + 1, p, input, index)
  {
    hide SentBy, Turns, After, Refused, Closed, Routed, ParseDataFrame;
    forall m: nat, code | Refused(actions, i, k, p, m, code) ensures Refused(actions, i, k + 1, p, m, code) {
      RefusedStays(actions, i, k, p, m, code);
    }
    forall m: nat, id | Closed(actions, i, k, p, m, id) ensures Closed(actions, i, k + 1, p, m, id) {
      ClosedStays(actions, i, k, p, m, id);
    }
    forall frame, id | Routed(actions, i, k, p, frame, index, id)
      ensures Routed(actions, i, k + 1, p, frame, index, id)
    {
      RoutedStays(actions, i, k, p, frame, index, id);
    }
  }

  lemma PhasePauses(actions: seq<Action>, i: nat, k: nat, p: PeerId, input: Input, index: nat)
    requires i <= k < |actions| && p in After(actions, k).peers && Phase(actions, i, k, p, input, index)
    requires Pauses(actions, i, k, k + 1, p)
    ensures p in After(actions, k + 1).peers && Phase(actions, i, k + 1, p, input, index)
  {
    hide SentBy, Turns, After, Outcome, Names, Found, NoticeTo, Sendable, ParseDataFrame;
    var turns := Turns(actions, i, k, p);
    match After(actions, k).peers[p].pc {
      case Loop => OutcomeStays(actions, i, k, p, input, index);
      case CloseNotifyClient(x, _) => GoneStays(actions, turns[Before(input)], k, x.id);
      case CloseNotifyConnector(x, _) => GoneStays(actions, turns[Before(input)], k, x.id);
      case _ =>
    }
  }

  // ----- the turns, by where they are made -----

  lemma RouteGetTurn(actions: seq<Action>, i: nat, k: nat, p: PeerId, input: Input, index: nat)
    requires i <= k < |actions| && p in After(actions, k).peers && Phase(actions, i, k, p, input, index)
    requires IsTurn(After(actions, k), actions[k], p) && After(actions, k).peers[p].pc.RouteGet?
    ensures p in After(actions, k + 1).peers && Phase(actions, i, k + 1, p, input, index)
  {
    var m := Step(After(actions, k), p, actions[k].choice).value;
    hide SentBy, Turns, After;
    TurnAdvances(actions, i, k, p, m);
    assert Turns(actions, i, k + 1, p)[0] == k;
  }

  lemma RouteSendMove(s: State, p: PeerId, choice: SessionId)
    requires p in s.peers && s.peers[p].pc.RouteSend? && s.peers[p].pc.index < |s.peers[p].got|
    ensures var pc, frame := s.peers[p].pc, s.peers[p].got[s.peers[p].pc.index];
            Step(s, p, choice)
            == Some(Move(SendTo(pc.target, Binary(frame, p, pc.index)),
                         if Sendable(s, pc.target) then Loop else CloseDelete(pc.sessionId, ToLoop)))
  {
  }

  /** The frame has been sent, or could not be. */
  lemma Sent(
    actions: seq<Action>, i: nat, k: nat, p: PeerId, input: Input, index: nat, id: SessionId, to: PeerId)
    requires i <= k < |actions| && Names(input, id)
    requires Turns(actions, i, k + 1, p) == Turns(actions, i, k, p) + [k] && |Turns(actions, i, k, p)| == 1
    requires Found(After(actions, Turns(actions, i, k, p)[0]), p, id, to)
    requires Sendable(After(actions, k), to)
    requires Writes(actions, i, k + 1, p, to, [Binary(input.frame, p, index)])
    ensures Outcome(actions, i, k + 1, p, input, index)
  {
    hide Turns, SentBy, After, ParseDataFrame, Sendable, Refused, Closed, Writes;
  }

  lemma RouteSendTurn(actions: seq<Action>, i: nat, k: nat, p: PeerId, input: Input, index: nat)
    requires i <= k < |actions| && p in After(actions, k).peers && Phase(actions, i, k, p, input, index)
    requires IsTurn(After(actions, k), actions[k], p) && After(actions, k).peers[p].pc.RouteSend?
    ensures p in After(actions, k + 1).peers && Phase(actions, i, k + 1, p, input, index)
  {
    hide Turns, SentBy, After, Step, Outcome, Names, Found, Sendable;
    var pc := After(actions, k).peers[p].pc;
    RouteSendMove(After(actions, k), p, actions[k].choice);
    var m := Step(After(actions, k), p, actions[k].choice).value;
    TurnAdvances(actions, i, k, p, m);
    if Sendable(After(actions, k), pc.target) {
      Sent(actions, i, k, p, input, index, pc.sessionId, pc.target);
    } else {
      var turns := Turns(actions, i, k + 1, p);
      assert Found(After(actions, turns[0]), p, pc.sessionId, pc.target) && turns[1] == k;
    }
  }

  lemma SendErrorMove(s: State, p: PeerId, choice: SessionId)
    requires p in s.peers && s.peers[p].pc.SendError?
    ensures Step(s, p, choice)
         == Some(Move(SendTo(p, Text(Error(s.peers[p].pc.code))), Resume(s.peers[p].pc.next)))
  {
  }

  lemma SendErrorTurn(actions: seq<Action>, i: nat, k: nat, p: PeerId, input: Input, index: nat)
    requires i <= k < |actions| && p in After(actions, k).peers && Phase(actions, i, k, p, input, index)
    requires IsTurn(After(actions, k), actions[k], p) && After(actions, k).peers[p].pc.SendError?
    ensures p in After(actions, k + 1).peers && Phase(actions, i, k + 1, p, input, index)
  {
    hide Turns, SentBy, After, Step, Outcome, ErrorDue, Sendable;
    var s := After(actions, k);
    SendErrorMove(s, p, actions[k].choice);
    TurnAdvances(actions, i, k, p, Step(s, p, actions[k].choice).value);
    assert Refused(actions, i, k + 1, p, |Turns(actions, i, k, p)|, s.peers[p].pc.code);
    ErrorEnds(actions, i, k, p, input, index, s.peers[p].pc.code);
  }

  /** The error has been sent, and with it the handling of the message has ended. */
  lemma ErrorEnds(actions: seq<Action>, i: nat, k: nat, p: PeerId, input: Input, index: nat, code: string)
    requires i <= k < |actions| && ErrorDue(actions, i, k, p, input, code)
    requires Turns(actions, i, k + 1, p) == Turns(actions, i, k, p) + [k]
    requires Refused(actions, i, k + 1, p, |Turns(actions, i, k, p)|, code)
    ensures Outcome(actions, i, k + 1, p, input, index)
  {
    hide Turns, SentBy, After, ParseDataFrame, Sendable, Refused, Closed, Forwarded;
  }

  lemma CloseDeleteTurn(actions: seq<Action>, i: nat, k: nat, p: PeerId, input: Input, index: nat)
    requires i <= k < |actions| && p in After(actions, k).peers && Phase(actions, i, k, p, input, index)
    requires IsTurn(After(actions, k), actions[k], p) && After(actions, k).peers[p].pc.CloseDelete?
    ensures p in After(actions, k + 1).peers && Phase(actions, i, k + 1, p, input, index)
  {
    hide Turns, SentBy, After, Step, Outcome, CloseDue, Closed;
    var s, id := After(actions, k), After(actions, k).peers[p].pc.sessionId;
    CloseDeleteMove(s, p, actions[k].choice);
    AfterInv(actions, k);
    StoredUnder(s, id);
    TurnAdvances(actions, i, k, p, Step(s, p, actions[k].choice).value);
    DueStays(actions, i, k, p, input, id);
    if id !in s.sessions {
      assert Closed(actions, i, k + 1, p, Before(input), id) by {
        NothingToClose(actions, i, k, p, Before(input), id);
      }
      CloseEnds(actions, i, k, p, input, index, id);
    }
  }

  lemma CloseDeleteMove(s: State, p: PeerId, choice: SessionId)
    requires p in s.peers && s.peers[p].pc.CloseDelete?
    ensures var id, next := s.peers[p].pc.sessionId, s.peers[p].pc.next;
            Step(s, p, choice)
            == Some(if id in s.sessions
                    then Move(SessionDelete(s.sessions[id]), CloseNotifyClient(s.sessions[id], next))
                    else Move(Observe, Resume(next)))
  {
  }

  lemma StoredUnder(s: State, id: SessionId)
    requires Inv(s)
    ensures id in s.sessions ==> s.sessions[id].id == id
  {
    if id in s.sessions {
      assert Joined(s, id);
    }
  }

  lemma DueStays(actions: seq<Action>, i: nat, k: nat, p: PeerId, input: Input, id: SessionId)
    requires i <= k < |actions| && CloseDue(actions, i, k, p, input, id)
    requires Turns(actions, i, k + 1, p) == Turns(actions, i, k, p) + [k]
    ensures CloseDue(actions, i, k + 1, p, input, id)
  {
    hide Turns, After, Sendable, Found, Names;
    if input.Data? {
      var turns, next := Turns(actions, i, k, p), Turns(actions, i, k + 1, p);
      var to :| Found(After(actions, turns[0]), p, id, to) && !Sendable(After(actions, turns[1]), to);
      assert Found(After(actions, next[0]), p, id, to) && !Sendable(After(actions, next[1]), to);
    }
  }

  lemma NothingToClose(actions: seq<Action>, i: nat, k: nat, p: PeerId, m: nat, id: SessionId)
    requires i <= k < |actions| && Turns(actions, i, k + 1, p) == Turns(actions, i, k, p) + [k]
    requires |Turns(actions, i, k, p)| == m && id !in After(actions, k).sessions && Silent(actions, i, k + 1, p)
    ensures Closed(actions, i, k + 1, p, m, id)
  {
    hide Turns, SentBy, After;
  }

  /** closeSession has ended, and with it the handling of the message. */
  lemma CloseEnds(actions: seq<Action>, i: nat, k: nat, p: PeerId, input: Input, index: nat, id: SessionId)
    requires i <= k < |actions| && CloseDue(actions, i, k + 1, p, input, id)
    requires Closed(actions, i, k + 1, p, Before(input), id)
    requires input.Data? ==> id !in After(actions, k + 1).sessions
    ensures Outcome(actions, i, k + 1, p, input, index)
  {
    hide Turns, SentBy, After, ParseDataFrame, Sendable, Refused, Closed, Routed, Found;
    if input.Data? {
      CloseEndsFrame(actions, i, k, p, input, index, id);
    }
  }

  lemma CloseEndsFrame(actions: seq<Action>, i: nat, k: nat, p: PeerId, input: Input, index: nat, id: SessionId)
    requires i <= k < |actions| && CloseDue(actions, i, k + 1, p, input, id)
    requires input.Data? && Closed(actions, i, k + 1, p, 2, id) && id !in After(actions, k + 1).sessions
    ensures Routed(actions, i, k + 1, p, input.frame, index, id)
  {
    hide Turns, SentBy, After, ParseDataFrame, Sendable, Refused, Closed, Writes;
    var turns := Turns(actions, i, k + 1, p);
    var to :| Found(After(actions, turns[0]), p, id, to) && !Sendable(After(actions, turns[1]), to);
    assert Forwarded(actions, i, k + 1, p, to, input.frame, index, id);
  }

  lemma TellClientTurn(actions: seq<Action>, i: nat, k: nat, p: PeerId, input: Input, index: nat)
    requires i <= k < |actions| && p in After(actions, k).peers && Phase(actions, i, k, p, input, index)
    requires IsTurn(After(actions, k), actions[k], p) && After(actions, k).peers[p].pc.CloseNotifyClient?
    ensures p in After(actions, k + 1).peers && Phase(actions, i, k + 1, p, input, index)
  {
    hide Turns, SentBy, After, Step, Outcome, CloseDue, Closed, NoticeTo;
    var s := After(actions, k);
    var x, turns := s.peers[p].pc.session, Turns(actions, i, k, p);
    TellMove(s, p, actions[k].choice);
    TurnAdvances(actions, i, k, p, Step(s, p, actions[k].choice).value);
    DueStays(actions, i, k, p, input, x.id);
    GoneStays(actions, turns[Before(input)], k, x.id);
  }

  lemma TellMove(s: State, p: PeerId, choice: SessionId)
    requires p in s.peers && (s.peers[p].pc.CloseNotifyClient? || s.peers[p].pc.CloseNotifyConnector?)
    ensures var x, next := s.peers[p].pc.session, s.peers[p].pc.next;
            Step(s, p, choice)
            == Some(if s.peers[p].pc.CloseNotifyClient? then Move(Notify(x.client, x.id), CloseNotifyConnector(x, next))
                    else Move(Notify(x.connector, x.id), Resume(next)))
  {
  }

  lemma TellConnectorTurn(actions: seq<Action>, i: nat, k: nat, p: PeerId, input: Input, index: nat)
    requires i <= k < |actions| && p in After(actions, k).peers && Phase(actions, i, k, p, input, index)
    requires IsTurn(After(actions, k), actions[k], p) && After(actions, k).peers[p].pc.CloseNotifyConnector?
    ensures p in After(actions, k + 1).peers && Phase(actions, i, k + 1, p, input, index)
  {
    hide Turns, SentBy, After, Step, Outcome, CloseDue, NoticeTo;
    var s := After(actions, k);
    var x, turns := s.peers[p].pc.session, Turns(actions, i, k, p);
    TellMove(s, p, actions[k].choice);
    TurnAdvances(actions, i, k, p, Step(s, p, actions[k].choice).value);
    DueStays(actions, i, k, p, input, x.id);
    GoneStays(actions, turns[Before(input)], k, x.id);
    assert Closed(actions, i, k + 1, p, Before(input), x.id);
    CloseEnds(actions, i, k, p, input, index, x.id);
  }

  lemma PhaseStep(actions: seq<Action>, i: nat, k: nat, p: PeerId, input: Input, index: nat)
    requires i <= k < |actions| && p in After(actions, k).peers && Phase(actions, i, k, p, input, index)
    requires !(actions[k].Read? && actions[k].peer == p)
    ensures p in After(actions, k + 1).peers && Phase(actions, i, k + 1, p, input, index)
  {
    if !IsTurn(After(actions, k), actions[k], p) {
      OtherPauses(actions, i, k, p);
      PhasePauses(actions, i, k, p, input, index);
    } else {
      match After(actions, k).peers[p].pc {
        case RouteGet(_, _) => RouteGetTurn(actions, i, k, p, input, index);
        case RouteSend(_, _, _) => RouteSendTurn(actions, i, k, p, input, index);
        case SendError(_, _) => SendErrorTurn(actions, i, k, p, input, index);
        case CloseDelete(_, _) => CloseDeleteTurn(actions, i, k, p, input, index);
        case CloseNotifyClient(_, _) => TellClientTurn(actions, i, k, p, input, index);
        case CloseNotifyConnector(_, _) => TellConnectorTurn(actions, i, k, p, input, index);
      }
    }
  }

  /** Where the goroutine is right after it has taken the message. */
  lemma PhaseStarts(actions: seq<Action>, i: nat, p: PeerId, me: Peer, input: Input, index: nat)
    requires i <= |actions| && p in After(actions, i).peers && !input.ReadError?
    requires After(actions, i).peers[p].pc == OnRead(me, input).pc && |me.got| == index
    requires input.Data? ==> Kept(After(actions, i), p, input, index)
    ensures Phase(actions, i, i, p, input, index)
  {
    hide After;
  }

  /** p's goroutine reads nothing in actions i to k. */
  ghost predicate ReadsNothing(actions: seq<Action>, i: nat, k: nat, p: PeerId)
    requires i <= k <= |actions|
  {
    forall j :: i <= j < k ==> !(actions[j].Read? && actions[j].peer == p)
  }

  lemma {:induction false} PhaseHolds(actions: seq<Action>, i: nat, k: nat, p: PeerId, input: Input, index: nat)
    requires i <= k <= |actions| && ReadsNothing(actions, i, k, p)
    requires p in After(actions, i).peers && Phase(actions, i, i, p, input, index)
    ensures p in After(actions, k).peers && Phase(actions, i, k, p, input, index)
    decreases k
  {
    hide Phase, After;
    if k > i {
      PhaseHolds(actions, i, k - 1, p, input, index);
      PhaseStep(actions, i, k - 1, p, input, index);
    }
  }

  /** In every run, for every message a goroutine reads: once it is back in its read loop, the message has
      had exactly this outcome, whatever the others did meanwhile. In particular a frame goes, as it was
      read, to the other end of the session that it names, if the session is stored and the sender one end
      of it when it is looked up, and the other end's connection is open when the frame is sent; the
      sender gets an error in exactly the other cases, and nobody gets anything else. */
  lemma OutcomeOfMessage(actions: seq<Action>, i: nat, k: nat, p: PeerId)
    requires i < k <= |actions| && actions[i].Read? && actions[i].peer == p && !actions[i].input.ReadError?
    requires p in After(actions, i).peers && After(actions, i).peers[p].pc.Loop?
    requires ReadsNothing(actions, i + 1, k, p)
    requires p in After(actions, k).peers && After(actions, k).peers[p].pc.Loop?
    ensures Outcome(actions, i + 1, k, p, actions[i].input, |After(actions, i).peers[p].got|)
  {
    hide Run, Exec, Outcome, OnRead, After;
    var me, input := After(actions, i).peers[p], actions[i].input;
    AfterStep(actions, i);
    ReadStep(After(actions, i), p, input);
    PhaseStarts(actions, i + 1, p, me, input, |me.got|);
    PhaseHolds(actions, i + 1, k, p, input, |me.got|);
  }

  // ----- the same for code that follows the step system -----

  lemma TookNothing(a: seq<Action>, b: seq<Action>, p: PeerId)
    requires Took(a, b, p, [])
    ensures ReadsNothing(b, |a|, |b|, p)
  {
    hide Taken;
    forall j | |a| <= j < |b| ensures !(b[j].Read? && b[j].peer == p) {
      assert b[..j + 1] == b[..j] + [b[j]] && b == b[..j + 1] + b[j + 1..] && b[..j] == a + b[|a|..j];
      TookOne(b[..j], b[j], p);
      TakenAppend(b[..j + 1], b[j + 1..], p);
      TakenAppend(a, b[|a|..j], p);
    }
  }

  /** A goroutine that had taken a message at the end of run a, and is back in its loop at the end of b. */
  lemma Concludes(a: seq<Action>, b: seq<Action>, p: PeerId, me: Peer, input: Input)
    requires Took(a, b, p, []) && !input.ReadError?
    requires p in Run(Initial, a).peers && Run(Initial, a).peers[p].pc == OnRead(me, input).pc
    requires input.Data? ==> Kept(Run(Initial, a), p, input, |me.got|)
    requires p in Run(Initial, b).peers && Run(Initial, b).peers[p].pc.Loop?
    ensures Outcome(b, |a|, |b|, p, input, |me.got|)
  {
    hide Run, Outcome, OnRead, Kept, Taken;
    assert b[..|a|] == a && b[..|b|] == b;
    assert After(b, |a|) == Run(Initial, a) && After(b, |b|) == Run(Initial, b);
    TookNothing(a, b, p);
    PhaseStarts(b, |a|, p, me, input, |me.got|);
    PhaseHolds(b, |a|, |b|, p, input, |me.got|);
  }

  // ----- notices -----

  lemma AccessNotices(s: State, a: Action, e: PeerId, id: SessionId)
    requires MoveOf(s, a).Some? && e in s.peers
    ensures var access := MoveOf(s, a).value.access;
            Text(Control.CloseSession(id)) in Puts(s, access, e) <==> access == Notify(e, id) && s.peers[e].open
  {
    hide ParseDataFrame;
  }

  lemma PerformNotices(s: State, p: PeerId, m: Move, e: PeerId, id: SessionId)
    requires p in s.peers && e in s.peers
    ensures var t := Perform(s, p, m);
            && e in t.peers
            && t.peers[e].notices[id] == s.peers[e].notices[id] + if m.access == Notify(e, id) then 1 else 0
  {
    hide Apply, Touched;
    ApplyTouches(s, p, m.access);
    TouchesNotices(s.peers[e], p, m.access, e, id);
  }

  lemma TouchesNotices(q: Peer, p: PeerId, access: Access, e: PeerId, id: SessionId)
    ensures (if e == Touched(p, access) then PeerAfter(q, access) else q).notices[id]
         == q.notices[id] + if access == Notify(e, id) then 1 else 0
  {
  }

  /** In every run: CLOSE_SESSION is put on a channel exactly by the attempts that the notice accounts count,
      each that finds the connection open. */
  lemma NoticesAreWritten(actions: seq<Action>, n: nat, e: PeerId, id: SessionId)
    requires n < |actions| && e in After(actions, n).peers
    ensures e in After(actions, n + 1).peers
    ensures var s, t := After(actions, n), After(actions, n + 1);
            && s.peers[e].notices[id] <= t.peers[e].notices[id] <= s.peers[e].notices[id] + 1
            && (Text(Control.CloseSession(id)) in Growth(WiresOf(s), WiresOf(t), e) <==>
                t.peers[e].notices[id] == s.peers[e].notices[id] + 1 && s.peers[e].open)
  {
    hide Run, Exec, Perform, MoveOf, Growth, WiresOf, Puts;
    var s, a := After(actions, n), actions[n];
    AfterStep(actions, n);
    ExecCases(s, a);
    if MoveOf(s, a).Some? {
      MoveExec(s, a);
      MoveWrites(s, a, e);
      AccessNotices(s, a, e, id);
      PerformNotices(s, a.peer, MoveOf(s, a).value, e, id);
    } else {
      JoinWrites(s, a, e);
    }
  }

  lemma JoinWrites(s: State, a: Action, e: PeerId)
    requires e in s.peers && MoveOf(s, a).None?
    ensures e in Exec(s, a).peers && Exec(s, a).peers[e] == s.peers[e]
    ensures Growth(WiresOf(s), WiresOf(Exec(s, a)), e) == []
  {
    hide Step, OnRead;
  }
}
