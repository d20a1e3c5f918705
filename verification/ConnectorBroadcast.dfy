/** What the gateway reader sends to the relay, in runs of the connector: gateway events with the flags of
    the table, and one error for each open session after a disconnect. */
module ConnectorBroadcast {
  import opened Protocol
  import opened Events
  import opened ConnectorSystem
  import opened ConnectorInvariants
  import opened ConnectorTheorems

  /** The frame that the gateway reader asks the relay link to carry in this step. */
  function Told(lx: Lexicon, n: Node, a: Action): Option<Outgoing> {
    if a.Work? then Output(lx, n, a) else None
  }

  // ----- the broadcast after a disconnect -----

  function Disconnection(id: SessionId, flags: byte): Outgoing {
    Outgoing(id, flags, Failure("GATEWAY_DISCONNECTED", []), None)
  }

  /** One step while the broadcast has these sessions left: it tells one of them, or ends, or is a step of
      the relay reader's. */
  lemma BroadcastStep(lx: Lexicon, n: Node, a: Action)
    requires n.gateway.Broadcast?
    ensures var left, t := n.gateway.left, Exec(lx, n, a);
            match Told(lx, n, a)
            case Some(o) =>
              && o.sessionId in left && o == Disconnection(o.sessionId, left[o.sessionId])
              && t.gateway == Broadcast(left - {o.sessionId})
            case None => t.gateway == n.gateway || (left == map[] && t.gateway == Dial)
  {
    hide ServeStep, ResolveStep, BatchStep, Apply, HandshakeVerdict;
    if !a.Work? && ReaderMoveOf(lx, n, a).Some? {
      hide ReaderMoveOf;
      ApplyGateway(n, ReaderMoveOf(lx, n, a).value.access);
    }
  }

  /** The connector is broadcasting from state i + 1 up to state k - 1, having taken its snapshot in state i. */
  ghost predicate Broadcasts(lx: Lexicon, actions: seq<Action>, i: nat, k: nat) {
    && i < k <= |actions|
    && After(lx, actions, i).gateway == Snapshot && After(lx, actions, i + 1).gateway.Broadcast?
    && forall j :: i < j < k ==> After(lx, actions, j).gateway.Broadcast?
  }

  /** How often the session is told in actions i to k. */
  function TimesTold(lx: Lexicon, actions: seq<Action>, i: nat, k: nat, id: SessionId): nat
    requires i <= k <= |actions|
    decreases k
  {
    if k == i then 0
    else
      var o := Told(lx, After(lx, actions, k - 1), actions[k - 1]);
      TimesTold(lx, actions, i, k - 1, id) + if o.Some? && o.value.sessionId == id then 1 else 0
  }

  lemma SnapshotStep(lx: Lexicon, n: Node, a: Action)
    requires n.gateway == Snapshot && Exec(lx, n, a).gateway.Broadcast?
    ensures Exec(lx, n, a).gateway == Broadcast(n.table)
  {
    hide ServeStep, ResolveStep, BatchStep, Apply;
    if !a.Work? && ReaderMoveOf(lx, n, a).Some? {
      hide ReaderMoveOf;
      ApplyGateway(n, ReaderMoveOf(lx, n, a).value.access);
    }
  }

  ghost predicate Remains(left: map<SessionId, byte>, table: map<SessionId, byte>) {
    forall id :: id in left ==> id in table && left[id] == table[id]
  }

  function One(b: bool): nat {
    if b then 1 else 0
  }

  lemma OneLess(left: map<SessionId, byte>, table: map<SessionId, byte>, told: SessionId, id: SessionId)
    requires Remains(left, table) && told in left
    ensures Remains(left - {told}, table)
    ensures One(id in left) == One(id in left - {told}) + if told == id then 1 else 0
  {
  }

  /** In every run, whatever the relay reader does meanwhile: from the snapshot on, each session of the
      snapshot is told once or still to be told; when the connector dials again, each has been told
      exactly once, and no other session has been. */
  lemma {:induction false} BroadcastTellsEach(lx: Lexicon, actions: seq<Action>, i: nat, k: nat, id: SessionId)
    requires Broadcasts(lx, actions, i, k)
    ensures var g, open := After(lx, actions, k).gateway, id in After(lx, actions, i).table;
            var told := TimesTold(lx, actions, i + 1, k, id);
            match g
            case Broadcast(left) =>
              Remains(left, After(lx, actions, i).table) && told + One(id in left) == One(open)
            case _ => g == Dial && told == One(open)
    decreases k
  {
    hide Run, After, Exec, Told, Remains, Disconnection;
    AfterStep(lx, actions, k - 1);
    var n, table := After(lx, actions, k - 1), After(lx, actions, i).table;
    if k == i + 1 {
      SnapshotStep(lx, n, actions[i]);
      SelfRemains(table);
    } else {
      BroadcastTellsEach(lx, actions, i, k - 1, id);
      BroadcastStep(lx, n, actions[k - 1]);
      var o := Told(lx, n, actions[k - 1]);
      if o.Some? {
        OneLess(n.gateway.left, table, o.value.sessionId, id);
      }
    }
  }

  lemma SelfRemains(table: map<SessionId, byte>)
    ensures Remains(table, table)
  {
  }

  /** And each is told with the flags it had in the snapshot. */
  lemma BroadcastFlags(lx: Lexicon, actions: seq<Action>, i: nat, j: nat)
    requires j < |actions| && i < j && Broadcasts(lx, actions, i, j + 1)
    requires Told(lx, After(lx, actions, j), actions[j]).Some?
    ensures var o := Told(lx, After(lx, actions, j), actions[j]).value;
            var table := After(lx, actions, i).table;
            o.sessionId in table && o == Disconnection(o.sessionId, table[o.sessionId])
  {
    hide Run, After, Exec, Told;
    var o := Told(lx, After(lx, actions, j), actions[j]).value;
    BroadcastTellsEach(lx, actions, i, j, o.sessionId);
    BroadcastStep(lx, After(lx, actions, j), actions[j]);
  }

  /** The gateway reader dials again only after a broadcast, and it broadcasts only what it has taken a
      snapshot of. */
  lemma RedialStep(lx: Lexicon, n: Node, a: Action)
    requires Inv(n)
    ensures var h := Exec(lx, n, a).gateway;
            && (h == Dial ==> n.gateway == Dial || n.gateway.Broadcast?)
            && (h.Broadcast? ==> n.gateway.Broadcast? || n.gateway == Snapshot)
            && (a.Work? && n.gateway == Dial && !a.ok ==> h == Snapshot)
  {
    hide GatewayStep, Apply;
    if a.Work? {
      DialFails(lx, n, a);
      if GatewayStep(lx, n, a).Some? {
        GatewayEdge(lx, n, a);
      }
    } else if ReaderMoveOf(lx, n, a).Some? {
      hide ReaderMoveOf;
      ApplyGateway(n, ReaderMoveOf(lx, n, a).value.access);
    }
  }

  lemma DialFails(lx: Lexicon, n: Node, a: Action)
    requires a.Work?
    ensures n.gateway == Dial && !a.ok ==> GatewayStep(lx, n, a) == Some(GatewayMove(Observe, Snapshot))
  {
  }

  /** In every run: between a dial that fails, or any other moment of an attempt, and the next dial there is a
      snapshot, and so a broadcast to each open session. */
  lemma {:induction false} FailureIsBroadcast(lx: Lexicon, actions: seq<Action>, i: nat, k: nat) returns (j: nat)
    requires i < k <= |actions| && After(lx, actions, k).gateway == Dial
    requires var g := After(lx, actions, i).gateway;
             if g == Dial then actions[i].Work? && !actions[i].ok else !g.Broadcast?
    ensures i <= j < k && After(lx, actions, j).gateway == Snapshot
  {
    hide Run, After, Exec, Inv;
    AfterInv(lx, actions, i);
    AfterStep(lx, actions, i);
    RedialStep(lx, After(lx, actions, i), actions[i]);
    if After(lx, actions, i).gateway == Dial {
      j := SnapshotBetween(lx, actions, i + 1, k);
    } else {
      j := SnapshotBetween(lx, actions, i, k);
    }
  }

  lemma {:induction false} SnapshotBetween(lx: Lexicon, actions: seq<Action>, i: nat, k: nat) returns (j: nat)
    requires i <= k <= |actions|
    requires After(lx, actions, k).gateway == Dial || After(lx, actions, k).gateway.Broadcast?
    requires After(lx, actions, i).gateway != Dial && !After(lx, actions, i).gateway.Broadcast?
    ensures i <= j < k && After(lx, actions, j).gateway == Snapshot
    decreases k
  {
    hide Run, After, Exec, Inv;
    AfterInv(lx, actions, k - 1);
    AfterStep(lx, actions, k - 1);
    RedialStep(lx, After(lx, actions, k - 1), actions[k - 1]);
    var g := After(lx, actions, k - 1).gateway;
    if g == Snapshot {
      j := k - 1;
    } else {
      j := SnapshotBetween(lx, actions, i, k - 1);
    }
  }

  // ----- gateway events -----

  /** Outside the broadcast the gateway reader sends only the event it has just looked a session up for. */
  lemma EventStep(lx: Lexicon, n: Node, a: Action)
    requires a.Work? && !n.gateway.Broadcast? && Output(lx, n, a).Some?
    ensures n.gateway.Forward? && n.gateway.batch != []
    ensures var g := n.gateway; Output(lx, n, a).value == Outgoing(g.sessionId, g.flags, g.batch[0], g.cause)
  {
    hide GatewayStep;
    GatewayEdge(lx, n, a);
  }

  /** The lookup of an event's session: it found these flags for it. */
  ghost predicate LooksUp(n: Node, a: Action, g: Gateway) {
    && a.Work? && g.Forward? && g.batch != [] && n.gateway == Emit(g.sessionId, g.batch, g.cause)
    && g.sessionId in n.table && n.table[g.sessionId] == g.flags
  }

  lemma ForwardStep(lx: Lexicon, n: Node, a: Action)
    requires Exec(lx, n, a).gateway.Forward?
    ensures Exec(lx, n, a).gateway == n.gateway || LooksUp(n, a, Exec(lx, n, a).gateway)
  {
    hide GatewayStep, Apply;
    if a.Work? {
      if GatewayStep(lx, n, a).Some? {
        GatewayEdge(lx, n, a);
      }
    } else if ReaderMoveOf(lx, n, a).Some? {
      hide ReaderMoveOf;
      ApplyGateway(n, ReaderMoveOf(lx, n, a).value.access);
    }
  }

  /** In every run: an event is sent with the session and the flags that the table held when the event was
      looked up, just before; the relay reader may have run in between. */
  lemma {:induction false} EventsCarryTableFlags(lx: Lexicon, actions: seq<Action>, k: nat) returns (i: nat)
    requires k <= |actions| && After(lx, actions, k).gateway.Forward?
    ensures i < k && LooksUp(After(lx, actions, i), actions[i], After(lx, actions, k).gateway)
    ensures forall j :: i < j <= k ==> After(lx, actions, j).gateway == After(lx, actions, k).gateway
    decreases k
  {
    hide Run, After, Exec, LooksUp;
    if k == 0 {
      AfterNone(lx, actions);
      assert false;
    } else {
      AfterStep(lx, actions, k - 1);
      ForwardStep(lx, After(lx, actions, k - 1), actions[k - 1]);
      if LooksUp(After(lx, actions, k - 1), actions[k - 1], After(lx, actions, k).gateway) {
        i := k - 1;
      } else {
        i := EventsCarryTableFlags(lx, actions, k - 1);
      }
    }
  }

  /** An event for a session that is not open when it is looked up is dropped. */
  lemma ClosedEventIsDropped(lx: Lexicon, n: Node, a: Action)
    requires a.Work? && n.gateway.Emit? && n.gateway.batch != [] && n.gateway.sessionId !in n.table
    ensures Output(lx, n, a).None?
    ensures Exec(lx, n, a).gateway == NextInBatch(n.gateway.sessionId, n.gateway.batch, n.gateway.cause)
  {
    hide HandshakeStep, ServeStep, ResolveStep, NextInBatch;
  }

  // ----- a whole batch -----

  /** Everything that the gateway reader sends in actions i to k, in order. */
  function ToldIn(lx: Lexicon, actions: seq<Action>, i: nat, k: nat): seq<Outgoing>
    requires i <= k <= |actions|
    decreases k
  {
    if k == i then []
    else
      var o := Told(lx, After(lx, actions, k - 1), actions[k - 1]);
      ToldIn(lx, actions, i, k - 1) + if o.Some? then [o.value] else []
  }

  /** These events have been sent for this session and cause, in this order, and nothing else. */
  ghost predicate Carries(sent: seq<Outgoing>, id: SessionId, batch: seq<Event>, cause: Cause) {
    && |sent| == |batch|
    && forall n :: 0 <= n < |batch| ==>
                     sent[n].sessionId == id && sent[n].event == batch[n] && sent[n].cause == cause
  }

  predicate Emitting(g: Gateway) {
    g.Emit? || g.Forward? || g.Clear?
  }

  /** What has been sent and what is left are the batch. */
  ghost predicate Halfway(
    sent: seq<Outgoing>, g: Gateway, id: SessionId, batch: seq<Event>, cause: Cause)
  {
    && |sent| <= |batch| && Carries(sent, id, batch[..|sent|], cause)
    && if Emitting(g) then g.sessionId == id && g.cause == cause && g.batch == batch[|sent|..]
       else |sent| == |batch|
  }

  /** One step of the gateway reader while it emits for a session that is open. */
  lemma EmittingStep(lx: Lexicon, n: Node, a: Action)
    requires Emitting(n.gateway) && n.gateway.sessionId in n.table
    ensures var g, h, o := n.gateway, Exec(lx, n, a).gateway, Told(lx, n, a);
            match o
            case None =>
              || (Emitting(h) && h.sessionId == g.sessionId && h.cause == g.cause && h.batch == g.batch)
              || (g.Emit? && g.batch == [] && !Emitting(h))
            case Some(out) =>
              && g.batch != [] && out.sessionId == g.sessionId && out.event == g.batch[0] && out.cause == g.cause
              && Emitting(h) && h.sessionId == g.sessionId && h.cause == g.cause && h.batch == g.batch[1..]
  {
    hide GatewayStep, Apply, MapGatewayEvent, ResponseEvents;
    if a.Work? {
      if GatewayStep(lx, n, a).Some? {
        GatewayEdge(lx, n, a);
      }
    } else if ReaderMoveOf(lx, n, a).Some? {
      hide ReaderMoveOf;
      ApplyGateway(n, ReaderMoveOf(lx, n, a).value.access);
    }
  }

  lemma HalfwayStep(
    sent: seq<Outgoing>, g: Gateway, h: Gateway, o: Option<Outgoing>, id: SessionId, batch: seq<Event>, cause: Cause)
    requires Halfway(sent, g, id, batch, cause) && Emitting(g)
    requires o.None? ==> (Emitting(h) && h.sessionId == g.sessionId && h.cause == g.cause && h.batch == g.batch)
                         || (g.batch == [] && !Emitting(h))
    requires o.Some? ==> && g.batch != [] && o.value.sessionId == g.sessionId && o.value.event == g.batch[0]
                         && o.value.cause == g.cause
                         && Emitting(h) && h.sessionId == g.sessionId && h.cause == g.cause && h.batch == g.batch[1..]
    ensures Halfway(sent + if o.Some? then [o.value] else [], h, id, batch, cause)
  {
    if o.Some? {
      assert batch[|sent|..][1..] == batch[|sent| + 1..];
    } else {
      assert sent + [] == sent;
    }
  }

  /** In every run: while its session stays open, the events of a batch are sent for it one after the other,
      each once; when the gateway reader has done with the batch, all have been. */
  lemma {:induction false} OpenSessionHearsAll(
    lx: Lexicon, actions: seq<Action>, i: nat, k: nat, id: SessionId, batch: seq<Event>, cause: Cause)
    requires i <= k <= |actions| && After(lx, actions, i).gateway == Emit(id, batch, cause)
    requires forall j :: i <= j < k ==> Emitting(After(lx, actions, j).gateway) && id in After(lx, actions, j).table
    ensures Halfway(ToldIn(lx, actions, i, k), After(lx, actions, k).gateway, id, batch, cause)
    ensures !Emitting(After(lx, actions, k).gateway) ==> Carries(ToldIn(lx, actions, i, k), id, batch, cause)
    decreases k
  {
    hide Run, After, Exec, Told;
    assert batch[0..] == batch && batch[..|batch|] == batch;
    if k > i {
      OpenSessionHearsAll(lx, actions, i, k - 1, id, batch, cause);
      var n := After(lx, actions, k - 1);
      AfterStep(lx, actions, k - 1);
      EmittingStep(lx, n, actions[k - 1]);
      HalfwayStep(ToldIn(lx, actions, i, k - 1), n.gateway, After(lx, actions, k).gateway,
                  Told(lx, n, actions[k - 1]), id, batch, cause);
    }
  }

  // ----- the clear at the end of a batch -----

  /** The batch ends or fails the answer. */
  predicate Concludes(batch: seq<Event>) {
    exists n :: 0 <= n < |batch| && (batch[n].End? || batch[n].Failure?)
  }

  /** The tracks of the session are cleared in one of actions i to k. */
  ghost predicate ClearedIn(lx: Lexicon, actions: seq<Action>, i: nat, k: nat, id: SessionId)
    requires i <= k <= |actions|
  {
    exists j: nat :: i <= j < k && ClearsAt(lx, actions, j, id)
  }

  /** While a batch is emitted: whether the session has been cleared, and whether it still will be. */
  ghost predicate ClearLater(cleared: bool, g: Gateway, id: SessionId, batch: seq<Event>) {
    match g
    case Emit(x, rest, _) =>
      x == id && if cleared then rest == [] && Concludes(batch) else Concludes(rest) <==> Concludes(batch)
    case Forward(x, _, rest, _) => x == id && !cleared && (Concludes(rest) <==> Concludes(batch))
    case Clear(x, rest, _) => x == id && !cleared && rest == [] && Concludes(batch)
    case _ => cleared <==> Concludes(batch)
  }

  lemma ConcludesNext(batch: seq<Event>)
    requires WellFormed(batch) && batch != []
    ensures IsTerminal(batch[0]) ==> Concludes(batch) && batch[1..] == []
    ensures !IsTerminal(batch[0]) ==> (Concludes(batch[1..]) <==> Concludes(batch))
  {
    if Concludes(batch[1..]) {
      var n :| 0 <= n < |batch[1..]| && (batch[1..][n].End? || batch[1..][n].Failure?);
      assert batch[n + 1] == batch[1..][n];
    }
    if Concludes(batch) && !IsTerminal(batch[0]) {
      var n :| 0 <= n < |batch| && (batch[n].End? || batch[n].Failure?);
      assert batch[1..][n - 1] == batch[n];
    }
  }

  /** Where the gateway reader goes from within a batch. */
  lemma EmittingNext(lx: Lexicon, n: Node, a: Action)
    requires Emitting(n.gateway)
    ensures var g, h := n.gateway, Exec(lx, n, a).gateway;
            || (h == g && !(a.Work? && g.Clear?))
            || (g.Emit? && g.batch == [] && h == Resume(n))
            || (g.Emit? && g.batch != [] && h.Forward? && h.sessionId == g.sessionId && h.batch == g.batch)
            || (!g.Clear? && g.batch != [] && h == NextInBatch(g.sessionId, g.batch, g.cause))
            || (a.Work? && g.Clear? && h == Emit(g.sessionId, g.batch, g.cause))
  {
    hide GatewayStep, Apply, NextInBatch, Resume;
    if a.Work? {
      ClearMoves(lx, n, a);
      if GatewayStep(lx, n, a).Some? {
        GatewayEdge(lx, n, a);
      }
    } else if ReaderMoveOf(lx, n, a).Some? {
      hide ReaderMoveOf;
      ApplyGateway(n, ReaderMoveOf(lx, n, a).value.access);
    }
  }

  lemma ClearMoves(lx: Lexicon, n: Node, a: Action)
    requires a.Work?
    ensures n.gateway.Clear? ==> GatewayStep(lx, n, a).Some?
  {
  }

  lemma ClearLaterStep(lx: Lexicon, n: Node, a: Action, cleared: bool, id: SessionId, batch: seq<Event>)
    requires Inv(n) && Emitting(n.gateway) && ClearLater(cleared, n.gateway, id, batch)
    ensures ClearLater(cleared || (a.Work? && Clears(n.gateway, id)), Exec(lx, n, a).gateway, id, batch)
  {
    hide Exec, Concludes;
    EmittingNext(lx, n, a);
    EmptyConcludesNothing();
    BatchIsWellFormed(n);
    hide Inv;
    if n.gateway.batch != [] {
      ConcludesNext(n.gateway.batch);
    }
  }

  lemma EmptyConcludesNothing()
    ensures !Concludes([])
  {
  }

  lemma BatchIsWellFormed(n: Node)
    requires Inv(n) && Emitting(n.gateway)
    ensures WellFormed(n.gateway.batch)
  {
  }

  lemma ClearedStep(lx: Lexicon, actions: seq<Action>, i: nat, k: nat, id: SessionId)
    requires i <= k < |actions|
    ensures ClearedIn(lx, actions, i, k + 1, id) <==>
            ClearedIn(lx, actions, i, k, id) || ClearsAt(lx, actions, k, id)
  {
    hide ClearsAt;
  }

  /** In every run: while a batch is emitted its session is cleared exactly if the batch ends or fails the
      answer, be it for a response or an event, and whether or not the session is open. */
  lemma {:induction false} BatchClearsIff(
    lx: Lexicon, actions: seq<Action>, i: nat, k: nat, id: SessionId, batch: seq<Event>, cause: Cause)
    requires i <= k <= |actions| && After(lx, actions, i).gateway == Emit(id, batch, cause)
    requires forall j :: i <= j < k ==> Emitting(After(lx, actions, j).gateway)
    ensures ClearLater(ClearedIn(lx, actions, i, k, id), After(lx, actions, k).gateway, id, batch)
    ensures !Emitting(After(lx, actions, k).gateway) ==> (ClearedIn(lx, actions, i, k, id) <==> Concludes(batch))
    decreases k
  {
    hide Run, After, Exec, Inv, Concludes;
    if k > i {
      BatchClearsIff(lx, actions, i, k - 1, id, batch, cause);
      AfterStep(lx, actions, k - 1);
      AfterInv(lx, actions, k - 1);
      ClearedStep(lx, actions, i, k - 1, id);
      ClearLaterStep(lx, After(lx, actions, k - 1), actions[k - 1], ClearedIn(lx, actions, i, k - 1, id), id, batch);
    }
  }
}
