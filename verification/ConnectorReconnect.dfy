/** writeJSON reads the ready flag and then the connection, in two steps. A reconnect between
    them makes it write to a connection that has not been accepted. */
module ConnectorReconnect {
  import opened Protocol
  import opened Events
  import opened ConnectorSystem
  import opened ConnectorInvariants
  import opened ConnectorTheorems
  import opened ConnectorResolution
  import opened ConnectorRuns

  /** If the client is still ready when writeJSON reads the connection, it is an accepted one. */
  lemma ReadyAtGetConn(lx: Lexicon, actions: seq<Action>, newId: RequestId, ok: bool)
    requires var n := After(lx, actions, |actions|); n.reader.WriteConn? && n.ready
    ensures var n := After(lx, actions, |actions|);
            var t := Exec(lx, n, Read(newId, ok));
            t.reader.Write? && t.reader.conn in n.accepted
  {
    hide Run;
    AfterInv(lx, actions, |actions|);
  }

  // ----- the gateway reader can always be brought back to dialling -----

  /** How far the gateway reader is from dialling again, with t sessions open. */
  function Rank(g: Gateway, t: nat): nat {
    match g
    case Dial | Stopped => 0
    case Broadcast(left) => 1 + |left|
    case Snapshot => 2 + t
    case DropConn(_) => 3 + t
    case DropReady(_) => 4 + t
    case AwaitChallenge(_) | SendConnect(_) | AwaitAccept(_, _) => 5 + t
    case ClearReady(_) => 6 + t
    case SetConn(_) => 7 + t
    case Serve(_) => 8 + t
    case SetReady(_) => 9 + t
    case Emit(_, batch, _) => 10 + t + 3 * |batch|
    case Forward(_, _, batch, _) => 9 + t + 3 * |batch|
    case Clear(_, batch, _) => 11 + t + 3 * |batch|
    case TrackRun(_, _, _) | ByLast(_) => 17 + t
    case FindRequest(_) | ByRunCorrelation(_, _) => 18 + t
    case ByRun(_, _, _) => 19 + t
    case ByRequest(_, _, _) => 20 + t
  }

  /** An authentication failure is on its way to end the client. */
  predicate Ending(g: Gateway) {
    g == DropReady(true) || g == DropConn(true) || g == Stopped
  }

  /** A step after which the gateway reader is closer to dialling, whatever it is doing: reads fail and
      the connect request cannot be written. */
  function Lose(choice: SessionId): Action {
    Work(ReadError, [], 0, false, choice)
  }

  /** t is n one step closer to dialling, with the relay reader where it was. */
  ghost predicate Closer(n: Node, t: Node) {
    && t.table == n.table && t.reader == n.reader && !Ending(t.gateway)
    && Rank(t.gateway, |n.table|) < Rank(n.gateway, |n.table|)
  }

  lemma ResolvingRetreats(lx: Lexicon, n: Node)
    requires Resolving(n.gateway)
    ensures Closer(n, Exec(lx, n, Lose([])))
  {
    hide MapGatewayEvent;
    hide Exec;
    ResolvingStep(lx, n, Lose([]));
  }

  lemma RespondingRetreats(lx: Lexicon, n: Node)
    requires n.gateway.FindRequest? || n.gateway.TrackRun?
    ensures Closer(n, Exec(lx, n, Lose([])))
  {
    hide Exec, ResponseEvents, ExtractRunId, DecodePayload, EmitResponse, BeginResponse;
    var m := ServeStep(lx, n, ReadError).value;
    ServingMove(lx, n, Lose([]), m);
  }

  lemma EmitRetreats(lx: Lexicon, n: Node)
    requires n.gateway.Emit?
    ensures Closer(n, Exec(lx, n, Lose([])))
  {
    hide Exec;
    EmitOne(lx, n);
  }

  lemma EmitOne(lx: Lexicon, n: Node)
    requires n.gateway.Emit?
    ensures var t := Exec(lx, n, Lose([]));
            var g := n.gateway;
            && t.table == n.table && t.reader == n.reader
            && (g.batch == [] ==> t.gateway == Resume(n))
            && (g.batch != [] ==>
                  || (t.gateway.Forward? && t.gateway.batch == g.batch)
                  || t.gateway == NextInBatch(g.sessionId, g.batch, g.cause))
  {
    hide HandshakeStep, ResolveStep, ServeStep, NextInBatch, Resume;
  }

  lemma ForwardRetreats(lx: Lexicon, n: Node)
    requires n.gateway.Forward? && n.gateway.batch != []
    ensures Closer(n, Exec(lx, n, Lose([])))
  {
    hide HandshakeStep, ResolveStep, ServeStep;
  }

  lemma ClearRetreats(lx: Lexicon, n: Node)
    requires n.gateway.Clear?
    ensures Closer(n, Exec(lx, n, Lose([])))
  {
    hide HandshakeStep, ResolveStep, ServeStep, Cleared;
  }

  lemma ConnectingRetreats(lx: Lexicon, n: Node)
    requires n.gateway.SetConn? || n.gateway.ClearReady? || n.gateway.AwaitChallenge? || n.gateway.SendConnect?
             || n.gateway.AwaitAccept? || n.gateway.SetReady?
    ensures Closer(n, Exec(lx, n, Lose([])))
  {
    hide Exec;
    HandshakeMove(lx, n, Lose([]), HandshakeStep(lx, n, Lose([])).value);
  }

  lemma DroppingRetreats(lx: Lexicon, n: Node)
    requires n.gateway.Serve? || n.gateway == DropReady(false) || n.gateway == DropConn(false) || n.gateway.Snapshot?
    ensures Closer(n, Exec(lx, n, Lose([])))
  {
    hide Exec, ServeStep;
    DroppingOne(lx, n);
  }

  lemma DroppingOne(lx: Lexicon, n: Node)
    requires n.gateway.Serve? || n.gateway == DropReady(false) || n.gateway == DropConn(false) || n.gateway.Snapshot?
    ensures var t := Exec(lx, n, Lose([]));
            && t.table == n.table && t.reader == n.reader
            && t.gateway == match n.gateway
                            case Serve(_) => DropReady(false)
                            case DropReady(_) => DropConn(false)
                            case DropConn(_) => Snapshot
                            case _ => Broadcast(n.table)
  {
    hide Exec;
    if n.gateway.Serve? {
      ServingMove(lx, n, Lose([]), GatewayMove(Observe, DropReady(false)));
    } else if n.gateway.DropReady? {
      HandshakeMove(lx, n, Lose([]), GatewayMove(PutReady(false), DropConn(false)));
    } else if n.gateway.DropConn? {
      HandshakeMove(lx, n, Lose([]), GatewayMove(DropConnection, Snapshot));
    } else {
      HandshakeMove(lx, n, Lose([]), GatewayMove(Observe, Broadcast(n.table)));
    }
  }

  lemma ServingMove(lx: Lexicon, n: Node, a: Action, m: GatewayMove)
    requires a.Work? && ServeStep(lx, n, a.incoming) == Some(m)
    ensures Exec(lx, n, a) == PerformGateway(n, m)
  {
    hide Apply, OnMessage, BeginResponse, EmitResponse;
  }

  lemma BroadcastRetreats(lx: Lexicon, n: Node, choice: SessionId)
    requires n.gateway.Broadcast? && (n.gateway.left == map[] || choice in n.gateway.left)
    ensures Closer(n, Exec(lx, n, Lose(choice)))
  {
    hide Exec, Closer;
    BroadcastOne(lx, n, choice);
    if choice in n.gateway.left {
      SmallerWithout(n.gateway.left, choice);
      TellsOneCloser(n, n.gateway.left - {choice});
    } else {
      DialsCloser(n);
    }
  }

  lemma TellsOneCloser(n: Node, rest: map<SessionId, byte>)
    requires n.gateway.Broadcast? && |rest| < |n.gateway.left|
    ensures Closer(n, n.(gateway := Broadcast(rest)))
  {
  }

  lemma DialsCloser(n: Node)
    requires n.gateway.Broadcast?
    ensures Closer(n, n.(gateway := Dial))
  {
  }

  lemma SmallerWithout(left: map<SessionId, byte>, id: SessionId)
    requires id in left
    ensures |left - {id}| == |left| - 1
  {
    assert (left - {id}).Keys == left.Keys - {id};
  }

  lemma BroadcastOne(lx: Lexicon, n: Node, choice: SessionId)
    requires n.gateway.Broadcast? && (n.gateway.left == map[] || choice in n.gateway.left)
    ensures Exec(lx, n, Lose(choice))
         == n.(gateway := if n.gateway.left == map[] then Dial else Broadcast(n.gateway.left - {choice}))
  {
    hide ResolveStep, BatchStep, ServeStep, HandshakeVerdict;
  }

  lemma Retreats(lx: Lexicon, n: Node) returns (a: Action)
    requires Inv(n) && !Ending(n.gateway) && !n.gateway.Dial?
    ensures Closer(n, Exec(lx, n, a)) && Inv(Exec(lx, n, a))
  {
    hide Exec, Closer, RequestsInv, OrderInv, AnsweredInv, RunsInv, FramesInv, OriginInv, HandshakeInv;
    a := Lose([]);
    if n.gateway.Emit? {
      EmitRetreats(lx, n);
    } else if n.gateway.Forward? {
      ForwardRetreats(lx, n);
    } else if n.gateway.Clear? {
      ClearRetreats(lx, n);
    } else if Resolving(n.gateway) {
      ResolvingRetreats(lx, n);
    } else if n.gateway.FindRequest? || n.gateway.TrackRun? {
      RespondingRetreats(lx, n);
    } else if n.gateway.Broadcast? && n.gateway.left != map[] {
      var id :| id in n.gateway.left;
      a := Lose(id);
      BroadcastRetreats(lx, n, id);
    } else if n.gateway.Broadcast? {
      BroadcastRetreats(lx, n, []);
    } else if n.gateway.Serve? || n.gateway.DropReady? || n.gateway.DropConn? || n.gateway.Snapshot? {
      DroppingRetreats(lx, n);
    } else {
      ConnectingRetreats(lx, n);
    }
    ExecInv(lx, n, a);
  }

  lemma {:induction false} ToDial(lx: Lexicon, n: Node) returns (actions: seq<Action>)
    requires Inv(n) && !Ending(n.gateway)
    ensures var t := Run(lx, n, actions); t.gateway.Dial? && t.reader == n.reader && Inv(t)
    decreases Rank(n.gateway, |n.table|)
  {
    hide Run, Exec, Inv, Rank;
    if n.gateway.Dial? {
      actions := [];
      RunNone(lx, n);
    } else {
      var a := Retreats(lx, n);
      var rest := ToDial(lx, Exec(lx, n, a));
      RunOne(lx, n, a);
      RunAppend(lx, n, [a], rest);
      actions := [a] + rest;
    }
  }

  lemma FreshConn(used: set<ConnId>) returns (c: ConnId)
    ensures forall x :: x in used ==> x < c
    decreases |used|
  {
    if x :| x in used {
      var d := FreshConn(used - {x});
      c := if x < d then d else x + 1;
      assert used == (used - {x}) + {x};
    } else {
      c := 0;
    }
  }

  /** Two more steps put a new connection in place that the gateway has not even challenged. */
  lemma Redial(lx: Lexicon, n: Node) returns (actions: seq<Action>)
    requires Inv(n) && n.gateway.Dial?
    ensures var t := Run(lx, n, actions);
            t.conn.Some? && t.conn.value !in t.accepted && t.reader == n.reader
  {
    hide Run, Exec;
    var c := FreshConn(n.dialed);
    DialSteps(lx, n, c, []);
    var go := Work(Skipped, [], c, true, []);
    RunTwo(lx, n, go, go);
    actions := [go, go];
    AcceptedIsDialed(n);
  }

  lemma AcceptedIsDialed(n: Node)
    requires Inv(n)
    ensures n.accepted <= n.dialed
  {
  }

  /** The connection of a client that is about to end was never accepted. */
  lemma EndingIsUnaccepted(n: Node)
    requires Inv(n) && Ending(n.gateway) && !n.gateway.Stopped?
    ensures n.conn.Some? && n.conn.value !in n.accepted
  {
  }

  /** Once writeJSON is past its readiness check, and unless the client has ended, the run can go on so
      that the request is written to a connection the gateway has not accepted. */
  lemma WriteMayMissAccept(lx: Lexicon, n: Node) returns (actions: seq<Action>)
    requires Inv(n) && n.reader.WriteConn? && !n.gateway.Stopped?
    ensures var t := Run(lx, n, actions);
            var r := n.reader.request;
            r in t.written && t.written[r] !in t.accepted
  {
    hide Run, Inv;
    actions := [];
    RunNone(lx, n);
    if Ending(n.gateway) {
      EndingIsUnaccepted(n);
    } else {
      var a := ToDial(lx, n);
      var b := Redial(lx, Run(lx, n, a));
      RunAppend(lx, n, a, b);
      actions := a + b;
    }
    var t := Run(lx, n, actions);
    WriteSteps(lx, t);
    RunAppend(lx, n, actions, [Read([], true), Read([], true)]);
    actions := actions + [Read([], true), Read([], true)];
  }

  // ----- and only once the client has ended it cannot -----

  /** A request whose writer passed the readiness check of a client that has ended. */
  ghost predicate Doomed(n: Node, r: RequestId) {
    && n.gateway.Stopped? && n.conn.None? && r in n.tracked && r !in n.written
    && (r in n.rolledBack || ((n.reader.WriteConn? || n.reader.Untrack?) && n.reader.request == r))
  }

  lemma DoomedStep(lx: Lexicon, n: Node, a: Action, r: RequestId)
    requires Inv(n) && Doomed(n, r)
    ensures Doomed(Exec(lx, n, a), r)
  {
    hide Apply, Inv, Doomed, ReaderMoveOf;
    if a.Work? {
      StoppedStep(lx, n, a, r);
    } else if ReaderMoveOf(lx, n, a).Some? {
      AnsweringNeeds(n);
      ReaderMoveEdge(lx, n, a);
      DoomedMove(n, ReaderMoveOf(lx, n, a).value, r);
    }
  }

  lemma StoppedStep(lx: Lexicon, n: Node, a: Action, r: RequestId)
    requires Doomed(n, r) && a.Work?
    ensures Exec(lx, n, a) == n
  {
    hide Apply, ServeStep, ResolveStep, BatchStep;
  }

  lemma DoomedMove(n: Node, m: ReaderMove, r: RequestId)
    requires RequestsInv(n) && Doomed(n, r) && ReaderEdge(n, m) && (OfReader(m.access) || m.access.Observe?)
    ensures Doomed(PerformReader(n, m), r)
  {
    hide Apply;
    ApplyReading(n, m.access);
    ApplyConnection(n, m.access);
    assert Fate(n, r);
    if n.reader.Write? {
      assert Fate(n, n.reader.request);
    }
    hide RequestsInv;
  }

  lemma {:induction false} StoppedNeverWrites(lx: Lexicon, n: Node, actions: seq<Action>)
    requires Inv(n) && n.reader.WriteConn? && n.gateway.Stopped?
    ensures n.reader.request !in Run(lx, n, actions).written
    ensures Inv(Run(lx, n, actions)) && Doomed(Run(lx, n, actions), n.reader.request)
    decreases |actions|
  {
    hide Exec;
    if actions == [] {
      assert Fate(n, n.reader.request);
    } else {
      hide Inv, Doomed;
      StoppedNeverWrites(lx, n, actions[..|actions| - 1]);
      ExecInv(lx, Run(lx, n, actions[..|actions| - 1]), actions[|actions| - 1]);
      DoomedStep(lx, Run(lx, n, actions[..|actions| - 1]), actions[|actions| - 1], n.reader.request);
      DoomedIsUnwritten(Run(lx, n, actions), n.reader.request);
    }
  }

  lemma DoomedIsUnwritten(n: Node, r: RequestId)
    requires Doomed(n, r)
    ensures r !in n.written
  {
  }

  /** Exactly when writeJSON, past its readiness check, may still write to a connection that has not
      been accepted: as long as the client has not ended. */
  lemma MissesAcceptIffRunning(lx: Lexicon, n: Node)
    requires Inv(n) && n.reader.WriteConn?
    ensures !n.gateway.Stopped? <==>
            exists actions :: MissesAccept(Run(lx, n, actions), n.reader.request)
  {
    hide Run, Inv;
    if n.gateway.Stopped? {
      forall actions ensures !MissesAccept(Run(lx, n, actions), n.reader.request) {
        StoppedNeverWrites(lx, n, actions);
      }
    } else {
      var actions := WriteMayMissAccept(lx, n);
      assert MissesAccept(Run(lx, n, actions), n.reader.request);
    }
  }

  ghost predicate MissesAccept(n: Node, r: RequestId) {
    r in n.written && n.written[r] !in n.accepted
  }

  /** A run from the start in which it happens. */
  lemma AcceptIsMissed(lx: Lexicon, id: SessionId, flags: byte, frame: Bytes, r: RequestId)
    returns (actions: seq<Action>)
    requires AsksToStop(lx, frame, id, flags)
    ensures MissesAccept(Run(lx, Start, actions), r)
  {
    hide Run, AsksToStop, Inv;
    var n := Run(lx, Start, ToWrite(id, frame, r));
    ToWriteRuns(lx, id, flags, frame, r);
    AfterInv(lx, ToWrite(id, frame, r), |ToWrite(id, frame, r)|);
    assert ToWrite(id, frame, r)[..|ToWrite(id, frame, r)|] == ToWrite(id, frame, r);
    var rest := WriteMayMissAccept(lx, n);
    RunAppend(lx, Start, ToWrite(id, frame, r), rest);
    actions := ToWrite(id, frame, r) + rest;
  }
}
