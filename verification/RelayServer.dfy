/** relay/main.go as code: the handlers of one peer's goroutine over the shared stores, with the
    other goroutines running between any two of its accesses. Every handler follows the step
    system, so whatever holds in all its runs holds here. */
module RelayServer {
  import opened Protocol
  import opened DataFrame
  import opened RelaySystem
  import opened RelayInvariants
  import opened RelayTheorems
  import opened RelayRefinement
  import opened RelayReplies
  import opened Stores

  class Server {
    const hub: HubManager
    const auth: AuthStore
    const sessions: SessionStore
    var wires: map<PeerId, Wire>
    ghost var trace: seq<Action>
    ghost var st: State

    /** The stores and the connections are those of the step system after the trace so far. */
    ghost predicate Valid()
      reads this, hub, auth, sessions
    {
      && st == Run(Initial, trace) && Inv(st)
      && hub.peers == st.hub && auth.byHash == st.auth && sessions.data == st.sessions
      && wires == WiresOf(st)
    }

    ghost predicate Here(p: PeerId, pc: Pc)
      reads this
    {
      p in st.peers && st.peers[p].pc == pc
    }

    constructor ()
      ensures Valid() && trace == [] && fresh(hub) && fresh(auth) && fresh(sessions)
    {
      hub := new HubManager();
      auth := new AuthStore();
      sessions := new SessionStore();
      wires := map[];
      trace := [];
      st := Initial;
      new;
      InitialInv();
    }

    /** The other goroutines, the peers and the network make any steps of theirs. The body is one
        possibility; callers rely on the contract only. An id that newID has reserved for this
        goroutine is not given to another. */
    method Yield(ghost p: PeerId, ghost reserved: set<SessionId>)
      requires Valid() && p in st.peers && st.created.Keys !! reserved
      modifies this, hub, auth, sessions
      ensures Valid() && Extends(old(trace), trace) && OthersOnly(trace[|old(trace)|..], p)
      ensures st.created.Keys !! reserved
    {
    }

    method Interfere(ghost p: PeerId, ghost reserved: set<SessionId>)
      requires Valid() && p in st.peers && st.created.Keys !! reserved
      modifies this, hub, auth, sessions
      ensures Valid() && Took(old(trace), trace, p, []) && Undisturbed(old(st), st, p) && st.created.Keys !! reserved
    {
      ghost var before := trace;
      ghost var s := st;
      Yield(p, reserved);
      OthersKeep(s, trace[|before|..], p);
      RunAppend(Initial, before, trace[|before|..]);
      assert before + trace[|before|..] == trace;
      TookFromOthers(before, trace, p);
    }

    /** Records that p's goroutine has made its next step. */
    ghost method Commit(p: PeerId, choice: SessionId, m: Move)
      requires st == Run(Initial, trace) && Inv(st) && p in st.peers && Step(st, p, choice) == Some(m)
      modifies this`st, this`trace
      ensures st == Run(Initial, trace) && Inv(st) && Took(old(trace), trace, p, []) && Here(p, m.pc)
      ensures st.hub == Apply(old(st), p, m.access).hub && st.auth == Apply(old(st), p, m.access).auth
      ensures st.sessions == Apply(old(st), p, m.access).sessions
      ensures WiresOf(st) == WiresAfter(WiresOf(old(st)), m.access)
      ensures !m.access.Receive? ==> st.peers[p].got == old(st).peers[p].got
      ensures !m.access.SessionSet? ==> st.created == old(st).created
      ensures st.peers[p].role == old(st).peers[p].role
      ensures st.peers[p].mine == if m.access.SessionSet? then Some(m.access.session.id) else old(st).peers[p].mine
    {
      hide Run, Exec, Inv;
      OwnStep(st, p, choice, m);
      ExecInv(st, Go(p, choice));
      RunThen(Initial, trace, Go(p, choice));
      TookOne(trace, Go(p, choice), p);
      trace := trace + [Go(p, choice)];
      st := Exec(st, Go(p, choice));
    }

    /** Peer.SendText and Peer.SendBinary: the write that p's goroutine is about to make. */
    method Send(ghost p: PeerId, q: PeerId, m: Message, ghost pc: Pc) returns (ok: bool)
      requires Valid() && p in st.peers && Step(st, p, []) == Some(Move(SendTo(q, m), pc))
      modifies this
      ensures Valid() && Took(old(trace), trace, p, []) && Here(p, pc) && ok == Sendable(old(st), q)
      ensures st.peers[p].got == old(st).peers[p].got
    {
      hide Run, Inv;
      ok := q in wires && wires[q].open;
      if ok {
        wires := wires[q := Wire(true, wires[q].out + [m])];
      }
      Commit(p, [], Move(SendTo(q, m), pc));
    }

    /** One notice of closeSession or cleanupPeer; its failure is ignored. */
    method Tell(ghost p: PeerId, q: PeerId, id: SessionId, ghost choice: SessionId, ghost pc: Pc)
      requires Valid() && p in st.peers && Step(st, p, choice) == Some(Move(Notify(q, id), pc))
      modifies this
      ensures Valid() && Took(old(trace), trace, p, []) && Here(p, pc) && st.peers[p].got == old(st).peers[p].got
    {
      hide Run, Inv;
      if q in wires && wires[q].open {
        wires := wires[q := Wire(true, wires[q].out + [Text(Control.CloseSession(id))])];
      }
      Commit(p, choice, Move(Notify(q, id), pc));
    }

    method CloseConn(ghost p: PeerId, q: PeerId, ghost pc: Pc)
      requires Valid() && p in st.peers && Step(st, p, []) == Some(Move(Access.CloseConn(q), pc))
      modifies this
      ensures Valid() && Took(old(trace), trace, p, []) && Here(p, pc) && st.peers[p].got == old(st).peers[p].got
    {
      hide Run, Inv;
      if q in wires {
        wires := wires[q := wires[q].(open := false)];
      }
      Commit(p, [], Move(Access.CloseConn(q), pc));
    }

    lemma StoredById()
      requires Valid()
      ensures sessions.Valid()
    {
      forall id | id in st.sessions ensures st.sessions[id].id == id {
        assert Joined(st, id);
      }
    }

    method SendError(p: PeerId, code: string, ghost next: Next)
      requires Valid() && Here(p, Pc.SendError(code, next))
      modifies this, hub, auth, sessions
      ensures Valid() && Took(old(trace), trace, p, [])
      ensures Here(p, Resume(next)) && st.peers[p].got == old(st).peers[p].got
    {
      hide Took;
      TookIsTransitive(p);
      Interfere(p, {});
      var _ := Send(p, p, Text(Error(code)), Resume(next));
    }

    // ----- the critical sections of the handlers -----

    method TakeSession(p: PeerId, id: SessionId, ghost next: Next) returns (x: Option<Session>)
      requires Valid() && Here(p, CloseDelete(id, next))
      modifies this`st, this`trace, sessions
      ensures Valid() && Took(old(trace), trace, p, [])
      ensures Here(p, if x.Some? then CloseNotifyClient(x.value, next) else Resume(next))
      ensures st.peers[p].got == old(st).peers[p].got
    {
      hide Run, Inv, SessionsWithout, WithoutPeer, SessionsOf, PeersAfter;
      StoredById();
      ghost var m := Step(st, p, []).value;
      x := sessions.Delete(id);
      Commit(p, [], m);
    }

    method FindSession(p: PeerId, index: nat, id: SessionId) returns (x: Option<Session>)
      requires Valid() && Here(p, RouteGet(index, id))
      modifies this`st, this`trace
      ensures Valid() && Took(old(trace), trace, p, []) && p in st.peers && st.peers[p].got == old(st).peers[p].got
      ensures Here(p, if x.None? then Pc.SendError("SESSION_NOT_FOUND", ToLoop)
                   else if p == x.value.client then RouteSend(index, id, x.value.connector)
                   else if p == x.value.connector then RouteSend(index, id, x.value.client)
                   else Pc.SendError("SESSION_PEER_MISMATCH", ToLoop))
    {
      hide Run, Inv, SessionsWithout, WithoutPeer, SessionsOf, PeersAfter;
      ghost var m := Step(st, p, []).value;
      x := sessions.Get(id);
      Commit(p, [], m);
    }

    method DropAuth(p: PeerId)
      requires Valid() && Here(p, CleanAuth)
      modifies this`st, this`trace, auth
      ensures Valid() && Took(old(trace), trace, p, []) && Here(p, CleanSessions)
    {
      hide Run, Inv;
      var _ := auth.DeleteByPeer(p);
      Commit(p, [], Move(AuthDeleteByPeer, CleanSessions));
    }

    method DropSessions(p: PeerId) returns (removed: seq<Session>)
      requires Valid() && Here(p, CleanSessions)
      modifies this`st, this`trace, sessions
      ensures Valid() && Took(old(trace), trace, p, []) && p in st.peers && st.peers[p].pc.CleanNotify?
      ensures Lists(removed, st.peers[p].pc.left)
      ensures forall id :: id in st.peers[p].pc.left ==> st.peers[p].pc.left[id].id == id
    {
      hide Run, Inv;
      StoredById();
      ghost var left := SessionsOf(st.sessions, p);
      removed := sessions.DeleteByPeer(p);
      Commit(p, [], Move(SessionDeleteByPeer, CleanNotify(left)));
    }

    ghost method EndNotices(p: PeerId)
      requires Valid() && Here(p, CleanNotify(map[]))
      modifies this`st, this`trace
      ensures Valid() && Took(old(trace), trace, p, []) && Here(p, CleanHub)
    {
      hide Run, Inv;
      Commit(p, [], Move(Observe, CleanHub));
    }

    method DropFromHub(p: PeerId)
      requires Valid() && Here(p, CleanHub)
      modifies this`st, this`trace, hub
      ensures Valid() && Took(old(trace), trace, p, []) && Here(p, CleanConn)
    {
      hide Run, Inv, SessionsWithout, WithoutPeer, SessionsOf, PeersAfter;
      hub.Remove(p);
      Commit(p, [], Move(HubRemove, CleanConn));
    }

    method CloseOwn(p: PeerId)
      requires Valid() && Here(p, CleanConn)
      modifies this
      ensures Valid() && Took(old(trace), trace, p, []) && Here(p, Done)
    {
      CloseConn(p, p, Done);
    }

    // ----- closeSession, routeBinary, cleanupPeer -----

    method CloseSession(p: PeerId, id: SessionId, ghost next: Next)
      requires Valid() && Here(p, CloseDelete(id, next))
      modifies this, hub, auth, sessions
      ensures Valid() && Took(old(trace), trace, p, [])
      ensures Here(p, Resume(next)) && st.peers[p].got == old(st).peers[p].got
    {
      hide Inv, Run, Exec, Valid, Took;
      TookIsTransitive(p);
      Interfere(p, {});
      var session := TakeSession(p, id, next);
      if session.None? {
        return;
      }
      var x := session.value;
      Interfere(p, {});
      Tell(p, x.client, x.id, [], CloseNotifyConnector(x, next));
      Interfere(p, {});
      Tell(p, x.connector, x.id, [], Resume(next));
    }

    /** The message that p's goroutine had taken at the end of the run `before` has had its outcome. */
    lemma Settled(before: seq<Action>, p: PeerId, me: Peer, input: Input)
      requires Valid() && Took(before, trace, p, []) && Here(p, Loop) && !input.ReadError?
      requires p in Run(Initial, before).peers && Run(Initial, before).peers[p].pc == OnRead(me, input).pc
      requires input.Data? ==> Kept(Run(Initial, before), p, input, |me.got|)
      ensures Outcome(trace, |before|, |trace|, p, input, |me.got|)
    {
      hide Inv, Run, OnRead, Outcome, Took, Kept;
      Concludes(before, trace, p, me, input);
    }

    lemma RoutingIsRead(me: Peer, frame: Bytes)
      ensures OnRead(me, Data(frame)).pc == Routing(frame, |me.got|)
    {
    }

    /** routeBinary, for the frame that p's goroutine has just read as its index-th: what is written, and
        to whom, is its outcome. */
    method RouteBinary(p: PeerId, frame: Bytes, index: nat)
      requires Valid() && p in st.peers && index < |st.peers[p].got| && st.peers[p].got[index] == frame
      requires Here(p, Routing(frame, index))
      modifies this, hub, auth, sessions
      ensures Valid() && Took(old(trace), trace, p, []) && Here(p, Loop) && st.peers[p].got == old(st).peers[p].got
      ensures Outcome(trace, |old(trace)|, |trace|, p, Data(frame), index)
    {
      hide Inv, Run, Exec, Step, Valid, Layout, Took, Outcome;
      ghost var me := st.peers[p].(got := st.peers[p].got[..index]);
      StIsRun();
      RoutingIsRead(me, frame);
      assert Kept(st, p, Data(frame), index);
      RouteFrame(p, frame, index);
      Settled(old(trace), p, me, Data(frame));
    }

    method RouteFrame(p: PeerId, frame: Bytes, index: nat)
      requires Valid() && p in st.peers && index < |st.peers[p].got| && st.peers[p].got[index] == frame
      requires Here(p, Routing(frame, index))
      modifies this, hub, auth, sessions
      ensures Valid() && Took(old(trace), trace, p, []) && Here(p, Loop) && st.peers[p].got == old(st).peers[p].got
    {
      hide Inv, Run, Exec, Step, Valid, Layout, Took;
      TookIsTransitive(p);
      var parsed := ParseDataFrame(frame);
      if parsed.Err? {
        SendError(p, "BAD_DATA_FRAME", ToLoop);
        return;
      }
      var id := parsed.value.sessionId;
      Interfere(p, {});
      var session := FindSession(p, index, id);
      if session.None? {
        SendError(p, "SESSION_NOT_FOUND", ToLoop);
        return;
      }
      if p == session.value.client {
        Forward(p, session.value.connector, frame, index, id);
      } else if p == session.value.connector {
        Forward(p, session.value.client, frame, index, id);
      } else {
        SendError(p, "SESSION_PEER_MISMATCH", ToLoop);
      }
    }

    method Forward(p: PeerId, target: PeerId, frame: Bytes, index: nat, id: SessionId)
      requires Valid() && Here(p, RouteSend(index, id, target))
      requires index < |st.peers[p].got| && st.peers[p].got[index] == frame
      modifies this, hub, auth, sessions
      ensures Valid() && Took(old(trace), trace, p, []) && Here(p, Loop) && st.peers[p].got == old(st).peers[p].got
    {
      hide Inv, Run, Exec, Took;
      TookIsTransitive(p);
      Interfere(p, {});
      var ok := Send(p, target, Binary(frame, p, index),
                     if Sendable(st, target) then Loop else CloseDelete(id, ToLoop));
      if !ok {
        CloseSession(p, id, ToLoop);
      }
    }

    /** One pass of cleanupPeer's loop over the removed sessions. */
    method TellOther(p: PeerId, x: Session, ghost left: map<SessionId, Session>)
      requires Valid() && Here(p, CleanNotify(left)) && x.id in left && left[x.id] == x
      modifies this, hub, auth, sessions
      ensures Valid() && Took(old(trace), trace, p, []) && Here(p, CleanNotify(left - {x.id}))
    {
      hide Inv, Run, Took;
      TookIsTransitive(p);
      Interfere(p, {});
      var other := x.client;
      if other == p {
        other := x.connector;
      }
      Tell(p, other, x.id, x.id, CleanNotify(left - {x.id}));
    }

    method TellOthers(p: PeerId, removed: seq<Session>)
      requires Valid() && p in st.peers && st.peers[p].pc.CleanNotify?
      requires Lists(removed, st.peers[p].pc.left)
      requires forall id :: id in st.peers[p].pc.left ==> st.peers[p].pc.left[id].id == id
      modifies this, hub, auth, sessions
      ensures Valid() && Took(old(trace), trace, p, []) && Here(p, CleanNotify(map[]))
    {
      hide Inv, Run, Step, Valid, Lists, Took;
      TookIsTransitive(p);
      ghost var left := st.peers[p].pc.left;
      for i := 0 to |removed|
        invariant Valid() && Took(old(trace), trace, p, []) && Here(p, CleanNotify(left))
        invariant Lists(removed[i..], left) && forall id :: id in left ==> left[id].id == id
      {
        ListsNext(removed, i, left);
        TellOther(p, removed[i], left);
        left := left - {removed[i].id};
      }
      ListsRest(removed[|removed|..], left);
    }

    method CleanupPeer(p: PeerId)
      requires Valid() && Here(p, CleanAuth)
      modifies this, hub, auth, sessions
      ensures Valid() && Took(old(trace), trace, p, []) && Here(p, Done)
    {
      hide Inv, Run, Step, Valid, Lists, Took;
      TookIsTransitive(p);
      Interfere(p, {});
      DropAuth(p);
      Interfere(p, {});
      var removed := DropSessions(p);
      TellOthers(p, removed);
      EndNotices(p);
      Interfere(p, {});
      DropFromHub(p);
      Interfere(p, {});
      CloseOwn(p);
    }

    // ----- connectorLoop and clientLoop -----

    /** ReadMessage has returned. */
    ghost method Reads(p: PeerId, input: Input)
      requires Valid() && Here(p, Loop)
      modifies this`st, this`trace
      ensures Valid() && Took(old(trace), trace, p, [input]) && Here(p, OnRead(old(st).peers[p], input).pc)
      ensures trace == old(trace) + [Read(p, input)]
      ensures st.peers[p].got == old(st).peers[p].got + if input.Data? then [input.frame] else []
    {
      hide Run, Exec, Inv;
      ReadStep(st, p, input);
      ExecInv(st, Read(p, input));
      RunThen(Initial, trace, Read(p, input));
      TookOne(trace, Read(p, input), p);
      trace := trace + [Read(p, input)];
      st := Exec(st, Read(p, input));
    }

    /** handleControl: a heartbeat is silent, CLOSE_SESSION closes, anything else is refused. */
    method HandleControl(p: PeerId, message: Control)
      requires Valid() && Here(p, OnControl(message))
      modifies this, hub, auth, sessions
      ensures Valid() && Took(old(trace), trace, p, []) && Here(p, Loop) && st.peers[p].got == old(st).peers[p].got
      ensures Outcome(trace, |old(trace)|, |trace|, p, Input.Control(message), 0)
    {
      hide Inv, Run, Step, Valid, Took, Outcome;
      TookIsTransitive(p);
      StIsRun();
      ghost var me := st.peers[p].(got := []);
      if message.Heartbeat? {
        Settled(old(trace), p, me, Input.Control(message));
        return;
      }
      if message.CloseSession? && message.sessionId != [] {
        CloseSession(p, message.sessionId, ToLoop);
        Settled(old(trace), p, me, Input.Control(message));
        return;
      }
      SendError(p, "UNSUPPORTED_CONTROL", ToLoop);
      Settled(old(trace), p, me, Input.Control(message));
    }

    /** The body of the read loop for one message: the message is read, and has its outcome. `count`
        binary messages were read before. */
    method HandleInput(p: PeerId, input: Input, count: nat)
      requires Valid() && Here(p, Loop) && |st.peers[p].got| == count && !input.ReadError?
      modifies this, hub, auth, sessions
      ensures Valid() && Took(old(trace), trace, p, [input]) && Here(p, Loop)
      ensures |st.peers[p].got| == count + if input.Data? then 1 else 0
      ensures |trace| > |old(trace)| && trace[|old(trace)|] == Read(p, input)
      ensures Outcome(trace, |old(trace)| + 1, |trace|, p, input, if input.Data? then count else 0)
    {
      hide Inv, Run, Step, Valid, Took, Outcome;
      TookIsTransitive(p);
      Reads(p, input);
      ghost var read := trace;
      match input {
        case BadText =>
          StIsRun();
          ghost var me := st.peers[p].(got := []);
          SendError(p, "BAD_CONTROL", ToLoop);
          Settled(read, p, me, BadText);
        case Control(message) => HandleControl(p, message);
        case Data(frame) => RouteBinary(p, frame, count);
      }
      TookKeeps(read, trace, p, [], |read| - 1);
    }

    /** connectorLoop and clientLoop: read until the connection fails, then clean up. */
    method ReadLoop(p: PeerId, inputs: seq<Input>)
      requires Valid() && Here(p, Loop) && st.peers[p].got == []
      modifies this, hub, auth, sessions
      ensures Valid() && Here(p, Done) && Took(old(trace), trace, p, Served(inputs))
    {
      hide Inv, Run, Step, Valid, Took;
      TookIsTransitive(p);
      var count := 0;
      var i := 0;
      while i < |inputs| && !inputs[i].ReadError?
        invariant Valid() && Here(p, Loop) && |st.peers[p].got| == count && i <= |inputs|
        invariant Took(old(trace), trace, p, inputs[..i])
        invariant forall j :: 0 <= j < i ==> !inputs[j].ReadError?
      {
        ghost var before := trace;
        Interfere(p, {});
        HandleInput(p, inputs[i], count);
        TookThen(old(trace), before, trace, p, inputs[..i], [inputs[i]]);
        assert inputs[..i] + [inputs[i]] == inputs[..i + 1];
        if inputs[i].Data? {
          count := count + 1;
        }
        i := i + 1;
      }
      ghost var before := trace;
      Reads(p, ReadError);
      CleanupPeer(p);
      TookThen(old(trace), before, trace, p, inputs[..i], [ReadError]);
      UpToErrorAt(inputs, i);
    }

    // ----- handleTunnel and handleClient -----

    /** NewPeer, after the first message has been accepted. */
    method Join(p: PeerId, role: Role, first: Input)
      requires Valid() && p !in st.peers && FirstPc(p, role, first).Some?
      modifies this
      ensures Valid() && trace == old(trace) + [Accept(p, role, first)] && Here(p, FirstPc(p, role, first).value)
      ensures Took(old(trace), trace, p, [first])
      ensures st.peers[p].got == [] && st.created == old(st).created
    {
      hide Run, Exec, Inv;
      JoinStep(st, p, role, first);
      ExecInv(st, Accept(p, role, first));
      RunThen(Initial, trace, Accept(p, role, first));
      TookOne(trace, Accept(p, role, first), p);
      wires := wires[p := Wire(true, [])];
      trace := trace + [Accept(p, role, first)];
      st := Exec(st, Accept(p, role, first));
    }

    method AddToHub(p: PeerId)
      requires Valid() && p in st.peers && (st.peers[p].pc.TunnelAdd? || st.peers[p].pc.ClientAdd?)
      modifies this`st, this`trace, hub
      ensures Valid() && Took(old(trace), trace, p, []) && Here(p, Added(old(st).peers[p].pc))
      ensures st.peers[p].got == old(st).peers[p].got && st.created == old(st).created
    {
      hide Run, Inv;
      ghost var pc := Added(st.peers[p].pc);
      hub.Add(p);
      Commit(p, [], Move(HubAdd, pc));
    }

    method EnterHub(p: PeerId, ghost reserved: set<SessionId>)
      requires Valid() && p in st.peers && (st.peers[p].pc.TunnelAdd? || st.peers[p].pc.ClientAdd?)
      requires st.created.Keys !! reserved
      modifies this, hub, auth, sessions
      ensures Valid() && Took(old(trace), trace, p, []) && Here(p, Added(old(st).peers[p].pc))
      ensures st.peers[p].got == old(st).peers[p].got && st.created.Keys !! reserved
    {
      hide Inv, Run, Valid, Step, Exec, Added, Took;
      TookIsTransitive(p);
      Interfere(p, reserved);
      AddToHub(p);
    }

    method RegisterAuth(p: PeerId, hash: Bytes, entry: Entry) returns (previous: Option<Entry>)
      requires Valid() && Here(p, TunnelSet(hash, entry))
      modifies this`st, this`trace, auth
      ensures Valid() && Took(old(trace), trace, p, [])
      ensures Here(p, if previous.Some? && previous.value.peer != p then TunnelClosePrevious(previous.value.peer)
                   else Loop)
      ensures st.peers[p].got == old(st).peers[p].got
    {
      hide Run, Inv;
      ghost var m := Step(st, p, []).value;
      previous := auth.Set(hash, entry);
      Commit(p, [], m);
    }

    method ClosePrevious(p: PeerId, previous: PeerId)
      requires Valid() && Here(p, TunnelClosePrevious(previous))
      modifies this
      ensures Valid() && Took(old(trace), trace, p, []) && Here(p, Loop) && st.peers[p].got == old(st).peers[p].got
    {
      CloseConn(p, previous, Loop);
    }

    /** handleTunnel: from the first message to the end of the cleanup, it takes from the connection what
        is there, up to the read that fails. A bad first message changes nothing. */
    method HandleTunnel(p: PeerId, first: Input, inputs: seq<Input>)
      requires Valid() && p !in st.peers
      modifies this, hub, auth, sessions
      ensures Valid()
      ensures FirstPc(p, Connector, first).Some? ==>
                && Here(p, Done) && Took(old(trace), trace, p, [first] + Served(inputs))
                && |trace| > |old(trace)| && trace[|old(trace)|] == Accept(p, Connector, first)
      ensures FirstPc(p, Connector, first).None? ==> trace == old(trace) && st == old(st)
    {
      hide Inv, Run, Valid, Step, Exec, Took;
      TookIsTransitive(p);
      if !first.Control? || !first.message.Register? || first.message.accessCodeHash == [] {
        return;
      }
      var hash := first.message.accessCodeHash;
      var caps := if first.message.caps.Some? then first.message.caps.value else Caps(false);
      var entry := Entry(p, first.message.generation, caps);
      Join(p, Connector, first);
      ghost var joined := trace;
      EnterHub(p, {});
      Enlist(p, hash, entry, inputs);
      TookThen(old(trace), joined, trace, p, [first], Served(inputs));
      TookKeeps(joined, trace, p, Served(inputs), |old(trace)|);
    }

    /** handleTunnel after the peer is in the hub. */
    method Enlist(p: PeerId, hash: Bytes, entry: Entry, inputs: seq<Input>)
      requires Valid() && Here(p, TunnelSet(hash, entry)) && st.peers[p].got == []
      modifies this, hub, auth, sessions
      ensures Valid() && Took(old(trace), trace, p, Served(inputs)) && Here(p, Done)
    {
      hide Inv, Run, Valid, Step, Exec, Took;
      TookIsTransitive(p);
      Interfere(p, {});
      var previous := RegisterAuth(p, hash, entry);
      if previous.Some? && previous.value.peer != p {
        Replace(p, previous.value.peer);
      }
      ReadLoop(p, inputs);
    }

    /** Closes the connection of the connector that was registered under the hash before. */
    method Replace(p: PeerId, previous: PeerId)
      requires Valid() && Here(p, TunnelClosePrevious(previous)) && st.peers[p].got == []
      modifies this, hub, auth, sessions
      ensures Valid() && Took(old(trace), trace, p, []) && Here(p, Loop) && st.peers[p].got == []
    {
      hide Inv, Run, Valid, Step, Exec, Took;
      TookIsTransitive(p);
      Interfere(p, {});
      ClosePrevious(p, previous);
    }

    lemma NothingMineYet(p: PeerId, hash: Bytes, e2ee: bool)
      requires Valid() && Here(p, ClientLookup(hash, e2ee))
      ensures st.peers[p].mine.None?
    {
      hide Run;
      assert Basic(st) && At(st, p);
    }

    method LookupConnector(p: PeerId, hash: Bytes, e2ee: bool) returns (entry: Option<Entry>)
      requires Valid() && Here(p, ClientLookup(hash, e2ee))
      modifies this`st, this`trace
      ensures Valid() && Took(old(trace), trace, p, [])
      ensures Here(p, if entry.Some? then ClientInsert(entry.value, e2ee)
                   else Pc.SendError("CONNECTOR_NOT_FOUND", ToCleanup))
      ensures st.peers[p].got == old(st).peers[p].got && st.created == old(st).created
      ensures st.peers[p].mine.None?
    {
      NothingMineYet(p, hash, e2ee);
      hide Run, Inv, SessionsWithout, WithoutPeer, SessionsOf, PeersAfter;
      ghost var m := Step(st, p, []).value;
      entry := auth.Get(hash);
      Commit(p, [], m);
    }

    method InsertSession(p: PeerId, id: SessionId, entry: Entry, e2ee: bool) returns (x: Session)
      requires Valid() && Here(p, ClientInsert(entry, e2ee)) && FreshId(st, id)
      modifies this`st, this`trace, sessions
      ensures Valid() && Took(old(trace), trace, p, [])
      ensures x == Session(id, p, entry.peer, e2ee) && Here(p, ClientSendOk(x, entry.caps))
      ensures st.peers[p].got == old(st).peers[p].got && st.peers[p].mine == Some(id)
    {
      hide Run, Inv;
      StoredById();
      x := Session(id, p, entry.peer, e2ee);
      sessions.Set(x);
      Commit(p, id, Move(SessionSet(x), ClientSendOk(x, entry.caps)));
    }

    method SendConnectOk(p: PeerId, x: Session, caps: Caps) returns (ok: bool)
      requires Valid() && Here(p, ClientSendOk(x, caps))
      modifies this
      ensures Valid() && Took(old(trace), trace, p, [])
      ensures Here(p, if ok then ClientSendOpen(x) else CloseDelete(x.id, ToCleanup))
      ensures st.peers[p].got == old(st).peers[p].got
    {
      ok := Send(p, p, Text(ConnectOk(x.id, Some(caps))),
                 if Sendable(st, p) then ClientSendOpen(x) else CloseDelete(x.id, ToCleanup));
    }

    method SendSessionOpen(p: PeerId, x: Session) returns (ok: bool)
      requires Valid() && Here(p, ClientSendOpen(x))
      modifies this
      ensures Valid() && Took(old(trace), trace, p, [])
      ensures Here(p, if ok then Loop else CloseDelete(x.id, ToCleanup))
      ensures st.peers[p].got == old(st).peers[p].got
    {
      ok := Send(p, x.connector, Text(SessionOpen(x.id, x.e2ee)),
                 if Sendable(st, x.connector) then Loop else CloseDelete(x.id, ToCleanup));
    }

    lemma StIsRun()
      requires Valid()
      ensures st == Run(Initial, trace)
    {
    }

    /** handleClient; `id` is what newID returns for the session. `entered` says whether a connector was
        found, and `served` whether the read loop was reached: by then the client has its session under
        this very id. From the first message to the end of the cleanup it takes from the connection what
        is there. A bad first message changes nothing. */
    method HandleClient(p: PeerId, first: Input, id: SessionId, inputs: seq<Input>)
      returns (ghost entered: bool, ghost served: bool)
      requires Valid() && p !in st.peers && FreshId(st, id)
      modifies this, hub, auth, sessions
      ensures Valid()
      ensures FirstPc(p, Client, first).Some? ==>
                && Here(p, Done) && st.peers[p].mine == (if entered then Some(id) else None) && (served ==> entered)
                && Took(old(trace), trace, p, [first] + if served then Served(inputs) else [])
                && |trace| > |old(trace)| && trace[|old(trace)|] == Accept(p, Client, first)
      ensures FirstPc(p, Client, first).None? ==> trace == old(trace) && st == old(st)
    {
      hide Inv, Run, Valid, Step, Exec, Took;
      TookIsTransitive(p);
      entered, served := false, false;
      if !first.Control? || !first.message.Connect? || first.message.accessCode == [] {
        return;
      }
      var hash, e2ee := first.message.codeHash, first.message.e2ee;
      Join(p, Client, first);
      ghost var joined := trace;
      EnterHub(p, {id});
      entered, served := Admit(p, hash, e2ee, id, inputs);
      ghost var taken := if served then Served(inputs) else [];
      TookThen(old(trace), joined, trace, p, [first], taken);
      TookKeeps(joined, trace, p, taken, |old(trace)|);
    }

    method Admit(p: PeerId, hash: Bytes, e2ee: bool, id: SessionId, inputs: seq<Input>)
      returns (ghost entered: bool, ghost served: bool)
      requires Valid() && Here(p, ClientLookup(hash, e2ee)) && st.peers[p].got == [] && FreshId(st, id)
      modifies this, hub, auth, sessions
      ensures Valid() && Here(p, Done) && st.peers[p].mine == (if entered then Some(id) else None)
      ensures (served ==> entered) && Took(old(trace), trace, p, if served then Served(inputs) else [])
    {
      hide Inv, Run, Valid, Step, Exec, SessionsOf, FirstPc, Took;
      TookIsTransitive(p);
      entered, served := false, false;
      Interfere(p, {id});
      var entry := LookupConnector(p, hash, e2ee);
      if entry.None? {
        Refuse(p);
        return;
      }
      entered := true;
      served := Establish(p, entry.value, e2ee, id, inputs);
    }

    method Establish(p: PeerId, entry: Entry, e2ee: bool, id: SessionId, inputs: seq<Input>)
      returns (ghost served: bool)
      requires Valid() && Here(p, ClientInsert(entry, e2ee)) && st.peers[p].got == [] && FreshId(st, id)
      modifies this, hub, auth, sessions
      ensures Valid() && Here(p, Done) && st.peers[p].mine == Some(id)
      ensures Took(old(trace), trace, p, if served then Served(inputs) else [])
    {
      hide Inv, Run, Valid, Step, Exec, SessionsOf, FirstPc, Took;
      TookIsTransitive(p);
      Interfere(p, {id});
      var x := InsertSession(p, id, entry, e2ee);
      ghost var inserted := trace;
      StIsRun();
      served := Greet(p, x, entry.caps, inputs);
      StIsRun();
      MineSettles(inserted, trace, p, if served then Served(inputs) else []);
    }

    method Refuse(p: PeerId)
      requires Valid() && Here(p, Pc.SendError("CONNECTOR_NOT_FOUND", ToCleanup))
      modifies this, hub, auth, sessions
      ensures Valid() && Took(old(trace), trace, p, []) && Here(p, Done) && st.peers[p].mine == old(st).peers[p].mine
    {
      hide Inv, Run, Valid, Step, Took;
      TookIsTransitive(p);
      StIsRun();
      SendError(p, "CONNECTOR_NOT_FOUND", ToCleanup);
      CleanupPeer(p);
      StIsRun();
      MineSettles(old(trace), trace, p, []);
    }

    method Abandon(p: PeerId, id: SessionId)
      requires Valid() && Here(p, CloseDelete(id, ToCleanup))
      modifies this, hub, auth, sessions
      ensures Valid() && Took(old(trace), trace, p, []) && Here(p, Done)
    {
      hide Inv, Run, Valid, Step, Took;
      TookIsTransitive(p);
      CloseSession(p, id, ToCleanup);
      CleanupPeer(p);
    }

    /** handleClient after the session is stored: first CONNECT_OK, then SESSION_OPEN, then the loop. */
    method Greet(p: PeerId, x: Session, caps: Caps, inputs: seq<Input>) returns (ghost served: bool)
      requires Valid() && Here(p, ClientSendOk(x, caps)) && st.peers[p].got == []
      modifies this, hub, auth, sessions
      ensures Valid() && Here(p, Done) && Took(old(trace), trace, p, if served then Served(inputs) else [])
    {
      hide Inv, Run, Valid, Step, Exec, SessionsOf, FirstPc, Took;
      TookIsTransitive(p);
      Interfere(p, {});
      var ok := SendConnectOk(p, x, caps);
      if !ok {
        Abandon(p, x.id);
        return false;
      }
      served := Introduce(p, x, inputs);
    }

    method Introduce(p: PeerId, x: Session, inputs: seq<Input>) returns (ghost served: bool)
      requires Valid() && Here(p, ClientSendOpen(x)) && st.peers[p].got == []
      modifies this, hub, auth, sessions
      ensures Valid() && Here(p, Done) && Took(old(trace), trace, p, if served then Served(inputs) else [])
    {
      hide Inv, Run, Valid, Step, Exec, SessionsOf, FirstPc, Took;
      TookIsTransitive(p);
      Interfere(p, {});
      var ok := SendSessionOpen(p, x);
      if !ok {
        Abandon(p, x.id);
        return false;
      }
      ReadLoop(p, inputs);
      served := true;
    }
  }

  /** Where a handler is once its peer is in the hub. */
  function Added(pc: Pc): Pc
    requires pc.TunnelAdd? || pc.ClientAdd?
  {
    if pc.TunnelAdd? then TunnelSet(pc.hash, pc.entry) else ClientLookup(pc.hash, pc.e2ee)
  }

  /** Where a goroutine is after it has read this frame as its index-th. */
  function Routing(frame: Bytes, index: nat): Pc {
    var parsed := ParseDataFrame(frame);
    if parsed.Err? then Pc.SendError("BAD_DATA_FRAME", ToLoop) else RouteGet(index, parsed.value.sessionId)
  }
}
