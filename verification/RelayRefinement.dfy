/** What it takes for code to follow the relay's step system while the other goroutines run. */
module RelayRefinement {
  import opened Protocol
  import opened DataFrame
  import opened RelaySystem
  import opened RelayInvariants
  import opened RelayTheorems

  /** A peer's connection: whether a write can succeed, and what has been written. */
  datatype Wire = Wire(open: bool, out: seq<Message>)

  function WiresOf(s: State): map<PeerId, Wire> {
    map p | p in s.peers :: Wire(s.peers[p].open, s.peers[p].out)
  }

  function Written(wires: map<PeerId, Wire>, q: PeerId, m: Message): map<PeerId, Wire> {
    if q in wires && wires[q].open then wires[q := Wire(true, wires[q].out + [m])] else wires
  }

  function Shut(wires: map<PeerId, Wire>, q: PeerId): map<PeerId, Wire> {
    if q in wires then wires[q := wires[q].(open := false)] else wires
  }

  function WiresAfter(wires: map<PeerId, Wire>, access: Access): map<PeerId, Wire> {
    match access
    case SendTo(q, m) => Written(wires, q, m)
    case Notify(q, id) => Written(wires, q, Text(CloseSession(id)))
    case CloseConn(q) => Shut(wires, q)
    case _ => wires
  }

  /** What an access does to the wire of the peer it touches. */
  function WireAfter(w: Wire, access: Access): Wire {
    match access
    case SendTo(_, m) => if w.open then Wire(true, w.out + [m]) else w
    case Notify(_, id) => if w.open then Wire(true, w.out + [Text(CloseSession(id))]) else w
    case CloseConn(_) => w.(open := false)
    case _ => w
  }

  lemma PeerAfterWire(q: Peer, access: Access)
    ensures var t := PeerAfter(q, access); Wire(t.open, t.out) == WireAfter(Wire(q.open, q.out), access)
  {
  }

  lemma WiresAfterTouched(wires: map<PeerId, Wire>, p: PeerId, access: Access)
    ensures var q := Touched(p, access);
            WiresAfter(wires, access) == if q in wires then wires[q := WireAfter(wires[q], access)] else wires
  {
    match access
    case SendTo(_, _) | Notify(_, _) | CloseConn(_) =>
    case _ => if p in wires { assert wires[p := wires[p]] == wires; }
  }

  lemma TouchedWires(s: State, t: State, p: PeerId, access: Access, r: PeerId)
    requires OnlyTouched(s, t, p, access) && r in s.peers
    ensures r in t.peers
    ensures WiresOf(t)[r] == if r == Touched(p, access) then WireAfter(WiresOf(s)[r], access) else WiresOf(s)[r]
  {
    hide PeerAfter, WireAfter, Touched;
    PeerAfterWire(s.peers[r], access);
  }

  lemma ApplyWires(s: State, p: PeerId, access: Access)
    requires p in s.peers
    ensures WiresOf(Apply(s, p, access)) == WiresAfter(WiresOf(s), access)
  {
    hide Apply, WiresAfter, WireAfter, Touched;
    ApplyTouches(s, p, access);
    WiresAfterTouched(WiresOf(s), p, access);
    forall r | r in s.peers
      ensures WiresOf(Apply(s, p, access))[r] == WiresAfter(WiresOf(s), access)[r]
    {
      TouchedWires(s, Apply(s, p, access), p, access, r);
    }
  }

  // ----- runs -----

  /** A schedule of the environment and the goroutines other than p's. */
  ghost predicate OthersOnly(actions: seq<Action>, p: PeerId) {
    forall a :: a in actions ==> a.peer != p || a.Break?
  }

  /** The second run continues the first. */
  ghost predicate Extends(a: seq<Action>, b: seq<Action>) {
    a <= b
  }

  /** The message that an action has p's goroutine take from its connection: as the first one, or in
      its read loop. */
  function TakenBy(a: Action, p: PeerId): seq<Input> {
    match a
    case Accept(q, _, first) => if q == p then [first] else []
    case Read(q, input) => if q == p then [input] else []
    case _ => []
  }

  /** Everything p's goroutine has taken from its connection, in order. */
  function Taken(actions: seq<Action>, p: PeerId): seq<Input> {
    if actions == [] then []
    else Taken(actions[..|actions| - 1], p) + TakenBy(actions[|actions| - 1], p)
  }

  lemma {:induction false} TakenAppend(a: seq<Action>, b: seq<Action>, p: PeerId)
    ensures Taken(a + b, p) == Taken(a, p) + Taken(b, p)
    decreases |b|
  {
    if b == [] {
      assert a + b == a;
    } else {
      TakenAppend(a, b[..|b| - 1], p);
      assert (a + b)[..|a + b| - 1] == a + b[..|b| - 1];
    }
  }

  lemma {:induction false} OthersTakeNothing(actions: seq<Action>, p: PeerId)
    requires OthersOnly(actions, p)
    ensures Taken(actions, p) == []
  {
    if actions != [] {
      OthersTakeNothing(actions[..|actions| - 1], p);
    }
  }

  /** From the run a to the run b, p's goroutine has taken exactly these messages. */
  ghost predicate Took(a: seq<Action>, b: seq<Action>, p: PeerId, inputs: seq<Input>) {
    Extends(a, b) && Taken(b, p) == Taken(a, p) + inputs
  }

  lemma TookOne(a: seq<Action>, action: Action, p: PeerId)
    ensures Took(a, a + [action], p, TakenBy(action, p))
  {
    TakenAppend(a, [action], p);
  }

  lemma TookFromOthers(a: seq<Action>, b: seq<Action>, p: PeerId)
    requires Extends(a, b) && OthersOnly(b[|a|..], p)
    ensures Took(a, b, p, [])
  {
    assert a + b[|a|..] == b;
    TakenAppend(a, b[|a|..], p);
    OthersTakeNothing(b[|a|..], p);
  }

  lemma TookThen(a: seq<Action>, b: seq<Action>, c: seq<Action>, p: PeerId, x: seq<Input>, y: seq<Input>)
    requires Took(a, b, p, x) && Took(b, c, p, y)
    ensures Took(a, c, p, x + y)
  {
  }

  /** Taking nothing in between changes nothing. */
  lemma TookIsTransitive(p: PeerId)
    ensures forall a {:trigger Took(a, a, p, [])} :: Took(a, a, p, [])
    ensures forall a, b, c, x {:trigger Took(a, b, p, x), Took(b, c, p, [])} ::
              Took(a, b, p, x) && Took(b, c, p, []) ==> Took(a, c, p, x)
    ensures forall a, b, c, x {:trigger Took(a, b, p, []), Took(b, c, p, x)} ::
              Took(a, b, p, []) && Took(b, c, p, x) ==> Took(a, c, p, x)
  {
    hide Taken;
    forall a, b, c, x | Took(a, b, p, x) && Took(b, c, p, []) ensures Took(a, c, p, x) {
      TookThen(a, b, c, p, x, []);
      assert x + [] == x;
    }
    forall a, b, c, x | Took(a, b, p, []) && Took(b, c, p, x) ensures Took(a, c, p, x) {
      TookThen(a, b, c, p, [], x);
      assert [] + x == x;
    }
  }

  /** The messages a read loop handles, up to the first failing read. */
  function UpToError(inputs: seq<Input>): seq<Input> {
    if inputs == [] || inputs[0].ReadError? then [] else [inputs[0]] + UpToError(inputs[1..])
  }

  /** Everything a read loop takes: those messages, and the failing read. */
  function Served(inputs: seq<Input>): seq<Input> {
    UpToError(inputs) + [ReadError]
  }

  lemma TookKeeps(a: seq<Action>, b: seq<Action>, p: PeerId, x: seq<Input>, k: nat)
    requires Took(a, b, p, x) && k < |a|
    ensures k < |b| && b[k] == a[k]
  {
  }

  lemma {:induction false} UpToErrorAt(inputs: seq<Input>, n: nat)
    requires n <= |inputs| && (n == |inputs| || inputs[n].ReadError?)
    requires forall i :: 0 <= i < n ==> !inputs[i].ReadError?
    ensures UpToError(inputs) == inputs[..n]
  {
    if n > 0 {
      UpToErrorAt(inputs[1..], n - 1);
      assert inputs[..n] == [inputs[0]] + inputs[1..][..n - 1];
    }
  }

  lemma {:induction false} RunAppend(s: State, a: seq<Action>, b: seq<Action>)
    ensures Run(s, a + b) == Run(Run(s, a), b)
    decreases |b|
  {
    if b == [] {
      assert a + b == a;
    } else {
      RunAppend(s, a, b[..|b| - 1]);
      assert (a + b)[..|a + b| - 1] == a + b[..|b| - 1];
    }
  }

  lemma RunThen(s: State, actions: seq<Action>, a: Action)
    ensures Run(s, actions + [a]) == Exec(Run(s, actions), a)
  {
    assert (actions + [a])[..|actions|] == actions;
  }

  /** The locals of a goroutine survive what the others do. */
  ghost predicate Undisturbed(s: State, t: State, p: PeerId) {
    && p in s.peers && p in t.peers
    && t.peers[p].pc == s.peers[p].pc && t.peers[p].got == s.peers[p].got && t.peers[p].role == s.peers[p].role
    && t.peers[p].mine == s.peers[p].mine
  }

  lemma OtherExec(s: State, a: Action, p: PeerId)
    requires p in s.peers && (a.peer != p || a.Break?)
    ensures Undisturbed(s, Exec(s, a), p)
  {
    hide Step;
    ExecCases(s, a);
    if MoveOf(s, a).Some? {
      OtherApply(s, a.peer, MoveOf(s, a).value.access, p);
    }
  }

  lemma OtherApply(s: State, q: PeerId, access: Access, p: PeerId)
    requires p in s.peers && q in s.peers && (q != p || access.CloseConn?)
    ensures Undisturbed(s, Apply(s, q, access), p)
  {
  }

  lemma {:induction false} OthersKeep(s: State, actions: seq<Action>, p: PeerId)
    requires Inv(s) && p in s.peers && OthersOnly(actions, p)
    ensures Inv(Run(s, actions)) && Undisturbed(s, Run(s, actions), p)
    decreases |actions|
  {
    hide Inv, Exec;
    if actions != [] {
      OthersKeep(s, actions[..|actions| - 1], p);
      ExecInv(Run(s, actions[..|actions| - 1]), actions[|actions| - 1]);
      OtherExec(Run(s, actions[..|actions| - 1]), actions[|actions| - 1], p);
    }
  }

  /** What p's own step does to the shared state. */
  lemma OwnStep(s: State, p: PeerId, choice: SessionId, m: Move)
    requires p in s.peers && Step(s, p, choice) == Some(m)
    ensures var t := Exec(s, Go(p, choice));
            var u := Apply(s, p, m.access);
            && t.hub == u.hub && t.auth == u.auth && t.sessions == u.sessions
            && (!m.access.SessionSet? ==> t.created == s.created)
            && WiresOf(t) == WiresAfter(WiresOf(s), m.access)
            && p in t.peers && t.peers[p].pc == m.pc && t.peers[p].role == s.peers[p].role
            && (!m.access.Receive? ==> t.peers[p].got == s.peers[p].got)
            && t.peers[p].mine == if m.access.SessionSet? then Some(m.access.session.id) else s.peers[p].mine
  {
    hide Apply, Step, WiresAfter, PeerAfter, Touched;
    ApplyWires(s, p, m.access);
    ApplyFrame(s, p, m.access);
    ApplyHistory(s, p, m.access);
    OwnMine(s, p, m.access);
    if !m.access.Receive? {
      OwnGot(s, p, m.access);
    }
    assert WiresOf(Goto(Apply(s, p, m.access), p, m.pc)) == WiresOf(Apply(s, p, m.access));
  }

  lemma OwnMine(s: State, p: PeerId, access: Access)
    requires p in s.peers
    ensures p in Apply(s, p, access).peers
    ensures Apply(s, p, access).peers[p].mine
         == if access.SessionSet? then Some(access.session.id) else s.peers[p].mine
  {
  }

  lemma OwnGot(s: State, p: PeerId, access: Access)
    requires p in s.peers && !access.Receive?
    ensures p in Apply(s, p, access).peers && Apply(s, p, access).peers[p].got == s.peers[p].got
  {
  }

  lemma ReadMove(s: State, p: PeerId, input: Input)
    requires p in s.peers && s.peers[p].pc.Loop?
    ensures var m := OnRead(s.peers[p], input);
            && Exec(s, Read(p, input)) == Perform(s, p, m)
            && m.access == if input.Data? then Receive(input.frame) else Observe
  {
    hide OnControl, Apply, ParseDataFrame;
  }

  lemma ReadEffect(s: State, p: PeerId, m: Move)
    requires p in s.peers && (m.access.Receive? || m.access.Observe?)
    ensures var t := Perform(s, p, m);
            && t.hub == s.hub && t.auth == s.auth && t.sessions == s.sessions && WiresOf(t) == WiresOf(s)
            && p in t.peers && t.peers[p].pc == m.pc
            && t.peers[p].got == s.peers[p].got + if m.access.Receive? then [m.access.frame] else []
  {
    ApplyWires(s, p, m.access);
    hide WiresAfter;
    assert WiresOf(Goto(Apply(s, p, m.access), p, m.pc)) == WiresOf(Apply(s, p, m.access));
  }

  /** What a read does to the shared state: nothing. */
  lemma ReadStep(s: State, p: PeerId, input: Input)
    requires p in s.peers && s.peers[p].pc.Loop?
    ensures var t := Exec(s, Read(p, input));
            && t.hub == s.hub && t.auth == s.auth && t.sessions == s.sessions && WiresOf(t) == WiresOf(s)
            && p in t.peers && t.peers[p].pc == OnRead(s.peers[p], input).pc
            && t.peers[p].got == s.peers[p].got + if input.Data? then [input.frame] else []
  {
    hide OnControl, Exec, Perform, WiresOf, OnRead;
    var m := OnRead(s.peers[p], input);
    ReadMove(s, p, input);
    ReadEffect(s, p, m);
  }

  lemma JoinStep(s: State, p: PeerId, role: Role, first: Input)
    requires p !in s.peers && FirstPc(p, role, first).Some?
    ensures var t := Exec(s, Accept(p, role, first));
            && t.hub == s.hub && t.auth == s.auth && t.sessions == s.sessions && t.created == s.created
            && WiresOf(t) == WiresOf(s)[p := Wire(true, [])]
            && p in t.peers && t.peers[p].pc == FirstPc(p, role, first).value && t.peers[p].got == []
  {
  }

  /** Past handleClient a goroutine inserts no session any more. */
  predicate Leaving(pc: Pc) {
    match pc
    case SendError(_, next) => next.ToCleanup?
    case CleanAuth | CleanSessions | CleanHub | CleanConn | Done => true
    case CleanNotify(_) => true
    case _ => false
  }

  lemma MineStep(s: State, a: Action, p: PeerId)
    requires Inv(s) && p in s.peers && (s.peers[p].mine.Some? || Leaving(s.peers[p].pc))
    ensures p in Exec(s, a).peers && Exec(s, a).peers[p].mine == s.peers[p].mine
    ensures Leaving(s.peers[p].pc) ==> Leaving(Exec(s, a).peers[p].pc)
  {
    hide Exec, Step;
    ExecBasic(s, a);
    hide Inv;
    if a.peer != p || a.Break? {
      OtherExec(s, a, p);
    } else {
      LeaversStep(s, a, p);
    }
  }

  lemma LeaversStep(s: State, a: Action, p: PeerId)
    requires p in s.peers && a.peer == p && !a.Break?
    ensures p in Exec(s, a).peers
    ensures Leaving(s.peers[p].pc) ==>
              Leaving(Exec(s, a).peers[p].pc) && Exec(s, a).peers[p].mine == s.peers[p].mine
  {
    hide Apply;
    if MoveOf(s, a).Some? {
      ApplyFrame(s, p, MoveOf(s, a).value.access);
      OwnMine(s, p, MoveOf(s, a).value.access);
    }
  }

  lemma {:induction false} MineKept(s: State, actions: seq<Action>, p: PeerId)
    requires Inv(s) && p in s.peers && (s.peers[p].mine.Some? || Leaving(s.peers[p].pc))
    ensures var t := Run(s, actions);
            && Inv(t) && p in t.peers && t.peers[p].mine == s.peers[p].mine
            && (Leaving(s.peers[p].pc) ==> Leaving(t.peers[p].pc))
    decreases |actions|
  {
    hide Inv, Exec, Leaving;
    if actions != [] {
      MineKept(s, actions[..|actions| - 1], p);
      ExecInv(Run(s, actions[..|actions| - 1]), actions[|actions| - 1]);
      MineStep(Run(s, actions[..|actions| - 1]), actions[|actions| - 1], p);
    }
  }

  /** Once a client has its session, or will have none, that stays so. */
  lemma MineSettles(a: seq<Action>, b: seq<Action>, p: PeerId, x: seq<Input>)
    requires Took(a, b, p, x) && p in Run(Initial, a).peers
    requires Run(Initial, a).peers[p].mine.Some? || Leaving(Run(Initial, a).peers[p].pc)
    ensures p in Run(Initial, b).peers && Run(Initial, b).peers[p].mine == Run(Initial, a).peers[p].mine
  {
    hide Run, Inv;
    InitialInv();
    RunInv(Initial, a);
    MineKept(Run(Initial, a), b[|a|..], p);
    RunAppend(Initial, a, b[|a|..]);
    assert a + b[|a|..] == b;
  }
}
