/** The connector's two goroutines as code, each with the other running between any two of its accesses
    to shared state: the relay reader's HandleData and the sends it makes, and the gateway reader's
    handleResponse and handleEvent. Every method follows the step system, so whatever holds in all its
    runs holds here. */
module ConnectorServer {
  import opened Protocol
  import opened DataFrame
  import opened Events
  import opened ConnectorSystem
  import opened ConnectorInvariants
  import opened ConnectorTheorems
  import opened ConnectorContent
  import opened ConnectorResolution
  import opened ConnectorRuns
  import opened ConnectorOutcomes
  import L = EventLaws
  import G = GatewayClient

  /** The second run continues the first. */
  ghost predicate Extends(a: seq<Action>, b: seq<Action>) {
    a <= b
  }

  /** A schedule of one goroutine only: of the gateway reader, or of the relay reader. */
  ghost predicate GatewayOnly(actions: seq<Action>) {
    forall a :: a in actions ==> a.Work?
  }

  ghost predicate ReaderOnly(actions: seq<Action>) {
    forall a :: a in actions ==> !a.Work?
  }

  // ----- what each goroutine takes from its connection -----

  function DeliveredBy(a: Action): seq<Delivery> {
    if a.Deliver? then [a.delivery] else []
  }

  /** Everything the relay reader has been delivered, in order. */
  function Delivered(actions: seq<Action>): seq<Delivery> {
    if actions == [] then []
    else Delivered(actions[..|actions| - 1]) + DeliveredBy(actions[|actions| - 1])
  }

  function HeardBy(a: Action): seq<Envelope> {
    if a.Work? && a.incoming.Message? then [a.incoming.env] else []
  }

  /** Every message the gateway reader has read, in order. */
  function Heard(actions: seq<Action>): seq<Envelope> {
    if actions == [] then []
    else Heard(actions[..|actions| - 1]) + HeardBy(actions[|actions| - 1])
  }

  lemma {:induction false} DeliveredAppend(a: seq<Action>, b: seq<Action>)
    ensures Delivered(a + b) == Delivered(a) + Delivered(b)
    decreases |b|
  {
    if b == [] {
      assert a + b == a;
    } else {
      DeliveredAppend(a, b[..|b| - 1]);
      assert (a + b)[..|a + b| - 1] == a + b[..|b| - 1];
    }
  }

  lemma {:induction false} HeardAppend(a: seq<Action>, b: seq<Action>)
    ensures Heard(a + b) == Heard(a) + Heard(b)
    decreases |b|
  {
    if b == [] {
      assert a + b == a;
    } else {
      HeardAppend(a, b[..|b| - 1]);
      assert (a + b)[..|a + b| - 1] == a + b[..|b| - 1];
    }
  }

  lemma {:induction false} OneTakesNothing(actions: seq<Action>)
    ensures GatewayOnly(actions) ==> Delivered(actions) == []
    ensures ReaderOnly(actions) ==> Heard(actions) == []
  {
    if actions != [] {
      OneTakesNothing(actions[..|actions| - 1]);
      assert actions[|actions| - 1] in actions;
      assert forall a :: a in actions[..|actions| - 1] ==> a in actions;
    }
  }

  /** From the run a to the run b, the relay reader has been delivered exactly this. */
  ghost predicate Delivers(a: seq<Action>, b: seq<Action>, ds: seq<Delivery>) {
    Extends(a, b) && Delivered(b) == Delivered(a) + ds
  }

  /** From the run a to the run b, the gateway reader has read exactly these messages. */
  ghost predicate Hears(a: seq<Action>, b: seq<Action>, envs: seq<Envelope>) {
    Extends(a, b) && Heard(b) == Heard(a) + envs
  }

  lemma TakesOne(a: seq<Action>, action: Action)
    ensures Delivers(a, a + [action], DeliveredBy(action)) && Hears(a, a + [action], HeardBy(action))
  {
    DeliveredAppend(a, [action]);
    HeardAppend(a, [action]);
  }

  lemma DeliversKeeps(a: seq<Action>, b: seq<Action>, ds: seq<Delivery>)
    requires Delivers(a, b, ds)
    ensures a <= b
  {
  }

  lemma {:induction false} DeliveredGrows(a: seq<Action>, b: seq<Action>)
    requires a <= b
    ensures |Delivered(a)| <= |Delivered(b)|
    decreases |b|
  {
    if |a| == |b| {
      assert a == b;
    } else {
      DeliveredGrows(a, b[..|b| - 1]);
    }
  }

  lemma {:induction false} DeliveredNothing(a: seq<Action>, b: seq<Action>)
    requires a <= b && |Delivered(b)| <= |Delivered(a)|
    ensures DeliversNothing(b, |a|, |b|)
    decreases |b|
  {
    if |a| < |b| {
      DeliveredGrows(a, b[..|b| - 1]);
      DeliveredNothing(a, b[..|b| - 1]);
    }
  }

  lemma HearsKeeps(a: seq<Action>, b: seq<Action>, envs: seq<Envelope>)
    requires Hears(a, b, envs)
    ensures a <= b
  {
  }

  /** Taking nothing before or after changes nothing. */
  lemma DeliversIsTransitive()
    ensures forall a {:trigger Delivers(a, a, [])} :: Delivers(a, a, [])
    ensures forall a, b, c, ds {:trigger Delivers(a, b, ds), Delivers(b, c, [])} ::
              Delivers(a, b, ds) && Delivers(b, c, []) ==> Delivers(a, c, ds)
    ensures forall a, b, c, ds {:trigger Delivers(a, b, []), Delivers(b, c, ds)} ::
              Delivers(a, b, []) && Delivers(b, c, ds) ==> Delivers(a, c, ds)
  {
    hide Delivered;
    assert forall ds: seq<Delivery> :: ds + [] == ds && [] + ds == ds;
  }

  lemma HearsIsTransitive()
    ensures forall a {:trigger Hears(a, a, [])} :: Hears(a, a, [])
    ensures forall a, b, c, envs {:trigger Hears(a, b, envs), Hears(b, c, [])} ::
              Hears(a, b, envs) && Hears(b, c, []) ==> Hears(a, c, envs)
    ensures forall a, b, c, envs {:trigger Hears(a, b, []), Hears(b, c, envs)} ::
              Hears(a, b, []) && Hears(b, c, envs) ==> Hears(a, c, envs)
  {
    hide Heard;
    assert forall envs: seq<Envelope> :: envs + [] == envs && [] + envs == envs;
  }

  // ----- what a goroutine finds as it left it -----

  lemma {:induction false} OtherRun(lx: Lexicon, n: Node, actions: seq<Action>)
    requires Inv(n)
    ensures Inv(Run(lx, n, actions))
    ensures GatewayOnly(actions) ==> View(Run(lx, n, actions)) == View(n)
    ensures ReaderOnly(actions) ==> Run(lx, n, actions).gateway == n.gateway
    decreases |actions|
  {
    hide Inv, Exec, View;
    if actions != [] {
      var before := actions[..|actions| - 1];
      OtherRun(lx, n, before);
      ExecInv(lx, Run(lx, n, before), actions[|actions| - 1]);
      OtherStep(lx, Run(lx, n, before), actions[|actions| - 1]);
    }
  }

  /** What one goroutine finds after the other one has run for a while. */
  lemma Awaited(lx: Lexicon, a: seq<Action>, b: seq<Action>)
    requires Extends(a, b) && Inv(Run(lx, Start, a))
    ensures GatewayOnly(b[|a|..]) ==> Delivers(a, b, []) && View(Run(lx, Start, b)) == View(Run(lx, Start, a))
    ensures ReaderOnly(b[|a|..]) ==> Hears(a, b, []) && Run(lx, Start, b).gateway == Run(lx, Start, a).gateway
  {
    hide Run, Inv, View, GatewayOnly, ReaderOnly;
    assert a + b[|a|..] == b;
    OtherRun(lx, Run(lx, Start, a), b[|a|..]);
    RunAppend(lx, Start, a, b[|a|..]);
    DeliveredAppend(a, b[|a|..]);
    HeardAppend(a, b[|a|..]);
    OneTakesNothing(b[|a|..]);
  }

  lemma ReadMoves(lx: Lexicon, n: Node, newId: RequestId, ok: bool)
    requires ReaderStep(lx, n, newId, ok).Some?
    ensures Exec(lx, n, Read(newId, ok)) == PerformReader(n, ReaderStep(lx, n, newId, ok).value)
  {
    hide ReaderStep, Apply, GatewayStep;
  }

  lemma WorkMoves(lx: Lexicon, n: Node, a: Action)
    requires a.Work? && GatewayStep(lx, n, a).Some?
    ensures Exec(lx, n, a) == PerformGateway(n, GatewayStep(lx, n, a).value)
  {
    hide GatewayStep, Apply, ReaderMoveOf;
  }

  lemma DeliverMoves(lx: Lexicon, n: Node, d: Delivery)
    requires n.reader.Idle?
    ensures Exec(lx, n, Deliver(d)) == PerformReader(n, OnDelivery(lx, d))
  {
    hide OnDelivery, Apply, GatewayStep;
  }

  /** While a message is handled the client is ready, so it goes back to serving. */
  lemma ResumesServing(n: Node)
    requires Inv(n) && Handling(n.gateway)
    ensures Resume(n).Serve?
  {
  }

  predicate Handling(g: Gateway) {
    match g
    case FindRequest(_) | TrackRun(_, _, _) => true
    case ByRequest(_, _, _) | ByRun(_, _, _) | ByRunCorrelation(_, _) | ByLast(_) => true
    case Emit(_, _, _) | Forward(_, _, _, _) | Clear(_, _, _) => true
    case _ => false
  }

  /** What handling a frame comes to, between two states of the relay reader: nothing if the frame does not
      parse; otherwise one reply and no request written, or one request written and no reply. The one
      request it may track has this id, is for the session that the frame names, and asks for what the
      event in the frame asks for. */
  ghost predicate HandledAs(
    lx: Lexicon, v: ReaderView, w: ReaderView, frame: Bytes, newId: RequestId, wireOk: bool)
  {
    var parsed := ParseDataFrame(frame);
    if parsed.Err? then w == v
    else w.reader.Idle? && OneOutcome(v.(handled := v.handled + [frame]), w, parsed.value.sessionId,
                                      FrameAsk(lx, frame), newId, wireOk)
  }

  ghost predicate OneOutcome(
    v: ReaderView, w: ReaderView, id: SessionId, ask: Option<Ask>, newId: RequestId, wireOk: bool)
  {
    || w == v.(reader := w.reader, replies := v.replies + 1)
    || (ask.Some? && Asked(v, w, id, ask.value, newId, wireOk))
  }

  /** The request was written to this connection, and the reader is done. */
  ghost predicate WrittenTo(v: ReaderView, w: ReaderView, request: RequestId, c: ConnId) {
    w == v.(reader := Idle, written := v.written[request := c])
  }

  /** The request was tracked, and then either written, or rolled back and a reply made. */
  ghost predicate Asked(v: ReaderView, w: ReaderView, id: SessionId, ask: Ask, newId: RequestId, wireOk: bool) {
    var tracked := v.(reader := w.reader, tracked := v.tracked[newId := Tracked(id, |v.handled|, ask)]);
    || w == tracked.(replies := v.replies + 1, rolledBack := v.rolledBack + {newId})
    || (wireOk && exists c: ConnId :: WrittenTo(tracked, w, newId, c))
  }

  class Connector {
    const lx: Lexicon
    // the gateway client, with its tracking maps, and the bridge's table
    const client: G.Client
    var conn: Option<ConnId>
    var sessions: map<SessionId, byte>
    ghost var trace: seq<Action>
    ghost var st: Node

    /** The shared fields are those of the step system after the trace so far. */
    ghost predicate Valid()
      reads this, client
    {
      && st == Run(lx, Start, trace) && Inv(st)
      && sessions == st.table && conn == st.conn
      && client.reqToSession == st.requests && client.runToSession == st.runs
      && client.lastSessionId == st.last && client.ready == st.ready
    }

    constructor (lx: Lexicon)
      ensures Valid() && this.lx == lx && trace == [] && fresh(client)
    {
      this.lx := lx;
      client := new G.Client(lx);
      sessions, conn := map[], None;
      trace, st := [], Start;
      new;
      RunNone(lx, Start);
      StartInv();
    }

    lemma StartInv()
      ensures Inv(Start)
    {
    }

    // ----- interference -----

    /** The gateway reader makes any steps of its own. The body is one possibility; callers rely on the
        contract only. An id that newID has reserved for this goroutine stays unknown to the gateway. */
    method GatewayRuns(ghost reserved: set<RequestId>)
      requires Valid() && forall r :: r in reserved ==> FreshRequest(st, r)
      modifies this, client
      ensures Valid() && Extends(old(trace), trace) && GatewayOnly(trace[|old(trace)|..])
      ensures forall r :: r in reserved ==> FreshRequest(st, r)
    {
    }

    /** The relay reader makes any steps of its own. */
    method ReaderRuns()
      requires Valid()
      modifies this, client
      ensures Valid() && Extends(old(trace), trace) && ReaderOnly(trace[|old(trace)|..])
    {
    }

    /** What the relay reader finds after the gateway reader has run. */
    method AwaitGateway(ghost reserved: set<RequestId>)
      requires Valid() && forall r :: r in reserved ==> FreshRequest(st, r)
      modifies this, client
      ensures Valid() && Delivers(old(trace), trace, []) && View(st) == View(old(st))
      ensures forall r :: r in reserved ==> FreshRequest(st, r)
    {
      hide Run, Inv, View, Delivers, GatewayOnly, FreshRequest;
      ghost var before := trace;
      GatewayRuns(reserved);
      Awaited(lx, before, trace);
    }

    /** What the gateway reader finds after the relay reader has run. */
    method AwaitReader()
      requires Valid()
      modifies this, client
      ensures Valid() && Hears(old(trace), trace, []) && st.gateway == old(st).gateway
    {
      hide Run, Inv, Hears, ReaderOnly;
      ghost var before := trace;
      ReaderRuns();
      Awaited(lx, before, trace);
    }

    // ----- one step of either goroutine -----

    ghost method Commit(a: Action)
      requires st == Run(lx, Start, trace) && Inv(st)
      modifies this`st, this`trace
      ensures st == Run(lx, Start, trace) && Inv(st)
      ensures Delivers(old(trace), trace, DeliveredBy(a)) && Hears(old(trace), trace, HeardBy(a))
      ensures st == Exec(lx, old(st), a) && trace == old(trace) + [a]
    {
      hide Run, Exec, Inv, Delivers, Hears;
      ExecInv(lx, st, a);
      RunThen(lx, Start, trace, a);
      TakesOne(trace, a);
      trace := trace + [a];
      st := Exec(lx, st, a);
    }

    ghost method CommitRead(newId: RequestId, ok: bool)
      requires st == Run(lx, Start, trace) && Inv(st) && ReaderStep(lx, st, newId, ok).Some?
      modifies this`st, this`trace
      ensures st == Run(lx, Start, trace) && Inv(st) && Delivers(old(trace), trace, [])
      ensures st == PerformReader(old(st), ReaderStep(lx, old(st), newId, ok).value)
    {
      hide Run, Exec, Inv, ReaderStep, PerformReader, Delivers, Hears;
      ReadMoves(lx, st, newId, ok);
      Commit(Read(newId, ok));
    }

    ghost method CommitWork(a: Action)
      requires st == Run(lx, Start, trace) && Inv(st) && a.Work? && GatewayStep(lx, st, a).Some?
      modifies this`st, this`trace
      ensures st == Run(lx, Start, trace) && Inv(st) && Hears(old(trace), trace, HeardBy(a))
      ensures st == PerformGateway(old(st), GatewayStep(lx, old(st), a).value) && trace == old(trace) + [a]
    {
      hide Run, Exec, Inv, GatewayStep, PerformGateway, Delivers, Hears;
      WorkMoves(lx, st, a);
      Commit(a);
    }

    // ----- the relay reader: HandleData and the sends -----

    /** The relay connection has delivered a frame. */
    ghost method Receives(frame: Bytes)
      requires Valid() && st.reader.Idle?
      modifies this`st, this`trace
      ensures Valid() && Delivers(old(trace), trace, [Frame(frame)])
      ensures View(st) == View(old(st)).(reader := OnDelivery(lx, Frame(frame)).next,
                          handled := if ParseDataFrame(frame).Ok? then old(st).handled + [frame]
                          else old(st).handled)
      ensures forall r :: FreshRequest(old(st), r) ==> FreshRequest(st, r)
      ensures trace == old(trace) + [Deliver(Frame(frame))]
    {
      hide Run, Inv, Exec, OnDelivery, Delivers, Hears, ParseDataFrame;
      ReceiptMove(frame);
      DeliverMoves(lx, st, Frame(frame));
      Commit(Deliver(Frame(frame)));
    }

    lemma ReceiptMove(frame: Bytes)
      ensures var access := OnDelivery(lx, Frame(frame)).access;
              if ParseDataFrame(frame).Ok? then access == Receive(frame) else access == Observe
    {
      hide ParseDataFrame;
    }

    /** sendEvent with an error, as an answer to a frame. */
    method Reply(id: SessionId, flags: byte, code: string)
      requires Valid() && st.reader == Reader.Reply(id, flags, code)
      modifies this, client
      ensures Valid() && Delivers(old(trace), trace, [])
      ensures View(st) == View(old(st)).(reader := Idle, replies := old(st).replies + 1)
    {
      hide Run, Inv, Delivers;
      DeliversIsTransitive();
      AwaitGateway({});
      CommitRead([], true);
    }

    /** The critical section of HandleData: is the session open, and if so note the frame's flags. */
    method NoteFlags(id: SessionId, flags: byte, event: Event) returns (open: bool)
      requires Valid() && st.reader == Lookup(id, flags, event)
      modifies this
      ensures Valid() && Delivers(old(trace), trace, [])
      ensures View(st) == View(old(st)).(reader := if open then CheckReady(id, flags, event)
                          else Reader.Reply(id, flags, "SESSION_NOT_OPEN"))
      ensures forall r :: FreshRequest(old(st), r) ==> FreshRequest(st, r)
    {
      hide Run, Inv, Delivers;
      open := id in sessions;
      if open {
        sessions := sessions[id := flags];
      }
      CommitRead([], true);
    }

    /** IsReady, as HandleData calls it. */
    method IsReady(id: SessionId, flags: byte, event: Event) returns (ok: bool)
      requires Valid() && st.reader == CheckReady(id, flags, event)
      modifies this`st, this`trace
      ensures Valid() && Delivers(old(trace), trace, [])
      ensures View(st) == View(old(st)).(reader := if ok then ConnectorSystem.Dispatch(lx, id, flags, event)
                          else Reader.Reply(id, flags, "GATEWAY_NOT_READY"))
      ensures forall r :: FreshRequest(old(st), r) ==> FreshRequest(st, r)
    {
      hide Run, Inv, ConnectorSystem.Dispatch, Delivers;
      ok := client.ready;
      CommitRead([], true);
    }

    method TrackRequest(id: SessionId, flags: byte, ask: Ask, code: string, newId: RequestId)
      requires Valid() && st.reader == Track(id, flags, ask, code) && FreshRequest(st, newId)
      modifies this, client
      ensures Valid() && Delivers(old(trace), trace, [])
      ensures View(st) == View(old(st)).(reader := WriteReady(id, flags, newId, code),
                          tracked := old(st).tracked[newId := Tracked(id, |old(st).handled|, ask)])
    {
      hide Run, Inv, Delivers;
      client.TrackRequest(newId, id);
      CommitRead(newId, true);
    }

    /** writeJSON: the ready flag, then the connection, then the write; `wireOk` is what the write
        returns. */
    method WriteJson(id: SessionId, flags: byte, request: RequestId, code: string, wireOk: bool) returns (ok: bool)
      requires Valid() && st.reader == WriteReady(id, flags, request, code)
      modifies this, client
      ensures Valid() && Delivers(old(trace), trace, []) && (ok ==> wireOk)
      ensures !ok ==> View(st) == View(old(st)).(reader := Untrack(id, flags, request, code))
      ensures ok ==> exists c: ConnId :: WrittenTo(View(old(st)), View(st), request, c)
    {
      hide Run, Inv, Delivers, Valid, ReaderStep;
      DeliversIsTransitive();
      AwaitGateway({});
      ok := StillReady(id, flags, request, code);
      if !ok {
        return;
      }
      AwaitGateway({});
      var c := GetConn(id, flags, request, code);
      if c.None? {
        return false;
      }
      AwaitGateway({});
      WriteMessage(id, flags, request, c.value, code, wireOk);
      ok := wireOk;
      assert wireOk ==> WrittenTo(View(old(st)), View(st), request, c.value);
    }

    method StillReady(id: SessionId, flags: byte, request: RequestId, code: string) returns (ok: bool)
      requires Valid() && st.reader == WriteReady(id, flags, request, code)
      modifies this`st, this`trace
      ensures Valid() && Delivers(old(trace), trace, [])
      ensures View(st) == View(old(st)).(reader := if ok then WriteConn(id, flags, request, code)
                          else Untrack(id, flags, request, code))
    {
      hide Run, Inv, Delivers;
      ok := client.ready;
      CommitRead([], true);
    }

    method GetConn(id: SessionId, flags: byte, request: RequestId, code: string) returns (c: Option<ConnId>)
      requires Valid() && st.reader == WriteConn(id, flags, request, code)
      modifies this`st, this`trace
      ensures Valid() && Delivers(old(trace), trace, [])
      ensures View(st) == View(old(st)).(reader := if c.Some? then Write(id, flags, request, c.value, code)
                          else Untrack(id, flags, request, code))
    {
      hide Run, Inv, Delivers;
      c := conn;
      CommitRead([], true);
    }

    method WriteMessage(
      id: SessionId, flags: byte, request: RequestId, c: ConnId, code: string, wireOk: bool)
      requires Valid() && st.reader == Write(id, flags, request, c, code)
      modifies this`st, this`trace
      ensures Valid() && Delivers(old(trace), trace, [])
      ensures View(st) == if wireOk then View(old(st)).(reader := Idle, written := old(st).written[request := c])
                          else View(old(st)).(reader := Untrack(id, flags, request, code))
    {
      hide Run, Inv, Delivers;
      CommitRead([], wireOk);
    }

    method UntrackRequest(id: SessionId, flags: byte, request: RequestId, code: string)
      requires Valid() && st.reader == Untrack(id, flags, request, code)
      modifies this, client
      ensures Valid() && Delivers(old(trace), trace, [])
      ensures View(st) == View(old(st)).(reader := Reader.Reply(id, flags, code),
                          rolledBack := old(st).rolledBack + {request})
    {
      hide Run, Inv, Delivers;
      client.UntrackRequest(request);
      CommitRead([], true);
    }

    /** SendUserMessage and SendCancel: track, write, and roll back if the write fails. */
    method SendTracked(id: SessionId, flags: byte, ask: Ask, code: string, newId: RequestId, wireOk: bool)
      requires Valid() && st.reader == Track(id, flags, ask, code) && FreshRequest(st, newId)
      modifies this, client
      ensures Valid() && Delivers(old(trace), trace, []) && st.reader.Idle?
      ensures Asked(View(old(st)), View(st), id, ask, newId, wireOk)
    {
      hide Run, Inv, Delivers, Valid, ReaderStep;
      DeliversIsTransitive();
      AwaitGateway({newId});
      TrackRequest(id, flags, ask, code, newId);
      ghost var u := View(st);
      var ok := WriteJson(id, flags, newId, code, wireOk);
      if ok {
        ghost var c: ConnId :| WrittenTo(u, View(st), newId, c);
        assert WrittenTo(u.(reader := Idle), View(st), newId, c);
      } else {
        AwaitGateway({});
        UntrackRequest(id, flags, newId, code);
        Reply(id, flags, code);
      }
    }

    /** The switch on the event type. */
    method Dispatch(id: SessionId, flags: byte, event: Event, newId: RequestId, wireOk: bool)
      requires Valid() && st.reader == ConnectorSystem.Dispatch(lx, id, flags, event) && FreshRequest(st, newId)
      modifies this, client
      ensures Valid() && Delivers(old(trace), trace, []) && st.reader.Idle?
      ensures OneOutcome(View(old(st)), View(st), id, AskOf(lx, event), newId, wireOk)
    {
      hide Run, Inv, Delivers, Valid, ReaderStep, Asked;
      match event {
        case UserMessage(content) =>
          if lx.trim(content) == [] {
            Reply(id, flags, "GATEWAY_SEND_FAILED");
          } else {
            SendTracked(id, flags, Agent(lx.trim(content)), "GATEWAY_SEND_FAILED", newId, wireOk);
          }
        case ControlAction(action) =>
          if action != "stop" {
            Reply(id, flags, "UNSUPPORTED_CONTROL");
          } else {
            SendTracked(id, flags, Abort, "GATEWAY_CANCEL_FAILED", newId, wireOk);
          }
        case _ => Reply(id, flags, "UNSUPPORTED_EVENT");
      }
    }

    lemma SameOutcome(v: ReaderView, u: ReaderView, w: ReaderView, id: SessionId, ask: Option<Ask>, newId: RequestId,
                      wireOk: bool)
      requires OneOutcome(u, w, id, ask, newId, wireOk) && u == v.(reader := u.reader)
      ensures OneOutcome(v, w, id, ask, newId, wireOk)
    {
    }

    /** HandleData for a frame that carries an event. */
    method HandleEventFrame(id: SessionId, flags: byte, event: Event, newId: RequestId, wireOk: bool)
      requires Valid() && st.reader == Lookup(id, flags, event) && FreshRequest(st, newId)
      modifies this, client
      ensures Valid() && Delivers(old(trace), trace, []) && st.reader.Idle?
      ensures OneOutcome(View(old(st)), View(st), id, AskOf(lx, event), newId, wireOk)
    {
      hide Run, Inv, Delivers, Valid, ReaderStep, FreshRequest, ConnectorSystem.Dispatch, AskOf, Asked;
      DeliversIsTransitive();
      AwaitGateway({newId});
      var open := NoteFlags(id, flags, event);
      if !open {
        Reply(id, flags, "SESSION_NOT_OPEN");
        return;
      }
      AwaitGateway({newId});
      var ok := IsReady(id, flags, event);
      if !ok {
        Reply(id, flags, "GATEWAY_NOT_READY");
        return;
      }
      ghost var u := View(st);
      Dispatch(id, flags, event, newId, wireOk);
      SameOutcome(View(old(st)), u, View(st), id, AskOf(lx, event), newId, wireOk);
    }

    /** The relay client's callback for a binary frame: HandleData, from the delivery of the frame to its
        outcome, with the gateway reader running in between. `newId` is what newID returns, and `wireOk` whether
        the gateway connection accepts the write. */
    method HandleData(frame: Bytes, newId: RequestId, wireOk: bool)
      requires Valid() && st.reader.Idle? && FreshRequest(st, newId)
      modifies this, client
      ensures Valid() && Delivers(old(trace), trace, [Frame(frame)])
      ensures HandledAs(lx, View(old(st)), View(st), frame, newId, wireOk)
      ensures newId in st.tracked ==> AskedBy(lx, frame, st.tracked[newId].ask)
      ensures |trace| > |old(trace)| && trace[|old(trace)|] == Deliver(Frame(frame))
      ensures Outcome(lx, trace, |old(trace)| + 1, |trace|, frame)
    {
      hide Run, Inv, Valid, Delivers, HandledAs, Outcome;
      StIsRun();
      HandleFrame(frame, newId, wireOk);
      StIsRun();
      IdleAfter(View(old(st)), View(st), frame, newId, wireOk);
      TrackedAsks(View(old(st)), View(st), frame, newId, wireOk);
      Concludes(old(trace), trace, frame);
    }

    lemma StIsRun()
      requires Valid()
      ensures st == Run(lx, Start, trace)
    {
    }

    lemma IdleAfter(v: ReaderView, w: ReaderView, frame: Bytes, newId: RequestId, wireOk: bool)
      requires HandledAs(lx, v, w, frame, newId, wireOk) && v.reader.Idle?
      ensures w.reader.Idle?
    {
    }

    /** The frame that was delivered right after the run a has had its outcome by the end of the run b. */
    lemma Concludes(a: seq<Action>, b: seq<Action>, frame: Bytes)
      requires Delivers(a, b, [Frame(frame)]) && |b| > |a| && b[|a|] == Deliver(Frame(frame))
      requires Run(lx, Start, a).reader.Idle? && Run(lx, Start, b).reader.Idle?
      ensures Outcome(lx, b, |a| + 1, |b|, frame)
    {
      hide Run, Outcome;
      assert b[..|a|] == a && b[..|b|] == b && b[..|a| + 1] == a + [Deliver(Frame(frame))];
      TakesOne(a, Deliver(Frame(frame)));
      DeliveredNothing(b[..|a| + 1], b);
      OutcomeOfFrame(lx, b, |a|, |b|, frame);
    }

    lemma TrackedAsks(v: ReaderView, w: ReaderView, frame: Bytes, newId: RequestId, wireOk: bool)
      requires HandledAs(lx, v, w, frame, newId, wireOk) && newId !in v.tracked
      ensures newId in w.tracked ==> AskedBy(lx, frame, w.tracked[newId].ask)
    {
      hide FrameAsk, AskedBy, ParseDataFrame;
      if newId in w.tracked {
        FrameAsksFor(lx, frame, w.tracked[newId].ask);
      }
    }

    method HandleFrame(frame: Bytes, newId: RequestId, wireOk: bool)
      requires Valid() && st.reader.Idle? && FreshRequest(st, newId)
      modifies this, client
      ensures Valid() && Delivers(old(trace), trace, [Frame(frame)])
      ensures HandledAs(lx, View(old(st)), View(st), frame, newId, wireOk)
      ensures |trace| > |old(trace)| && trace[|old(trace)|] == Deliver(Frame(frame))
    {
      hide Run, Inv, Delivers, ReaderStep, Valid, AskOf, Asked, FreshRequest;
      DeliversIsTransitive();
      Receives(frame);
      var parsed := ParseDataFrame(frame);
      if parsed.Err? {
        return;
      }
      ghost var u, received := View(st), trace;
      var id, flags := parsed.value.sessionId, parsed.value.flags;
      var event := lx.decode(parsed.value.payload);
      if event.None? {
        Reply(id, flags, "BAD_EVENT");
        DeliversKeeps(received, trace, []);
        return;
      }
      HandleEventFrame(id, flags, event.value, newId, wireOk);
      DeliversKeeps(received, trace, []);
      SameOutcome(View(old(st)).(handled := u.handled), u, View(st), id, FrameAsk(lx, frame), newId, wireOk);
    }

    // ----- the gateway reader: responses and events -----

    /** The gateway connection has delivered a message. */
    ghost method Reads(env: Envelope)
      requires Valid() && st.gateway.Serve? && OnMessage(lx, st, env).Some?
      modifies this`st, this`trace
      ensures Valid() && Hears(old(trace), trace, [env]) && st.gateway == OnMessage(lx, old(st), env).value.next
      ensures trace == old(trace) + [Wake(Message(env), 0, [])]
    {
      hide Run, Inv, OnMessage;
      MessageMove(env);
      CommitWork(Wake(Message(env), 0, []));
    }

    lemma MessageMove(env: Envelope)
      requires Valid() && st.gateway.Serve? && OnMessage(lx, st, env).Some?
      ensures GatewayStep(lx, st, Wake(Message(env), 0, [])) == OnMessage(lx, st, env)
      ensures var access := OnMessage(lx, st, env).value.access; access.Observe? || access.Named?
    {
      hide BeginEvent;
    }

    /** requestSession, as handleResponse calls it. */
    method RequestSession(env: Envelope) returns (id: Option<SessionId>)
      requires Valid() && st.gateway == FindRequest(env)
      modifies this`st, this`trace
      ensures Valid() && Hears(old(trace), trace, [])
      ensures id.None? ==> st.gateway.Serve?
      ensures id.Some? ==> st.gateway == BeginResponse(lx, id.value, env)
    {
      hide Run, BeginResponse, HandshakeStep, ResolveStep, BatchStep;
      ResumesServing(st);
      hide Inv;
      id := if env.id in client.reqToSession then Some(client.reqToSession[env.id]) else None;
      CommitWork(Wake(Skipped, 0, []));
    }

    method TrackRun(runId: Bytes, id: SessionId, env: Envelope)
      requires Valid() && st.gateway == Gateway.TrackRun(runId, id, env)
      modifies this, client
      ensures Valid() && Hears(old(trace), trace, []) && st.gateway == EmitResponse(lx, id, env)
    {
      hide Run, Inv, EmitResponse, HandshakeStep, ResolveStep, BatchStep;
      client.TrackRun(runId, id);
      CommitWork(Wake(Skipped, 0, []));
    }

    lemma EmitMove(id: SessionId, batch: seq<Event>, cause: Cause)
      requires st.gateway == Emit(id, batch, cause) && batch != []
      ensures var m := GatewayStep(lx, st, Wake(Skipped, 0, []));
              && m.Some? && (m.value.access.Observe? || m.value.access.Terminal?)
              && m.value.next == if id in st.table then Forward(id, st.table[id], batch, cause)
                                 else NextInBatch(id, batch, cause)
    {
      hide HandshakeStep, ResolveStep, ServeStep, NextInBatch;
    }

    /** The lookup of HandleGatewayEvent in the bridge, for the next event of a batch. */
    method ResolveSession(id: SessionId, batch: seq<Event>, cause: Cause) returns (flags: Option<byte>)
      requires Valid() && st.gateway == Emit(id, batch, cause) && batch != []
      modifies this`st, this`trace
      ensures Valid() && Hears(old(trace), trace, [])
      ensures st.gateway == if flags.Some? then Forward(id, flags.value, batch, cause)
                            else NextInBatch(id, batch, cause)
    {
      hide Run, Inv, NextInBatch, GatewayStep, Hears;
      flags := if id in sessions then Some(sessions[id]) else None;
      EmitMove(id, batch, cause);
      CommitWork(Wake(Skipped, 0, []));
    }

    /** The SendData call for one event; its failure is only logged. */
    method SendEvent(id: SessionId, flags: byte, batch: seq<Event>, cause: Cause)
      requires Valid() && st.gateway == Forward(id, flags, batch, cause) && batch != []
      modifies this`st, this`trace
      ensures Valid() && Hears(old(trace), trace, []) && st.gateway == NextInBatch(id, batch, cause)
    {
      hide Run, Inv, NextInBatch, HandshakeStep, ResolveStep, ServeStep;
      CommitWork(Wake(Skipped, 0, []));
    }

    method ClearSessionTracks(id: SessionId, batch: seq<Event>, cause: Cause)
      requires Valid() && st.gateway == Clear(id, batch, cause)
      modifies this, client
      ensures Valid() && Hears(old(trace), trace, []) && st.gateway == Emit(id, batch, cause)
    {
      hide Run, Inv, GatewayStep, Hears;
      ClearMove(id, batch, cause);
      client.ClearSessionTracks(id);
      CommitWork(Wake(Skipped, 0, []));
    }

    lemma ClearMove(id: SessionId, batch: seq<Event>, cause: Cause)
      requires st.gateway == Clear(id, batch, cause)
      ensures GatewayStep(lx, st, Wake(Skipped, 0, [])) == Some(GatewayMove(ClearTracks(id), Emit(id, batch, cause)))
    {
      hide HandshakeStep, ResolveStep, ServeStep;
    }

    ghost method EndBatch(id: SessionId, cause: Cause)
      requires Valid() && st.gateway == Emit(id, [], cause)
      modifies this`st, this`trace
      ensures Valid() && Hears(old(trace), trace, []) && st.gateway.Serve?
    {
      hide Run, HandshakeStep, ResolveStep, ServeStep;
      ResumesServing(st);
      hide Inv;
      CommitWork(Wake(Skipped, 0, []));
    }

    /** emitEvent for one event of a batch, and the clear after a terminal one. */
    method EmitEvent(id: SessionId, batch: seq<Event>, cause: Cause)
      requires Valid() && st.gateway == Emit(id, batch, cause) && batch != []
      modifies this, client
      ensures Valid() && Hears(old(trace), trace, []) && st.gateway == Emit(id, batch[1..], cause)
    {
      hide Run, Inv, Hears, Valid;
      HearsIsTransitive();
      AwaitReader();
      var flags := ResolveSession(id, batch, cause);
      if flags.Some? {
        AwaitReader();
        SendEvent(id, flags.value, batch, cause);
      }
      if IsTerminal(batch[0]) {
        AwaitReader();
        ClearSessionTracks(id, batch[1..], cause);
      }
    }

    method EmitBatch(id: SessionId, batch: seq<Event>, cause: Cause)
      requires Valid() && st.gateway == Emit(id, batch, cause)
      modifies this, client
      ensures Valid() && Hears(old(trace), trace, []) && st.gateway.Serve?
    {
      hide Run, Inv, Hears, Valid;
      HearsIsTransitive();
      for i := 0 to |batch|
        invariant Valid() && Hears(old(trace), trace, []) && st.gateway == Emit(id, batch[i..], cause)
      {
        EmitEvent(id, batch[i..], cause);
        assert batch[i..][1..] == batch[i + 1..];
      }
      assert batch[|batch|..] == [];
      EndBatch(id, cause);
    }

    /** handleResponse, with the relay reader running in between. A response to a request that was never
        written is not delivered. */
    method HandleResponse(env: Envelope)
      requires Valid() && st.gateway.Serve? && env.kind.ResponseKind?
      requires env.id in st.tracked ==> env.id in st.written
      modifies this, client
      ensures Valid() && Hears(old(trace), trace, if env.id == [] then [] else [env]) && st.gateway.Serve?
    {
      hide Run, Inv, Hears, Valid, ExtractRunId, DecodePayload, ResponseEvents;
      HearsIsTransitive();
      if env.id == [] {
        return;
      }
      Reads(env);
      AwaitReader();
      var id := RequestSession(env);
      if id.None? {
        return;
      }
      var runId := ExtractRunId(DecodePayload(env.payload));
      if runId != [] {
        AwaitReader();
        TrackRun(runId, id.value, env);
      }
      EmitBatch(id.value, ResponseEvents(lx, env), Some(env.id));
    }

    /** One lookup of resolveSessionID; the gateway reader then either emits or looks further. */
    ghost method Looks()
      requires Valid() && Resolving(st.gateway)
      modifies this`st, this`trace
      ensures Valid() && Hears(old(trace), trace, []) && ResolveStep(lx, old(st)).Some?
      ensures st.gateway == ResolveStep(lx, old(st)).value.next
      ensures Resume(old(st)).Serve?
    {
      hide Run, Exec, ResolveStep;
      ResumesServing(st);
      hide Inv;
      ResolvingStep(lx, st, Wake(Skipped, 0, []));
      Commit(Wake(Skipped, 0, []));
    }

    method LookAmongRequests(corr: Bytes, runId: Bytes, env: Envelope) returns (id: Option<SessionId>)
      requires Valid() && st.gateway == ByRequest(corr, runId, env)
      modifies this`st, this`trace
      ensures Valid() && Hears(old(trace), trace, []) && Emits(id, env, ByRun(corr, runId, env))
    {
      hide Run, Inv, MapGatewayEvent;
      id := if corr != [] && corr in client.reqToSession then Some(client.reqToSession[corr]) else None;
      Looks();
    }

    method LookAmongRuns(corr: Bytes, runId: Bytes, env: Envelope) returns (id: Option<SessionId>)
      requires Valid() && st.gateway == ByRun(corr, runId, env)
      modifies this`st, this`trace
      ensures Valid() && Hears(old(trace), trace, []) && Emits(id, env, ByRunCorrelation(corr, env))
    {
      hide Run, Inv, MapGatewayEvent;
      id := if runId != [] && runId in client.runToSession then Some(client.runToSession[runId]) else None;
      Looks();
    }

    method LookByCorrelation(corr: Bytes, env: Envelope) returns (id: Option<SessionId>)
      requires Valid() && st.gateway == ByRunCorrelation(corr, env)
      modifies this`st, this`trace
      ensures Valid() && Hears(old(trace), trace, []) && Emits(id, env, ByLast(env))
    {
      hide Run, Inv, MapGatewayEvent;
      id := if corr != [] && corr in client.runToSession then Some(client.runToSession[corr]) else None;
      Looks();
    }

    method LookAtLast(env: Envelope) returns (id: SessionId)
      requires Valid() && st.gateway == ByLast(env)
      modifies this`st, this`trace
      ensures Valid() && Hears(old(trace), trace, []) && Emits(Some(id), env, ByLast(env))
    {
      hide Run, Inv, MapGatewayEvent;
      id := client.lastSessionId;
      Looks();
    }

    /** Where the gateway reader is after a lookup: about to emit for the session found, back to serving
        if that is the empty one, or at the next lookup. */
    ghost predicate Emits(id: Option<SessionId>, env: Envelope, next: Gateway)
      reads this
    {
      if id.None? then st.gateway == next
      else if id.value == [] then st.gateway.Serve?
      else st.gateway == Emit(id.value, MapGatewayEvent(lx, env), None)
    }

    /** resolveSessionID after the payload's own session id, with the relay reader running between the
        lookups. */
    method ResolveSessionId(corr: Bytes, runId: Bytes, env: Envelope) returns (id: SessionId)
      requires Valid() && st.gateway == ByRequest(corr, runId, env)
      modifies this, client
      ensures Valid() && Hears(old(trace), trace, []) && Emits(Some(id), env, ByLast(env))
    {
      hide Run, Inv, Hears, Valid, MapGatewayEvent;
      HearsIsTransitive();
      AwaitReader();
      var found := LookAmongRequests(corr, runId, env);
      if found.Some? {
        return found.value;
      }
      AwaitReader();
      found := LookAmongRuns(corr, runId, env);
      if found.Some? {
        return found.value;
      }
      AwaitReader();
      found := LookByCorrelation(corr, env);
      if found.Some? {
        return found.value;
      }
      AwaitReader();
      id := LookAtLast(env);
    }

    /** handleEvent, with the relay reader running in between. An event that names a session is emitted
        for it, whatever is tracked. */
    method HandleEvent(env: Envelope)
      requires Valid() && st.gateway.Serve? && env.kind.EventKind?
      modifies this, client
      ensures Valid() && Hears(old(trace), trace, [env]) && st.gateway.Serve?
      ensures |trace| > |old(trace)| && trace[|old(trace)|] == Wake(Message(env), 0, [])
      ensures forall named :: L.NamesSession(env.payload, named) ==>
                                After(lx, trace, |old(trace)| + 1).gateway
                                == Emit(named, MapGatewayEvent(lx, env), None)
    {
      hide Run, Inv, Hears, Valid, DecodePayload;
      hide MapGatewayEvent, ExtractSessionId, ExtractCorrelationId, ExtractRunId;
      HearsIsTransitive();
      var p := DecodePayload(env.payload);
      EventRead(env);
      Reads(env);
      ghost var read := trace;
      var id := ExtractSessionId(p);
      if id == [] {
        id := ResolveSessionId(ExtractCorrelationId(env, p), ExtractRunId(p), env);
      }
      if id != [] {
        EmitBatch(id, MapGatewayEvent(lx, env), None);
      }
      HearsKeeps(read, trace, []);
      assert trace[..|read|] == read;
    }

    /** What the gateway reader does with an event that names a session, right after reading it. */
    lemma EventRead(env: Envelope)
      requires Valid() && st.gateway.Serve? && env.kind.EventKind?
      ensures OnMessage(lx, st, env).Some?
      ensures forall named :: L.NamesSession(env.payload, named) ==>
                                Run(lx, Start, trace + [Wake(Message(env), 0, [])]).gateway
                                == Emit(named, MapGatewayEvent(lx, env), None)
    {
      hide Run, Inv, Exec, MapGatewayEvent, L.NamesSession;
      RunThen(lx, Start, trace, Wake(Message(env), 0, []));
      forall named | L.NamesSession(env.payload, named)
        ensures Exec(lx, st, Wake(Message(env), 0, [])).gateway == Emit(named, MapGatewayEvent(lx, env), None)
      {
        NamedEventGoesThere(lx, st, Wake(Message(env), 0, []), named);
      }
    }
  }
}
