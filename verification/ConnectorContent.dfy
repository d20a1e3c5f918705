/** What a request asks of the gateway is what the frame that caused it says. */
module ConnectorContent {
  import opened Protocol
  import opened DataFrame
  import opened Events
  import opened ConnectorSystem
  import opened ConnectorInvariants
  import opened ConnectorTheorems

  /** The bridge event in a DATA frame, if it carries one. */
  function EventOf(lx: Lexicon, frame: Bytes): Option<Event> {
    var parsed := ParseDataFrame(frame);
    if parsed.Ok? then lx.decode(parsed.value.payload) else None
  }

  /** What a DATA frame asks of the gateway, if it asks for anything. */
  function FrameAsk(lx: Lexicon, frame: Bytes): Option<Ask> {
    var event := EventOf(lx, frame);
    if event.Some? then AskOf(lx, event.value) else None
  }

  ghost predicate Asks(lx: Lexicon, n: Node, r: RequestId)
    requires r in n.tracked
  {
    var t := n.tracked[r];
    1 <= t.ordinal <= |n.handled| && FrameAsk(lx, n.handled[t.ordinal - 1]) == Some(t.ask)
  }

  /** The relay reader's locals come from the frame it handles. */
  ghost predicate ReaderFaithful(lx: Lexicon, n: Node) {
    match n.reader
    case Lookup(_, _, event) => n.handled != [] && EventOf(lx, n.handled[|n.handled| - 1]) == Some(event)
    case CheckReady(_, _, event) => n.handled != [] && EventOf(lx, n.handled[|n.handled| - 1]) == Some(event)
    case Track(_, _, ask, _) => n.handled != [] && FrameAsk(lx, n.handled[|n.handled| - 1]) == Some(ask)
    case _ => true
  }

  ghost predicate ContentInv(lx: Lexicon, n: Node) {
    && (forall r {:trigger Asks(lx, n, r)} :: r in n.tracked ==> Asks(lx, n, r))
    && ReaderFaithful(lx, n)
  }

  lemma GatewayContent(lx: Lexicon, n: Node, m: GatewayMove)
    requires ContentInv(lx, n) && !OfReader(m.access)
    ensures ContentInv(lx, PerformGateway(n, m))
  {
    hide Apply;
    var t := PerformGateway(n, m);
    ApplyTracking(n, m.access);
    forall r | r in t.tracked ensures Asks(lx, t, r) {
      assert Asks(lx, n, r);
    }
  }

  lemma ReaderNext(lx: Lexicon, n: Node, a: Action)
    requires ReaderMoveOf(lx, n, a).Some? && ReaderFaithful(lx, n)
    ensures var m := ReaderMoveOf(lx, n, a).value;
            ReaderFaithful(lx, n.(reader := m.next,
                           handled := if m.access.Receive? then n.handled + [m.access.frame] else n.handled))
    ensures var m := ReaderMoveOf(lx, n, a).value;
            m.access.TrackRequest? ==> n.reader.Track? && m.access.ask == n.reader.ask
  {
    hide AskOf, ParseDataFrame;
  }

  lemma ReaderContent(lx: Lexicon, n: Node, a: Action)
    requires ContentInv(lx, n) && ReaderMoveOf(lx, n, a).Some?
    ensures ContentInv(lx, PerformReader(n, ReaderMoveOf(lx, n, a).value))
  {
    hide Apply, ReaderMoveOf, FrameAsk, EventOf;
    var m := ReaderMoveOf(lx, n, a).value;
    ReaderMoveEdge(lx, n, a);
    ReaderNext(lx, n, a);
    ApplyReading(n, m.access);
    var t := PerformReader(n, m);
    forall r | r in t.tracked ensures Asks(lx, t, r) {
      if r in n.tracked {
        assert Asks(lx, n, r);
      }
    }
  }

  lemma ExecContent(lx: Lexicon, n: Node, a: Action)
    requires ContentInv(lx, n)
    ensures ContentInv(lx, Exec(lx, n, a))
  {
    hide ContentInv, GatewayStep, ReaderMoveOf;
    if a.Work? {
      if GatewayStep(lx, n, a).Some? {
        GatewayEdge(lx, n, a);
        GatewayAccess(n, GatewayStep(lx, n, a).value);
        GatewayContent(lx, n, GatewayStep(lx, n, a).value);
      }
    } else if ReaderMoveOf(lx, n, a).Some? {
      ReaderContent(lx, n, a);
    }
  }

  lemma {:induction false} AfterContent(lx: Lexicon, actions: seq<Action>, n: nat)
    requires n <= |actions|
    ensures ContentInv(lx, After(lx, actions, n))
    decreases n
  {
    hide Run, Exec;
    if n == 0 {
      AfterNone(lx, actions);
    } else {
      AfterContent(lx, actions, n - 1);
      AfterStep(lx, actions, n - 1);
      ExecContent(lx, After(lx, actions, n - 1), actions[n - 1]);
    }
  }

  /** The frame carries an event, and this is what the event wants. */
  ghost predicate AskedBy(lx: Lexicon, frame: Bytes, ask: Ask) {
    && ParseDataFrame(frame).Ok?
    && var event := lx.decode(ParseDataFrame(frame).value.payload);
    event.Some? && Wants(lx, event.value, ask)
  }

  lemma FrameAsksFor(lx: Lexicon, frame: Bytes, ask: Ask)
    requires FrameAsk(lx, frame) == Some(ask)
    ensures AskedBy(lx, frame, ask)
  {
    hide AskOf, Wants, ParseDataFrame;
    AskIsWanted(lx, lx.decode(ParseDataFrame(frame).value.payload).value);
  }

  /** Every request ever tracked is for the session that the frame which caused it names, and asks for what
      the event in that frame wants. */
  lemma RequestsAskWhatFramesSay(lx: Lexicon, actions: seq<Action>, r: RequestId)
    requires r in After(lx, actions, |actions|).tracked
    ensures var n := After(lx, actions, |actions|);
            var t := n.tracked[r];
            && 1 <= t.ordinal <= |n.handled|
            && FrameOf(n.handled[t.ordinal - 1], t.sessionId)
            && AskedBy(lx, n.handled[t.ordinal - 1], t.ask)
  {
    hide Run, Exec, FrameAsk;
    AfterContent(lx, actions, |actions|);
    RequestsComeFromFrames(lx, actions, r);
    var n := After(lx, actions, |actions|);
    assert Asks(lx, n, r);
    FrameAsksFor(lx, n.handled[n.tracked[r].ordinal - 1], n.tracked[r].ask);
  }
}
