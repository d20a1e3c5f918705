/** What the relay reader does with each frame: whether a request is written or a reply made, and which one,
    in runs with any interleaving. */
module ConnectorOutcomes {
  import opened Protocol
  import opened DataFrame
  import opened Events
  import opened ConnectorSystem
  import opened ConnectorInvariants
  import opened ConnectorTheorems

  // ----- what the relay reader does, and when -----

  /** The replies that the relay reader makes in actions i to k, in order. */
  function Replies(lx: Lexicon, actions: seq<Action>, i: nat, k: nat): seq<Outgoing>
    requires i <= k <= |actions|
    decreases k
  {
    if k == i then []
    else
      var o := if actions[k - 1].Work? then None else Output(lx, After(lx, actions, k - 1), actions[k - 1]);
      Replies(lx, actions, i, k - 1) + if o.Some? then [o.value] else []
  }

  /** The action is the relay reader's own next step. */
  predicate IsTurn(lx: Lexicon, n: Node, a: Action) {
    a.Read? && ReaderStep(lx, n, a.newId, a.ok).Some?
  }

  /** The turns that the relay reader has in actions i to k. */
  function Turns(lx: Lexicon, actions: seq<Action>, i: nat, k: nat): (turns: seq<nat>)
    requires i <= k <= |actions|
    ensures forall n :: 0 <= n < |turns| ==> i <= turns[n] < k && actions[turns[n]].Read?
    decreases k
  {
    if k == i then []
    else
      Turns(lx, actions, i, k - 1)
      + if IsTurn(lx, After(lx, actions, k - 1), actions[k - 1]) then [k - 1] else []
  }

  // ----- the outcomes -----

  /** The fourth turn finds the client ready, the fifth a connection, and the sixth writes to it. */
  ghost predicate GetsThrough(lx: Lexicon, actions: seq<Action>, i: nat, k: nat)
    requires i <= k <= |actions|
  {
    var turns := Turns(lx, actions, i, k);
    && |turns| > 5 && After(lx, actions, turns[3]).ready && After(lx, actions, turns[4]).conn.Some?
    && actions[turns[5]].ok
  }

  /** The third turn has tracked a new request, for this session and with this ask. It is written to the
      connection found, or rolled back, and then this is the code of the reply. */
  ghost predicate Requested(
    lx: Lexicon, actions: seq<Action>, i: nat, k: nat, id: SessionId, ask: Ask, failure: string, code: Option<string>)
    requires i <= k <= |actions|
  {
    var turns, n := Turns(lx, actions, i, k), After(lx, actions, k);
    && |turns| > 3
    && var r := actions[turns[2]].newId;
    && r !in After(lx, actions, turns[2]).tracked && r in n.tracked
    && n.tracked[r] == Tracked(id, |n.handled|, ask)
    && if GetsThrough(lx, actions, i, k) then
         && code == None && r !in n.rolledBack
         && r in n.written && n.written[r] == After(lx, actions, turns[4]).conn.value
       else code == Some(failure) && r in n.rolledBack && r !in n.written
  }

  /** The reply, if there is one, that the turns of the relay reader lead to: the first turn looks for the
      session in the table, the second asks whether the client is ready. */
  ghost predicate Course(lx: Lexicon, actions: seq<Action>, i: nat, k: nat, d: Parsed, code: Option<string>)
    requires i <= k <= |actions|
  {
    var turns := Turns(lx, actions, i, k);
    match lx.decode(d.payload)
    case None => code == Some("BAD_EVENT")
    case Some(event) =>
      && |turns| > 0
      && if d.sessionId !in After(lx, actions, turns[0]).table then code == Some("SESSION_NOT_OPEN")
         else
           && |turns| > 1
           && if !After(lx, actions, turns[1]).ready then code == Some("GATEWAY_NOT_READY")
              else Dispatched(lx, actions, i, k, d.sessionId, event, code)
  }

  /** What becomes of an event once the client was found ready. */
  ghost predicate Dispatched(
    lx: Lexicon, actions: seq<Action>, i: nat, k: nat, id: SessionId, event: Event, code: Option<string>)
    requires i <= k <= |actions|
  {
    match event
    case UserMessage(content) =>
      if lx.trim(content) == [] then code == Some("GATEWAY_SEND_FAILED")
      else Requested(lx, actions, i, k, id, Agent(lx.trim(content)), "GATEWAY_SEND_FAILED", code)
    case ControlAction(action) =>
      if action == "stop" then Requested(lx, actions, i, k, id, Abort, "GATEWAY_CANCEL_FAILED", code)
      else code == Some("UNSUPPORTED_CONTROL")
    case _ => code == Some("UNSUPPORTED_EVENT")
  }

  ghost predicate Replied(lx: Lexicon, actions: seq<Action>, i: nat, k: nat, d: Parsed, code: Option<string>)
    requires i <= k <= |actions|
  {
    Replies(lx, actions, i, k)
    == match code
       case None => []
       case Some(c) => [Outgoing(d.sessionId, d.flags, Failure(c, []), None)]
  }

  /** What has become of a frame in actions i to k, since the relay reader was delivered it in action i - 1. */
  ghost predicate Outcome(lx: Lexicon, actions: seq<Action>, i: nat, k: nat, frame: Bytes)
    requires i <= k <= |actions|
  {
    var parsed := ParseDataFrame(frame);
    if parsed.Err? then Replies(lx, actions, i, k) == []
    else exists code ::
           Course(lx, actions, i, k, parsed.value, code) && Replied(lx, actions, i, k, parsed.value, code)
  }

  // ----- where the relay reader is until then -----

  /** The event asks for this, and this is the code for its failure. */
  ghost predicate Asking(lx: Lexicon, d: Parsed, ask: Ask, failure: string) {
    && lx.decode(d.payload).Some?
    && match lx.decode(d.payload).value
       case UserMessage(content) =>
         lx.trim(content) != [] && ask == Agent(lx.trim(content)) && failure == "GATEWAY_SEND_FAILED"
       case ControlAction(action) => action == "stop" && ask == Abort && failure == "GATEWAY_CANCEL_FAILED"
       case _ => false
  }

  /** The first two turns have found the session open and the client ready. */
  ghost predicate Admitted(lx: Lexicon, actions: seq<Action>, i: nat, k: nat, d: Parsed)
    requires i <= k <= |actions|
  {
    var turns := Turns(lx, actions, i, k);
    && |turns| > 1
    && d.sessionId in After(lx, actions, turns[0]).table && After(lx, actions, turns[1]).ready
  }

  /** The third turn has tracked r, and nothing has become of it yet. */
  ghost predicate Pends(lx: Lexicon, actions: seq<Action>, i: nat, k: nat, d: Parsed, r: RequestId, failure: string)
    requires i <= k <= |actions|
  {
    var turns, n := Turns(lx, actions, i, k), After(lx, actions, k);
    && Admitted(lx, actions, i, k, d) && |turns| > 2
    && r == actions[turns[2]].newId && r !in After(lx, actions, turns[2]).tracked
    && r in n.tracked && n.tracked[r].sessionId == d.sessionId && n.tracked[r].ordinal == |n.handled|
    && Asking(lx, d, n.tracked[r].ask, failure)
    && r !in n.written && r !in n.rolledBack
  }

  /** One of the next three turns has failed. */
  ghost predicate Stuck(lx: Lexicon, actions: seq<Action>, i: nat, k: nat)
    requires i <= k <= |actions|
  {
    var turns := Turns(lx, actions, i, k);
    && |turns| > 3
    && (|| !After(lx, actions, turns[3]).ready
        || (|turns| > 4 && After(lx, actions, turns[4]).conn.None?)
        || (|turns| > 5 && !actions[turns[5]].ok))
  }

  ghost predicate Phase(lx: Lexicon, actions: seq<Action>, i: nat, k: nat, frame: Bytes, d: Parsed)
    requires i <= k <= |actions|
  {
    var turns := Turns(lx, actions, i, k);
    match After(lx, actions, k).reader
    case Idle => Outcome(lx, actions, i, k, frame)
    case Lookup(id, flags, event) =>
      && id == d.sessionId && flags == d.flags && lx.decode(d.payload) == Some(event)
      && turns == [] && Replies(lx, actions, i, k) == []
    case CheckReady(id, flags, event) =>
      && id == d.sessionId && flags == d.flags && lx.decode(d.payload) == Some(event)
      && |turns| == 1 && id in After(lx, actions, turns[0]).table && Replies(lx, actions, i, k) == []
    case Track(id, flags, ask, code) =>
      && id == d.sessionId && flags == d.flags && Asking(lx, d, ask, code)
      && |turns| == 2 && Admitted(lx, actions, i, k, d) && Replies(lx, actions, i, k) == []
    case WriteReady(id, flags, r, code) =>
      && id == d.sessionId && flags == d.flags && Pends(lx, actions, i, k, d, r, code)
      && |turns| == 3 && Replies(lx, actions, i, k) == []
    case WriteConn(id, flags, r, code) =>
      && id == d.sessionId && flags == d.flags && Pends(lx, actions, i, k, d, r, code)
      && |turns| == 4 && After(lx, actions, turns[3]).ready && Replies(lx, actions, i, k) == []
    case Write(id, flags, r, conn, code) =>
      && id == d.sessionId && flags == d.flags && Pends(lx, actions, i, k, d, r, code)
      && |turns| == 5 && After(lx, actions, turns[3]).ready && After(lx, actions, turns[4]).conn == Some(conn)
      && Replies(lx, actions, i, k) == []
    case Untrack(id, flags, r, code) =>
      && id == d.sessionId && flags == d.flags && Pends(lx, actions, i, k, d, r, code)
      && Stuck(lx, actions, i, k) && Replies(lx, actions, i, k) == []
    case Reply(id, flags, code) =>
      && id == d.sessionId && flags == d.flags && Course(lx, actions, i, k, d, Some(code))
      && (|turns| <= 2 || Stuck(lx, actions, i, k)) && Replies(lx, actions, i, k) == []
  }

  // ----- one step -----

  /** The part of the state that only the relay reader changes. */
  datatype ReaderView = ReaderView(
    reader: Reader, handled: seq<Bytes>, replies: nat,
    tracked: map<RequestId, Tracked>, written: map<RequestId, ConnId>, rolledBack: set<RequestId>)

  function View(n: Node): ReaderView {
    ReaderView(n.reader, n.handled, n.replies, n.tracked, n.written, n.rolledBack)
  }

  lemma OtherStep(lx: Lexicon, n: Node, a: Action)
    ensures a.Work? ==> View(Exec(lx, n, a)) == View(n)
    ensures !a.Work? ==> Exec(lx, n, a).gateway == n.gateway
  {
    hide GatewayStep, ReaderMoveOf, Apply;
    if a.Work? {
      if GatewayStep(lx, n, a).Some? {
        GatewayEdge(lx, n, a);
        GatewayAccess(n, GatewayStep(lx, n, a).value);
        ApplyTracking(n, GatewayStep(lx, n, a).value.access);
      }
    } else if ReaderMoveOf(lx, n, a).Some? {
      ApplyGateway(n, ReaderMoveOf(lx, n, a).value.access);
    }
  }

  /** What a turn does. */
  lemma TurnStep(lx: Lexicon, actions: seq<Action>, i: nat, k: nat, m: ReaderMove)
    requires i <= k < |actions| && actions[k].Read?
    requires ReaderStep(lx, After(lx, actions, k), actions[k].newId, actions[k].ok) == Some(m)
    ensures Turns(lx, actions, i, k + 1) == Turns(lx, actions, i, k) + [k]
    ensures After(lx, actions, k + 1) == PerformReader(After(lx, actions, k), m)
    ensures Replies(lx, actions, i, k + 1)
         == Replies(lx, actions, i, k) + if Sent(m.access).Some? then [Sent(m.access).value] else []
  {
    hide Run, After, ReaderStep, PerformReader, Sent;
    AfterStep(lx, actions, k);
  }

  /** What any other action does to the relay reader and its accounts, deliveries excepted. */
  ghost predicate Pauses(lx: Lexicon, actions: seq<Action>, i: nat, k: nat, n: nat)
    requires i <= k <= n <= |actions|
  {
    && Turns(lx, actions, i, n) == Turns(lx, actions, i, k)
    && View(After(lx, actions, n)) == View(After(lx, actions, k))
    && Replies(lx, actions, i, n) == Replies(lx, actions, i, k)
  }

  lemma OtherPauses(lx: Lexicon, actions: seq<Action>, i: nat, k: nat)
    requires i <= k < |actions| && !actions[k].Deliver? && !IsTurn(lx, After(lx, actions, k), actions[k])
    ensures Pauses(lx, actions, i, k, k + 1)
  {
    hide Run, After, GatewayStep, ReaderStep, Apply;
    AfterStep(lx, actions, k);
    OtherStep(lx, After(lx, actions, k), actions[k]);
  }

  lemma PhasePauses(lx: Lexicon, actions: seq<Action>, i: nat, k: nat, frame: Bytes, d: Parsed)
    requires i <= k < |actions| && Phase(lx, actions, i, k, frame, d) && Pauses(lx, actions, i, k, k + 1)
    ensures Phase(lx, actions, i, k + 1, frame, d)
  {
    hide Turns, Replies, After, Asking, ParseDataFrame;
    forall code, d | Course(lx, actions, i, k, d, code) ensures Course(lx, actions, i, k + 1, d, code) {
      CoursePauses(lx, actions, i, k, d, code);
    }
    hide Course;
  }

  lemma CoursePauses(lx: Lexicon, actions: seq<Action>, i: nat, k: nat, d: Parsed, code: Option<string>)
    requires i <= k < |actions| && Course(lx, actions, i, k, d, code) && Pauses(lx, actions, i, k, k + 1)
    ensures Course(lx, actions, i, k + 1, d, code)
  {
    hide Turns, Replies, After;
  }

  // ----- the turns, by where they are made -----

  lemma LookupTurn(lx: Lexicon, actions: seq<Action>, i: nat, k: nat, frame: Bytes, d: Parsed)
    requires i <= k < |actions| && Phase(lx, actions, i, k, frame, d)
    requires IsTurn(lx, After(lx, actions, k), actions[k]) && After(lx, actions, k).reader.Lookup?
    ensures Phase(lx, actions, i, k + 1, frame, d)
  {
    hide Turns, Replies, After, Outcome, Dispatched;
    TurnStep(lx, actions, i, k, ReaderStep(lx, After(lx, actions, k), actions[k].newId, actions[k].ok).value);
    assert Turns(lx, actions, i, k + 1) == [k];
  }

  lemma CheckReadyTurn(lx: Lexicon, actions: seq<Action>, i: nat, k: nat, frame: Bytes, d: Parsed)
    requires i <= k < |actions| && Phase(lx, actions, i, k, frame, d)
    requires IsTurn(lx, After(lx, actions, k), actions[k]) && After(lx, actions, k).reader.CheckReady?
    ensures Phase(lx, actions, i, k + 1, frame, d)
  {
    hide Turns, Replies, After, Outcome, Requested;
    TurnStep(lx, actions, i, k, ReaderStep(lx, After(lx, actions, k), actions[k].newId, actions[k].ok).value);
    assert Turns(lx, actions, i, k + 1) == [Turns(lx, actions, i, k)[0], k];
  }

  lemma TrackTurn(lx: Lexicon, actions: seq<Action>, i: nat, k: nat, frame: Bytes, d: Parsed)
    requires i <= k < |actions| && Phase(lx, actions, i, k, frame, d) && Inv(After(lx, actions, k))
    requires IsTurn(lx, After(lx, actions, k), actions[k]) && After(lx, actions, k).reader.Track?
    ensures Phase(lx, actions, i, k + 1, frame, d)
  {
    hide Turns, Replies, After, Outcome, Course, Asking, OrderInv, ResponseInv, AnsweredInv, RunsInv, HandshakeInv;
    TurnStep(lx, actions, i, k, ReaderStep(lx, After(lx, actions, k), actions[k].newId, actions[k].ok).value);
    var turns := Turns(lx, actions, i, k);
    assert Turns(lx, actions, i, k + 1) == [turns[0], turns[1], k];
  }

  lemma WriteTurn(lx: Lexicon, actions: seq<Action>, i: nat, k: nat, frame: Bytes, d: Parsed)
    requires i <= k < |actions| && Phase(lx, actions, i, k, frame, d)
    requires IsTurn(lx, After(lx, actions, k), actions[k])
    requires After(lx, actions, k).reader.WriteReady? || After(lx, actions, k).reader.WriteConn?
    ensures Phase(lx, actions, i, k + 1, frame, d)
  {
    hide Turns, Replies, After, Outcome, Course, Asking;
    TurnStep(lx, actions, i, k, ReaderStep(lx, After(lx, actions, k), actions[k].newId, actions[k].ok).value);
    var turns, next := Turns(lx, actions, i, k), Turns(lx, actions, i, k + 1);
    assert next[0] == turns[0] && next[1] == turns[1] && next[2] == turns[2] && next[|turns|] == k;
  }

  /** The request has had its fate, and with it the course of the frame is decided. */
  lemma RequestDecided(
    lx: Lexicon, actions: seq<Action>, i: nat, k: nat, d: Parsed, r: RequestId, failure: string, code: Option<string>)
    requires i <= k <= |actions| && Admitted(lx, actions, i, k, d) && |Turns(lx, actions, i, k)| > 3
    requires r == actions[Turns(lx, actions, i, k)[2]].newId
    requires r in After(lx, actions, k).tracked
    requires var ask := After(lx, actions, k).tracked[r].ask;
             Asking(lx, d, ask, failure) && Requested(lx, actions, i, k, d.sessionId, ask, failure, code)
    ensures Course(lx, actions, i, k, d, code)
  {
    hide Turns, Replies, After, Requested;
  }

  lemma SendTurn(lx: Lexicon, actions: seq<Action>, i: nat, k: nat, frame: Bytes, d: Parsed)
    requires i <= k < |actions| && Phase(lx, actions, i, k, frame, d) && ParseDataFrame(frame) == Ok(d)
    requires IsTurn(lx, After(lx, actions, k), actions[k]) && After(lx, actions, k).reader.Write?
    ensures Phase(lx, actions, i, k + 1, frame, d)
  {
    hide Turns, Replies, After, Course, Asking, ParseDataFrame;
    TurnStep(lx, actions, i, k, ReaderStep(lx, After(lx, actions, k), actions[k].newId, actions[k].ok).value);
    var turns, next := Turns(lx, actions, i, k), Turns(lx, actions, i, k + 1);
    assert forall n :: 0 <= n < 5 ==> next[n] == turns[n];
    assert next[5] == k;
    if actions[k].ok {
      var reader := After(lx, actions, k).reader;
      RequestDecided(lx, actions, i, k + 1, d, reader.request, reader.code, None);
      assert Replied(lx, actions, i, k + 1, d, None);
    }
  }

  lemma UntrackTurn(lx: Lexicon, actions: seq<Action>, i: nat, k: nat, frame: Bytes, d: Parsed)
    requires i <= k < |actions| && Phase(lx, actions, i, k, frame, d)
    requires IsTurn(lx, After(lx, actions, k), actions[k]) && After(lx, actions, k).reader.Untrack?
    ensures Phase(lx, actions, i, k + 1, frame, d)
  {
    hide Turns, Replies, After, Course, Asking, Outcome;
    TurnStep(lx, actions, i, k, ReaderStep(lx, After(lx, actions, k), actions[k].newId, actions[k].ok).value);
    var turns, next, reader := Turns(lx, actions, i, k), Turns(lx, actions, i, k + 1), After(lx, actions, k).reader;
    assert forall n :: 0 <= n < |turns| ==> next[n] == turns[n];
    assert !GetsThrough(lx, actions, i, k + 1) by { StuckStays(lx, actions, i, k); }
    RequestDecided(lx, actions, i, k + 1, d, reader.request, reader.code, Some(reader.code));
  }

  lemma StuckStays(lx: Lexicon, actions: seq<Action>, i: nat, k: nat)
    requires i <= k < |actions| && Stuck(lx, actions, i, k)
    requires Turns(lx, actions, i, k) <= Turns(lx, actions, i, k + 1)
    ensures !GetsThrough(lx, actions, i, k + 1)
  {
    hide Turns, After;
  }

  lemma ReplyTurn(lx: Lexicon, actions: seq<Action>, i: nat, k: nat, frame: Bytes, d: Parsed)
    requires i <= k < |actions| && Phase(lx, actions, i, k, frame, d) && ParseDataFrame(frame) == Ok(d)
    requires IsTurn(lx, After(lx, actions, k), actions[k]) && After(lx, actions, k).reader.Reply?
    ensures Phase(lx, actions, i, k + 1, frame, d)
  {
    hide Turns, Replies, After, Course, ParseDataFrame;
    var code := After(lx, actions, k).reader.code;
    TurnStep(lx, actions, i, k, ReaderStep(lx, After(lx, actions, k), actions[k].newId, actions[k].ok).value);
    assert !GetsThrough(lx, actions, i, k + 1) by {
      if |Turns(lx, actions, i, k)| > 2 {
        StuckStays(lx, actions, i, k);
      }
    }
    CourseStays(lx, actions, i, k, d, code);
    assert Replied(lx, actions, i, k + 1, d, Some(code));
  }

  lemma CourseStays(lx: Lexicon, actions: seq<Action>, i: nat, k: nat, d: Parsed, code: string)
    requires i <= k < |actions| && Course(lx, actions, i, k, d, Some(code))
    requires Turns(lx, actions, i, k) <= Turns(lx, actions, i, k + 1)
    requires !GetsThrough(lx, actions, i, k + 1)
    requires var v, w := View(After(lx, actions, k)), View(After(lx, actions, k + 1));
             w == v.(reader := w.reader, replies := w.replies)
    ensures Course(lx, actions, i, k + 1, d, Some(code))
  {
    hide Turns, After, GetsThrough;
  }

  lemma PhaseStep(lx: Lexicon, actions: seq<Action>, i: nat, k: nat, frame: Bytes, d: Parsed)
    requires i <= k < |actions| && Phase(lx, actions, i, k, frame, d) && ParseDataFrame(frame) == Ok(d)
    requires !actions[k].Deliver?
    ensures Phase(lx, actions, i, k + 1, frame, d)
  {
    if !IsTurn(lx, After(lx, actions, k), actions[k]) {
      OtherPauses(lx, actions, i, k);
      PhasePauses(lx, actions, i, k, frame, d);
    } else {
      AfterInv(lx, actions, k);
      match After(lx, actions, k).reader {
        case Lookup(_, _, _) => LookupTurn(lx, actions, i, k, frame, d);
        case CheckReady(_, _, _) => CheckReadyTurn(lx, actions, i, k, frame, d);
        case Track(_, _, _, _) => TrackTurn(lx, actions, i, k, frame, d);
        case WriteReady(_, _, _, _) => WriteTurn(lx, actions, i, k, frame, d);
        case WriteConn(_, _, _, _) => WriteTurn(lx, actions, i, k, frame, d);
        case Write(_, _, _, _, _) => SendTurn(lx, actions, i, k, frame, d);
        case Untrack(_, _, _, _) => UntrackTurn(lx, actions, i, k, frame, d);
        case Reply(_, _, _) => ReplyTurn(lx, actions, i, k, frame, d);
      }
    }
  }

  /** The relay reader is delivered nothing in actions i to k. */
  ghost predicate DeliversNothing(actions: seq<Action>, i: nat, k: nat)
    requires i <= k <= |actions|
  {
    forall j :: i <= j < k ==> !actions[j].Deliver?
  }

  lemma {:induction false} PhaseHolds(lx: Lexicon, actions: seq<Action>, i: nat, k: nat, frame: Bytes, d: Parsed)
    requires i <= k <= |actions| && DeliversNothing(actions, i, k) && ParseDataFrame(frame) == Ok(d)
    requires Phase(lx, actions, i, i, frame, d)
    ensures Phase(lx, actions, i, k, frame, d)
    decreases k
  {
    hide Phase, After, ParseDataFrame;
    if k > i {
      PhaseHolds(lx, actions, i, k - 1, frame, d);
      PhaseStep(lx, actions, i, k - 1, frame, d);
    }
  }

  lemma {:induction false} IdleWaits(lx: Lexicon, actions: seq<Action>, i: nat, k: nat)
    requires i <= k <= |actions| && DeliversNothing(actions, i, k) && After(lx, actions, i).reader.Idle?
    ensures After(lx, actions, k).reader.Idle? && Replies(lx, actions, i, k) == []
    decreases k
  {
    hide After;
    if k > i {
      IdleWaits(lx, actions, i, k - 1);
      OtherPauses(lx, actions, i, k - 1);
    }
  }

  /** Where the relay reader is right after it has been delivered the frame. */
  lemma PhaseStarts(lx: Lexicon, actions: seq<Action>, i: nat, frame: Bytes)
    requires i <= |actions| && After(lx, actions, i).reader == OnDelivery(lx, Frame(frame)).next
    ensures ParseDataFrame(frame).Ok? ==> Phase(lx, actions, i, i, frame, ParseDataFrame(frame).value)
    ensures ParseDataFrame(frame).Err? ==> After(lx, actions, i).reader.Idle?
  {
    hide After, ParseDataFrame;
  }

  /** In every run, for every frame that the relay reader is delivered: once the reader is idle again, the
      frame has had exactly this outcome, whatever the gateway reader did meanwhile. */
  lemma OutcomeOfFrame(lx: Lexicon, actions: seq<Action>, i: nat, k: nat, frame: Bytes)
    requires i < k <= |actions| && After(lx, actions, i).reader.Idle? && actions[i] == Deliver(Frame(frame))
    requires DeliversNothing(actions, i + 1, k) && After(lx, actions, k).reader.Idle?
    ensures Outcome(lx, actions, i + 1, k, frame)
  {
    hide Run, After, Exec, ParseDataFrame, OnDelivery, Apply;
    AfterStep(lx, actions, i);
    DeliveryNext(lx, After(lx, actions, i), Frame(frame));
    FrameDecided(lx, actions, i + 1, k, frame);
  }

  lemma DeliveryNext(lx: Lexicon, n: Node, d: Delivery)
    requires n.reader.Idle?
    ensures Exec(lx, n, Deliver(d)).reader == OnDelivery(lx, d).next
  {
    hide OnDelivery;
  }

  lemma FrameDecided(lx: Lexicon, actions: seq<Action>, i: nat, k: nat, frame: Bytes)
    requires i <= k <= |actions| && After(lx, actions, i).reader == OnDelivery(lx, Frame(frame)).next
    requires DeliversNothing(actions, i, k) && After(lx, actions, k).reader.Idle?
    ensures Outcome(lx, actions, i, k, frame)
  {
    hide After, ParseDataFrame, OnDelivery, Course, Replied, Turns;
    PhaseStarts(lx, actions, i, frame);
    if ParseDataFrame(frame).Ok? {
      PhaseHolds(lx, actions, i, k, frame, ParseDataFrame(frame).value);
    } else {
      IdleWaits(lx, actions, i, k);
    }
  }
}
