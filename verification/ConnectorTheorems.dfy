/** What holds in every run of the connector, for every interleaving of its two goroutines. */
module ConnectorTheorems {
  import opened Protocol
  import opened Events
  import opened ConnectorSystem
  import opened ConnectorInvariants

  function After(lx: Lexicon, actions: seq<Action>, n: nat): Node
    requires n <= |actions|
  {
    Run(lx, Start, actions[..n])
  }

  lemma {:induction false} AfterInv(lx: Lexicon, actions: seq<Action>, n: nat)
    requires n <= |actions|
    ensures Inv(After(lx, actions, n))
    decreases n
  {
    hide Run, Exec;
    if n == 0 {
      AfterNone(lx, actions);
    } else {
      AfterInv(lx, actions, n - 1);
      AfterStep(lx, actions, n - 1);
      ExecInv(lx, After(lx, actions, n - 1), actions[n - 1]);
    }
  }

  lemma AfterNone(lx: Lexicon, actions: seq<Action>)
    ensures After(lx, actions, 0) == Start
  {
  }

  lemma AfterStep(lx: Lexicon, actions: seq<Action>, n: nat)
    requires n < |actions|
    ensures After(lx, actions, n + 1) == Exec(lx, After(lx, actions, n), actions[n])
  {
    hide Exec;
    assert actions[..n + 1][..n] == actions[..n];
  }

  // ----- handshake -----

  /** Whenever the client reports ready, it has a connection, and that very connection has been
      challenged and accepted, across any number of failed attempts and reconnects. */
  lemma ReadyIsAccepted(lx: Lexicon, actions: seq<Action>)
    requires After(lx, actions, |actions|).ready
    ensures var n := After(lx, actions, |actions|);
            n.conn.Some? && n.conn.value in n.challenged && n.conn.value in n.accepted
  {
    hide Run, Exec;
    AfterInv(lx, actions, |actions|);
  }

  // ----- requests and responses -----

  /** The requests that got their terminal event from a response. */
  ghost function Finished(n: Node): set<RequestId> {
    set r | r in n.tracked && n.answered[r] == 1
  }

  lemma AnsweredIsFinished(n: Node)
    requires Inv(n)
    ensures n.answered == multiset(Finished(n))
  {
    forall r ensures n.answered[r] == multiset(Finished(n))[r] {
      assert Answered(n, r);
    }
  }

  /** Requests that were cleared with their session before any response to them was terminal. */
  ghost function Silenced(n: Node): set<RequestId> {
    set r | r in n.tracked && r !in n.rolledBack && r !in n.requests && n.answered[r] == 0
  }

  /** The request, if any, that has its terminal event and is cleared in the gateway reader's next
      accesses. */
  ghost function InBetween(n: Node): set<RequestId> {
    set r | r in n.requests && Clearing(n.gateway, r)
  }

  lemma UnionCardinality<T>(a: set<T>, b: set<T>)
    ensures |a| + |b| == |a + b| + |a * b|
  {
    assert a + b == a + (b - a) && b == (b - a) + a * b;
  }

  /** Where each tracked request is counted. */
  lemma RequestsSplit(n: Node)
    requires Inv(n)
    ensures Finished(n) + n.requests.Keys + Silenced(n) == n.tracked.Keys - n.rolledBack
    ensures Finished(n) * n.requests.Keys == InBetween(n)
    ensures (Finished(n) + n.requests.Keys) * Silenced(n) == {}
    ensures n.rolledBack <= n.tracked.Keys
  {
    hide HandshakeInv, OrderInv, OriginInv, FramesInv, RunsInv, ResponseInv;
    forall r
      ensures r in n.requests || r in n.rolledBack ==> r in n.tracked
      ensures r in n.tracked && r in n.requests ==> r !in n.rolledBack
      ensures n.answered[r] <= 1
      ensures r in n.tracked && n.answered[r] == 1 ==>
                r !in n.rolledBack && (r in n.requests ==> Clearing(n.gateway, r))
    {
      assert Answered(n, r);
      if r in n.tracked {
        assert Fate(n, r);
      }
    }
    ClearingIsFinished(n);
  }

  lemma ClearingIsFinished(n: Node)
    requires Inv(n)
    ensures forall r :: r in n.requests && Clearing(n.gateway, r) ==> r in n.tracked && n.answered[r] == 1
  {
    hide HandshakeInv, OrderInv, OriginInv, FramesInv, RunsInv, AnsweredInv;
  }

  lemma InBetweenIsOne(n: Node)
    ensures |InBetween(n)| == if exists r :: r in n.requests && Clearing(n.gateway, r) then 1 else 0
  {
    if r :| r in n.requests && Clearing(n.gateway, r) {
      assert InBetween(n) == {r};
    } else {
      assert InBetween(n) == {};
    }
  }

  lemma Accounts(n: Node)
    requires Inv(n)
    ensures |n.answered| + |n.requests| + |Silenced(n)| == |n.tracked| - |n.rolledBack| + |InBetween(n)|
  {
    hide Inv, Finished, Silenced, InBetween;
    AnsweredIsFinished(n);
    RequestsSplit(n);
    UnionCardinality(Finished(n), n.requests.Keys);
    UnionCardinality(Finished(n) + n.requests.Keys, Silenced(n));
    UnionCardinality(n.tracked.Keys - n.rolledBack, n.rolledBack);
    assert (n.tracked.Keys - n.rolledBack) + n.rolledBack == n.tracked.Keys;
    assert (n.tracked.Keys - n.rolledBack) * n.rolledBack == {};
  }

  /** Conservation of requests, in every run: each request that was tracked and not rolled back is
      either still tracked, or got its terminal event by a response, or was silenced by a clear. Only a
      request between its terminal event and the clear that follows is counted twice. */
  lemma ResponsesAccounted(lx: Lexicon, actions: seq<Action>)
    ensures var n := After(lx, actions, |actions|);
            var inBetween := if exists r :: r in n.requests && Clearing(n.gateway, r) then 1 else 0;
            |n.answered| + |n.requests| + |Silenced(n)| == |n.tracked| - |n.rolledBack| + inBetween
  {
    hide Run, Exec, Inv, Silenced;
    AfterInv(lx, actions, |actions|);
    Accounts(After(lx, actions, |actions|));
    InBetweenIsOne(After(lx, actions, |actions|));
  }

  /** The bound without the correction holds exactly when no request is between its terminal event and
      its clear, or some request has been silenced. */
  lemma SimpleBoundIff(lx: Lexicon, actions: seq<Action>)
    ensures var n := After(lx, actions, |actions|);
            |n.answered| + |n.requests| <= |n.tracked| - |n.rolledBack| <==>
            (forall r :: r in n.requests ==> !Clearing(n.gateway, r)) || Silenced(n) != {}
  {
    hide Run, Exec, Inv, Silenced;
    ResponsesAccounted(lx, actions);
    assert Silenced(After(lx, actions, |actions|)) != {} <==> |Silenced(After(lx, actions, |actions|))| > 0;
  }

  /** Each request id yields at most one terminal event by the response path. */
  lemma OneTerminalPerRequest(lx: Lexicon, actions: seq<Action>, r: RequestId)
    ensures After(lx, actions, |actions|).answered[r] <= 1
  {
    hide Run, Exec;
    AfterInv(lx, actions, |actions|);
    assert Answered(After(lx, actions, |actions|), r);
  }

  /** Every run belongs to a session that still has a tracked request. */
  lemma RunsHaveRequests(lx: Lexicon, actions: seq<Action>)
    ensures var n := After(lx, actions, |actions|); n.runs.Values <= n.requests.Values
  {
    hide Run, Exec;
    var n := After(lx, actions, |actions|);
    AfterInv(lx, actions, |actions|);
    forall id | id in n.runs.Values ensures id in n.requests.Values {
      var x :| x in n.runs && n.runs[x] == id;
      assert HasRequest(n, n.runs[x]);
    }
  }

  /** lastSessionID is the session of the most recently tracked request, rolled back or not. */
  lemma LastIsLatest(lx: Lexicon, actions: seq<Action>)
    ensures var n := After(lx, actions, |actions|);
            && (forall r :: r in n.order ==> r in n.tracked)
            && (n.order == [] ==> n.last == [])
            && (n.order != [] ==> n.last == n.tracked[n.order[|n.order| - 1]].sessionId)
  {
    hide Run, Exec;
    AfterInv(lx, actions, |actions|);
  }

  /** Every request ever tracked is for the session that the frame which caused it names, and a
      request still tracked is tracked for that session. */
  lemma RequestsComeFromFrames(lx: Lexicon, actions: seq<Action>, r: RequestId)
    requires r in After(lx, actions, |actions|).tracked
    ensures var n := After(lx, actions, |actions|);
            && 1 <= n.tracked[r].ordinal <= |n.handled|
            && FrameOf(n.handled[n.tracked[r].ordinal - 1], n.tracked[r].sessionId)
            && (r in n.requests ==> n.requests[r] == n.tracked[r].sessionId)
  {
    hide Run, Exec;
    AfterInv(lx, actions, |actions|);
    assert Origin(After(lx, actions, |actions|), r) && Fate(After(lx, actions, |actions|), r);
  }

  /** The clear after a terminal event is the end of its batch: nothing is emitted after it, so a
      batch clears at most once. */
  lemma NothingAfterClear(lx: Lexicon, actions: seq<Action>)
    ensures var n := After(lx, actions, |actions|);
            && (n.gateway.Clear? ==> n.gateway.batch == [])
            && (n.gateway.Forward? ==>
                  n.gateway.batch != [] && (IsTerminal(n.gateway.batch[0]) ==> |n.gateway.batch| == 1))
  {
    hide Run, Exec;
    AfterInv(lx, actions, |actions|);
  }

  /** Every handled frame has exactly one outcome: an error reply or a written request. */
  lemma OneOutcomePerFrame(lx: Lexicon, actions: seq<Action>)
    ensures var n := After(lx, actions, |actions|);
            |n.handled| == n.replies + |n.written| + if n.reader.Idle? then 0 else 1
  {
    hide Run, Exec;
    AfterInv(lx, actions, |actions|);
  }

  lemma OutputCause(lx: Lexicon, n: Node, a: Action)
    requires Inv(n) && Output(lx, n, a).Some? && Output(lx, n, a).value.cause.Some?
    ensures var o := Output(lx, n, a).value; Answering(n, o.cause.value, o.sessionId)
  {
    if a.Work? {
      GatewayEdge(lx, n, a);
    } else {
      ReaderMoveEdge(lx, n, a);
    }
  }

  /** A frame sent because of a response goes to the session of the request it answers. */
  lemma ResponseGoesToAsker(lx: Lexicon, actions: seq<Action>, a: Action, r: RequestId)
    requires var n := After(lx, actions, |actions|);
             Output(lx, n, a).Some? && Output(lx, n, a).value.cause == Some(r)
    ensures var n := After(lx, actions, |actions|);
            r in n.written && r in n.tracked && Output(lx, n, a).value.sessionId == n.tracked[r].sessionId
  {
    hide Run, Exec;
    var n := After(lx, actions, |actions|);
    AfterInv(lx, actions, |actions|);
    OutputCause(lx, n, a);
    assert Fate(n, r);
  }

  // ----- what a clear does to later responses -----

  /** Action i clears the tracks of the session. */
  ghost predicate ClearsAt(lx: Lexicon, actions: seq<Action>, i: nat, id: SessionId) {
    i < |actions| && actions[i].Work? && Clears(After(lx, actions, i).gateway, id)
  }

  /** Action i tracks the request. */
  ghost predicate TracksAt(lx: Lexicon, actions: seq<Action>, i: nat, r: RequestId) {
    i < |actions| && r !in After(lx, actions, i).tracked && r in After(lx, actions, i + 1).tracked
  }

  /** The gateway reader clears the session. */
  ghost predicate Clears(g: Gateway, id: SessionId) {
    g.Clear? && g.sessionId == id
  }

  /** What one step can do to one request: track it, roll it back, or clear its session. */
  ghost predicate RequestChange(n: Node, t: Node, clears: bool, r: RequestId) {
    && (r in n.tracked ==> r in t.tracked && t.tracked[r] == n.tracked[r])
    && (r in n.written ==> r in t.written)
    && (r in n.rolledBack ==> r in t.rolledBack)
    && (r in n.tracked && r !in n.requests ==> r !in t.requests && t.answered[r] == n.answered[r])
    && (r in n.requests && clears ==> r !in t.requests)
    && (r in n.requests && !clears ==> r in t.requests || r in t.rolledBack)
    && (r !in n.tracked && r in t.tracked ==> r in t.requests)
  }

  lemma GatewayRequestStep(n: Node, m: GatewayMove, r: RequestId)
    requires Inv(n) && Edge(n, m)
    ensures RequestChange(n, PerformGateway(n, m), r in n.requests && Clears(n.gateway, n.requests[r]), r)
  {
    hide Apply;
    GatewayAccess(n, m);
    ApplyTracking(n, m.access);
  }

  lemma ReaderRequestStep(n: Node, m: ReaderMove, r: RequestId)
    requires Inv(n) && ReaderEdge(n, m) && (OfReader(m.access) || m.access.Observe?)
    ensures RequestChange(n, PerformReader(n, m), false, r)
  {
    hide Apply, ReaderEdge, OrderInv, ResponseInv, AnsweredInv, RunsInv, FramesInv, OriginInv, HandshakeInv;
    ApplyReading(n, m.access);
    if m.access.TrackRequest? {
      TracksNew(n, m);
    }
  }

  lemma RequestStep(lx: Lexicon, n: Node, a: Action, r: RequestId)
    requires Inv(n)
    ensures RequestChange(n, Exec(lx, n, a), a.Work? && r in n.requests && Clears(n.gateway, n.requests[r]), r)
  {
    if a.Work? {
      if GatewayStep(lx, n, a).Some? {
        GatewayEdge(lx, n, a);
        GatewayRequestStep(n, GatewayStep(lx, n, a).value, r);
      }
    } else if ReaderMoveOf(lx, n, a).Some? {
      ReaderMoveEdge(lx, n, a);
      ReaderRequestStep(n, ReaderMoveOf(lx, n, a).value, r);
    }
  }

  /** A request that is no longer tracked never is again, and gets no further terminal event. */
  lemma {:induction false} UntrackedForever(lx: Lexicon, actions: seq<Action>, m: nat, n: nat, r: RequestId)
    requires m <= n <= |actions| && r in After(lx, actions, m).tracked && r !in After(lx, actions, m).requests
    ensures r in After(lx, actions, n).tracked && r !in After(lx, actions, n).requests
    ensures After(lx, actions, n).answered[r] == After(lx, actions, m).answered[r]
    decreases n
  {
    hide Run, Exec, Inv, TracksAt;
    if m < n {
      UntrackedForever(lx, actions, m, n - 1, r);
      AfterInv(lx, actions, n - 1);
      AfterStep(lx, actions, n - 1);
      RequestStep(lx, After(lx, actions, n - 1), actions[n - 1], r);
    }
  }

  /** Once a session's tracks are cleared, no response to a request of that session tracked
      before the clear makes the connector send anything, whenever it arrives. */
  lemma ClearedStaysSilent(lx: Lexicon, actions: seq<Action>, m: nat, n: nat, r: RequestId)
    requires m < n < |actions| && r in After(lx, actions, m).tracked
    requires ClearsAt(lx, actions, m, After(lx, actions, m).tracked[r].sessionId)
    ensures var o := Output(lx, After(lx, actions, n), actions[n]); o.Some? ==> o.value.cause != Some(r)
    ensures After(lx, actions, n).answered[r] == After(lx, actions, m + 1).answered[r]
  {
    hide Run, Exec;
    var s := After(lx, actions, m);
    AfterInv(lx, actions, m);
    AfterStep(lx, actions, m);
    assert Fate(s, r);
    RequestStep(lx, s, actions[m], r);
    UntrackedForever(lx, actions, m + 1, n, r);
    AfterInv(lx, actions, n);
    var o := Output(lx, After(lx, actions, n), actions[n]);
    if o.Some? && o.value.cause.Some? {
      OutputCause(lx, After(lx, actions, n), actions[n]);
    }
  }

  lemma TrackedStep(lx: Lexicon, actions: seq<Action>, n: nat, r: RequestId)
    requires n < |actions| && r in After(lx, actions, n).tracked
    ensures var s, t := After(lx, actions, n), After(lx, actions, n + 1);
            && r in t.tracked && t.tracked[r] == s.tracked[r]
            && (r in s.rolledBack ==> r in t.rolledBack)
            && (r in t.requests <==>
                r in s.requests && r !in t.rolledBack && !ClearsAt(lx, actions, n, s.tracked[r].sessionId))
  {
    hide Run, Exec;
    AfterInv(lx, actions, n);
    AfterInv(lx, actions, n + 1);
    AfterStep(lx, actions, n);
    RequestStep(lx, After(lx, actions, n), actions[n], r);
    assert Fate(After(lx, actions, n), r) && Fate(After(lx, actions, n + 1), r);
  }

  lemma FirstTracked(lx: Lexicon, actions: seq<Action>, i: nat, r: RequestId)
    requires TracksAt(lx, actions, i, r)
    ensures r in After(lx, actions, i + 1).tracked
    ensures r in After(lx, actions, i + 1).requests && r !in After(lx, actions, i + 1).rolledBack
  {
    hide Run, Exec;
    AfterInv(lx, actions, i);
    AfterInv(lx, actions, i + 1);
    AfterStep(lx, actions, i);
    RequestStep(lx, After(lx, actions, i), actions[i], r);
    assert Fate(After(lx, actions, i + 1), r);
  }

  /** Exactly when a request that was not rolled back is still tracked: no clear of its session
      has run since it was tracked. A clear thus also takes requests that were sent between the
      terminal event and the clear itself. */
  lemma {:induction false} TrackedUntilCleared(lx: Lexicon, actions: seq<Action>, i: nat, n: nat, r: RequestId)
    requires i < n <= |actions| && TracksAt(lx, actions, i, r)
    ensures var t := After(lx, actions, n);
            && r in t.tracked
            && (r in t.requests <==>
                r !in t.rolledBack && forall j :: i < j < n ==> !ClearsAt(lx, actions, j, t.tracked[r].sessionId))
    decreases n
  {
    hide Run, After, ClearsAt, TracksAt, Exec;
    if i < n - 1 {
      TrackedUntilCleared(lx, actions, i, n - 1, r);
      TrackedStep(lx, actions, n - 1, r);
    } else {
      FirstTracked(lx, actions, i, r);
    }
  }
}
