/** The handshake with the gateway in terms of the messages it consists of: which ones let the client go on,
    which ones end the attempt, and what a client that is ready has been through. */
module ConnectorHandshake {
  import opened Protocol
  import opened Events
  import opened EventLaws
  import opened ConnectorSystem
  import opened ConnectorInvariants
  import opened ConnectorTheorems

  // ----- messages -----

  /** The gateway's challenge. */
  predicate IsChallenge(m: Incoming) {
    m.Message? && m.env.kind.EventKind? && m.env.event == "connect.challenge"
  }

  /** The gateway's consent to the connect request with this id. */
  predicate IsConsent(m: Incoming, request: RequestId) {
    m.Message? && m.env.kind.ResponseKind? && m.env.id == request && m.env.ok == Some(true)
  }

  /** An event whose name says that it is an error. */
  ghost predicate IsErrorEvent(lx: Lexicon, m: Incoming) {
    m.Message? && m.env.kind.EventKind? && NameHas(lx, m.env, "error")
  }

  /** The message gives a lack of permission as its reason. */
  ghost predicate LacksPermission(lx: Lexicon, m: Incoming)
    requires m.Message?
  {
    var reason := lx.lower(ExtractErrorMessage(m.env));
    Occurs(reason, "unauthorized") || Occurs(reason, "forbidden")
  }

  /** What the client waits for: the challenge, or the consent to its own connect request. */
  ghost predicate Passes(request: Option<RequestId>, m: Incoming) {
    match request
    case None => IsChallenge(m)
    case Some(r) => IsConsent(m, r)
  }

  /** What ends the attempt. Before the challenge that is an error event or any response that is a failure;
      after it, an error event or any response to the connect request that is not a consent. */
  ghost predicate Refuses(lx: Lexicon, request: Option<RequestId>, m: Incoming) {
    && !Passes(request, m)
    && (|| m.ReadError? || IsErrorEvent(lx, m)
        || (m.Message? && m.env.kind.ResponseKind?
            && match request case None => m.env.ok == Some(false) case Some(r) => m.env.id == r))
  }

  /** Such an end is final for a lack of permission; an error event before the challenge never is. */
  ghost predicate IsFinal(lx: Lexicon, request: Option<RequestId>, m: Incoming) {
    m.Message? && LacksPermission(lx, m) && (request.Some? || m.env.kind.ResponseKind?)
  }

  lemma UnauthorizedMeans(lx: Lexicon, m: Incoming)
    requires m.Message?
    ensures IsUnauthorized(lx, ExtractErrorMessage(m.env)) <==> LacksPermission(lx, m)
    ensures IsErrorEventName(Normal(lx, m.env.event)) <==> NameHas(lx, m.env, "error")
  {
    hide Contains, ExtractErrorMessage;
    ContainsMeans(lx.lower(ExtractErrorMessage(m.env)), "unauthorized");
    ContainsMeans(lx.lower(ExtractErrorMessage(m.env)), "forbidden");
    ContainsMeans(Normal(lx, m.env.event), "error");
  }

  /** The verdict of the handshake on one message. */
  lemma VerdictMeans(lx: Lexicon, g: Gateway, m: Incoming)
    requires g.AwaitChallenge? || g.AwaitAccept?
    ensures var request := if g.AwaitAccept? then Some(g.request) else None;
            HandshakeVerdict(lx, g, m)
            == if Passes(request, m) then Pass
            else if Refuses(lx, request, m) then Fail(IsFinal(lx, request, m)) else Wait
  {
    hide ExtractErrorMessage, IsUnauthorized, IsErrorEventName, NameHas, LacksPermission;
    if m.Message? {
      UnauthorizedMeans(lx, m);
    }
  }

  // ----- what a connection has been through -----

  /** In action i the challenge is read from this connection. */
  ghost predicate ChallengedAt(lx: Lexicon, actions: seq<Action>, i: nat, c: ConnId) {
    && i < |actions| && actions[i].Work? && After(lx, actions, i).gateway == AwaitChallenge(c)
    && IsChallenge(actions[i].incoming)
  }

  /** In action i the connect request is written to it. */
  ghost predicate RequestedAt(lx: Lexicon, actions: seq<Action>, i: nat, c: ConnId, request: RequestId) {
    && i < |actions| && actions[i].Work? && After(lx, actions, i).gateway == SendConnect(c)
    && actions[i].ok && actions[i].newId == request
  }

  /** In action i the consent to that request is read from it. */
  ghost predicate ConsentedAt(lx: Lexicon, actions: seq<Action>, i: nat, c: ConnId, request: RequestId) {
    && i < |actions| && actions[i].Work? && After(lx, actions, i).gateway == AwaitAccept(c, request)
    && IsConsent(actions[i].incoming, request)
  }

  lemma PassMeans(g: Gateway, m: Incoming)
    requires g.AwaitChallenge? || g.AwaitAccept?
    ensures Passes(if g.AwaitAccept? then Some(g.request) else None, m) <==>
            if g.AwaitAccept? then IsConsent(m, g.request) else IsChallenge(m)
  {
  }

  /** What one step adds to the two histories, and where the connect request is waited for. */
  lemma HandshakeMove(lx: Lexicon, n: Node, a: Action, c: ConnId)
    ensures var t := Exec(lx, n, a);
            && (c in t.challenged && c !in n.challenged ==>
                  a.Work? && n.gateway == AwaitChallenge(c) && IsChallenge(a.incoming))
            && (c in t.accepted && c !in n.accepted ==>
                  && a.Work? && n.gateway.AwaitAccept? && n.gateway.conn == c
                  && IsConsent(a.incoming, n.gateway.request))
            && (t.gateway.AwaitAccept? ==>
                  || t.gateway == n.gateway
                  || (a.Work? && n.gateway == SendConnect(t.gateway.conn) && a.ok && a.newId == t.gateway.request))
  {
    hide ServeStep, ResolveStep, BatchStep, ReaderMoveOf, Apply, HandshakeVerdict, Passes, Refuses, IsFinal;
    if a.Work? && GatewayStep(lx, n, a).Some? {
      ApplyConnection(n, GatewayStep(lx, n, a).value.access);
      if n.gateway.AwaitChallenge? || n.gateway.AwaitAccept? {
        VerdictMeans(lx, n.gateway, a.incoming);
        PassMeans(n.gateway, a.incoming);
      } else {
        GatewayEdge(lx, n, a);
      }
    } else if !a.Work? && ReaderMoveOf(lx, n, a).Some? {
      ReaderMoveEdge(lx, n, a);
      ApplyConnection(n, ReaderMoveOf(lx, n, a).value.access);
      ApplyGateway(n, ReaderMoveOf(lx, n, a).value.access);
    }
  }

  lemma {:induction false} WasChallenged(lx: Lexicon, actions: seq<Action>, k: nat, c: ConnId) returns (i: nat)
    requires k <= |actions| && c in After(lx, actions, k).challenged
    ensures i < k && ChallengedAt(lx, actions, i, c)
    decreases k
  {
    hide Run, Exec;
    if k == 0 {
      AfterNone(lx, actions);
      assert false;
    } else {
      AfterStep(lx, actions, k - 1);
      HandshakeMove(lx, After(lx, actions, k - 1), actions[k - 1], c);
      if c in After(lx, actions, k - 1).challenged {
        i := WasChallenged(lx, actions, k - 1, c);
      } else {
        i := k - 1;
      }
    }
  }

  lemma {:induction false} WasRequested(lx: Lexicon, actions: seq<Action>, k: nat) returns (i: nat)
    requires k <= |actions| && After(lx, actions, k).gateway.AwaitAccept?
    ensures var g := After(lx, actions, k).gateway; i < k && RequestedAt(lx, actions, i, g.conn, g.request)
    decreases k
  {
    hide Run, Exec;
    if k == 0 {
      AfterNone(lx, actions);
      assert false;
    } else {
      AfterStep(lx, actions, k - 1);
      HandshakeMove(lx, After(lx, actions, k - 1), actions[k - 1], 0);
      if After(lx, actions, k - 1).gateway == After(lx, actions, k).gateway {
        i := WasRequested(lx, actions, k - 1);
      } else {
        i := k - 1;
      }
    }
  }

  lemma {:induction false} WasConsented(lx: Lexicon, actions: seq<Action>, k: nat, c: ConnId)
    returns (i: nat, request: RequestId)
    requires k <= |actions| && c in After(lx, actions, k).accepted
    ensures i < k && ConsentedAt(lx, actions, i, c, request)
    decreases k
  {
    hide Run, Exec;
    if k == 0 {
      AfterNone(lx, actions);
      assert false;
    } else {
      AfterStep(lx, actions, k - 1);
      HandshakeMove(lx, After(lx, actions, k - 1), actions[k - 1], c);
      if c in After(lx, actions, k - 1).accepted {
        i, request := WasConsented(lx, actions, k - 1, c);
      } else {
        i, request := k - 1, After(lx, actions, k - 1).gateway.request;
      }
    }
  }

  /** In every run: an accepted connection is one from which the challenge was read, to which the connect
      request was then written, and from which the consent to this very request was then read. */
  lemma AcceptedMeans(lx: Lexicon, actions: seq<Action>, k: nat, c: ConnId)
    returns (h: nat, r: nat, i: nat, request: RequestId)
    requires k <= |actions| && c in After(lx, actions, k).accepted
    ensures h < r < i < k
    ensures ChallengedAt(lx, actions, h, c) && RequestedAt(lx, actions, r, c, request)
    ensures ConsentedAt(lx, actions, i, c, request)
  {
    hide Run, Exec;
    i, request := WasConsented(lx, actions, k, c);
    r := WasRequested(lx, actions, i);
    AfterInv(lx, actions, r);
    h := WasChallenged(lx, actions, r, c);
  }

  /** Whenever the client is ready, its connection has been through this. */
  lemma ReadyMeans(lx: Lexicon, actions: seq<Action>) returns (h: nat, r: nat, i: nat, request: RequestId)
    requires After(lx, actions, |actions|).ready
    ensures var n := After(lx, actions, |actions|);
            && n.conn.Some? && h < r < i < |actions|
            && ChallengedAt(lx, actions, h, n.conn.value) && RequestedAt(lx, actions, r, n.conn.value, request)
            && ConsentedAt(lx, actions, i, n.conn.value, request)
  {
    hide Run, Exec;
    ReadyIsAccepted(lx, actions);
    h, r, i, request := AcceptedMeans(lx, actions, |actions|, After(lx, actions, |actions|).conn.value);
  }

  // ----- giving up -----

  /** The gateway reader waits for the challenge, or for the answer to this connect request. */
  function Awaits(g: Gateway): Option<Option<RequestId>> {
    match g
    case AwaitChallenge(_) => Some(None)
    case AwaitAccept(_, request) => Some(Some(request))
    case _ => None
  }

  /** In action i the attempt is refused for a lack of permission. */
  ghost predicate RefusedAt(lx: Lexicon, actions: seq<Action>, i: nat) {
    && i < |actions| && actions[i].Work?
    && var request := Awaits(After(lx, actions, i).gateway);
    && request.Some? && Refuses(lx, request.value, actions[i].incoming)
    && IsFinal(lx, request.value, actions[i].incoming)
  }

  /** The gateway reader is about to stop, or has stopped. */
  predicate Stopping(g: Gateway) {
    g == DropReady(true) || g == DropConn(true) || g == Stopped
  }

  lemma StopMove(lx: Lexicon, n: Node, a: Action)
    requires Stopping(Exec(lx, n, a).gateway)
    ensures Stopping(n.gateway)
            || (a.Work? && Awaits(n.gateway).Some? && Refuses(lx, Awaits(n.gateway).value, a.incoming)
                && IsFinal(lx, Awaits(n.gateway).value, a.incoming))
  {
    hide ServeStep, ResolveStep, BatchStep, ReaderMoveOf, Apply, HandshakeVerdict, Passes, Refuses, IsFinal;
    if a.Work? && GatewayStep(lx, n, a).Some? {
      if n.gateway.AwaitChallenge? || n.gateway.AwaitAccept? {
        VerdictMeans(lx, n.gateway, a.incoming);
      } else {
        GatewayEdge(lx, n, a);
      }
    } else if !a.Work? && ReaderMoveOf(lx, n, a).Some? {
      ApplyGateway(n, ReaderMoveOf(lx, n, a).value.access);
    }
  }

  /** In every run: a client that has stopped for good was refused for a lack of permission. */
  lemma {:induction false} StoppedMeans(lx: Lexicon, actions: seq<Action>, k: nat) returns (i: nat)
    requires k <= |actions| && Stopping(After(lx, actions, k).gateway)
    ensures i < k && RefusedAt(lx, actions, i)
    decreases k
  {
    hide Run, Exec;
    if k == 0 {
      AfterNone(lx, actions);
      assert false;
    } else {
      AfterStep(lx, actions, k - 1);
      StopMove(lx, After(lx, actions, k - 1), actions[k - 1]);
      if Stopping(After(lx, actions, k - 1).gateway) {
        i := StoppedMeans(lx, actions, k - 1);
      } else {
        i := k - 1;
      }
    }
  }

  lemma StopStays(lx: Lexicon, n: Node, a: Action)
    requires Stopping(n.gateway)
    ensures Stopping(Exec(lx, n, a).gateway)
  {
    hide Apply;
    if a.Work? {
      if GatewayStep(lx, n, a).Some? {
        hide GatewayStep;
        GatewayEdge(lx, n, a);
      }
    } else if ReaderMoveOf(lx, n, a).Some? {
      hide ReaderMoveOf;
      ApplyGateway(n, ReaderMoveOf(lx, n, a).value.access);
    }
  }

  /** And it never tries again. */
  lemma {:induction false} StopsForGood(lx: Lexicon, actions: seq<Action>, i: nat, k: nat)
    requires i <= k <= |actions| && Stopping(After(lx, actions, i).gateway)
    ensures Stopping(After(lx, actions, k).gateway)
    decreases k
  {
    hide Run, After, Exec, Stopping;
    if k > i {
      StopsForGood(lx, actions, i, k - 1);
      AfterStep(lx, actions, k - 1);
      StopStays(lx, After(lx, actions, k - 1), actions[k - 1]);
    }
  }

  /** Any refusal ends the attempt at once: for good if it is for a lack of permission, and else with
      another attempt to come. */
  lemma RefusalEnds(lx: Lexicon, n: Node, a: Action)
    requires a.Work? && Awaits(n.gateway).Some? && Refuses(lx, Awaits(n.gateway).value, a.incoming)
    ensures Exec(lx, n, a).gateway == DropReady(IsFinal(lx, Awaits(n.gateway).value, a.incoming))
  {
    hide ServeStep, ResolveStep, BatchStep, HandshakeVerdict, Passes, Refuses, IsFinal;
    VerdictMeans(lx, n.gateway, a.incoming);
    RefusesNoPass(lx, Awaits(n.gateway).value, a.incoming);
  }

  lemma RefusesNoPass(lx: Lexicon, request: Option<RequestId>, m: Incoming)
    ensures !(Passes(request, m) && Refuses(lx, request, m))
  {
  }
}
