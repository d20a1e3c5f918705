/** Where a gateway event without a session id of its own goes. handleEvent looks it up in up to four
    separately locked steps, and the relay reader may track and roll back requests between them. */
module ConnectorResolution {
  import opened Protocol
  import opened Events
  import opened ConnectorSystem
  import opened ConnectorInvariants
  import opened ConnectorTheorems
  import opened ConnectorRuns
  import L = EventLaws

  /** The gateway reader is inside resolveSessionID. */
  predicate Resolving(g: Gateway) {
    g.ByRequest? || g.ByRun? || g.ByRunCorrelation? || g.ByLast?
  }

  /** The session that the lookups would find: as a request, as a run, as a run by correlation. */
  function FirstMatch(
    requests: map<RequestId, SessionId>, runs: map<Bytes, SessionId>, corr: Bytes, runId: Bytes): Option<SessionId>
  {
    if corr != [] && corr in requests then Some(requests[corr])
    else if runId != [] && runId in runs then Some(runs[runId])
    else if corr != [] && corr in runs then Some(runs[corr])
    else None
  }

  /** The correlation id among the requests comes first, then the run id among the runs, then the
      correlation id among the runs; empty ids match nothing. */
  lemma FirstMatchMeans(
    requests: map<RequestId, SessionId>, runs: map<Bytes, SessionId>, corr: Bytes, runId: Bytes, id: SessionId)
    ensures var asRequest, asRun := corr != [] && corr in requests, runId != [] && runId in runs;
            FirstMatch(requests, runs, corr, runId) == Some(id) <==>
            || (asRequest && requests[corr] == id)
            || (!asRequest && asRun && runs[runId] == id)
            || (!asRequest && !asRun && corr != [] && corr in runs && runs[corr] == id)
  {
  }

  /** The serving loop: a failed read ends it; what is not a response with an id or an event is passed over;
      a response is looked up, unless it answers a request that was never written. */
  lemma ServingReads(lx: Lexicon, n: Node, a: Action)
    requires n.gateway.Serve? && a.Work?
    ensures a.incoming.ReadError? ==> Exec(lx, n, a) == n.(gateway := DropReady(false))
    ensures a.incoming.Skipped? ==> Exec(lx, n, a) == n
    ensures a.incoming.Message? && (a.incoming.env.kind.OtherKind? || (a.incoming.env.kind.ResponseKind?
                                                                       && a.incoming.env.id == [])) ==>
              Exec(lx, n, a) == n
    ensures a.incoming.Message? && a.incoming.env.kind.ResponseKind? && a.incoming.env.id != []
            && (a.incoming.env.id in n.tracked ==> a.incoming.env.id in n.written) ==>
              Exec(lx, n, a).gateway == FindRequest(a.incoming.env)
  {
    hide BeginEvent;
  }

  /** An event whose payload names a session is emitted for that session, whatever is tracked. */
  lemma NamedEventGoesThere(lx: Lexicon, n: Node, a: Action, id: SessionId)
    requires n.gateway.Serve? && a.Work? && a.incoming.Message? && a.incoming.env.kind.EventKind?
    requires L.NamesSession(a.incoming.env.payload, id)
    ensures Exec(lx, n, a) == n.(gateway := Emit(id, MapGatewayEvent(lx, a.incoming.env), None))
  {
    hide ExtractSessionId, ExtractCorrelationId, ExtractRunId, MapGatewayEvent, DecodePayload, L.NamesSession;
    L.NamedSession(a.incoming.env.payload, id);
  }

  /** The gateway reader begins to resolve an event that names no session itself. */
  lemma EventBegins(lx: Lexicon, n: Node, a: Action)
    requires n.gateway.Serve? && a.Work? && a.incoming.Message? && a.incoming.env.kind.EventKind?
    requires ExtractSessionId(DecodePayload(a.incoming.env.payload)) == []
    ensures var env := a.incoming.env;
            var p := DecodePayload(env.payload);
            Exec(lx, n, a) == n.(gateway := ByRequest(ExtractCorrelationId(env, p), ExtractRunId(p), env))
  {
    hide ExtractSessionId, ExtractCorrelationId, ExtractRunId, MapGatewayEvent, DecodePayload;
  }

  /** While the gateway reader resolves, it changes nothing but where it is; the relay reader does not
      touch the runs. */
  lemma ResolvingStep(lx: Lexicon, n: Node, a: Action)
    requires Resolving(n.gateway)
    ensures ResolveStep(lx, n).Some?
    ensures a.Work? ==> Exec(lx, n, a) == n.(gateway := ResolveStep(lx, n).value.next)
    ensures !a.Work? ==> Exec(lx, n, a).gateway == n.gateway && Exec(lx, n, a).runs == n.runs
  {
    hide EmitEvent;
    if !a.Work? && ReaderMoveOf(lx, n, a).Some? {
      ReaderMoveEdge(lx, n, a);
      hide Apply;
      ApplyReading(n, ReaderMoveOf(lx, n, a).value.access);
    }
  }

  lemma AnsweringStep(lx: Lexicon, n: Node, a: Action, r: RequestId, id: SessionId)
    requires Inv(n) && Resolving(n.gateway) && Answering(n, r, id)
    ensures Answering(Exec(lx, n, a), r, id)
  {
    hide ResolveStep, Apply, Inv;
    ResolvingStep(lx, n, a);
    if !a.Work? && ReaderMoveOf(lx, n, a).Some? {
      assert RequestsInv(n) by { AnsweringNeeds(n); }
      ReaderMoveEdge(lx, n, a);
      ReaderKeepsAnswering(n, ReaderMoveOf(lx, n, a).value, r, id);
    }
  }

  lemma AnsweringNeeds(n: Node)
    requires Inv(n)
    ensures RequestsInv(n)
  {
  }

  /** Sessions are recorded under ids of at least one byte. */
  lemma RecordedIsNamed(n: Node, corr: Bytes, runId: Bytes)
    requires Inv(n)
    ensures var found := FirstMatch(n.requests, n.runs, corr, runId); found.Some? ==> found.value != []
  {
    forall r | r in n.requests ensures n.requests[r] != [] {
      assert Fate(n, r) && Origin(n, r);
    }
    forall x | x in n.runs ensures n.runs[x] != [] {
      assert HasRequest(n, n.runs[x]);
    }
  }

  // ----- the lookups of one event, over a run -----

  /** The gateway reader resolves one event from state i on, at least up to state k. */
  ghost predicate Resolves(
    lx: Lexicon, actions: seq<Action>, i: nat, k: nat, corr: Bytes, runId: Bytes, env: Envelope)
  {
    && i <= k <= |actions|
    && After(lx, actions, i).gateway == ByRequest(corr, runId, env)
    && forall j :: i <= j <= k ==> Resolving(After(lx, actions, j).gateway)
  }

  /** What the lookups made since `start` have found, when the gateway reader is at n. `first` is the
      state in which it looked among the requests. */
  ghost predicate Missed(start: Node, first: Node, n: Node, corr: Bytes, runId: Bytes, env: Envelope) {
    && n.runs == start.runs
    && match n.gateway
       case ByRequest(c, x, e) => c == corr && x == runId && e == env
       case ByRun(c, x, e) =>
         c == corr && x == runId && e == env && (corr == [] || corr !in first.requests)
       case ByRunCorrelation(c, e) =>
         && c == corr && e == env && (corr == [] || corr !in first.requests)
         && (runId == [] || runId !in start.runs)
       case ByLast(e) =>
         && e == env && FirstMatch(first.requests, start.runs, corr, runId).None?
       case _ => false
  }

  /** The next lookup either goes on or ends with the session it finds. */
  lemma NextLookup(
    lx: Lexicon, start: Node, first: Node, n: Node, t: Node, corr: Bytes, runId: Bytes, env: Envelope)
    requires Missed(start, first, n, corr, runId, env) && (n.gateway.ByRequest? ==> first == n)
    requires t == n.(gateway := ResolveStep(lx, n).value.next)
    ensures Resolving(t.gateway) ==>
              Missed(start, first, t, corr, runId, env) && !t.gateway.ByRequest? && !n.gateway.ByLast?
    ensures !Resolving(t.gateway) ==>
              var found := FirstMatch(first.requests, start.runs, corr, runId);
              && t.gateway == EmitEvent(lx, n, if found.Some? then found.value else n.last, env)
              && (found.Some? <==> !n.gateway.ByLast?)
  {
    hide EmitEvent;
    EmitIsNoLookup(lx, n, env);
  }

  lemma EmitIsNoLookup(lx: Lexicon, n: Node, env: Envelope)
    ensures forall id :: !Resolving(EmitEvent(lx, n, id, env))
  {
  }

  /** Follows the lookups from state i to state k; `t` is where the requests were looked at. */
  lemma {:induction false} Lookups(
    lx: Lexicon, actions: seq<Action>, i: nat, k: nat, corr: Bytes, runId: Bytes, env: Envelope) returns (t: nat)
    requires Resolves(lx, actions, i, k, corr, runId, env)
    ensures i <= t <= k && After(lx, actions, t).gateway == ByRequest(corr, runId, env)
    ensures Missed(After(lx, actions, i), After(lx, actions, t), After(lx, actions, k), corr, runId, env)
    ensures After(lx, actions, k).gateway.ByRequest? ==> t == k
    ensures forall j :: i <= j <= k && After(lx, actions, j).gateway.ByLast? ==> After(lx, actions, k).gateway.ByLast?
    decreases k
  {
    hide Run, After, Exec, Missed, ResolveStep;
    if k == i {
      t := i;
      StartsMissed(After(lx, actions, i), corr, runId, env);
    } else {
      t := Lookups(lx, actions, i, k - 1, corr, runId, env);
      var n := After(lx, actions, k - 1);
      AfterStep(lx, actions, k - 1);
      ResolvingStep(lx, n, actions[k - 1]);
      if actions[k - 1].Work? {
        NextLookup(lx, After(lx, actions, i), After(lx, actions, t), n, After(lx, actions, k), corr, runId, env);
      } else {
        StillMissed(After(lx, actions, i), After(lx, actions, t), n, After(lx, actions, k), corr, runId, env);
        if n.gateway.ByRequest? {
          t := k;
          StartsMissedAt(After(lx, actions, i), After(lx, actions, k), corr, runId, env);
        }
      }
    }
  }

  lemma StartsMissed(n: Node, corr: Bytes, runId: Bytes, env: Envelope)
    requires n.gateway == ByRequest(corr, runId, env)
    ensures Missed(n, n, n, corr, runId, env)
  {
  }

  lemma StartsMissedAt(start: Node, n: Node, corr: Bytes, runId: Bytes, env: Envelope)
    requires n.gateway == ByRequest(corr, runId, env) && n.runs == start.runs
    ensures Missed(start, n, n, corr, runId, env)
  {
  }

  lemma StillMissed(start: Node, first: Node, n: Node, t: Node, corr: Bytes, runId: Bytes, env: Envelope)
    requires Missed(start, first, n, corr, runId, env) && t.gateway == n.gateway && t.runs == n.runs
    ensures Missed(start, first, t, corr, runId, env) && t.runs == start.runs
    ensures n.gateway.ByRequest? ==> t.gateway == ByRequest(corr, runId, env)
  {
  }

  lemma {:induction false} AnsweringWhileResolving(
    lx: Lexicon, actions: seq<Action>, i: nat, k: nat, corr: Bytes, runId: Bytes, env: Envelope, id: SessionId)
    requires Resolves(lx, actions, i, k, corr, runId, env) && Answering(After(lx, actions, i), corr, id)
    ensures Answering(After(lx, actions, k), corr, id)
    decreases k
  {
    hide Run, After, Exec, Inv, Answering;
    if i < k {
      AnsweringWhileResolving(lx, actions, i, k - 1, corr, runId, env, id);
      AfterInv(lx, actions, k - 1);
      AfterStep(lx, actions, k - 1);
      AnsweringStep(lx, After(lx, actions, k - 1), actions[k - 1], corr, id);
    }
  }

  /** Where an event ends up: n is the state of the last lookup and t the one after it. */
  ghost predicate GoesTo(lx: Lexicon, n: Node, t: Node, found: Option<SessionId>, env: Envelope) {
    if found.Some? then !n.gateway.ByLast? && t.gateway == Emit(found.value, MapGatewayEvent(lx, env), None)
    else n.gateway.ByLast? &&
         t.gateway == if n.last == [] then Resume(n) else Emit(n.last, MapGatewayEvent(lx, env), None)
  }

  lemma EmitGoesTo(lx: Lexicon, n: Node, t: Node, found: Option<SessionId>, env: Envelope)
    requires found.Some? ==> found.value != []
    requires found.Some? <==> !n.gateway.ByLast?
    requires t.gateway == EmitEvent(lx, n, if found.Some? then found.value else n.last, env)
    ensures GoesTo(lx, n, t, found, env)
  {
    hide MapGatewayEvent;
  }

  /** In every run: an event that names no session goes to the session of the first lookup that finds
      one, and to the latest session exactly if none does. The runs are those recorded when the event
      was read, whatever the relay reader does in between; the requests are those at the moment `t` of
      their lookup, and a written request that was tracked when the event was read is still there. */
  lemma EventGoesToFirstMatch(
    lx: Lexicon, actions: seq<Action>, i: nat, j: nat, corr: Bytes, runId: Bytes, env: Envelope) returns (t: nat)
    requires j < |actions| && Resolves(lx, actions, i, j, corr, runId, env)
    requires !Resolving(After(lx, actions, j + 1).gateway)
    ensures i <= t <= j
    ensures GoesTo(lx, After(lx, actions, j), After(lx, actions, j + 1),
                   FirstMatch(After(lx, actions, t).requests, After(lx, actions, i).runs, corr, runId), env)
    ensures FirstMatch(After(lx, actions, t).requests, After(lx, actions, i).runs, corr, runId).Some? ==>
              forall k :: i <= k <= j ==> !After(lx, actions, k).gateway.ByLast?
    ensures forall id :: corr != [] && Answering(After(lx, actions, i), corr, id) ==>
                           FirstMatch(After(lx, actions, t).requests, After(lx, actions, i).runs, corr, runId)
                           == Some(id)
  {
    hide Run, After, Exec, Inv, Missed, ResolveStep, FirstMatch, GoesTo, EmitEvent, Answering;
    t := Lookups(lx, actions, i, j, corr, runId, env);
    var start, first, n := After(lx, actions, i), After(lx, actions, t), After(lx, actions, j);
    AfterStep(lx, actions, j);
    ResolvingStep(lx, n, actions[j]);
    NextLookup(lx, start, first, n, After(lx, actions, j + 1), corr, runId, env);
    AfterInv(lx, actions, t);
    RunsAt(lx, actions, i, t, corr, runId, env);
    RecordedIsNamed(first, corr, runId);
    EmitGoesTo(lx, n, After(lx, actions, j + 1), FirstMatch(first.requests, start.runs, corr, runId), env);
    forall id | corr != [] && Answering(start, corr, id)
      ensures FirstMatch(first.requests, start.runs, corr, runId) == Some(id)
    {
      AnsweringWhileResolving(lx, actions, i, t, corr, runId, env, id);
      AnsweringMatches(first, start, corr, runId, id);
    }
  }

  lemma AnsweringMatches(n: Node, start: Node, corr: Bytes, runId: Bytes, id: SessionId)
    requires corr != [] && Answering(n, corr, id)
    ensures FirstMatch(n.requests, start.runs, corr, runId) == Some(id)
  {
  }

  lemma RunsAt(
    lx: Lexicon, actions: seq<Action>, i: nat, k: nat, corr: Bytes, runId: Bytes, env: Envelope)
    requires Resolves(lx, actions, i, k, corr, runId, env)
    ensures After(lx, actions, k).runs == After(lx, actions, i).runs
  {
    hide Run, After, Exec;
    var _ := Lookups(lx, actions, i, k, corr, runId, env);
  }

  /** The gateway reader reads an event that names no session itself. */
  predicate ReadsEvent(n: Node, a: Action) {
    && n.gateway.Serve? && a.Work? && a.incoming.Message? && a.incoming.env.kind.EventKind?
    && ExtractSessionId(DecodePayload(a.incoming.env.payload)) == []
  }

  /** One of the event's ids is tracked: as a written request, or as a run. */
  ghost predicate IsTracked(n: Node, corr: Bytes, runId: Bytes) {
    || (corr != [] && exists id :: Answering(n, corr, id))
    || (runId != [] && runId in n.runs)
    || (corr != [] && corr in n.runs)
  }

  /** An event whose correlation or run id is tracked when it is read is emitted for a session that was
      recorded for one of them, and never for the fallback, whatever the relay reader does meanwhile.
      If the correlation id is a written request, it is that request's session. */
  lemma TrackedEventNeverFallsBack(
    lx: Lexicon, actions: seq<Action>, i: nat, j: nat, corr: Bytes, runId: Bytes, env: Envelope) returns (t: nat)
    requires i < j < |actions| && ReadsEvent(After(lx, actions, i), actions[i]) && env == actions[i].incoming.env
    requires corr == ExtractCorrelationId(env, DecodePayload(env.payload))
    requires runId == ExtractRunId(DecodePayload(env.payload))
    requires forall k :: i < k <= j ==> Resolving(After(lx, actions, k).gateway)
    requires !Resolving(After(lx, actions, j + 1).gateway)
    ensures i < t <= j
    ensures IsTracked(After(lx, actions, i), corr, runId) ==>
              var found := FirstMatch(After(lx, actions, t).requests, After(lx, actions, i).runs, corr, runId);
              && found.Some? && GoesTo(lx, After(lx, actions, j), After(lx, actions, j + 1), found, env)
              && forall k :: i <= k <= j ==> !After(lx, actions, k).gateway.ByLast?
    ensures forall id :: corr != [] && Answering(After(lx, actions, i), corr, id) ==>
                           FirstMatch(After(lx, actions, t).requests, After(lx, actions, i).runs, corr, runId)
                           == Some(id)
  {
    hide Run, After, Exec, GoesTo, ExtractCorrelationId, ExtractRunId, ExtractSessionId, DecodePayload;
    var n := After(lx, actions, i);
    AfterStep(lx, actions, i);
    EventBegins(lx, n, actions[i]);
    assert Resolves(lx, actions, i + 1, j, corr, runId, env);
    t := EventGoesToFirstMatch(lx, actions, i + 1, j, corr, runId, env);
    assert forall id :: Answering(n, corr, id) <==> Answering(After(lx, actions, i + 1), corr, id);
  }

  // ----- responses -----

  /** The gateway reader is finding out whom a response is for. */
  predicate Attributing(g: Gateway) {
    g.FindRequest? || g.TrackRun?
  }

  /** Where a response with this id goes; `n` is the state in which its request was looked up, and `t` the
      one in which the gateway reader has done with that. */
  ghost predicate Attributed(lx: Lexicon, n: Node, t: Node, env: Envelope) {
    if env.id in n.requests then
      && t.gateway == Emit(n.requests[env.id], ResponseEvents(lx, env), Some(env.id))
      && var runId := ExtractRunId(DecodePayload(env.payload));
      t.runs == if runId == [] then n.runs else n.runs[runId := n.requests[env.id]]
    else t.gateway == Resume(n) && t.runs == n.runs
  }

  /** The run that the response names is about to be recorded. */
  ghost predicate Recording(n: Node, t: Node, env: Envelope) {
    && env.id in n.requests && t.runs == n.runs && ExtractRunId(DecodePayload(env.payload)) != []
    && t.gateway == TrackRun(ExtractRunId(DecodePayload(env.payload)), n.requests[env.id], env)
  }

  lemma AttributingStep(lx: Lexicon, n: Node, a: Action)
    requires Attributing(n.gateway)
    ensures var t, g := Exec(lx, n, a), n.gateway;
            || (t.gateway == g && t.runs == n.runs)
            || (g.FindRequest? && a.Work? && (Attributed(lx, n, t, g.env) || Recording(n, t, g.env)))
            || (g.TrackRun? && t.gateway == Emit(g.sessionId, ResponseEvents(lx, g.env), Some(g.env.id))
                && t.runs == n.runs[g.runId := g.sessionId])
  {
    hide ExtractRunId, DecodePayload, ResponseEvents, HandshakeStep, ResolveStep, BatchStep;
    if !a.Work? && ReaderMoveOf(lx, n, a).Some? {
      ReaderMoveEdge(lx, n, a);
      hide Apply, ReaderMoveOf;
      ApplyReading(n, ReaderMoveOf(lx, n, a).value.access);
    }
  }

  /** In every run: a response is emitted for the session of the request that it answers, if that is tracked
      when it is looked up, and then the run that it names is recorded for that session; otherwise it does
      nothing. */
  lemma {:induction false} ResponseGoesToRequest(
    lx: Lexicon, actions: seq<Action>, i: nat, k: nat, env: Envelope) returns (t: nat)
    requires i <= k <= |actions| && After(lx, actions, i).gateway == FindRequest(env)
    requires forall j :: i <= j < k ==> Attributing(After(lx, actions, j).gateway)
    ensures i <= t <= k
    ensures After(lx, actions, k).gateway.FindRequest? ==> After(lx, actions, k).gateway.env == env
    ensures After(lx, actions, k).gateway.TrackRun? ==> Recording(After(lx, actions, t), After(lx, actions, k), env)
    ensures !Attributing(After(lx, actions, k).gateway) ==>
              Attributed(lx, After(lx, actions, t), After(lx, actions, k), env)
    decreases k
  {
    hide Run, After, Exec, ExtractRunId, DecodePayload, ResponseEvents;
    if k == i {
      t := i;
    } else {
      t := ResponseGoesToRequest(lx, actions, i, k - 1, env);
      AfterStep(lx, actions, k - 1);
      AttributingStep(lx, After(lx, actions, k - 1), actions[k - 1]);
      if After(lx, actions, k - 1).gateway.FindRequest? {
        t := k - 1;
      }
    }
  }

  // ----- a run in which it happens -----

  /** An event that carries a request's id and nothing else. */
  function Echo(r: RequestId): Envelope {
    Envelope(EventKind, [], r, None, Null, None)
  }

  lemma EchoIds(r: RequestId)
    ensures var p := DecodePayload(Echo(r).payload);
            ExtractSessionId(p) == [] && ExtractCorrelationId(Echo(r), p) == r && ExtractRunId(p) == []
  {
    var p := DecodePayload(Null);
    NoRunId();
    forall keys ensures FirstOf(p, keys) == [] {
      NothingIn(p, keys);
    }
  }

  /** Reading the event, and the one lookup it needs. */
  lemma EchoRuns(lx: Lexicon, n: Node, r: RequestId)
    requires n.gateway.Serve? && r != [] && r in n.requests && n.requests[r] != []
    ensures ReadsEvent(n, Wake(Message(Echo(r)), 0, []))
    ensures var t := Exec(lx, n, Wake(Message(Echo(r)), 0, []));
            && t == n.(gateway := ByRequest(r, [], Echo(r)))
            && Exec(lx, t, Wake(Skipped, 0, []))
               == t.(gateway := Emit(n.requests[r], MapGatewayEvent(lx, Echo(r)), None))
  {
    hide Exec, MapGatewayEvent, ExtractSessionId, ExtractCorrelationId, ExtractRunId, DecodePayload;
    EchoIds(r);
    EventBegins(lx, n, Wake(Message(Echo(r)), 0, []));
    ResolvingStep(lx, n.(gateway := ByRequest(r, [], Echo(r))), Wake(Skipped, 0, []));
  }

  /** From the start: a request is written, and an event with its id is read and goes to its session. */
  lemma TrackedEventHappens(lx: Lexicon, id: SessionId, flags: byte, frame: Bytes, r: RequestId)
    returns (actions: seq<Action>, i: nat)
    requires AsksToStop(lx, frame, id, flags) && r != [] && id != []
    ensures i + 1 < |actions| && ReadsEvent(After(lx, actions, i), actions[i]) && actions[i].incoming.env == Echo(r)
    ensures Answering(After(lx, actions, i), r, id)
    ensures After(lx, actions, i + 1).gateway == ByRequest(r, [], Echo(r))
    ensures After(lx, actions, i + 2).gateway == Emit(id, MapGatewayEvent(lx, Echo(r)), None)
  {
    hide Run, Exec, AsksToStop, ReadsEvent, MapGatewayEvent;
    var write := [Read([], true), Read([], true)];
    var before := ToWrite(id, frame, r) + write;
    var read, look := Wake(Message(Echo(r)), 0, []), Wake(Skipped, 0, []);
    ToWriteRuns(lx, id, flags, frame, r);
    WriteSteps(lx, Checked(Connected(Start, 0), id, flags, frame, r));
    RunAppend(lx, Start, ToWrite(id, frame, r), write);
    EchoRuns(lx, Run(lx, Start, before), r);
    RunThen(lx, Start, before, read);
    RunThen(lx, Start, before + [read], look);
    actions, i := before + [read] + [look], |before|;
    assert actions[..i] == before && actions[..i + 1] == before + [read] && actions[..i + 2] == actions;
  }
}
