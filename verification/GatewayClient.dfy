/** connector/pkg/gatewayclient/client.go as code: the methods of the gateway client, each run
    without another goroutine in between. ConnectorServer has them with the other goroutine running. */
module GatewayClient {
  import opened Protocol
  import opened Events
  import opened EventLaws
  import C = ConnectorSystem
  import H = ConnectorHandshake
  import opened ConnectorResolution
  import B = Backoff

  datatype Request = Request(id: Bytes, sessionId: SessionId, ask: C.Ask)

  predicate HasTerminal(batch: seq<Event>) {
    exists i :: 0 <= i < |batch| && IsTerminal(batch[i])
  }

  /** The batch, addressed to a session. */
  function Addressed(id: SessionId, batch: seq<Event>): seq<(SessionId, Event)> {
    seq(|batch|, i requires 0 <= i < |batch| => (id, batch[i]))
  }

  /** The session of a gateway event: named by its payload, or found by the lookups, or the latest. */
  function Resolution(
    requests: map<Bytes, SessionId>, runs: map<Bytes, SessionId>, last: SessionId,
    corr: Bytes, runId: Bytes, p: Json): SessionId
  {
    var found := FirstMatch(requests, runs, corr, runId);
    if ExtractSessionId(p) != [] then ExtractSessionId(p) else if found.Some? then found.value else last
  }

  /** With no send in between, an event whose correlation or run id is tracked goes to a session that has
      a tracked request, and the fallback decides exactly when no lookup succeeds. */
  lemma FallbackOnlyIfUntracked(
    requests: map<Bytes, SessionId>, runs: map<Bytes, SessionId>, corr: Bytes, runId: Bytes, p: Json)
    requires runs.Values <= requests.Values && ExtractSessionId(p) == []
    ensures FirstMatch(requests, runs, corr, runId).Some? ==>
              forall last :: Resolution(requests, runs, last, corr, runId, p) in requests.Values
    ensures FirstMatch(requests, runs, corr, runId).Some? <==>
            forall last, other :: Resolution(requests, runs, last, corr, runId, p)
                                  == Resolution(requests, runs, other, corr, runId, p)
  {
    hide ExtractSessionId;
    if FirstMatch(requests, runs, corr, runId).None? {
      assert Resolution(requests, runs, [], corr, runId, p) == [];
      assert Resolution(requests, runs, ['s'], corr, runId, p) == ['s'];
    }
  }

  /** What the handshake makes of a message while it waits for the challenge, or for the answer
      to its own connect request. */
  function Verdict(lx: Lexicon, request: Option<Bytes>, m: C.Incoming): C.Verdict {
    C.HandshakeVerdict(lx, if request.Some? then C.AwaitAccept(0, request.value) else C.AwaitChallenge(0), m)
  }

  /** The message ends the wait. */
  ghost predicate Decisive(lx: Lexicon, request: Option<Bytes>, m: C.Incoming) {
    H.Passes(request, m) || H.Refuses(lx, request, m)
  }

  lemma VerdictOn(lx: Lexicon, request: Option<Bytes>, m: C.Incoming)
    ensures Verdict(lx, request, m)
         == if H.Passes(request, m) then C.Pass
            else if H.Refuses(lx, request, m) then C.Fail(H.IsFinal(lx, request, m)) else C.Wait
  {
    hide C.HandshakeVerdict, H.Passes, H.Refuses, H.IsFinal;
    H.VerdictMeans(lx, if request.Some? then C.AwaitAccept(0, request.value) else C.AwaitChallenge(0), m);
  }

  /** The wait that starts at message i ends with message n - 1, the first that decides, or runs out of
      messages. */
  ghost predicate Decides(
    lx: Lexicon, request: Option<Bytes>, incoming: seq<C.Incoming>, i: nat, n: nat, v: C.Verdict)
  {
    && i <= n <= |incoming|
    && (forall j :: i <= j < n - 1 ==> !Decisive(lx, request, incoming[j]))
    && if i < n && Decisive(lx, request, incoming[n - 1]) then
         v == if H.Passes(request, incoming[n - 1]) then C.Pass
         else C.Fail(H.IsFinal(lx, request, incoming[n - 1]))
       else n == |incoming| && v == C.Fail(false)
  }

  class Client {
    const lx: Lexicon
    var ready: bool
    var connected: bool
    var lastSessionId: SessionId
    var reqToSession: map<Bytes, SessionId>
    var runToSession: map<Bytes, SessionId>
    // what has been written to the gateway, and what OnEvent has been called with
    var written: seq<Request>
    var emitted: seq<(SessionId, Event)>

    /** Every session with a run has a request. */
    ghost predicate Valid()
      reads this
    {
      runToSession.Values <= reqToSession.Values
    }

    constructor (lx: Lexicon)
      ensures Valid() && reqToSession == map[] && runToSession == map[] && written == [] && emitted == []
      ensures !ready && !connected && lastSessionId == []
    {
      this.lx := lx;
      ready, connected, lastSessionId := false, false, [];
      reqToSession, runToSession := map[], map[];
      written, emitted := [], [];
    }

    method TrackRequest(r: Bytes, id: SessionId)
      modifies this`reqToSession, this`lastSessionId
      ensures reqToSession == old(reqToSession)[r := id] && lastSessionId == id
    {
      reqToSession := reqToSession[r := id];
      lastSessionId := id;
    }

    method UntrackRequest(r: Bytes)
      modifies this`reqToSession
      ensures reqToSession == old(reqToSession) - {r}
    {
      reqToSession := reqToSession - {r};
    }

    method TrackRun(x: Bytes, id: SessionId)
      modifies this`runToSession
      ensures runToSession == old(runToSession)[x := id]
    {
      runToSession := runToSession[x := id];
    }

    /** Deletes from both maps while iterating over them. */
    method ClearSessionTracks(id: SessionId)
      modifies this`reqToSession, this`runToSession
      ensures reqToSession == C.Cleared(old(reqToSession), id)
      ensures runToSession == C.Cleared(old(runToSession), id)
    {
      var todo := reqToSession.Keys;
      while todo != {}
        invariant todo <= old(reqToSession).Keys && runToSession == old(runToSession)
        invariant forall r :: r in reqToSession <==> r in old(reqToSession) && (r in todo || old(reqToSession)[r] != id)
        invariant forall r :: r in reqToSession ==> reqToSession[r] == old(reqToSession)[r]
        decreases todo
      {
        var r :| r in todo;
        if reqToSession[r] == id {
          reqToSession := reqToSession - {r};
        }
        todo := todo - {r};
      }
      todo := runToSession.Keys;
      while todo != {}
        invariant todo <= old(runToSession).Keys && reqToSession == C.Cleared(old(reqToSession), id)
        invariant forall x :: x in runToSession <==> x in old(runToSession) && (x in todo || old(runToSession)[x] != id)
        invariant forall x :: x in runToSession ==> runToSession[x] == old(runToSession)[x]
        decreases todo
      {
        var x :| x in todo;
        if runToSession[x] == id {
          runToSession := runToSession - {x};
        }
        todo := todo - {x};
      }
    }

    /** `wireOk` is whether the connection accepts the write. */
    method WriteJson(request: Request, wireOk: bool) returns (ok: bool)
      modifies this`written
      ensures ok == (ready && connected && wireOk)
      ensures written == if ok then old(written) + [request] else old(written)
    {
      if !ready {
        return false;
      }
      if !connected {
        return false;
      }
      if wireOk {
        written := written + [request];
      }
      return wireOk;
    }

    /** Tracks a fresh request and writes it; a failed write leaves the request map as it was,
        but not lastSessionId. */
    method SendTracked(id: SessionId, ask: C.Ask, newId: Bytes, wireOk: bool) returns (ok: bool)
      requires Valid() && newId !in reqToSession
      modifies this
      ensures Valid() && ok == (ready && connected && wireOk)
      ensures reqToSession == if ok then old(reqToSession)[newId := id] else old(reqToSession)
      ensures written == if ok then old(written) + [Request(newId, id, ask)] else old(written)
      ensures lastSessionId == id
      ensures runToSession == old(runToSession) && emitted == old(emitted)
      ensures ready == old(ready) && connected == old(connected)
    {
      TrackRequest(newId, id);
      ok := WriteJson(Request(newId, id, ask), wireOk);
      if !ok {
        UntrackRequest(newId);
        assert reqToSession == old(reqToSession);
      } else {
        forall s | s in old(reqToSession).Values ensures s in reqToSession.Values {
          var r :| r in old(reqToSession) && old(reqToSession)[r] == s;
          assert r in reqToSession && reqToSession[r] == s;
        }
      }
    }

    method SendUserMessage(id: SessionId, content: Bytes, newId: Bytes, wireOk: bool) returns (ok: bool)
      requires Valid() && newId !in reqToSession
      modifies this
      ensures Valid() && ok == (lx.trim(content) != [] && ready && connected && wireOk)
      ensures reqToSession == if ok then old(reqToSession)[newId := id] else old(reqToSession)
      ensures written == if ok then old(written) + [Request(newId, id, C.Agent(lx.trim(content)))] else old(written)
      ensures lastSessionId == if lx.trim(content) == [] then old(lastSessionId) else id
      ensures runToSession == old(runToSession) && emitted == old(emitted)
      ensures ready == old(ready) && connected == old(connected)
    {
      var text := lx.trim(content);
      if text == [] {
        return false;
      }
      ok := SendTracked(id, C.Agent(text), newId, wireOk);
    }

    method SendCancel(id: SessionId, newId: Bytes, wireOk: bool) returns (ok: bool)
      requires Valid() && newId !in reqToSession
      modifies this
      ensures Valid() && ok == (ready && connected && wireOk)
      ensures reqToSession == if ok then old(reqToSession)[newId := id] else old(reqToSession)
      ensures written == if ok then old(written) + [Request(newId, id, C.Abort)] else old(written)
      ensures lastSessionId == id
      ensures runToSession == old(runToSession) && emitted == old(emitted)
      ensures ready == old(ready) && connected == old(connected)
    {
      ok := SendTracked(id, C.Abort, newId, wireOk);
    }

    method ResolveSessionId(corr: Bytes, runId: Bytes, p: Json) returns (id: SessionId)
      ensures id == Resolution(reqToSession, runToSession, lastSessionId, corr, runId, p)
      ensures forall named :: NamesSession(p, named) ==> id == named
    {
      hide ExtractSessionId, NamesSession;
      forall named | NamesSession(p, named) ensures named != [] && ExtractSessionId(p) == named {
        NamedSession(p, named);
      }
      id := ExtractSessionId(p);
      if id != [] {
        return;
      }
      if corr != [] && corr in reqToSession {
        return reqToSession[corr];
      }
      if runId != [] && runId in runToSession {
        return runToSession[runId];
      }
      if corr != [] && corr in runToSession {
        return runToSession[corr];
      }
      return lastSessionId;
    }

    lemma ClearKeepsValid(requests: map<Bytes, SessionId>, runs: map<Bytes, SessionId>, id: SessionId)
      requires runs.Values <= requests.Values
      ensures C.Cleared(runs, id).Values <= C.Cleared(requests, id).Values
    {
      forall s | s in C.Cleared(runs, id).Values ensures s in C.Cleared(requests, id).Values {
        var x :| x in runs && runs[x] == s && s != id;
        assert s in requests.Values;
        var r :| r in requests && requests[r] == s;
        assert r in C.Cleared(requests, id) && C.Cleared(requests, id)[r] == s;
      }
    }

    /** Emits a batch; a terminal event clears the session's tracks. After a terminal nothing more
        is emitted and no request or run of the session is left; otherwise the tracks stay. */
    method EmitBatch(id: SessionId, batch: seq<Event>)
      requires Valid() && WellFormed(batch)
      modifies this`emitted, this`reqToSession, this`runToSession
      ensures Valid() && emitted == old(emitted) + Addressed(id, batch)
      ensures reqToSession == if HasTerminal(batch) then C.Cleared(old(reqToSession), id) else old(reqToSession)
      ensures runToSession == if HasTerminal(batch) then C.Cleared(old(runToSession), id) else old(runToSession)
    {
      for i := 0 to |batch|
        invariant Valid() && emitted == old(emitted) + Addressed(id, batch[..i])
        invariant reqToSession ==
                  if i > 0 && IsTerminal(batch[i - 1]) then C.Cleared(old(reqToSession), id) else old(reqToSession)
        invariant runToSession ==
                  if i > 0 && IsTerminal(batch[i - 1]) then C.Cleared(old(runToSession), id) else old(runToSession)
      {
        emitted := emitted + [(id, batch[i])];
        assert Addressed(id, batch[..i + 1]) == Addressed(id, batch[..i]) + [(id, batch[i])];
        if IsTerminal(batch[i]) {
          ClearKeepsValid(reqToSession, runToSession, id);
          ClearSessionTracks(id);
        }
      }
      assert batch[..|batch|] == batch;
    }

    /** An event that names a session is emitted for it, whatever is tracked. */
    method HandleEvent(env: Envelope)
      requires Valid()
      modifies this`emitted, this`reqToSession, this`runToSession
      ensures forall named :: NamesSession(env.payload, named) ==>
                                emitted == old(emitted) + Addressed(named, MapGatewayEvent(lx, env))
      ensures var p := DecodePayload(env.payload);
              var id := Resolution(old(reqToSession), old(runToSession), lastSessionId,
                                   ExtractCorrelationId(env, p), ExtractRunId(p), p);
              var batch := if id == [] then [] else MapGatewayEvent(lx, env);
              && Valid() && emitted == old(emitted) + Addressed(id, batch)
              && reqToSession == (if HasTerminal(batch) then C.Cleared(old(reqToSession), id) else old(reqToSession))
              && runToSession == (if HasTerminal(batch) then C.Cleared(old(runToSession), id) else old(runToSession))
    {
      hide MapGatewayEvent, ExtractCorrelationId, ExtractRunId, ExtractSessionId, NamesSession;
      var p := DecodePayload(env.payload);
      forall named | NamesSession(env.payload, named) ensures named != [] && ExtractSessionId(p) == named {
        NamedSession(env.payload, named);
      }
      var id := ResolveSessionId(ExtractCorrelationId(env, p), ExtractRunId(p), p);
      if id == [] {
        return;
      }
      EmitBatch(id, MapGatewayEvent(lx, env));
    }

    method HandleResponse(env: Envelope)
      requires Valid()
      modifies this`emitted, this`reqToSession, this`runToSession
      ensures Valid()
      ensures env.id == [] || env.id !in old(reqToSession) ==>
                emitted == old(emitted) && reqToSession == old(reqToSession) && runToSession == old(runToSession)
      ensures env.id != [] && env.id in old(reqToSession) ==>
                var id := old(reqToSession)[env.id];
                var batch := ResponseEvents(lx, env);
                && emitted == old(emitted) + Addressed(id, batch)
                && reqToSession == (if HasTerminal(batch) then C.Cleared(old(reqToSession), id) else old(reqToSession))
                && var runId := ExtractRunId(DecodePayload(env.payload));
                var runs := if runId == [] then old(runToSession) else old(runToSession)[runId := id];
                runToSession == if HasTerminal(batch) then C.Cleared(runs, id) else runs
    {
      hide ResponseEvents, ExtractRunId;
      if env.id == [] || env.id !in reqToSession {
        return;
      }
      var id := reqToSession[env.id];
      var runId := ExtractRunId(DecodePayload(env.payload));
      if runId != [] {
        assert id in reqToSession.Values;
        TrackRun(runId, id);
      }
      EmitBatch(id, ResponseEvents(lx, env));
    }

    // ----- the connection -----

    /** waitForChallenge and the waiting loop of performConnect, from message i on. When the messages
        run out, the read has failed or its deadline has passed. */
    method AwaitHandshake(request: Option<Bytes>, incoming: seq<C.Incoming>, i: nat) returns (v: C.Verdict, n: nat)
      requires i <= |incoming|
      ensures i <= n <= |incoming| && Decides(lx, request, incoming, i, n, v) && !v.Wait?
      ensures v.Pass? <==> i < n && H.Passes(request, incoming[n - 1])
      ensures v == C.Fail(true) <==>
              i < n && H.Refuses(lx, request, incoming[n - 1]) && H.IsFinal(lx, request, incoming[n - 1])
    {
      hide C.HandshakeVerdict, Verdict, H.Passes, H.Refuses, H.IsFinal;
      n := i;
      while n < |incoming|
        invariant i <= n <= |incoming|
        invariant forall j :: i <= j < n ==> !Decisive(lx, request, incoming[j])
      {
        v := Verdict(lx, request, incoming[n]);
        VerdictOn(lx, request, incoming[n]);
        n := n + 1;
        if !v.Wait? {
          H.RefusesNoPass(lx, request, incoming[n - 1]);
          return;
        }
      }
      v := C.Fail(false);
    }

    /** The serving loop, until a read fails. Neither flag changes, and nothing emitted is taken back. */
    method Serve(incoming: seq<C.Incoming>, i: nat)
      requires Valid() && i <= |incoming|
      modifies this`emitted, this`reqToSession, this`runToSession
      ensures Valid() && old(emitted) <= emitted
    {
      hide Resolution, MapGatewayEvent, ResponseEvents, ExtractRunId, ExtractCorrelationId;
      var k := i;
      while k < |incoming| && !incoming[k].ReadError?
        invariant Valid() && k <= |incoming| && old(emitted) <= emitted
      {
        if incoming[k].Message? {
          match incoming[k].env.kind {
            case EventKind => HandleEvent(incoming[k].env);
            case ResponseKind => HandleResponse(incoming[k].env);
            case OtherKind =>
          }
        }
        k := k + 1;
      }
    }

    /** One attempt: dial, handshake, serve. `writeOk` is whether the connect request could be
        written, `cancelled` whether the context is cancelled when the messages run out. Afterwards
        the client is neither ready nor connected. Nothing is handled, and so nothing emitted or
        untracked, unless the gateway has challenged and then accepted this very attempt; a nil
        return needs both as well. */
    method ConnectAndServe(dialOk: bool, writeOk: bool, request: Bytes, incoming: seq<C.Incoming>, cancelled: bool)
      returns (r: B.Outcome, ghost challenged: nat, ghost accepted: nat)
      requires Valid() && !ready && !connected
      modifies this
      ensures Valid() && !ready && !connected && lastSessionId == old(lastSessionId) && written == old(written)
      ensures emitted != old(emitted) || reqToSession != old(reqToSession) || runToSession != old(runToSession)
              || r == B.Nil ==>
                && dialOk && writeOk
                && Decides(lx, None, incoming, 0, challenged, C.Pass)
                && Decides(lx, Some(request), incoming, challenged, accepted, C.Pass)
      ensures r == B.AuthFailed ==>
                && dialOk && Decides(lx, None, incoming, 0, challenged, if accepted == 0 then C.Fail(true) else C.Pass)
                && (accepted > 0 ==> Decides(lx, Some(request), incoming, challenged, accepted, C.Fail(true)))
    {
      hide C.HandshakeVerdict, Verdict, Decides, H.Passes, H.Refuses, H.IsFinal;
      challenged, accepted := 0, 0;
      if !dialOk {
        return B.Failed, 0, 0;
      }
      connected := true;
      ready := false;
      var v, n := AwaitHandshake(None, incoming, 0);
      challenged := n;
      if v.Pass? && !writeOk {
        v := C.Fail(false);
      } else if v.Pass? {
        v, n := AwaitHandshake(Some(request), incoming, n);
        accepted := n;
      }
      if v.Pass? {
        ready := true;
        Serve(incoming, n);
      }
      ready := false;
      connected := false;
      r := if v == C.Fail(true) then B.AuthFailed else if v.Pass? && cancelled then B.Nil else B.Failed;
    }
  }
}
