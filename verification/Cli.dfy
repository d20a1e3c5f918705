/** The client's end of the connection (cli/main.go). */
module Cli {
  import opened Protocol
  import opened DataFrame
  import opened RelaySystem

  predicate IsOk(i: Input) {
    i.Control? && i.message.ConnectOk?
  }

  predicate IsError(i: Input) {
    i.Control? && i.message.Error?
  }

  /** waitConnectOK goes on to the next message. */
  predicate IsSkipped(i: Input) {
    !IsOk(i) && !IsError(i) && !i.ReadError?
  }

  /** waitConnectOK: skip everything but CONNECT_OK and ERROR. `n` counts the messages consumed. The first
      message that is not skipped decides: a CONNECT_OK with an id gives that id, anything else fails; and
      without such a message the wait goes on to the end. */
  method WaitConnectOk(inputs: seq<Input>) returns (r: Result<SessionId>, n: nat)
    ensures n <= |inputs| && forall i :: 0 <= i < n - 1 ==> IsSkipped(inputs[i])
    ensures n == 0 || IsSkipped(inputs[n - 1]) ==> n == |inputs| && r.Err?
    ensures n > 0 && !IsSkipped(inputs[n - 1]) ==>
              r == if IsOk(inputs[n - 1]) && inputs[n - 1].message.sessionId != []
              then Ok(inputs[n - 1].message.sessionId) else Err
  {
    n := 0;
    while n < |inputs|
      invariant n <= |inputs|
      invariant forall i :: 0 <= i < n ==> IsSkipped(inputs[i])
    {
      var input := inputs[n];
      n := n + 1;
      match input
      case ReadError => return Err, n;
      case Data(_) => continue;
      case BadText => continue;
      case Control(message) =>
        if message.ConnectOk? {
          if message.sessionId == [] {
            return Err, n;
          }
          return Ok(message.sessionId), n;
        }
        if message.Error? {
          return Err, n;
        }
    }
    return Err, n;
  }

  /** The event readLoop takes from a message, if it takes one. */
  function EventFor(i: Input, id: SessionId, decode: Bytes -> Option<Event>): Option<Event> {
    if i.Data? && ParseDataFrame(i.frame).Ok? && ParseDataFrame(i.frame).value.sessionId == id
    then decode(ParseDataFrame(i.frame).value.payload)
    else None
  }

  /** It takes an event exactly from a frame that was built for its session. */
  lemma EventForMeans(i: Input, id: SessionId, decode: Bytes -> Option<Event>, e: Event)
    ensures EventFor(i, id, decode) == Some(e) <==>
            exists flags, payload :: Brings(i, id, flags, payload) && decode(payload) == Some(e)
  {
    if i.Data? && ParseDataFrame(i.frame).Ok? {
      var d := ParseDataFrame(i.frame).value;
      BuildAfterParse(i.frame);
      assert d.sessionId == id ==> Brings(i, id, d.flags, d.payload);
    }
    forall flags, payload | Brings(i, id, flags, payload)
      ensures ParseDataFrame(i.frame) == Ok(Parsed(id, flags, payload))
    {
      ParseAfterBuild(Parsed(id, flags, payload));
    }
  }

  ghost predicate Brings(i: Input, id: SessionId, flags: byte, payload: Bytes) {
    1 <= |id| <= 255 && i == Data(Layout(Parsed(id, flags, payload)))
  }

  /** The events of one session in a list of messages, in order. */
  function EventsFor(inputs: seq<Input>, id: SessionId, decode: Bytes -> Option<Event>): seq<Event> {
    if inputs == [] then []
    else
      var e := EventFor(inputs[|inputs| - 1], id, decode);
      EventsFor(inputs[..|inputs| - 1], id, decode) + if e.Some? then [e.value] else []
  }

  lemma EventsForSnoc(inputs: seq<Input>, i: Input, id: SessionId, decode: Bytes -> Option<Event>)
    ensures EventsFor(inputs + [i], id, decode) ==
            EventsFor(inputs, id, decode)
            + if EventFor(i, id, decode).Some? then [EventFor(i, id, decode).value] else []
  {
    assert (inputs + [i])[..|inputs|] == inputs;
  }

  /** The events come in the order of the messages. */
  lemma {:induction false} EventsForAppend(a: seq<Input>, b: seq<Input>, id: SessionId, decode: Bytes -> Option<Event>)
    ensures EventsFor(a + b, id, decode) == EventsFor(a, id, decode) + EventsFor(b, id, decode)
    decreases |b|
  {
    if b == [] {
      assert a + b == a;
    } else {
      EventsForAppend(a, b[..|b| - 1], id, decode);
      assert (a + b)[..|a + b| - 1] == a + b[..|b| - 1];
    }
  }

  /** readLoop: until the connection fails or the queue is full, queues the events of the session
      and nothing else. `room(k)` says whether the queue accepts the k-th event when it comes. */
  method ReadLoop(inputs: seq<Input>, id: SessionId, decode: Bytes -> Option<Event>, room: nat -> bool)
    returns (out: seq<Event>, n: nat, overflow: bool)
    ensures n <= |inputs| && out == EventsFor(inputs[..n], id, decode)
    ensures forall i :: 0 <= i < n ==> !inputs[i].ReadError?
    ensures forall k :: 0 <= k < |out| ==> room(k)
    ensures overflow ==> n < |inputs| && EventFor(inputs[n], id, decode).Some? && !room(|out|)
    ensures !overflow && n < |inputs| ==> inputs[n].ReadError?
  {
    out, n, overflow := [], 0, false;
    while n < |inputs|
      invariant n <= |inputs| && !overflow && out == EventsFor(inputs[..n], id, decode)
      invariant forall i :: 0 <= i < n ==> !inputs[i].ReadError?
      invariant forall k :: 0 <= k < |out| ==> room(k)
    {
      if inputs[n].ReadError? {
        return;
      }
      assert inputs[..n + 1] == inputs[..n] + [inputs[n]];
      EventsForSnoc(inputs[..n], inputs[n], id, decode);
      if !inputs[n].Data? {
        n := n + 1;
        continue;
      }
      var parsed := ParseDataFrame(inputs[n].frame);
      if parsed.Err? || parsed.value.sessionId != id {
        n := n + 1;
        continue;
      }
      var event := decode(parsed.value.payload);
      if event.None? {
        n := n + 1;
        continue;
      }
      if !room(|out|) {
        overflow := true;
        return;
      }
      out := out + [event.value];
      n := n + 1;
    }
  }
}
