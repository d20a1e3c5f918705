# OpenClaw bridge: a Dafny model of the relay and the connector

The bridge lets a client talk to a gateway that sits behind a firewall. A *connector* next to the
gateway dials out to a public *relay* and registers there under the hash of an access code. A client
that presents the code gets a *session*; from then on the relay forwards DATA frames between the two
ends of the session. Inside the connector a *bridge* turns the client's frames into gateway requests
and the gateway's responses and events into frames for the right session.

The project models this at the grain of the locks. Every lock-protected store call, every send and
every read is one atomic step, and any two goroutines may interleave between any two steps. On top of
the step systems the handlers are written as imperative code and proved to follow them: what a handler
takes from its connection is exactly what it is given, and from there to its end it makes its own steps.

`dafny verify dfyconfig.toml` checks everything.

| files | contents |
|---|---|
| `Protocol`, `DataFrame` | values shared by all parts; the frame codec |
| `RelaySystem` | the relay as a step system: one program counter per connection, three shared stores |
| `RelayInvariants`, `RelayLifecycle`, `RelayNotices`, `RelayRouting`, `RelayOrdering` | what every step of the relay keeps |
| `RelayTheorems`, `RelayRace`, `RelayClosing`, `RelayOutcomes`, `RelayReplies`, `RelayGreetings`, `RelayLimits` | facts about whole runs of the relay |
| `RelayRuns` | concrete runs of the relay from its initial state |
| `Stores`, `RelayRefinement`, `RelayServer` | the three stores and the handlers as classes that follow the step system |
| `Events`, `EventLaws` | gateway payloads to bridge events, and what that means in payload fields |
| `ConnectorSystem`, `ConnectorInvariants`, `ConnectorTheorems`, `ConnectorContent`, `ConnectorOutcomes`, `ConnectorHandshake`, `ConnectorResolution`, `ConnectorTable`, `ConnectorBroadcast`, `ConnectorReconnect` | the connector as a step system of two goroutines, and facts about its runs |
| `ConnectorRuns` | concrete stretches of connector runs |
| `ConnectorServer` | the connector's two goroutines as a class that follows the step system |
| `GatewayClient`, `BridgeTable`, `GatewayBridge`, `Config`, `Backoff`, `Cli` | the connector's and the client's code, call by call |
| `Composition*` | relay, links, connectors and clients joined by ordered channels |

## How to read the model

- **Runs.** A schedule is a list of actions: which goroutine moves, what a read returns, whether a dial
  or write succeeds. `Run` folds `Exec` over it. A theorem about `Run(Initial, actions)` for an
  arbitrary `actions` holds for every interleaving and every behaviour of the peers and the gateway.
- **History.** States carry history fields that the program does not have: what was read, sent, created,
  removed, tracked or answered so far. Theorems are stated with them, and so are the assumptions on fresh
  ids and on the gateway.
- **Channels.** A peer's outgoing channel is an append-only list. A send appends to it while the
  connection is open and fails afterwards. Connections may break at any moment.
- **Interference.** In `RelayServer` a handler calls `Interfere` before each of its own accesses, and in
  `ConnectorServer` it calls `AwaitGateway` or `AwaitReader`. Their contracts allow any steps of the other
  goroutines; the handlers are verified against those contracts, not against the empty bodies that
  stand for the other goroutines.
- **Reading after a close.** A goroutine may still read messages after its connection was closed, so the
  model has every run the program has and some more.

Assumptions: ids from `newID` never repeat and are 1 to 255 bytes long; each connection delivers in
order; a send on a closed connection fails; the gateway answers only requests that were written to it,
and does not know a request id before it is written; in the composition every connector is this
repository's connector. `EncodeEvent`, `DecodeEvent`, `strings.TrimSpace` and `strings.ToLower` are
parameters of the model (`Lexicon`); the JSON of control and gateway messages, SHA-256 and number
formatting are already applied to the data. Reading back an encoded event is assumed only where a
theorem says so, for the event at hand.

## Results worth knowing

- *What becomes of a message is decided by what its handler finds, and by nothing else.* For every frame and
  control message that the relay reads, every client and connector that joins it, every frame that the
  connector is delivered and every response it reads, a theorem about all runs says who is written to, what,
  and with which code, in terms of the stores and connections at the moments they are looked at
  (`RelayReplies.OutcomeOfMessage`, `OutcomeOfConnect`, `OutcomeOfRegister`, `OutcomeOfFrame`,
  `ResponseGoesToRequest`).
- *The race between a connecting client and a disconnecting connector.* A stored session's connector can
  be past its own session deletion exactly when that deletion fell between the client's auth lookup and
  its insertion of the session (`ConnectDisconnectRace`). Ten actions from the start reach such a session
  (`RaceHappens`). It goes away with the next frame of its client, or with the client
  (`ClosedConnectorDrains`, `NoLeaksAtRest`).
- *Close notices are conserved*: stored + owed + attempted + waived is always 1 for each end of each
  session. "Waived" is the end whose own disconnect removed the session.
- *Only an end closes a session* is false: `handleControl` does not ask who the peer is. In every run a
  session is removed by one of its ends or by a peer that had read CLOSE_SESSION for it
  (`RemoverIsEndOrAsked`), and any peer that reads it does close it (`AnyPeerMayClose`).
- *A connector may hear CLOSE_SESSION before SESSION_OPEN.* It does exactly when `handleClient`, about to
  send SESSION_OPEN, finds the session gone from the store and the connector already told
  (`CloseBeforeOpenIff`); never while nobody asks to close the session before SESSION_OPEN has been sent
  for it (`OpenPrecedesClose`); and in one run from the start (`CloseBeforeOpenHappens`). Of the sessions
  for which a connector has heard both messages, it keeps exactly those, in every later state, although
  the relay has closed them (`StaleIffClosedFirst`, `ClosedIsForgotten`, `SessionLeaks`).
- *The simple accounting bound fails between an emit and its clear.* Terminal events plus tracked requests
  may exceed the requests tracked and not rolled back by one (`SimpleBoundFails`). With the requests
  silenced by a clear as a third term the two sides are equal up to that one (`ResponsesAccounted`), and
  `SimpleBoundIff` says exactly when the simple bound holds.
- *A clear takes more than the answered request.* It also removes requests sent between the terminal
  event and the clear (`LateRequestIsCleared` is a run from the start). `TrackedUntilCleared` is the exact
  condition for a request to stay tracked.
- *`writeJSON` is not atomic with its readiness check.* Past the check, and exactly as long as the client
  has not ended, a reconnect can let the request go to a connection the gateway has not accepted
  (`MissesAcceptIffRunning`; `AcceptIsMissed` is a run from the start). If the client is still ready when
  the connection is read, it is an accepted one (`ReadyAtGetConn`).
- *The fallback session is used exactly when no lookup succeeds*, also when requests are tracked and rolled
  back between the lookups (`EventGoesToFirstMatch`, `TrackedEventNeverFallsBack`).
- *Backoff is what it is meant to be exactly for settings of up to 4611686018 seconds* (146 years;
  `IntendedIffSmall`). Beyond that the 64-bit nanoseconds overflow: some delays are negative, and the loop
  no longer waits, or the settings themselves wrap around to short ones (`HugeSettingsWrap`: 584 years
  become 0.29 seconds).
- `extractErrorMessage` never returns "unknown error": the payload search always yields a text, so that
  branch cannot run (`ErrorMessageIsFirst`).
- `Load` does not compare the protocol bounds it fills in; `ProtocolRange` says when the range is empty.

## Model

| member | source | states |
|---|---|---|
| DataFrame.BuildDataFrame | shared/protocol/dataframe.go:7-21 | succeeds exactly for ids of 1 to 255 bytes and then yields the wire layout |
| DataFrame.ParseAfterBuild | shared/protocol/dataframe.go:7-39 | parsing what was built gives back id, flags and payload |
| DataFrame.BuildAfterParse | shared/protocol/dataframe.go:23-39 | rebuilding what was parsed gives the very same bytes |
| DataFrame.ParsesIffBuilt | shared/protocol/dataframe.go:23-39 | a byte string parses exactly when it is the build of some triple, and then of only one |
| RelayInvariants.ExecBasic | relay/main.go:68-333 | every step keeps store, sessions, program counters and auth types consistent, and history only grows |
| RelayLifecycle.ExecLifecycle | relay/main.go:122-145 | every step keeps: the hub holds exactly the peers between Add and Remove, auth is the latest live registration, a stored session's client has not run its deletion |
| RelayNotices.Conservation | relay/main.go:106-141 | per end of a session: stored, owed, attempted and waived notices add up to 1 in every state that satisfies the invariant |
| RelayNotices.ExecNotices | relay/main.go:106-141 | every step of every interleaving keeps the notice accounts balanced |
| RelayRouting.ExecRouting | relay/main.go:68-104 | every step keeps: each message on a channel belongs to a session of its receiver, frames are unchanged and in order, SESSION_OPEN comes first |
| RelayTheorems.NoLeaksAtRest | relay/main.go:122-145 | when all goroutines have finished, hub, auth map and session store are empty, whichever way each handler ended |
| RelayTheorems.FinishedIsClosed | relay/main.go:143-144 | a goroutine that has finished has closed its connection |
| RelayTheorems.AuthIsTrace | relay/pkg/authmap/authmap.go:25-57 | auth[h] is p's entry exactly when p made the latest registration for h and has not run its deletion; a replaced connector's late cleanup evicts nobody |
| RelayTheorems.OneHashPerPeer | relay/pkg/authmap/authmap.go:46-57 | two hashes never map to one peer, so DeleteByPeer returns at most one |
| RelayTheorems.NoticesConserved | relay/main.go:106-145 | at every moment of every run each end of each session is accounted for exactly once |
| RelayTheorems.ToldOnceAtRest | relay/main.go:117-140 | in the end each end was told of the close once, except the end whose own disconnect removed the session, which was not told |
| RelayTheorems.GoneForever | relay/pkg/sessions/sessions.go:40-49 | a session that has left the store never comes back |
| RelayTheorems.LeavesOnce | relay/pkg/sessions/sessions.go:40-62 | each session id leaves the store at most once in a run |
| RelayTheorems.RoutingIsolation | relay/main.go:68-104 | every forwarded frame is byte for byte one that the opposite end of the session it names has sent, for the ends the session was created with |
| RelayTheorems.ClientSeesOwnSession | relay/main.go:76-95 | a client receives frames of its own session only |
| RelayTheorems.ForwardedOnce | relay/main.go:95-104 | no frame read by the relay is forwarded twice |
| RelayTheorems.ForwardedInOrder | relay/pkg/hub/hub.go:28-38 | two frames of one sender arrive in the order in which the relay read them |
| RelayTheorems.OpenPrecedesData | relay/main.go:309-332 | on a connector's channel SESSION_OPEN(id) precedes every DATA frame for id |
| RelayOrdering.AnnouncedIsConfirmed | relay/main.go:309-329 | a session announced to its connector has been confirmed to its client before |
| RelayOrdering.ExecHonest | relay/main.go:309-332 | while connectors send only for announced sessions, CONNECT_OK(id) precedes every frame for id on each client's channel |
| RelayRace.ConnectDisconnectRace | relay/main.go:291-307 | a stored session's connector is past its deletion exactly if that deletion fell between the client's lookup and its insertion |
| RelayRace.ConnectorIsLookedUp | relay/main.go:291-307 | a session's connector is the auth entry read when its client connected, whatever was registered or removed since |
| RelayRace.ClosedConnectorDrains | relay/main.go:95-100 | once the connector's connection is closed, a frame of the client removes the session within three turns of the client, whatever runs in between |
| RelayRuns.RaceHappens | relay/main.go:291-307 | ten actions from the start after which a stored session's connector is past its deletion |
| RelayOutcomes.OneOutcomePerMessage | relay/main.go:68-104 | between reading a binary message and being back in its loop a goroutine makes exactly one outcome: it is forwarded, or its sender gets an error |
| RelayReplies.OutcomeOfMessage | relay/main.go:68-206 | in every run, each message read has exactly its outcome: a frame goes as it was read to the other end of its session, if that is stored, the sender an end of it, and the other end reachable; else the session is closed or the sender gets one of five codes, each in exactly its case; a heartbeat is silent; nobody else is written to |
| RelayReplies.NoticesAreWritten | relay/main.go:117-137 | CLOSE_SESSION is put on a channel exactly by the counted attempts that find the connection open |
| RelayGreetings.JoinsIff | relay/main.go:227-231 | a connection becomes a peer exactly for REGISTER with a hash at the tunnel endpoint or CONNECT with an access code at the client endpoint |
| RelayGreetings.OutcomeOfConnect | relay/main.go:278-333 | in every run, a client gets CONNECTOR_NOT_FOUND and no session, or a session under a fresh id with the entry found; it serves exactly if both ends could be told, the client with the connector's capabilities, the connector with the client's e2ee flag; else the session is gone before the cleanup |
| RelayGreetings.OutcomeOfRegister | relay/main.go:233-257 | in every run, a connector that serves was registered with the hash, generation and capabilities it sent, and the connection of the one it replaced is closed |
| RelayClosing.RemoverIsEndOrAsked | relay/main.go:197-206 | in every run a session is removed only by one of its ends, or by a peer that had read CLOSE_SESSION for it |
| RelayClosing.CloseBeforeOpenIff | relay/main.go:320-329 | CLOSE_SESSION precedes SESSION_OPEN on a connector's channel exactly if, at the action that puts SESSION_OPEN there, the session is gone and the connector told |
| RelayClosing.OpenPrecedesClose | relay/main.go:309-329 | with honest connectors and nobody asking to close it before, SESSION_OPEN precedes CLOSE_SESSION |
| RelayClosing.OpenedOnce | relay/main.go:320-329 | SESSION_OPEN is sent at most once for a session |
| RelayClosing.ClosedOnce | relay/main.go:106-141 | CLOSE_SESSION reaches each end at most once for a session |
| RelayClosing.ClosedIsGone | relay/main.go:106-120 | once CLOSE_SESSION is on a channel the session is gone from the store |
| RelayLimits.AnyPeerMayClose | relay/main.go:197-206 | any connected peer that names a stored session closes it, an end of it or not |
| RelayLimits.CloseMayPrecedeOpen | relay/main.go:307-329 | from every state in which a client is about to send SESSION_OPEN for a stored session, five actions put CLOSE_SESSION before it |
| RelayRuns.CloseBeforeOpenHappens | relay/main.go:307-329 | a run from the start in which the connector hears CLOSE_SESSION before SESSION_OPEN for a session that is gone |
| RelayLimits.ReplacedIsClosed | relay/main.go:245-256 | a registration under a taken hash owns the entry at once, and the replaced connector's connection is closed by its next step, whatever runs in between |
| Stores.HubManager.Add | relay/pkg/hub/hub.go:49-53 | adds the peer and nothing else |
| Stores.HubManager.Remove | relay/pkg/hub/hub.go:55-59 | removes the peer and nothing else |
| Stores.AuthStore.Set | relay/pkg/authmap/authmap.go:25-31 | replaces the entry and returns the previous one |
| Stores.AuthStore.Get | relay/pkg/authmap/authmap.go:33-38 | the entry registered under the hash, if any |
| Stores.AuthStore.DeleteByPeer | relay/pkg/authmap/authmap.go:46-57 | deletes exactly the peer's hashes while iterating, and returns each once |
| Stores.SessionStore.Set | relay/pkg/sessions/sessions.go:27-31 | inserts under the session's id |
| Stores.SessionStore.Get | relay/pkg/sessions/sessions.go:33-38 | the stored session, if any |
| Stores.SessionStore.Delete | relay/pkg/sessions/sessions.go:40-49 | removes and returns the session, to one caller only |
| Stores.SessionStore.DeleteByPeer | relay/pkg/sessions/sessions.go:51-62 | removes exactly the sessions the peer is an end of, and returns each once |
| RelayRefinement.OwnStep | relay/main.go:68-333 | what a goroutine's own step does to the stores, the connections and its program counter |
| RelayRefinement.OthersKeep | relay/main.go:147-195 | whatever the other goroutines do, the invariant holds and this goroutine's locals stay |
| RelayServer.Server.Send | relay/pkg/hub/hub.go:28-38 | the write appends to an open connection, fails on a closed one, and is the step the goroutine was at |
| RelayServer.Server.SendError | relay/main.go:56-66 | one error message, under interference, then on to what the handler does next |
| RelayServer.Server.RouteBinary | relay/main.go:68-104 | under interference, what is written and to whom is exactly the outcome of this frame, every error path included, and it ends in the read loop |
| RelayServer.Server.CloseSession | relay/main.go:106-120 | deletes once, then tells client and connector, under interference |
| RelayServer.Server.CleanupPeer | relay/main.go:122-145 | auth, sessions, notices, hub and connection in that order, to the end |
| RelayServer.Server.TellOthers | relay/main.go:129-141 | tells the other end of each removed session exactly once |
| RelayServer.Server.HandleControl | relay/main.go:197-206 | a heartbeat writes nothing, CLOSE_SESSION closes, anything else gets its one error, and it ends in the read loop |
| RelayServer.Server.HandleInput | relay/main.go:150-168 | the given message is read, and has exactly its outcome |
| RelayServer.Server.ReadLoop | relay/main.go:147-195 | takes exactly the given messages up to the first failing read, handles each, then cleans up to the end |
| RelayServer.Server.HandleTunnel | relay/main.go:208-257 | joins with the given first message, registers, closes a replaced connector's connection, takes exactly the given messages, and finishes; a bad first message changes nothing |
| RelayServer.Server.HandleClient | relay/main.go:259-333 | joins with the given first message; if a connector is found, the session has the given id; takes exactly the given messages if it gets to serve, and finishes on all paths; a bad first message changes nothing |
| Events.ErrorMessageIsFirst | connector/pkg/gatewayclient/events.go:32-44 | the message is the first non-empty one of error.message, message, msg, reason and the default |
| Events.RunIdIsFlat | connector/pkg/gatewayclient/events.go:58-79 | extractRunID is the first non-empty local id in pre-order, and empty exactly if no nested payload has one |
| Events.ChatTextIsFlat | connector/pkg/gatewayclient/events.go:99-117 | extractChatText is the first non-empty local text in post-order, and empty exactly if no nested payload has one |
| Events.MessageContentText | connector/pkg/gatewayclient/events.go:133-157 | the loop over the builder yields the concatenated texts of the parts |
| Events.ContentTextAppend | connector/pkg/gatewayclient/events.go:137-153 | splitting the list of parts anywhere splits the text there |
| Events.MapGatewayEvent | connector/pkg/gatewayclient/events.go:159-252 | for every envelope at most a token, not empty, and then at most one terminal |
| EventLaws.MapGatewayEventMeans | connector/pkg/gatewayclient/events.go:159-303 | in payload fields: exactly when an event gives an end, a failure with which code and message, and a token with which text, for every group of statuses, every chat state, every agent state and type, and every kind of name |
| EventLaws.FieldText | connector/pkg/gatewayclient/client.go:567-578 | a key reads as the text or number its field holds, and as empty otherwise |
| EventLaws.SessionIdIsFirst | connector/pkg/gatewayclient/events.go:81-88 | the first non-empty text under session_id, sessionId, sid, and empty exactly if all are |
| EventLaws.CorrelationIdIsFirst | connector/pkg/gatewayclient/events.go:46-56 | the first non-empty of the seven keys and the envelope's id |
| EventLaws.LocalRunIdIsFirst | connector/pkg/gatewayclient/events.go:58-70 | the first non-empty of the payload's two keys and the run object's three |
| EventLaws.ContentIsFirst | connector/pkg/gatewayclient/events.go:90-97 | the first non-empty text under content, text, token, chunk, delta |
| EventLaws.ErrorMessageIsFirstOf | connector/pkg/gatewayclient/events.go:21-44 | the message's own error text, or else the payload's |
| EventLaws.LocalChatTextIsFirst | connector/pkg/gatewayclient/events.go:108-116 | the content of the message, the content, or the first text |
| EventLaws.AgentTextIsFirst | connector/pkg/gatewayclient/events.go:119-131 | the chat text below delta, text, content, message, or else the payload's |
| EventLaws.SearchOrder | connector/pkg/gatewayclient/events.go:71-107 | both searches go below response, result, data, output, in that order |
| EventLaws.PartTextMeans | connector/pkg/gatewayclient/events.go:137-150 | an untyped or text part gives its text, or else its value; any other part nothing |
| EventLaws.ContentTextMeans | connector/pkg/gatewayclient/events.go:133-157 | a content is a text, or the texts of its parts one after the other; anything else is empty |
| EventLaws.ContainsMeans | connector/pkg/gatewayclient/events.go:281-303 | a name contains a part exactly if the part occurs in it |
| Events.ResponseEvents | connector/pkg/gatewayclient/client.go:355-393 | the events of a response are a well-formed batch too |
| EventLaws.ResponseEventsMean | connector/pkg/gatewayclient/client.go:360-393 | in payload fields: exactly when a response gives an end, a failure with which message, and a token with which text |
| ConnectorInvariants.ExecInv | connector/pkg/gatewayclient/client.go:288-506 | every step of either goroutine keeps the correlation, response, frame and handshake invariants |
| ConnectorTheorems.ReadyIsAccepted | connector/pkg/gatewayclient/client.go:109-142 | ready implies a connection that has passed challenge and acceptance, across all reconnects |
| ConnectorHandshake.AcceptedMeans | connector/pkg/gatewayclient/client.go:175-286 | in every run, from an accepted connection the event connect.challenge was read, then the connect request was written to it, then a response with this request's id and ok true was read |
| ConnectorHandshake.ReadyMeans | connector/pkg/gatewayclient/client.go:109-142 | whenever the client is ready, its connection has been through this |
| ConnectorHandshake.VerdictMeans | connector/pkg/gatewayclient/client.go:198-283 | in envelope fields: which messages let the client go on, which end the attempt, and which of these for good |
| ConnectorHandshake.StoppedMeans | connector/pkg/gatewayclient/client.go:82-88 | in every run, a client that has stopped was refused for a lack of permission |
| ConnectorHandshake.StopsForGood | connector/pkg/gatewayclient/client.go:82-88 | and never tries again |
| ConnectorHandshake.RefusalEnds | connector/pkg/gatewayclient/client.go:198-283 | every refusal ends the attempt at once, for good exactly for a lack of permission |
| ConnectorTheorems.ResponsesAccounted | connector/pkg/gatewayclient/client.go:345-394 | terminal events by response + tracked requests + silenced requests = requests tracked and not rolled back, + 1 exactly between an emit and its clear |
| ConnectorTheorems.SimpleBoundIff | connector/pkg/gatewayclient/client.go:345-412 | terminal events + tracked requests <= requests tracked and not rolled back, exactly if none is between emit and clear or some were silenced |
| ConnectorRuns.SimpleBoundFails | connector/pkg/gatewayclient/client.go:345-394 | a run from the start in which that bound fails |
| ConnectorTheorems.OneTerminalPerRequest | connector/pkg/gatewayclient/client.go:345-394 | a request id yields at most one terminal event by the response path |
| ConnectorTheorems.RunsHaveRequests | connector/pkg/gatewayclient/client.go:457-506 | every session with a tracked run has a tracked request |
| ConnectorTheorems.LastIsLatest | connector/pkg/gatewayclient/client.go:457-465 | lastSessionID is the session of the latest tracked request, even of one rolled back |
| ConnectorTheorems.RequestsComeFromFrames | connector/pkg/bridge/gateway_bridge.go:90-102 | every tracked request is for the session named by the handled frame that caused it |
| ConnectorRuns.LateRequestIsCleared | connector/pkg/gatewayclient/client.go:404-411 | a run from the start in which a request written between a terminal event and its clear is lost to the clear |
| ConnectorBroadcast.BroadcastTellsEach | connector/pkg/bridge/gateway_bridge.go:117-134 | in every interleaving, from the snapshot to the next dial each session of the snapshot is told exactly once, and no other |
| ConnectorBroadcast.BroadcastFlags | connector/pkg/bridge/gateway_bridge.go:117-134 | each with the flags it had in the snapshot |
| ConnectorBroadcast.FailureIsBroadcast | connector/pkg/gatewayclient/client.go:78-107 | in every run, between a failed dial or any moment of an attempt and the next dial lies a snapshot, and so a broadcast |
| ConnectorBroadcast.EventsCarryTableFlags | connector/pkg/bridge/gateway_bridge.go:108-115 | in every interleaving an event is sent with the flags the table held when the event was looked up |
| ConnectorBroadcast.EventStep | connector/pkg/bridge/gateway_bridge.go:108-115 | outside the broadcast the gateway reader sends only the event it has just looked a session up for, to that session |
| ConnectorBroadcast.ClosedEventIsDropped | connector/pkg/bridge/gateway_bridge.go:108-113 | an event for a session that is not open when it is looked up is dropped |
| ConnectorBroadcast.OpenSessionHearsAll | connector/pkg/gatewayclient/client.go:404-411 | in every interleaving, while its session stays open the events of a batch are sent in order, each once |
| ConnectorBroadcast.BatchClearsIff | connector/pkg/gatewayclient/client.go:404-411 | in every interleaving, emitting a batch clears its session exactly if the batch ends or fails the answer |
| ConnectorContent.RequestsAskWhatFramesSay | connector/pkg/bridge/gateway_bridge.go:88-105 | every tracked request asks for an agent run exactly if the event in the frame that caused it is a user message, and then with its trimmed text, not empty; and to abort exactly if it is a stop |
| ConnectorOutcomes.OutcomeOfFrame | connector/pkg/bridge/gateway_bridge.go:62-106 | in every run, each frame delivered has exactly its outcome: one request for what its event wants, written to the connection found, or rolled back with one reply; or the one reply, with the code of the first condition that failed when it was looked at |
| ConnectorResolution.EventGoesToFirstMatch | connector/pkg/gatewayclient/client.go:414-436 | in every interleaving an event goes to the session of the first lookup that finds one, and to the latest exactly if none does |
| ConnectorResolution.FirstMatchMeans | connector/pkg/gatewayclient/client.go:418-432 | request by correlation id, then run by run id, then run by correlation id; empty ids match nothing |
| ConnectorResolution.TrackedEventNeverFallsBack | connector/pkg/gatewayclient/client.go:396-436 | an event whose id is a written request goes to its session, and one whose id is a run to a recorded one; neither reaches the fallback |
| ConnectorResolution.ServingReads | connector/pkg/gatewayclient/client.go:144-171 | what the serving loop does with each kind of message, and that a failed read ends it |
| ConnectorResolution.NamedEventGoesThere | connector/pkg/gatewayclient/client.go:414-417 | an event whose payload names a session is emitted for it, whatever is tracked |
| ConnectorResolution.ResponseGoesToRequest | connector/pkg/gatewayclient/client.go:345-359 | in every run, a response is emitted for the session of its request and its run recorded there, if the request is tracked when it is looked up; else it does nothing |
| ConnectorResolution.TrackedEventHappens | connector/pkg/gatewayclient/client.go:396-436 | a run from the start in which an event with a request's id goes to that request's session |
| ConnectorTheorems.NothingAfterClear | connector/pkg/gatewayclient/client.go:404-411 | a clear is the end of its batch: nothing is emitted after it |
| ConnectorTheorems.OneOutcomePerFrame | connector/pkg/bridge/gateway_bridge.go:62-106 | over every run frames handled = error replies + requests written, up to the frame in progress |
| ConnectorTheorems.ResponseGoesToAsker | connector/pkg/gatewayclient/client.go:345-394 | a frame caused by a response goes to the session of the request it answers |
| ConnectorTheorems.UntrackedForever | connector/pkg/gatewayclient/client.go:467-506 | a request that is no longer tracked never is again and gets no further terminal event |
| ConnectorTheorems.ClearedStaysSilent | connector/pkg/gatewayclient/client.go:493-506 | after a clear, responses to requests of that session tracked before it emit nothing |
| ConnectorTheorems.TrackedUntilCleared | connector/pkg/gatewayclient/client.go:396-412 | a request not rolled back is tracked exactly until the first clear of its session after it |
| ConnectorReconnect.ReadyAtGetConn | connector/pkg/gatewayclient/client.go:438-455 | if the client is still ready when the connection is read, it is an accepted one |
| ConnectorReconnect.WriteMayMissAccept | connector/pkg/gatewayclient/client.go:438-455 | from every state past the readiness check of a client that has not ended, a run that writes to a connection not accepted |
| ConnectorReconnect.MissesAcceptIffRunning | connector/pkg/gatewayclient/client.go:438-455 | there is such a run exactly if the client has not ended |
| ConnectorReconnect.AcceptIsMissed | connector/pkg/gatewayclient/client.go:438-455 | a run from the start in which it happens |
| ConnectorServer.Connector.HandleData | connector/pkg/bridge/gateway_bridge.go:62-106 | with the gateway reader running between any two accesses, the given frame is delivered and has exactly its outcome; a request is under the given id, for the session of the frame, and for what its event wants |
| ConnectorServer.Connector.SendTracked | connector/pkg/gatewayclient/client.go:304-316 | track, then write, or roll back and reply, with the gateway reader running in between |
| ConnectorServer.Connector.WriteJson | connector/pkg/gatewayclient/client.go:438-455 | the ready flag, the connection and the write as three steps: written on some connection, or the request stays to be rolled back |
| ConnectorServer.Connector.HandleResponse | connector/pkg/gatewayclient/client.go:345-394 | reads the given response and no other message, and from there to serving again finds the request, records its run, emits and clears, with the relay reader running in between |
| ConnectorServer.Connector.ResolveSessionId | connector/pkg/gatewayclient/client.go:414-436 | up to four locked lookups, with the relay reader running in between |
| ConnectorServer.Connector.EmitBatch | connector/pkg/gatewayclient/client.go:405-411 | emits each event and clears after a terminal one, with the relay reader running in between |
| ConnectorServer.Connector.HandleEvent | connector/pkg/gatewayclient/client.go:396-412 | reads the given event and no other message, and from there to serving again resolves, maps and emits, with the relay reader running in between; an event that names a session is emitted for it |
| GatewayClient.FallbackOnlyIfUntracked | connector/pkg/gatewayclient/client.go:414-436 | with no send in between, an event with a tracked id goes to a session with a tracked request; the fallback decides exactly if no lookup succeeds |
| GatewayClient.Client.ClearSessionTracks | connector/pkg/gatewayclient/client.go:493-506 | removes exactly the session's requests and runs while iterating |
| GatewayClient.Client.WriteJson | connector/pkg/gatewayclient/client.go:438-455 | writes exactly if ready, connected and the wire accepts |
| GatewayClient.Client.SendUserMessage | connector/pkg/gatewayclient/client.go:288-317 | a successful send adds exactly one entry and one request; a failed one restores the request map but not lastSessionID |
| GatewayClient.Client.SendCancel | connector/pkg/gatewayclient/client.go:319-337 | as above, for an abort request |
| GatewayClient.Client.ResolveSessionId | connector/pkg/gatewayclient/client.go:414-436 | payload, request, run, run by correlation, latest session, in that order; a session that the payload names under session_id, sessionId or sid decides |
| GatewayClient.Client.EmitBatch | connector/pkg/gatewayclient/client.go:405-411 | emits the whole batch; after a terminal no request or run of the session is left, otherwise tracks stay |
| GatewayClient.Client.HandleEvent | connector/pkg/gatewayclient/client.go:396-412 | the mapped batch goes to the resolved session, and to the one the payload names whatever is tracked; an empty session drops it |
| GatewayClient.Client.HandleResponse | connector/pkg/gatewayclient/client.go:345-394 | an unknown id changes nothing; a known one records its run, emits to its session and clears after a terminal |
| GatewayClient.Client.AwaitHandshake | connector/pkg/gatewayclient/client.go:175-286 | passes exactly at the challenge, or at the response to its own request with ok true, and fails for good exactly at a refusal for a lack of permission; the first deciding message decides |
| GatewayClient.Client.ConnectAndServe | connector/pkg/gatewayclient/client.go:109-173 | ends neither ready nor connected; nothing is handled unless this attempt was challenged and then accepted |
| BridgeTable.TableMeaning | connector/pkg/bridge/gateway_bridge.go:48-79 | a session is in the table exactly if its last open or close was an open; its flags are those of the last decodable frame since then, or 0 |
| BridgeTable.ReopeningKeepsFlags | connector/pkg/bridge/gateway_bridge.go:48-54 | opening an open session keeps its flags |
| ConnectorTable.TableIsHistory | connector/pkg/bridge/gateway_bridge.go:48-79 | in every interleaving the table is the one of the calls made, in the order in which they took the lock |
| GatewayBridge.FramesParse | connector/pkg/relayclient/client.go:144-150 | every frame on the link parses to the session, flags and event of an attempted send |
| GatewayBridge.RelayClient.SendData | connector/pkg/relayclient/client.go:144-161 | writes the built frame exactly if the id is valid, the link is up and accepts |
| GatewayBridge.GatewayBridge.BindGateway | connector/pkg/bridge/gateway_bridge.go:42-46 | sets the gateway and leaves the table alone |
| GatewayBridge.GatewayBridge.OpenSession | connector/pkg/bridge/gateway_bridge.go:48-54 | the table follows the call history; an open session is left alone |
| GatewayBridge.GatewayBridge.CloseSession | connector/pkg/bridge/gateway_bridge.go:56-60 | the table follows the call history |
| GatewayBridge.GatewayBridge.HandleData | connector/pkg/bridge/gateway_bridge.go:62-106 | exactly one outcome: one gateway request, for an agent run exactly for a user message and an abort exactly for a stop, or one error reply to this session with the code of the first failed condition |
| GatewayBridge.CodeTellsWhy | connector/pkg/bridge/gateway_bridge.go:62-106 | each of the eight codes occurs exactly in its case |
| GatewayBridge.GatewayBridge.ResolveSession | connector/pkg/bridge/gateway_bridge.go:136-154 | a named open session; without a name the only open one; otherwise none |
| GatewayBridge.GatewayBridge.HandleGatewayEvent | connector/pkg/bridge/gateway_bridge.go:108-115 | sent with exactly the table's flags, or dropped |
| GatewayBridge.GatewayBridge.HandleGatewayDisconnected | connector/pkg/bridge/gateway_bridge.go:117-134 | exactly one error for each open session, with its flags |
| GatewayBridge.GatewayBridge.HandleControl | connector/main.go:37-48 | SESSION_OPEN opens, CLOSE_SESSION closes, anything else changes nothing |
| GatewayBridge.GatewayBridge.HandleBinary | connector/pkg/relayclient/client.go:108-115 | a frame that does not parse is skipped; one that does has exactly one outcome, a request or an error reply for the session it names |
| GatewayBridge.GatewayBridge.ReadLoop | connector/pkg/relayclient/client.go:91-117 | handles the messages in order until a read fails and drops the connection; the table is the one of all calls made, over connections too |
| Config.Load | connector/pkg/config/config.go:35-84 | fails exactly if file, relay URL or access code is missing; otherwise the configuration in force |
| Config.Defaults | connector/pkg/config/config.go:43-83 | what is used for each field that the file leaves out |
| Config.LoadedIsFixed | connector/pkg/config/config.go:43-83 | what Load returns is complete and positive, and loading it again changes nothing |
| Config.ProtocolRange | connector/pkg/config/config.go:55-60 | when the protocol range in force is not empty |
| Backoff.Run | connector/pkg/gatewayclient/client.go:69-107 | a delay after exactly the failed attempts, each that of the failures in a row since the last nil return; stops at an authentication failure |
| Backoff.RecordedAsIntended | connector/pkg/gatewayclient/client.go:95-105 | below the bound every delay the loop waits is positive and the intended one for its streak of failures |
| Backoff.IntendedIffBounded | connector/pkg/gatewayclient/client.go:70-106 | for settings in nanoseconds all delays are initial, then min(initial * 2^n, max), and all are positive, exactly if both are below 2^62 |
| Backoff.IntendedIffSmall | connector/pkg/gatewayclient/client.go:70-106 | for configured seconds the delays are the intended ones exactly if neither setting is above 4611686018 s |
| Backoff.HugeSettingsWrap | connector/pkg/gatewayclient/client.go:70-71 | settings of 18446744074 s give delays of 290448384 ns for ever |
| Backoff.LoadedSettingsAreBounded | connector/pkg/config/config.go:76-81 | loaded settings of up to 4611686018 s meet that bound |
| Cli.WaitConnectOk | cli/main.go:181-204 | the first message that is CONNECT_OK, ERROR or a failed read decides: an id if it is CONNECT_OK with one, else an error; without such a message it waits to the end |
| Cli.EventForMeans | cli/main.go:216-233 | readLoop takes an event exactly from a frame built for its session whose payload decodes |
| Cli.ReadLoop | cli/main.go:206-242 | queues exactly the events of its own session, in order, until a read fails or the queue is full |
| CompositionSteps.ExecInv | connector/pkg/relayclient/client.go:62-118 | every step of relay, links, connectors and clients keeps the joint invariant |
| CompositionTheorems.TableFollowsChannel | connector/pkg/bridge/gateway_bridge.go:48-60 | a connector's table holds exactly the sessions about which the last message read is SESSION_OPEN |
| CompositionTheorems.NotOpenOnlyAfterClose | connector/pkg/bridge/gateway_bridge.go:69-74 | SESSION_NOT_OPEN answers a routed frame only after CLOSE_SESSION for its session was delivered, and that after SESSION_OPEN |
| CompositionTheorems.SendsAreWritten | connector/pkg/relayclient/client.go:144-161 | what a connector's step sends is written to its current connection as a frame that parses to it, and to no other link |
| CompositionTheorems.ReadsAreDelivered | connector/pkg/relayclient/client.go:91-117 | each message on the channel is read once; frames, SESSION_OPEN and CLOSE_SESSION are delivered, the others passed over |
| CompositionTheorems.OkPrecedesData | relay/main.go:309-332 | CONNECT_OK(id) precedes every frame for id on the client's channel |
| CompositionTheorems.SkippedFramesAreForeign | cli/main.go:181-204 | the binary frames waitConnectOK skips never belong to the session it returns, which is the client's own |
| CompositionTheorems.ClientFramesComeFromConnector | connector/pkg/relayclient/client.go:144-150 | what a client receives parses to exactly the session id, flags and encoded event of a connector's send, for the client's own session |
| CompositionTheorems.ClientDecodesWhatWasEmitted | cli/main.go:216-233 | the event a client takes from a frame is the one the connector emitted, if its encoding can be read back |
| CompositionTheorems.HandledComesFromClient | connector/pkg/bridge/gateway_bridge.go:62-106 | a frame a connector handles was sent by the client of the session it names |
| CompositionTheorems.ResponseReachesAsker | connector/pkg/gatewayclient/client.go:345-358 | a response that reaches a client answers a request made from a DATA frame that this very client sent: an agent run with its trimmed text if the event is a user message, an abort if it is a stop |
| CompositionRelay.RelayRuns | relay/main.go:68-333 | inside the composition the relay makes a run of its own step system, so all its theorems hold there |
| CompositionRelay.ScheduleIsHonest | connector/pkg/bridge/gateway_bridge.go:62-154 | in that run every connector sends DATA for announced sessions only |
| CompositionLeak.StaleIffClosedFirst | connector/pkg/bridge/gateway_bridge.go:48-60 | a connector that heard both messages still has the session exactly if CLOSE_SESSION came first, in every later state too |
| CompositionLeak.ClosedIsForgotten | connector/pkg/bridge/gateway_bridge.go:56-60 | if nobody asks to close a session before it is opened, a connector that heard CLOSE_SESSION does not keep it |
| CompositionLeak.SessionLeaks | connector/main.go:37-44 | a run from the start after which the table holds a session that the relay has closed |

## Left out

- WebSocket, HTTP upgrade, TLS, deadlines, heartbeat timers, context cancellation other than where a run ends, logging, metrics and the rate-limit stub: plumbing; only ordered channels and sends that may fail remain.
- JSON text: the model starts from decoded control messages, envelopes and a JSON tree; event payloads are encoded and decoded by functions that are parameters.
- SHA-256: CONNECT carries the hash of its access code; no claim depends on how it is computed.
- The texts of error messages in replies, `normalizeScopes`, `normalizeImages` and the fields of gateway requests other than id, session and content.
- `EchoBridge`, the web client and the CLI's prompt and reconnect loop: not used by the connector, or user interface.
- `DeleteByHash` and `Manager.Get`: nothing calls them.
- Message kinds other than text and binary, which the read loops skip.
- Scheduling fairness: nothing says that a goroutine is ever run, only what holds whenever it is.
- RelayServer.Server.Yield: its body does nothing; it stands for the other goroutines, and callers rely on its contract only.
- GatewayClient.Client.Serve: keeps the maps coherent and takes back nothing emitted; what each message does is stated by HandleEvent and HandleResponse.
- GatewayClient.Client.ConnectAndServe: one goroutine at a time; ConnectorSystem has the interleavings with sends.
- GatewayBridge.GatewayBridge.HandleData: one goroutine at a time, so readiness does not change within a call; ConnectorServer has it with the gateway reader running.
- ConnectorServer.Connector.GatewayRuns and ConnectorServer.Connector.ReaderRuns: their bodies do nothing; they stand for the other goroutine, and callers rely on their contracts only.
- ConnectorServer leaves the handshake, the reconnect loop and the broadcast after a disconnect to ConnectorSystem, where ConnectorTheorems, ConnectorReconnect and ConnectorBroadcast speak of them.
