/** What becomes of a peer that joins the relay: whom it is connected with, what both ends are told, and what
    a failed greeting leaves behind, in runs with any interleaving. */
module RelayGreetings {
  import opened Protocol
  import opened DataFrame
  import opened RelaySystem
  import opened RelayInvariants
  import opened RelayTheorems
  import opened RelayRefinement
  import opened RelayReplies

  /** A connection becomes a peer exactly if its first message is REGISTER with a hash, to the tunnel
      endpoint, or CONNECT with an access code, to the client endpoint. */
  lemma JoinsIff(s: State, p: PeerId, role: Role, first: Input)
    requires p !in s.peers
    ensures p in Exec(s, Accept(p, role, first)).peers <==>
            && first.Control?
            && match role
               case Connector => first.message.Register? && first.message.accessCodeHash != []
               case Client => first.message.Connect? && first.message.accessCode != []
    ensures p !in Exec(s, Accept(p, role, first)).peers ==> Exec(s, Accept(p, role, first)) == s
  {
  }

  // ----- a client -----

  /** The entry that the second turn finds under the hash. */
  ghost function EntryFound(actions: seq<Action>, turns: seq<nat>, hash: Bytes): Option<Entry> {
    if |turns| > 1 && turns[1] <= |actions| && hash in After(actions, turns[1]).auth
    then Some(After(actions, turns[1]).auth[hash]) else None
  }

  /** The session that the third turn makes for p, with the connector of this entry. */
  ghost function SessionMade(actions: seq<Action>, turns: seq<nat>, p: PeerId, entry: Entry, e2ee: bool): Session {
    Session(if |turns| > 2 && turns[2] < |actions| && actions[turns[2]].Go? then actions[turns[2]].choice else [],
            p, entry.peer, e2ee)
  }

  /** It is under a fresh id, and stored at once. */
  ghost predicate Stored(actions: seq<Action>, turns: seq<nat>, x: Session) {
    && |turns| > 2 && turns[2] < |actions| && x.id !in After(actions, turns[2]).created
    && x.id in After(actions, turns[2] + 1).sessions && After(actions, turns[2] + 1).sessions[x.id] == x
  }

  /** The fourth turn tells the client, with the capabilities of the connector. */
  ghost function OkTo(p: PeerId, x: Session, caps: Caps, q: PeerId): seq<Message> {
    if q == p then [Text(ConnectOk(x.id, Some(caps)))] else []
  }

  /** And the fifth tells the connector, with what the client asked for. */
  ghost function OpenTo(x: Session, q: PeerId): seq<Message> {
    if q == x.connector then [Text(SessionOpen(x.id, x.e2ee))] else []
  }

  /** Both could be told, the client first. */
  ghost predicate Greeted(actions: seq<Action>, i: nat, k: nat, p: PeerId, x: Session, caps: Caps)
    requires i <= k <= |actions|
  {
    var turns := Turns(actions, i, k, p);
    && |turns| > 4
    && Sendable(After(actions, turns[3]), p) && Sendable(After(actions, turns[4]), x.connector)
    && forall q :: SentBy(actions, i, k, p, q) == OkTo(p, x, caps, q) + OpenTo(x, q)
  }

  /** One of the two could not be told, and nobody has been told that the session is open. */
  ghost predicate Failed(actions: seq<Action>, i: nat, k: nat, p: PeerId, x: Session, caps: Caps)
    requires i <= k <= |actions|
  {
    var turns := Turns(actions, i, k, p);
    && |turns| > 3
    && (Sendable(After(actions, turns[3]), p) ==> |turns| > 4 && !Sendable(After(actions, turns[4]), x.connector))
    && forall q, m :: m in SentBy(actions, i, k, p, q) ==>
                        m == Text(Control.CloseSession(x.id)) || m in OkTo(p, x, caps, q)
  }

  /** What has become of a client that joined with this hash in action i - 1. Without a connector under the
      hash it gets an error, has no session and is about to clean up. Otherwise it has one with that
      connector; it is in its read loop if both have been told, and else the session is gone and it is
      about to clean up. */
  ghost predicate Admission(actions: seq<Action>, i: nat, k: nat, p: PeerId, hash: Bytes, e2ee: bool)
    requires i <= k <= |actions| && p in After(actions, k).peers
  {
    var turns, me := Turns(actions, i, k, p), After(actions, k).peers[p];
    && |turns| > 1
    && match EntryFound(actions, turns, hash)
       case None =>
         me.pc == CleanAuth && me.mine == None && Refused(actions, i, k, p, 2, "CONNECTOR_NOT_FOUND")
       case Some(entry) =>
         var x := SessionMade(actions, turns, p, entry, e2ee);
         && Stored(actions, turns, x) && me.mine == Some(x.id)
         && if me.pc == Loop then Greeted(actions, i, k, p, x, entry.caps)
            else me.pc == CleanAuth && Failed(actions, i, k, p, x, entry.caps) && x.id !in After(actions, k).sessions
  }

  // ----- where the goroutine is until then -----

  /** It has written nothing, and has no session yet. */
  ghost predicate Unseen(actions: seq<Action>, i: nat, k: nat, p: PeerId, turns: nat)
    requires i <= k <= |actions| && p in After(actions, k).peers
  {
    Silent(actions, i, k, p) && |Turns(actions, i, k, p)| == turns && After(actions, k).peers[p].mine.None?
  }

  /** It has stored the session x. */
  ghost predicate Has(actions: seq<Action>, i: nat, k: nat, p: PeerId, hash: Bytes, e2ee: bool, x: Session)
    requires i <= k <= |actions| && p in After(actions, k).peers
  {
    var turns := Turns(actions, i, k, p);
    var entry := EntryFound(actions, turns, hash);
    && entry.Some? && x == SessionMade(actions, turns, p, entry.value, e2ee) && Stored(actions, turns, x)
    && After(actions, k).peers[p].mine == Some(x.id)
  }

  /** It could not tell of the session x, and gives it up. */
  ghost predicate GivesUp(
    actions: seq<Action>, i: nat, k: nat, p: PeerId, hash: Bytes, e2ee: bool, id: SessionId, next: Next)
    requires i <= k <= |actions| && p in After(actions, k).peers
  {
    var turns := Turns(actions, i, k, p);
    var entry := EntryFound(actions, turns, hash);
    && next.ToCleanup? && entry.Some?
    && var x := SessionMade(actions, turns, p, entry.value, e2ee);
    x.id == id && Has(actions, i, k, p, hash, e2ee, x) && Failed(actions, i, k, p, x, entry.value.caps)
  }

  ghost predicate Phase(actions: seq<Action>, i: nat, k: nat, p: PeerId, hash: Bytes, e2ee: bool)
    requires i <= k <= |actions| && p in After(actions, k).peers
  {
    var turns := Turns(actions, i, k, p);
    var found := EntryFound(actions, turns, hash);
    match After(actions, k).peers[p].pc
    case ClientAdd(h, e) => h == hash && e == e2ee && Unseen(actions, i, k, p, 0)
    case ClientLookup(h, e) => h == hash && e == e2ee && Unseen(actions, i, k, p, 1)
    case ClientInsert(entry, e) => e == e2ee && Unseen(actions, i, k, p, 2) && found == Some(entry)
    case SendError(code, next) =>
      code == "CONNECTOR_NOT_FOUND" && next.ToCleanup? && Unseen(actions, i, k, p, 2) && found == None
    case ClientSendOk(x, caps) =>
      && |turns| == 3 && Has(actions, i, k, p, hash, e2ee, x) && caps == found.value.caps
      && Silent(actions, i, k, p)
    case ClientSendOpen(x) =>
      && |turns| == 4 && Has(actions, i, k, p, hash, e2ee, x) && Sendable(After(actions, turns[3]), p)
      && forall q :: SentBy(actions, i, k, p, q) == OkTo(p, x, found.value.caps, q)
    case CloseDelete(id, next) => GivesUp(actions, i, k, p, hash, e2ee, id, next)
    case CloseNotifyClient(x, next) =>
      GivesUp(actions, i, k, p, hash, e2ee, x.id, next) && x.id !in After(actions, k).sessions
    case CloseNotifyConnector(x, next) =>
      GivesUp(actions, i, k, p, hash, e2ee, x.id, next) && x.id !in After(actions, k).sessions
    case Loop => Admission(actions, i, k, p, hash, e2ee)
    case CleanAuth => Admission(actions, i, k, p, hash, e2ee)
    case _ => false
  }

  // ----- one step -----

  lemma FoundStays(actions: seq<Action>, i: nat, k: nat, n: nat, p: PeerId, hash: Bytes)
    requires i <= k <= n <= |actions| && Turns(actions, i, k, p) <= Turns(actions, i, n, p)
    requires |Turns(actions, i, k, p)| > 1
    ensures EntryFound(actions, Turns(actions, i, n, p), hash) == EntryFound(actions, Turns(actions, i, k, p), hash)
  {
    hide Turns, After;
  }

  lemma HasStays(
    actions: seq<Action>, i: nat, k: nat, n: nat, p: PeerId, hash: Bytes, e2ee: bool, x: Session)
    requires i <= k <= n <= |actions| && Turns(actions, i, k, p) <= Turns(actions, i, n, p)
    requires p in After(actions, k).peers && p in After(actions, n).peers
    requires After(actions, n).peers[p].mine == After(actions, k).peers[p].mine
    requires Has(actions, i, k, p, hash, e2ee, x)
    ensures Has(actions, i, n, p, hash, e2ee, x)
  {
    hide Turns, After, EntryFound;
    FoundStays(actions, i, k, n, p, hash);
  }

  lemma GivesUpStays(
    actions: seq<Action>, i: nat, k: nat, n: nat, p: PeerId, hash: Bytes, e2ee: bool, id: SessionId, next: Next)
    requires i <= k <= n <= |actions| && Turns(actions, i, k, p) <= Turns(actions, i, n, p)
    requires p in After(actions, k).peers && p in After(actions, n).peers
    requires After(actions, n).peers[p].mine == After(actions, k).peers[p].mine
    requires forall q, m :: m in SentBy(actions, i, n, p, q) ==>
                              m in SentBy(actions, i, k, p, q) || m == Text(Control.CloseSession(id))
    requires GivesUp(actions, i, k, p, hash, e2ee, id, next)
    ensures GivesUp(actions, i, n, p, hash, e2ee, id, next)
  {
    hide Turns, After, EntryFound, SentBy, SessionMade, Has, Sendable, OkTo;
    var entry := EntryFound(actions, Turns(actions, i, k, p), hash).value;
    var x := SessionMade(actions, Turns(actions, i, k, p), p, entry, e2ee);
    FoundStays(actions, i, k, n, p, hash);
    HasStays(actions, i, k, n, p, hash, e2ee, x);
    assert SessionMade(actions, Turns(actions, i, n, p), p, entry, e2ee) == x by {
      HasMade(actions, i, n, p, hash, e2ee, x);
    }
  }

  lemma HasMade(actions: seq<Action>, i: nat, k: nat, p: PeerId, hash: Bytes, e2ee: bool, x: Session)
    requires i <= k <= |actions| && p in After(actions, k).peers && Has(actions, i, k, p, hash, e2ee, x)
    ensures var found := EntryFound(actions, Turns(actions, i, k, p), hash);
            && found.Some? && x == SessionMade(actions, Turns(actions, i, k, p), p, found.value, e2ee)
            && |Turns(actions, i, k, p)| > 2 && x.client == p && x.connector == found.value.peer && x.e2ee == e2ee
  {
    hide Turns, After, EntryFound;
  }

  /** A session that p's goroutine has stored and that is not in the store any more stays away. */
  lemma MineStaysGone(
    actions: seq<Action>, i: nat, k: nat, p: PeerId, hash: Bytes, e2ee: bool, x: Session)
    requires i <= k < |actions| && p in After(actions, k).peers && Has(actions, i, k, p, hash, e2ee, x)
    requires x.id !in After(actions, k).sessions
    ensures x.id !in After(actions, k + 1).sessions
  {
    hide Turns, After, EntryFound, SessionMade;
    GoneStays(actions, Turns(actions, i, k, p)[2] + 1, k, x.id);
  }

  lemma GivesUpMade(
    actions: seq<Action>, i: nat, k: nat, p: PeerId, hash: Bytes, e2ee: bool, id: SessionId, next: Next)
    returns (x: Session)
    requires i <= k <= |actions| && p in After(actions, k).peers
    requires GivesUp(actions, i, k, p, hash, e2ee, id, next)
    ensures x.id == id && Has(actions, i, k, p, hash, e2ee, x)
  {
    hide Turns, After, EntryFound, SessionMade, Has, Failed;
    var turns := Turns(actions, i, k, p);
    x := SessionMade(actions, turns, p, EntryFound(actions, turns, hash).value, e2ee);
  }

  lemma AdmissionPauses(actions: seq<Action>, i: nat, k: nat, p: PeerId, hash: Bytes, e2ee: bool)
    requires i <= k < |actions| && p in After(actions, k).peers && Admission(actions, i, k, p, hash, e2ee)
    requires Pauses(actions, i, k, k + 1, p)
    ensures Admission(actions, i, k + 1, p, hash, e2ee)
  {
    hide SentBy, Turns, After, EntryFound, SessionMade, Refused, OkTo, OpenTo, Sendable, Stored;
    var turns := Turns(actions, i, k, p);
    FoundStays(actions, i, k, k + 1, p, hash);
    match EntryFound(actions, turns, hash) {
      case None => RefusedStays(actions, i, k, p, 2, "CONNECTOR_NOT_FOUND");
      case Some(entry) =>
        var x := SessionMade(actions, turns, p, entry, e2ee);
        if x.id !in After(actions, k).sessions {
          MineStaysGone(actions, i, k, p, hash, e2ee, x);
        }
    }
  }

  lemma PhasePauses(actions: seq<Action>, i: nat, k: nat, p: PeerId, hash: Bytes, e2ee: bool)
    requires i <= k < |actions| && p in After(actions, k).peers && Phase(actions, i, k, p, hash, e2ee)
    requires Pauses(actions, i, k, k + 1, p)
    ensures p in After(actions, k + 1).peers && Phase(actions, i, k + 1, p, hash, e2ee)
  {
    hide SentBy, Turns, After, EntryFound, SessionMade, OkTo, Sendable, Stored, Admission, Has, GivesUp;
    match After(actions, k).peers[p].pc {
      case Loop => AdmissionPauses(actions, i, k, p, hash, e2ee);
      case CleanAuth => AdmissionPauses(actions, i, k, p, hash, e2ee);
      case CloseDelete(id, next) => GivesUpStays(actions, i, k, k + 1, p, hash, e2ee, id, next);
      case CloseNotifyClient(x, next) =>
        GivesUpStays(actions, i, k, k + 1, p, hash, e2ee, x.id, next);
        GivenUpStaysGone(actions, i, k, p, hash, e2ee, x.id, next);
      case CloseNotifyConnector(x, next) =>
        GivesUpStays(actions, i, k, k + 1, p, hash, e2ee, x.id, next);
        GivenUpStaysGone(actions, i, k, p, hash, e2ee, x.id, next);
      case ClientSendOk(x, _) => HasStays(actions, i, k, k + 1, p, hash, e2ee, x);
      case ClientSendOpen(x) => HasStays(actions, i, k, k + 1, p, hash, e2ee, x);
      case _ =>
    }
  }

  lemma GivenUpStaysGone(
    actions: seq<Action>, i: nat, k: nat, p: PeerId, hash: Bytes, e2ee: bool, id: SessionId, next: Next)
    requires i <= k < |actions| && p in After(actions, k).peers
    requires GivesUp(actions, i, k, p, hash, e2ee, id, next) && id !in After(actions, k).sessions
    ensures id !in After(actions, k + 1).sessions
  {
    hide SentBy, Turns, After, GivesUp, Has;
    var x := GivesUpMade(actions, i, k, p, hash, e2ee, id, next);
    MineStaysGone(actions, i, k, p, hash, e2ee, x);
  }

  lemma EarlyTurn(actions: seq<Action>, i: nat, k: nat, p: PeerId, hash: Bytes, e2ee: bool)
    requires i <= k < |actions| && p in After(actions, k).peers && Phase(actions, i, k, p, hash, e2ee)
    requires IsTurn(After(actions, k), actions[k], p)
    requires After(actions, k).peers[p].pc.ClientAdd? || After(actions, k).peers[p].pc.ClientLookup?
    ensures p in After(actions, k + 1).peers && Phase(actions, i, k + 1, p, hash, e2ee)
  {
    hide SentBy, Turns, After, Admission, Has, GivesUp;
    TurnAdvances(actions, i, k, p, Step(After(actions, k), p, actions[k].choice).value);
  }

  lemma InsertTurn(actions: seq<Action>, i: nat, k: nat, p: PeerId, hash: Bytes, e2ee: bool)
    requires i <= k < |actions| && p in After(actions, k).peers && Phase(actions, i, k, p, hash, e2ee)
    requires IsTurn(After(actions, k), actions[k], p) && After(actions, k).peers[p].pc.ClientInsert?
    ensures p in After(actions, k + 1).peers && Phase(actions, i, k + 1, p, hash, e2ee)
  {
    hide SentBy, Turns, After, Admission, GivesUp, EntryFound;
    TurnAdvances(actions, i, k, p, Step(After(actions, k), p, actions[k].choice).value);
    FoundStays(actions, i, k, k + 1, p, hash);
  }

  lemma RefuseTurn(actions: seq<Action>, i: nat, k: nat, p: PeerId, hash: Bytes, e2ee: bool)
    requires i <= k < |actions| && p in After(actions, k).peers && Phase(actions, i, k, p, hash, e2ee)
    requires IsTurn(After(actions, k), actions[k], p) && After(actions, k).peers[p].pc.SendError?
    ensures p in After(actions, k + 1).peers && Phase(actions, i, k + 1, p, hash, e2ee)
  {
    hide SentBy, Turns, After, GivesUp, EntryFound, Step, Sendable, Greeted, Failed, Stored;
    SendErrorMove(After(actions, k), p, actions[k].choice);
    TurnAdvances(actions, i, k, p, Step(After(actions, k), p, actions[k].choice).value);
    FoundStays(actions, i, k, k + 1, p, hash);
  }

  lemma GreetMove(s: State, p: PeerId, choice: SessionId)
    requires p in s.peers && (s.peers[p].pc.ClientSendOk? || s.peers[p].pc.ClientSendOpen?)
    ensures var pc := s.peers[p].pc;
            var x := pc.session;
            Step(s, p, choice)
            == Some(if pc.ClientSendOk? then
                      Move(SendTo(p, Text(ConnectOk(x.id, Some(pc.caps)))),
                           if Sendable(s, p) then ClientSendOpen(x) else CloseDelete(x.id, ToCleanup))
                    else
                      Move(SendTo(x.connector, Text(SessionOpen(x.id, x.e2ee))),
                           if Sendable(s, x.connector) then Loop else CloseDelete(x.id, ToCleanup)))
  {
  }

  lemma OkTurn(actions: seq<Action>, i: nat, k: nat, p: PeerId, hash: Bytes, e2ee: bool)
    requires i <= k < |actions| && p in After(actions, k).peers && Phase(actions, i, k, p, hash, e2ee)
    requires IsTurn(After(actions, k), actions[k], p) && After(actions, k).peers[p].pc.ClientSendOk?
    ensures p in After(actions, k + 1).peers && Phase(actions, i, k + 1, p, hash, e2ee)
  {
    hide SentBy, Turns, After, EntryFound, Step, Sendable, Has, SessionMade, Admission;
    var x := After(actions, k).peers[p].pc.session;
    GreetMove(After(actions, k), p, actions[k].choice);
    TurnAdvances(actions, i, k, p, Step(After(actions, k), p, actions[k].choice).value);
    HasStays(actions, i, k, k + 1, p, hash, e2ee, x);
    FoundStays(actions, i, k, k + 1, p, hash);
    HasMade(actions, i, k + 1, p, hash, e2ee, x);
  }

  lemma OpenTurn(actions: seq<Action>, i: nat, k: nat, p: PeerId, hash: Bytes, e2ee: bool)
    requires i <= k < |actions| && p in After(actions, k).peers && Phase(actions, i, k, p, hash, e2ee)
    requires IsTurn(After(actions, k), actions[k], p) && After(actions, k).peers[p].pc.ClientSendOpen?
    ensures p in After(actions, k + 1).peers && Phase(actions, i, k + 1, p, hash, e2ee)
  {
    hide SentBy, Turns, After, EntryFound, Step, Sendable, SessionMade, Refused, Stored;
    var x := After(actions, k).peers[p].pc.session;
    GreetMove(After(actions, k), p, actions[k].choice);
    TurnAdvances(actions, i, k, p, Step(After(actions, k), p, actions[k].choice).value);
    HasStays(actions, i, k, k + 1, p, hash, e2ee, x);
    FoundStays(actions, i, k, k + 1, p, hash);
    HasMade(actions, i, k + 1, p, hash, e2ee, x);
  }

  lemma GaveUp(
    actions: seq<Action>, i: nat, k: nat, p: PeerId, hash: Bytes, e2ee: bool, id: SessionId, next: Next)
    requires i <= k <= |actions| && p in After(actions, k).peers && After(actions, k).peers[p].pc == CleanAuth
    requires GivesUp(actions, i, k, p, hash, e2ee, id, next) && id !in After(actions, k).sessions
    ensures Admission(actions, i, k, p, hash, e2ee)
  {
    hide SentBy, Turns, After, EntryFound, SessionMade, Greeted, Refused, Stored;
  }

  lemma AbandonTurn(actions: seq<Action>, i: nat, k: nat, p: PeerId, hash: Bytes, e2ee: bool)
    requires i <= k < |actions| && p in After(actions, k).peers && Phase(actions, i, k, p, hash, e2ee)
    requires IsTurn(After(actions, k), actions[k], p) && After(actions, k).peers[p].pc.CloseDelete?
    ensures p in After(actions, k + 1).peers && Phase(actions, i, k + 1, p, hash, e2ee)
  {
    hide SentBy, Turns, After, Step, GivesUp, Admission;
    var s := After(actions, k);
    var id, next := s.peers[p].pc.sessionId, s.peers[p].pc.next;
    CloseDeleteMove(s, p, actions[k].choice);
    AfterInv(actions, k);
    StoredUnder(s, id);
    TurnAdvances(actions, i, k, p, Step(s, p, actions[k].choice).value);
    GivesUpStays(actions, i, k, k + 1, p, hash, e2ee, id, next);
    GivesUpLeaves(actions, i, k, p, hash, e2ee, id, next);
    if id !in s.sessions {
      GaveUp(actions, i, k + 1, p, hash, e2ee, id, next);
    }
  }

  lemma GivesUpLeaves(
    actions: seq<Action>, i: nat, k: nat, p: PeerId, hash: Bytes, e2ee: bool, id: SessionId, next: Next)
    requires i <= k <= |actions| && p in After(actions, k).peers
    requires GivesUp(actions, i, k, p, hash, e2ee, id, next)
    ensures next.ToCleanup?
  {
  }

  lemma NotifyTurn(actions: seq<Action>, i: nat, k: nat, p: PeerId, hash: Bytes, e2ee: bool)
    requires i <= k < |actions| && p in After(actions, k).peers && Phase(actions, i, k, p, hash, e2ee)
    requires IsTurn(After(actions, k), actions[k], p)
    requires After(actions, k).peers[p].pc.CloseNotifyClient? || After(actions, k).peers[p].pc.CloseNotifyConnector?
    ensures p in After(actions, k + 1).peers && Phase(actions, i, k + 1, p, hash, e2ee)
  {
    hide SentBy, Turns, After, Step, GivesUp, Admission;
    var s := After(actions, k);
    var x, next := s.peers[p].pc.session, s.peers[p].pc.next;
    TellMove(s, p, actions[k].choice);
    TurnAdvances(actions, i, k, p, Step(s, p, actions[k].choice).value);
    GivesUpStays(actions, i, k, k + 1, p, hash, e2ee, x.id, next);
    GivesUpLeaves(actions, i, k, p, hash, e2ee, x.id, next);
    if s.peers[p].pc.CloseNotifyConnector? {
      GaveUp(actions, i, k + 1, p, hash, e2ee, x.id, next);
    }
  }

  lemma PhaseStep(actions: seq<Action>, i: nat, k: nat, p: PeerId, hash: Bytes, e2ee: bool)
    requires i <= k < |actions| && p in After(actions, k).peers && Phase(actions, i, k, p, hash, e2ee)
    requires !(actions[k].Read? && actions[k].peer == p)
    requires p in After(actions, k + 1).peers && !After(actions, k + 1).peers[p].pc.CleanSessions?
    ensures Phase(actions, i, k + 1, p, hash, e2ee)
  {
    if !IsTurn(After(actions, k), actions[k], p) {
      OtherPauses(actions, i, k, p);
      PhasePauses(actions, i, k, p, hash, e2ee);
    } else {
      match After(actions, k).peers[p].pc {
        case ClientAdd(_, _) => EarlyTurn(actions, i, k, p, hash, e2ee);
        case ClientLookup(_, _) => EarlyTurn(actions, i, k, p, hash, e2ee);
        case ClientInsert(_, _) => InsertTurn(actions, i, k, p, hash, e2ee);
        case SendError(_, _) => RefuseTurn(actions, i, k, p, hash, e2ee);
        case ClientSendOk(_, _) => OkTurn(actions, i, k, p, hash, e2ee);
        case ClientSendOpen(_) => OpenTurn(actions, i, k, p, hash, e2ee);
        case CloseDelete(_, _) => AbandonTurn(actions, i, k, p, hash, e2ee);
        case CloseNotifyClient(_, _) => NotifyTurn(actions, i, k, p, hash, e2ee);
        case CloseNotifyConnector(_, _) => NotifyTurn(actions, i, k, p, hash, e2ee);
        case CleanAuth => CleanTurn(actions, k, p);
      }
    }
  }

  lemma CleanTurn(actions: seq<Action>, k: nat, p: PeerId)
    requires k < |actions| && p in After(actions, k).peers && After(actions, k).peers[p].pc.CleanAuth?
    requires IsTurn(After(actions, k), actions[k], p)
    ensures p in After(actions, k + 1).peers && After(actions, k + 1).peers[p].pc.CleanSessions?
  {
    AfterStep(actions, k);
    hide After, Apply;
    OwnStep(After(actions, k), p, actions[k].choice, Move(AuthDeleteByPeer, CleanSessions));
  }

  /** p's goroutine has neither read anything more nor begun its cleanup in actions i to k. */
  ghost predicate Joining(actions: seq<Action>, i: nat, k: nat, p: PeerId)
    requires i <= k <= |actions|
  {
    && ReadsNothing(actions, i, k, p)
    && forall j :: i <= j <= k ==> p in After(actions, j).peers && !After(actions, j).peers[p].pc.CleanSessions?
  }

  lemma {:induction false} PhaseHolds(actions: seq<Action>, i: nat, k: nat, p: PeerId, hash: Bytes, e2ee: bool)
    requires i <= k <= |actions| && Joining(actions, i, k, p) && Phase(actions, i, i, p, hash, e2ee)
    ensures Phase(actions, i, k, p, hash, e2ee)
    decreases k
  {
    hide Phase, After;
    if k > i {
      PhaseHolds(actions, i, k - 1, p, hash, e2ee);
      PhaseStep(actions, i, k - 1, p, hash, e2ee);
    }
  }

  /** In every run: when a client that has sent CONNECT reaches its read loop, or its cleanup without ever
      having read anything more, it has had exactly this outcome, whatever the others did meanwhile. */
  lemma OutcomeOfConnect(actions: seq<Action>, i: nat, k: nat, p: PeerId, code: Bytes, hash: Bytes, e2ee: bool)
    requires i < k <= |actions| && p !in After(actions, i).peers && code != []
    requires actions[i] == Accept(p, Client, Input.Control(Connect(code, hash, e2ee)))
    requires Joining(actions, i + 1, k, p)
    requires After(actions, k).peers[p].pc.Loop? || After(actions, k).peers[p].pc.CleanAuth?
    ensures Admission(actions, i + 1, k, p, hash, e2ee)
  {
    hide Run, Exec, After;
    AfterStep(actions, i);
    JoinStep(After(actions, i), p, Client, actions[i].first);
    JoinsWithNothing(After(actions, i), p, actions[i].first);
    PhaseHolds(actions, i + 1, k, p, hash, e2ee);
  }

  lemma JoinsWithNothing(s: State, p: PeerId, first: Input)
    requires p !in s.peers && FirstPc(p, Client, first).Some?
    ensures var t := Exec(s, Accept(p, Client, first)); p in t.peers && t.peers[p].mine.None?
  {
  }

  // ----- a connector -----

  /** The second turn registers this entry under the hash. */
  ghost predicate Registers(actions: seq<Action>, turns: seq<nat>, hash: Bytes, entry: Entry) {
    && |turns| > 1 && turns[1] < |actions|
    && hash in After(actions, turns[1] + 1).auth && After(actions, turns[1] + 1).auth[hash] == entry
  }

  /** Another peer that was registered under the hash until then. */
  ghost predicate Replaces(actions: seq<Action>, turns: seq<nat>, hash: Bytes, p: PeerId, previous: PeerId) {
    && |turns| > 1 && turns[1] < |actions| && previous != p
    && hash in After(actions, turns[1]).auth && After(actions, turns[1]).auth[hash].peer == previous
  }

  ghost predicate Shut(s: State, q: PeerId) {
    q in s.peers ==> !s.peers[q].open
  }

  /** What has become of a connector that joined with this entry in action i - 1: it is registered, the
      connection of the one it has replaced is closed, and nobody was told anything. */
  ghost predicate Enlisted(actions: seq<Action>, i: nat, k: nat, p: PeerId, hash: Bytes, entry: Entry)
    requires i <= k <= |actions|
  {
    var turns := Turns(actions, i, k, p);
    && Registers(actions, turns, hash, entry) && Silent(actions, i, k, p)
    && forall q :: Replaces(actions, turns, hash, p, q) ==> Shut(After(actions, k), q)
  }

  ghost predicate Enlisting(actions: seq<Action>, i: nat, k: nat, p: PeerId, hash: Bytes, entry: Entry)
    requires i <= k <= |actions| && p in After(actions, k).peers
  {
    var turns := Turns(actions, i, k, p);
    match After(actions, k).peers[p].pc
    case TunnelAdd(h, e) => h == hash && e == entry && turns == [] && Silent(actions, i, k, p)
    case TunnelSet(h, e) => h == hash && e == entry && |turns| == 1 && Silent(actions, i, k, p)
    case TunnelClosePrevious(q) =>
      && Registers(actions, turns, hash, entry) && Silent(actions, i, k, p)
      && forall r :: Replaces(actions, turns, hash, p, r) ==> r == q
    case Loop => Enlisted(actions, i, k, p, hash, entry)
    case _ => false
  }

  lemma TurnsKeep(
    actions: seq<Action>, i: nat, k: nat, n: nat, p: PeerId, hash: Bytes, entry: Entry)
    requires i <= k <= n <= |actions| && Turns(actions, i, k, p) <= Turns(actions, i, n, p)
    requires Registers(actions, Turns(actions, i, k, p), hash, entry)
    ensures Registers(actions, Turns(actions, i, n, p), hash, entry)
    ensures forall q :: Replaces(actions, Turns(actions, i, n, p), hash, p, q) <==>
                        Replaces(actions, Turns(actions, i, k, p), hash, p, q)
  {
    hide Turns, After;
  }

  lemma ShutStays(actions: seq<Action>, k: nat, q: PeerId)
    requires k < |actions| && q in After(actions, k).peers && Shut(After(actions, k), q)
    ensures Shut(After(actions, k + 1), q)
  {
    hide After;
    AfterGrows(actions, k, k + 1);
  }

  lemma ReplacedIsPeer(actions: seq<Action>, turns: seq<nat>, k: nat, hash: Bytes, p: PeerId, q: PeerId)
    requires |turns| > 1 && turns[1] <= k <= |actions| && Replaces(actions, turns, hash, p, q)
    ensures q in After(actions, k).peers
  {
    hide After, Grows;
    AfterInv(actions, turns[1]);
    assert AuthTyped(After(actions, turns[1]));
    AfterGrows(actions, turns[1], k);
    PeerStays(After(actions, turns[1]), After(actions, k), q);
  }

  lemma PeerStays(s: State, t: State, q: PeerId)
    requires Grows(s, t) && q in s.peers
    ensures q in t.peers
  {
  }

  lemma EnlistingPauses(actions: seq<Action>, i: nat, k: nat, p: PeerId, hash: Bytes, entry: Entry)
    requires i <= k < |actions| && p in After(actions, k).peers && Enlisting(actions, i, k, p, hash, entry)
    requires Pauses(actions, i, k, k + 1, p)
    ensures p in After(actions, k + 1).peers && Enlisting(actions, i, k + 1, p, hash, entry)
  {
    hide SentBy, Turns, After, Registers, Replaces, Shut;
    var turns := Turns(actions, i, k, p);
    forall q | After(actions, k).peers[p].pc.Loop? && Replaces(actions, turns, hash, p, q)
      ensures Shut(After(actions, k + 1), q)
    {
      RegistersTwice(actions, turns, hash, entry);
      ReplacedIsPeer(actions, turns, k, hash, p, q);
      ShutStays(actions, k, q);
    }
  }

  lemma RegistersTwice(actions: seq<Action>, turns: seq<nat>, hash: Bytes, entry: Entry)
    requires Registers(actions, turns, hash, entry)
    ensures |turns| > 1
  {
  }

  lemma EnlistMove(s: State, p: PeerId, choice: SessionId)
    requires p in s.peers && (s.peers[p].pc.TunnelSet? || s.peers[p].pc.TunnelClosePrevious?)
    ensures var pc := s.peers[p].pc;
            Step(s, p, choice)
            == Some(if pc.TunnelSet? then
                      Move(AuthSet(pc.hash, pc.entry),
                           if pc.hash in s.auth && s.auth[pc.hash].peer != p
                           then TunnelClosePrevious(s.auth[pc.hash].peer) else Loop)
                    else Move(CloseConn(pc.previous), Loop))
  {
  }

  lemma SetTurn(actions: seq<Action>, i: nat, k: nat, p: PeerId, hash: Bytes, entry: Entry)
    requires i <= k < |actions| && p in After(actions, k).peers && Enlisting(actions, i, k, p, hash, entry)
    requires IsTurn(After(actions, k), actions[k], p) && After(actions, k).peers[p].pc.TunnelSet?
    ensures p in After(actions, k + 1).peers && Enlisting(actions, i, k + 1, p, hash, entry)
  {
    hide SentBy, Turns, After, Step, Shut;
    var s := After(actions, k);
    EnlistMove(s, p, actions[k].choice);
    TurnAdvances(actions, i, k, p, Step(s, p, actions[k].choice).value);
    AuthAfter(actions, k, p, Step(s, p, actions[k].choice).value);
    assert Turns(actions, i, k + 1, p)[1] == k;
  }

  lemma AuthAfter(actions: seq<Action>, k: nat, p: PeerId, m: Move)
    requires k < |actions| && actions[k].Go? && actions[k].peer == p && p in After(actions, k).peers
    requires Step(After(actions, k), p, actions[k].choice) == Some(m)
    ensures After(actions, k + 1).auth == Apply(After(actions, k), p, m.access).auth
  {
    hide Run, Exec, Step, Apply, After;
    AfterStep(actions, k);
    OwnStep(After(actions, k), p, actions[k].choice, m);
  }

  lemma ClosePreviousTurn(actions: seq<Action>, i: nat, k: nat, p: PeerId, hash: Bytes, entry: Entry)
    requires i <= k < |actions| && p in After(actions, k).peers && Enlisting(actions, i, k, p, hash, entry)
    requires IsTurn(After(actions, k), actions[k], p) && After(actions, k).peers[p].pc.TunnelClosePrevious?
    ensures p in After(actions, k + 1).peers && Enlisting(actions, i, k + 1, p, hash, entry)
  {
    hide SentBy, Turns, After, Step, Registers, Replaces;
    var s := After(actions, k);
    EnlistMove(s, p, actions[k].choice);
    TurnAdvances(actions, i, k, p, Step(s, p, actions[k].choice).value);
    TurnsKeep(actions, i, k, k + 1, p, hash, entry);
    PreviousIsShut(actions, k, p, s.peers[p].pc.previous);
  }

  lemma PreviousIsShut(actions: seq<Action>, k: nat, p: PeerId, q: PeerId)
    requires k < |actions| && actions[k].Go? && actions[k].peer == p && p in After(actions, k).peers
    requires Step(After(actions, k), p, actions[k].choice) == Some(Move(CloseConn(q), Loop))
    ensures Shut(After(actions, k + 1), q)
  {
    hide Run, Step, After;
    AfterStep(actions, k);
  }

  lemma EnlistingStep(actions: seq<Action>, i: nat, k: nat, p: PeerId, hash: Bytes, entry: Entry)
    requires i <= k < |actions| && p in After(actions, k).peers && Enlisting(actions, i, k, p, hash, entry)
    requires !(actions[k].Read? && actions[k].peer == p)
    ensures p in After(actions, k + 1).peers && Enlisting(actions, i, k + 1, p, hash, entry)
  {
    if !IsTurn(After(actions, k), actions[k], p) {
      OtherPauses(actions, i, k, p);
      EnlistingPauses(actions, i, k, p, hash, entry);
    } else if After(actions, k).peers[p].pc.TunnelAdd? {
      hide SentBy, Turns, After, Registers, Replaces, Shut;
      TurnAdvances(actions, i, k, p, Move(HubAdd, TunnelSet(hash, entry)));
    } else if After(actions, k).peers[p].pc.TunnelSet? {
      SetTurn(actions, i, k, p, hash, entry);
    } else {
      ClosePreviousTurn(actions, i, k, p, hash, entry);
    }
  }

  lemma {:induction false} EnlistingHolds(actions: seq<Action>, i: nat, k: nat, p: PeerId, hash: Bytes, entry: Entry)
    requires i <= k <= |actions| && ReadsNothing(actions, i, k, p)
    requires p in After(actions, i).peers && Enlisting(actions, i, i, p, hash, entry)
    ensures p in After(actions, k).peers && Enlisting(actions, i, k, p, hash, entry)
    decreases k
  {
    hide Enlisting, After;
    if k > i {
      EnlistingHolds(actions, i, k - 1, p, hash, entry);
      EnlistingStep(actions, i, k - 1, p, hash, entry);
    }
  }

  /** In every run: when a connector that has sent REGISTER reaches its read loop, it has been registered with
      what it sent, whatever the others did meanwhile. */
  lemma OutcomeOfRegister(
    actions: seq<Action>, i: nat, k: nat, p: PeerId, hash: Bytes, generation: int, caps: Option<Caps>)
    requires i < k <= |actions| && p !in After(actions, i).peers && hash != []
    requires actions[i] == Accept(p, Connector, Input.Control(Register(hash, generation, caps)))
    requires ReadsNothing(actions, i + 1, k, p)
    requires p in After(actions, k).peers && After(actions, k).peers[p].pc.Loop?
    ensures Enlisted(actions, i + 1, k, p, hash,
                     Entry(p, generation, match caps case Some(given) => given case None => Caps(false)))
  {
    hide Run, Exec, After, Enlisted;
    var entry := Entry(p, generation, match caps case Some(given) => given case None => Caps(false));
    AfterStep(actions, i);
    JoinStep(After(actions, i), p, Connector, actions[i].first);
    EnlistingHolds(actions, i + 1, k, p, hash, entry);
  }
}
