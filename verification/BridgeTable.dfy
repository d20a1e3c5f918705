/** The bridge's open-session table as a function of the calls made so far, and what it means. */
module BridgeTable {
  import opened Protocol

  /** The calls that may change the table; Handled is a HandleData call whose payload decoded. */
  datatype Call =
    | Opened(sessionId: SessionId)
    | Closed(sessionId: SessionId)
    | Handled(sessionId: SessionId, flags: byte)

  function AfterCall(table: map<SessionId, byte>, c: Call): map<SessionId, byte> {
    match c
    case Opened(id) => if id in table then table else table[id := 0 as char]
    case Closed(id) => table - {id}
    case Handled(id, flags) => if id in table then table[id := flags] else table
  }

  /** The table that a history of calls leaves. */
  function TableOf(calls: seq<Call>): map<SessionId, byte> {
    if calls == [] then map[] else AfterCall(TableOf(calls[..|calls| - 1]), calls[|calls| - 1])
  }

  lemma TableSnoc(calls: seq<Call>, c: Call)
    ensures TableOf(calls + [c]) == AfterCall(TableOf(calls), c)
  {
    assert (calls + [c])[..|calls|] == calls;
  }

  /** The k-th call is the last that opens or closes the session. */
  ghost predicate LastToggle(calls: seq<Call>, id: SessionId, k: int) {
    && 0 <= k < |calls| && !calls[k].Handled? && calls[k].sessionId == id
    && forall j :: k < j < |calls| ==> calls[j].sessionId != id || calls[j].Handled?
  }

  /** The last open or close of the session is an open. */
  ghost predicate IsOpen(calls: seq<Call>, id: SessionId) {
    exists k :: LastToggle(calls, id, k) && calls[k].Opened?
  }

  /** The k-th call is the last HandleData on the session since it became open. */
  ghost predicate LastData(calls: seq<Call>, id: SessionId, k: int) {
    && 0 <= k < |calls| && calls[k].Handled? && calls[k].sessionId == id && IsOpen(calls[..k], id)
    && forall j :: k < j < |calls| ==> calls[j].sessionId != id || calls[j].Opened?
  }

  lemma IsOpenSnoc(calls: seq<Call>, c: Call, id: SessionId)
    ensures IsOpen(calls + [c], id) <==>
            if c.sessionId == id && !c.Handled? then c.Opened? else IsOpen(calls, id)
  {
    var next := calls + [c];
    assert calls == next[..|calls|];
    if c.sessionId == id && !c.Handled? {
      assert LastToggle(next, id, |calls|);
    } else {
      forall k ensures LastToggle(next, id, k) <==> LastToggle(calls, id, k) {
        if 0 <= k < |next| {
          assert next[k] == if k < |calls| then calls[k] else c;
          assert forall j :: k < j < |calls| ==> next[j] == calls[j];
        }
      }
    }
  }

  lemma LastDataSnoc(calls: seq<Call>, c: Call, id: SessionId, k: int)
    ensures LastData(calls + [c], id, k) <==>
            if k == |calls| then c.Handled? && c.sessionId == id && IsOpen(calls, id)
            else LastData(calls, id, k) && (c.sessionId != id || c.Opened?)
  {
    var next := calls + [c];
    if k == |calls| {
      assert next[..k] == calls;
    } else if 0 <= k < |calls| {
      assert next[..k] == calls[..k];
      assert next[|calls|] == c;
      assert forall j :: k <= j < |calls| ==> next[j] == calls[j];
    }
  }

  lemma {:induction false} OpenIffInTable(calls: seq<Call>, id: SessionId)
    ensures id in TableOf(calls) <==> IsOpen(calls, id)
  {
    if calls != [] {
      var prior, c := calls[..|calls| - 1], calls[|calls| - 1];
      assert calls == prior + [c];
      OpenIffInTable(prior, id);
      IsOpenSnoc(prior, c, id);
    }
  }

  /** A session is in the table exactly when its last open or close was an open; its flags are
      those of the last decodable HandleData since it became open, or 0 if there was none. */
  lemma {:induction false} TableMeaning(calls: seq<Call>, id: SessionId)
    ensures id in TableOf(calls) <==> IsOpen(calls, id)
    ensures id in TableOf(calls) ==>
              forall k :: LastData(calls, id, k) ==> TableOf(calls)[id] == calls[k].flags
    ensures id in TableOf(calls) && TableOf(calls)[id] != 0 as char ==>
              exists k :: LastData(calls, id, k)
    ensures id !in TableOf(calls) ==> forall k :: !LastData(calls, id, k)
  {
    OpenIffInTable(calls, id);
    if calls != [] {
      var prior, c := calls[..|calls| - 1], calls[|calls| - 1];
      assert calls == prior + [c];
      TableMeaning(prior, id);
      OpenIffInTable(prior, id);
      forall k
        ensures LastData(calls, id, k) <==>
                if k == |prior| then c.Handled? && c.sessionId == id && id in TableOf(prior)
                else LastData(prior, id, k) && (c.sessionId != id || c.Opened?)
      {
        LastDataSnoc(prior, c, id, k);
      }
      if id in TableOf(calls) && TableOf(calls)[id] != 0 as char {
        if c.Handled? && c.sessionId == id {
          assert LastData(calls, id, |prior|);
        } else {
          var k :| LastData(prior, id, k);
          assert LastData(calls, id, k);
        }
      }
    }
  }

  /** Opening a session that is open keeps its flags. */
  lemma ReopeningKeepsFlags(calls: seq<Call>, id: SessionId)
    requires IsOpen(calls, id)
    ensures TableOf(calls + [Opened(id)]) == TableOf(calls)
  {
    OpenIffInTable(calls, id);
    TableSnoc(calls, Opened(id));
  }
}
