/** The relay's three stores. Each method is one critical section of its lock, and its contract
    ties it to the map operation that the relay's step system performs in that step. */
module Stores {
  import opened Protocol
  import opened RelaySystem

  /** relay/pkg/hub: the registered peers. */
  class HubManager {
    var peers: set<PeerId>

    constructor ()
      ensures peers == {}
    {
      peers := {};
    }

    method Add(p: PeerId)
      modifies this
      ensures peers == old(peers) + {p}
    {
      peers := peers + {p};
    }

    method Remove(p: PeerId)
      modifies this
      ensures peers == old(peers) - {p}
    {
      peers := peers - {p};
    }
  }

  /** relay/pkg/authmap: which connector is registered under a hash. */
  class AuthStore {
    var byHash: map<Bytes, Entry>

    constructor ()
      ensures byHash == map[]
    {
      byHash := map[];
    }

    method Set(hash: Bytes, entry: Entry) returns (previous: Option<Entry>)
      modifies this
      ensures byHash == old(byHash)[hash := entry]
      ensures previous == if hash in old(byHash) then Some(old(byHash)[hash]) else None
    {
      previous := if hash in byHash then Some(byHash[hash]) else None;
      byHash := byHash[hash := entry];
    }

    method Get(hash: Bytes) returns (entry: Option<Entry>)
      ensures entry == if hash in byHash then Some(byHash[hash]) else None
    {
      entry := if hash in byHash then Some(byHash[hash]) else None;
    }

    /** Deletes while iterating, in whatever order the map yields its keys. */
    method DeleteByPeer(p: PeerId) returns (deleted: seq<Bytes>)
      modifies this
      ensures byHash == WithoutPeer(old(byHash), p)
      ensures forall h :: h in deleted <==> h in old(byHash) && old(byHash)[h].peer == p
      ensures forall i, j :: 0 <= i < j < |deleted| ==> deleted[i] != deleted[j]
    {
      deleted := [];
      var todo := byHash.Keys;
      while todo != {}
        invariant todo <= old(byHash).Keys
        invariant forall h :: h in byHash <==> h in old(byHash) && (h in todo || old(byHash)[h].peer != p)
        invariant forall h :: h in byHash ==> byHash[h] == old(byHash)[h]
        invariant forall h :: h in deleted <==> h in old(byHash) && h !in todo && old(byHash)[h].peer == p
        invariant forall i, j :: 0 <= i < j < |deleted| ==> deleted[i] != deleted[j]
        decreases todo
      {
        var hash :| hash in todo;
        if byHash[hash].peer == p {
          byHash := byHash - {hash};
          deleted := deleted + [hash];
        }
        todo := todo - {hash};
      }
    }
  }

  /** The list holds each session of the map once, in some order. */
  ghost predicate Lists(xs: seq<Session>, m: map<SessionId, Session>) {
    && (forall i, j :: 0 <= i < j < |xs| ==> xs[i].id != xs[j].id)
    && (forall x :: x in xs ==> x.id in m && m[x.id] == x)
    && (forall id :: id in m ==> m[id] in xs)
  }

  lemma ListsRest(xs: seq<Session>, m: map<SessionId, Session>)
    requires Lists(xs, m) && (forall id :: id in m ==> m[id].id == id)
    ensures xs == [] <==> m == map[]
    ensures xs != [] ==> Lists(xs[1..], m - {xs[0].id})
  {
    if xs != [] {
      assert xs == [xs[0]] + xs[1..];
      assert xs[0] in xs;
    }
  }

  lemma ListsNext(xs: seq<Session>, i: nat, m: map<SessionId, Session>)
    requires i < |xs| && Lists(xs[i..], m) && (forall id :: id in m ==> m[id].id == id)
    ensures xs[i].id in m && m[xs[i].id] == xs[i] && Lists(xs[i + 1..], m - {xs[i].id})
  {
    assert xs[i..][0] == xs[i] && xs[i] in xs[i..];
    assert xs[i..][1..] == xs[i + 1..];
    ListsRest(xs[i..], m);
  }

  /** relay/pkg/sessions: the live sessions. */
  class SessionStore {
    var data: map<SessionId, Session>

    ghost predicate Valid()
      reads this
    {
      forall id :: id in data ==> data[id].id == id
    }

    constructor ()
      ensures Valid() && data == map[]
    {
      data := map[];
    }

    method Set(x: Session)
      requires Valid()
      modifies this
      ensures Valid() && data == old(data)[x.id := x]
    {
      data := data[x.id := x];
    }

    method Get(id: SessionId) returns (x: Option<Session>)
      ensures x == if id in data then Some(data[id]) else None
    {
      x := if id in data then Some(data[id]) else None;
    }

    /** Of several callers racing to delete one session, only one is given it. */
    method Delete(id: SessionId) returns (x: Option<Session>)
      requires Valid()
      modifies this
      ensures Valid() && data == old(data) - {id}
      ensures x == if id in old(data) then Some(old(data)[id]) else None
    {
      if id !in data {
        assert data - {id} == data;
        return None;
      }
      x := Some(data[id]);
      data := data - {id};
    }

    /** Deletes while iterating. The list holds each removed session once. */
    method DeleteByPeer(p: PeerId) returns (removed: seq<Session>)
      requires Valid()
      modifies this
      ensures Valid() && data == SessionsWithout(old(data), p)
      ensures Lists(removed, SessionsOf(old(data), p))
    {
      removed := [];
      var todo := data.Keys;
      while todo != {}
        invariant todo <= old(data).Keys
        invariant forall id :: id in data <==> id in old(data) && (id in todo || !Involves(old(data)[id], p))
        invariant forall id :: id in data ==> data[id] == old(data)[id]
        invariant forall i, j :: 0 <= i < j < |removed| ==> removed[i].id != removed[j].id
        invariant forall x :: x in removed ==>
                                x.id in old(data) && x.id !in todo && x == old(data)[x.id] && Involves(x, p)
        invariant forall id :: id in old(data) && id !in todo && Involves(old(data)[id], p) ==> old(data)[id] in removed
        decreases todo
      {
        var id :| id in todo;
        var x := data[id];
        if x.client == p || x.connector == p {
          removed := removed + [x];
          data := data - {id};
        }
        todo := todo - {id};
      }
    }
  }
}
