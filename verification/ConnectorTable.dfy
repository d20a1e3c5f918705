/** The bridge's table in runs of the connector: whatever the gateway reader does in between, it is
    the table of the calls that the relay reader has made. */
module ConnectorTable {
  import opened Protocol
  import opened Events
  import opened BridgeTable
  import C = ConnectorSystem
  import CI = ConnectorInvariants
  import CT = ConnectorTheorems

  /** The call an access to the table stands for. */
  function CallOf(access: C.Access): seq<Call> {
    match access
    case TableOpen(id) => [Opened(id)]
    case TableClose(id) => [Closed(id)]
    case TableFlags(id, flags) => [Handled(id, flags)]
    case _ => []
  }

  /** The calls that the first n actions of a run make. */
  function CallsMade(lx: Lexicon, actions: seq<C.Action>, n: nat): seq<Call>
    requires n <= |actions|
  {
    if n == 0 then []
    else
      var before := CT.After(lx, actions, n - 1);
      var m := C.ReaderMoveOf(lx, before, actions[n - 1]);
      CallsMade(lx, actions, n - 1) + if m.Some? then CallOf(m.value.access) else []
  }

  lemma ApplyTable(n: C.Node, access: C.Access)
    requires access.TableFlags? ==> access.sessionId in n.table
    ensures C.Apply(n, access).table ==
            if CallOf(access) == [] then n.table else AfterCall(n.table, CallOf(access)[0])
  {
  }

  /** A frame's flags are recorded only for an open session, and the gateway reader leaves the table alone. */
  lemma TableMoves(lx: Lexicon, n: C.Node, a: C.Action)
    requires CI.Inv(n)
    ensures C.ReaderMoveOf(lx, n, a).Some? ==>
              var access := C.ReaderMoveOf(lx, n, a).value.access;
              access.TableFlags? ==> access.sessionId in n.table
    ensures a.Work? && C.GatewayStep(lx, n, a).Some? ==> CallOf(C.GatewayStep(lx, n, a).value.access) == []
  {
    hide C.Apply;
    if a.Work? && C.GatewayStep(lx, n, a).Some? {
      CI.GatewayEdge(lx, n, a);
      CI.GatewayAccess(n, C.GatewayStep(lx, n, a).value);
    }
  }

  lemma ExecTable(lx: Lexicon, n: C.Node, a: C.Action)
    requires CI.Inv(n)
    ensures C.Exec(lx, n, a).table ==
            var m := C.ReaderMoveOf(lx, n, a);
            if m.None? || CallOf(m.value.access) == [] then n.table else AfterCall(n.table, CallOf(m.value.access)[0])
  {
    hide C.Apply, C.GatewayStep, AfterCall, CallOf, CI.Inv;
    TableMoves(lx, n, a);
    if a.Work? {
      if C.GatewayStep(lx, n, a).Some? {
        NoCallNoFlags(C.GatewayStep(lx, n, a).value.access);
        ApplyTable(n, C.GatewayStep(lx, n, a).value.access);
      }
    } else if C.ReaderMoveOf(lx, n, a).Some? {
      ApplyTable(n, C.ReaderMoveOf(lx, n, a).value.access);
    }
  }

  lemma NoCallNoFlags(access: C.Access)
    ensures CallOf(access) == [] ==> !access.TableFlags?
    ensures |CallOf(access)| <= 1
  {
  }

  /** In every run the table is the one of the calls made, in the order in which they took the lock.
      So a session is in it exactly if its last open or close was an open, and carries the flags of
      its last frame since then. */
  lemma {:induction false} TableIsHistory(lx: Lexicon, actions: seq<C.Action>, n: nat)
    requires n <= |actions|
    ensures CT.After(lx, actions, n).table == TableOf(CallsMade(lx, actions, n))
    decreases n
  {
    hide C.Run, C.Exec, CT.After, C.ReaderMoveOf, CallOf, TableOf, CI.Inv;
    if n == 0 {
      CT.AfterNone(lx, actions);
      NoCalls();
    } else {
      TableIsHistory(lx, actions, n - 1);
      CT.AfterInv(lx, actions, n - 1);
      CT.AfterStep(lx, actions, n - 1);
      var before := CT.After(lx, actions, n - 1);
      ExecTable(lx, before, actions[n - 1]);
      var m := C.ReaderMoveOf(lx, before, actions[n - 1]);
      assert CallsMade(lx, actions, n - 1) + [] == CallsMade(lx, actions, n - 1);
      if m.Some? {
        NoCallNoFlags(m.value.access);
        if CallOf(m.value.access) != [] {
          assert CallOf(m.value.access) == [CallOf(m.value.access)[0]];
          TableSnoc(CallsMade(lx, actions, n - 1), CallOf(m.value.access)[0]);
        }
      }
    }
  }

  lemma NoCalls()
    ensures TableOf([]) == map[]
  {
  }
}
