/** The relay object: the subscription tables its handlers change between await points. */
module RelayServices {
  import opened Text
  import opened Events
  import opened Filters
  import opened Normalize
  import opened Store
  import opened EventStores
  import opened Relay

  /** The OK an EVENT handler answers with: saved, already there, or not confirmed. */
  datatype Reply = Accepted | Duplicate | Unconfirmed

  class RelayService {
    var connections: Connections

    constructor ()
      ensures connections == map[]
    {
      connections := map[];
    }

    method ConnectSocket(conn: nat)
      modifies this
      ensures connections.Keys == old(connections).Keys + {conn}
      ensures forall other: nat, n, sub ::
        Open(connections, other, n, sub) <==> other != conn && Open(old(connections), other, n, sub)
    {
      connections := connections[conn := map[]];
    }

    method DisconnectSocket(conn: nat)
      modifies this
      ensures connections.Keys == old(connections).Keys - {conn}
      ensures forall other: nat, n, sub ::
        Open(connections, other, n, sub) <==> other != conn && Open(old(connections), other, n, sub)
    {
      connections := connections - {conn};
    }

    /** _handle_event on a validated event: it is saved, and broadcast exactly if it was new. */
    method HandleEvent(store: EventStore, e: Event, fault: Fault) returns (reply: Reply, sends: set<nat>)
      requires store.Valid() && WellFormed(e)
      modifies store
      ensures store.Valid()
      ensures reply.Unconfirmed? ==> store.State() == old(store.State())
      ensures fault.NoFault? && EventFits(e) ==> !reply.Unconfirmed?
      ensures reply.Duplicate? ==> e.id in old(store.events) && store.events == old(store.events)
      ensures reply.Accepted? ==> e.id !in old(store.events) && store.events == old(store.events)[e.id := e]
      ensures forall conn, name :: conn in connections && name in connections[conn] ==>
        reply.Accepted? && MatchesAny(e, connections[conn][name].filters) ==> connections[conn][name].request in sends
      ensures sends == if reply.Accepted? then Recipients(connections, e) else {}
    {
      hide SaveTables, TablesOk, MatchesAny;
      SaveKeepsStored(store.State(), e, None, 1000, None);
      var saved := store.Save(e, None, 1000, None, fault);
      sends := {};
      if saved.Raised? {
        return Unconfirmed, {};
      }
      if !saved.inserted {
        return Duplicate, {};
      }
      reply := Accepted;
      sends := Broadcast(e);
    }

    /** _handle_req up to its query: the old subscription of that name goes, and the new one is registered
        only if its payload normalizes to filters within bounds. */
    method RegisterSubscription(conn: nat, name: string, payload: seq<RawFilter>, request: nat) returns (ok: bool)
      requires conn in connections
      modifies this
      ensures ok <==> |payload| <= 16 && InBounds(CleanAll(payload))
      ensures connections.Keys == old(connections).Keys
      ensures forall sub ::
        Open(connections, conn, name, sub) <==> ok && sub == Subscription(CleanAll(payload), request)
      ensures forall other: nat, n, sub :: (other, n) != (conn, name) ==>
        (Open(connections, other, n, sub) <==> Open(old(connections), other, n, sub))
      ensures forall s: RelayState :: s.conns == old(connections) ==>
        connections == Registering(s, request, Asked(conn, name, CleanAll(payload)), |payload| > 16).conns
    {
      connections := connections[conn := connections[conn] - {name}];
      var filters := NormalizeFilters(payload);
      ok := filters.Some?;
      if ok {
        connections := connections[conn := connections[conn][name := Subscription(filters.value, request)]];
      }
    }

    /** _handle_close, and the cleanup of a REQ whose query failed. */
    method CloseSubscription(conn: nat, name: string)
      requires conn in connections
      modifies this
      ensures connections.Keys == old(connections).Keys
      ensures forall other: nat, n, sub ::
        Open(connections, other, n, sub) <==> (other, n) != (conn, name) && Open(old(connections), other, n, sub)
    {
      connections := connections[conn := connections[conn] - {name}];
    }

    /** broadcast: visits every connection and subscription, and sends wherever the filters match. */
    method Broadcast(e: Event) returns (sends: set<nat>)
      ensures sends == Recipients(connections, e)
    {
      sends := {};
      var conns := connections.Keys;
      while conns != {}
        invariant conns <= connections.Keys
        invariant sends == Recipients(connections - conns, e)
        decreases conns
      {
        var conn :| conn in conns;
        var found := MatchingOn(conn, e);
        RecipientsAdd(connections, conns, conn, e);
        sends := sends + found;
        conns := conns - {conn};
      }
      assert connections - conns == connections;
    }

    method MatchingOn(conn: nat, e: Event) returns (found: set<nat>)
      requires conn in connections
      ensures found == On(connections[conn], e)
    {
      found := {};
      var subs := connections[conn];
      var names := subs.Keys;
      while names != {}
        invariant names <= subs.Keys
        invariant found == set n | n in subs && n !in names && MatchesAny(e, subs[n].filters) :: subs[n].request
        decreases names
      {
        var name :| name in names;
        if MatchesAny(e, subs[name].filters) {
          found := found + {subs[name].request};
        }
        names := names - {name};
      }
    }
  }

  function On(subs: map<string, Subscription>, e: Event): set<nat> {
    set n | n in subs && MatchesAny(e, subs[n].filters) :: subs[n].request
  }

  lemma RecipientsAdd(conns: Connections, todo: set<nat>, conn: nat, e: Event)
    requires conn in todo && todo <= conns.Keys
    ensures Recipients(conns - (todo - {conn}), e) == Recipients(conns - todo, e) + On(conns[conn], e)
  {
    hide MatchesAny;
    var before, after := conns - todo, conns - (todo - {conn});
    assert after == before[conn := conns[conn]];
    forall r | r in Recipients(after, e) ensures r in Recipients(before, e) + On(conns[conn], e) {
      var c, n :| c in after && n in after[c] && MatchesAny(e, after[c][n].filters) && r == after[c][n].request;
      if c != conn {
        assert c in before && before[c] == after[c];
      }
    }
    forall r | r in Recipients(before, e) ensures r in Recipients(after, e) {
      var c, n :| c in before && n in before[c] && MatchesAny(e, before[c][n].filters) && r == before[c][n].request;
      assert c in after && after[c] == before[c];
    }
    forall r | r in On(conns[conn], e) ensures r in Recipients(after, e) {
      var n :| n in conns[conn] && MatchesAny(e, conns[conn][n].filters) && r == conns[conn][n].request;
      assert conn in after && n in after[conn];
    }
  }
}
