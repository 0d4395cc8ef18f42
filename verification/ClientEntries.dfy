/**
 The per-client entry and the client map of the client manager: each mutex-protected
 section is one method, proved against a function on entry values. The protocol that
 threads run over these sections is in ClientVisits.
 */
module ClientEntries {
  import opened Words
  import opened Wrappers

  const INVALID_CLIENT_ID: uint64 := 0

  /** `hasClient` is whether the owned pointer is set; `destroyed` counts the clients handed out for destruction. */
  datatype Entry = Entry(hasClient: bool, visitActive: bool, visitor: Option<ThreadId>, removing: bool, destroyed: nat)

  const NEW_ENTRY := Entry(true, false, None, false, 0)

  datatype Outcome = Refused | MustWait | Entered

  /** The wait predicate, and what a thread does when it finds itself past it or not. */
  function TryEnter(e: Entry): Outcome {
    if e.visitActive && !e.removing then MustWait
    else if e.removing || !e.hasClient then Refused
    else Entered
  }

  function Visited(e: Entry, t: ThreadId): Entry {
    e.(visitActive := true, visitor := Some(t))
  }

  /** The pointer leaves the entry, if it is still there. */
  function Taken(e: Entry): Entry {
    if e.hasClient then e.(hasClient := false, destroyed := e.destroyed + 1) else e
  }

  function Marked(e: Entry): Entry {
    if e.visitActive then e.(removing := true) else Taken(e.(removing := true))
  }

  function Finished(e: Entry): Entry {
    var idle := e.(visitActive := false, visitor := None);
    if e.removing then Taken(idle) else idle
  }

  class ClientEntry {
    var hasClient: bool
    var visitActive: bool
    var visitingThreadId: Option<ThreadId>
    var removing: bool
    ghost var destroyed: nat

    constructor ()
      ensures Contents() == NEW_ENTRY == Entry(true, false, None, false, 0)
    {
      hasClient, visitActive, visitingThreadId, removing, destroyed := true, false, None, false, 0;
    }

    ghost function Contents(): Entry
      reads this
    {
      Entry(hasClient, visitActive, visitingThreadId, removing, destroyed)
    }

    /** One pass through the visitor's lock section: the guard on the first pass, then the wait predicate. */
    method TryVisit(t: ThreadId, firstPass: bool) returns (outcome: Outcome)
      modifies this
      ensures outcome.Refused? <==>
        (firstPass && old(visitActive) && old(visitingThreadId) == Some(t)) || old(removing)
        || (!old(visitActive) && !old(hasClient))
      ensures outcome.MustWait? <==>
        old(visitActive) && !old(removing) && !(firstPass && old(visitingThreadId) == Some(t))
      ensures outcome.Entered? <==> !old(visitActive) && !old(removing) && old(hasClient)
      ensures if outcome.Entered? then visitActive && visitingThreadId == Some(t)
              else visitActive == old(visitActive) && visitingThreadId == old(visitingThreadId)
      ensures hasClient == old(hasClient) && removing == old(removing) && destroyed == old(destroyed)
      ensures !(firstPass && old(visitActive) && old(visitingThreadId) == Some(t)) ==>
        outcome == old(TryEnter(Contents()))
      ensures outcome.Entered? ==> Contents() == old(Visited(Contents(), t))
    {
      if firstPass && visitActive && visitingThreadId == Some(t) {
        return Refused;
      }
      if visitActive && !removing {
        return MustWait;
      }
      if removing || !hasClient {
        return Refused;
      }
      visitActive := true;
      visitingThreadId := Some(t);
      outcome := Entered;
    }

    /** Hands the client to the remover unless a visit is under way. */
    method MarkForRemoval() returns (took: bool)
      modifies this
      ensures Contents() == old(Marked(Contents()))
      ensures took <==> old(hasClient) && !old(visitActive)
      ensures removing && visitActive == old(visitActive) && visitingThreadId == old(visitingThreadId)
      ensures hasClient == (old(hasClient) && !took) && destroyed == old(destroyed) + if took then 1 else 0
    {
      removing := true;
      if visitActive {
        return false;
      }
      took := TakeClient();
    }

    /** Hands the client to the finishing visitor if its removal was asked for during the visit. */
    method FinishVisit() returns (took: bool)
      modifies this
      ensures Contents() == old(Finished(Contents()))
      ensures took <==> old(hasClient) && old(removing)
      ensures !visitActive && visitingThreadId == None && removing == old(removing)
      ensures hasClient == (old(hasClient) && !took) && destroyed == old(destroyed) + if took then 1 else 0
    {
      visitActive := false;
      visitingThreadId := None;
      if !removing {
        return false;
      }
      took := TakeClient();
    }

    /** Moving out of the owning pointer leaves it empty. */
    method TakeClient() returns (took: bool)
      modifies this
      ensures Contents() == old(Taken(Contents()))
      ensures took == old(hasClient) && !hasClient && destroyed == old(destroyed) + if took then 1 else 0
      ensures visitActive == old(visitActive) && visitingThreadId == old(visitingThreadId) && removing == old(removing)
    {
      took := hasClient;
      if hasClient { destroyed := destroyed + 1; }
      hasClient := false;
    }
  }

  /** Ids are issued in order from 1; the counter reaches zero when they run out and then stays there. */
  function IdAfter(next: uint64): uint64 {
    if next == INVALID_CLIENT_ID then next else (next + 1) % UINT64_LIMIT
  }

  predicate IsIssued(nextClientId: uint64, id: uint64) {
    id != INVALID_CLIENT_ID && (nextClientId == INVALID_CLIENT_ID || id < nextClientId)
  }

  class ClientManager {
    var clients: map<uint64, ClientEntry>
    var nextClientId: uint64

    constructor ()
      ensures clients == map[] && nextClientId == 1
    {
      clients := map[];
      nextClientId := 1;
    }

    method AllocateClientId() returns (id: uint64)
      modifies this`nextClientId
      ensures id == old(nextClientId) && nextClientId == IdAfter(old(nextClientId))
      ensures nextClientId ==
        if id == 0 || id == 0xFFFF_FFFF_FFFF_FFFF then 0 else id + 1
    {
      if nextClientId == INVALID_CLIENT_ID {
        return INVALID_CLIENT_ID;
      }
      id := nextClientId;
      nextClientId := (nextClientId + 1) % UINT64_LIMIT;
    }

    /** Inserting does not replace: an id that is present keeps its entry. */
    method Emplace(id: uint64, entry: ClientEntry)
      modifies this`clients
      ensures clients == if id in old(clients) then old(clients) else old(clients)[id := entry]
    {
      if id !in clients {
        clients := clients[id := entry];
      }
    }

    /** Removal is visible at once: the entry leaves the map before anything is done with it. */
    method Detach(id: uint64) returns (entry: ClientEntry?)
      modifies this`clients
      ensures clients == old(clients) - {id}
      ensures if id in old(clients) then entry == old(clients)[id] else entry == null
    {
      if id !in clients {
        return null;
      }
      entry := clients[id];
      clients := clients - {id};
    }

    /** Moves every entry out, each exactly once, in the order the map happens to give. */
    method DetachAll() returns (ghost order: seq<uint64>, removed: seq<ClientEntry>)
      modifies this`clients
      ensures clients == map[]
      ensures |order| == |removed| && Distinct(order)
      ensures forall id :: id in order <==> id in old(clients)
      ensures forall i :: 0 <= i < |order| ==> order[i] in old(clients) && removed[i] == old(clients)[order[i]]
    {
      removed := [];
      order := [];
      var remaining := clients.Keys;
      while remaining != {}
        invariant remaining <= clients.Keys && clients == old(clients)
        invariant |order| == |removed| && Distinct(order)
        invariant forall id :: id in order <==> id in clients.Keys - remaining
        invariant forall i :: 0 <= i < |order| ==> order[i] in clients && removed[i] == clients[order[i]]
        decreases remaining
      {
        var id :| id in remaining;
        assert id !in order;
        removed := removed + [clients[id]];
        order := order + [id];
        remaining := remaining - {id};
      }
      clients := map[];
    }

    /** Adding without a callback running in between: a fresh idle entry under a new id. */
    method AddClient(hasClient: bool) returns (id: uint64)
      requires forall c :: c in clients ==> IsIssued(nextClientId, c)
      modifies this
      ensures id == if hasClient then old(nextClientId) else 0
      ensures id == 0 ==> clients == old(clients) && nextClientId == old(nextClientId)
      ensures id != 0 ==> id !in old(clients) && !IsIssued(old(nextClientId), id)
      ensures id != 0 ==> nextClientId == if id == 0xFFFF_FFFF_FFFF_FFFF then 0 else id + 1
      ensures id != 0 ==>
        id in clients && clients == old(clients)[id := clients[id]] && fresh(clients[id])
        && clients[id].Contents() == Entry(true, false, None, false, 0)
      ensures forall c :: c in clients ==> IsIssued(nextClientId, c)
    {
      if !hasClient {
        return INVALID_CLIENT_ID;
      }
      id := AllocateClientId();
      if id == INVALID_CLIENT_ID {
        return;
      }
      var entry := new ClientEntry();
      Emplace(id, entry);
    }

    /** Removing without anything running in between: the entry leaves the map and is marked. */
    method RemoveClient(id: uint64) returns (removed: bool, ghost entry: ClientEntry?)
      modifies this`clients, clients.Values
      ensures removed <==> id in old(clients)
      ensures entry == if id in old(clients) then old(clients)[id] else null
      ensures clients == old(clients) - {id}
      ensures entry != null ==> entry.Contents() == old(Marked(entry.Contents())) && entry.removing
      ensures entry != null ==> entry.hasClient == (old(entry.hasClient) && old(entry.visitActive))
      ensures forall e :: e in old(clients.Values) && e != entry ==> unchanged(e)
    {
      var detached := Detach(id);
      entry := detached;
      if detached == null {
        return false, entry;
      }
      var took := detached.MarkForRemoval();
      removed := true;
    }
  }
}
