/**
 The operations a server offers under its client-session lock: clients and their sessions together.
 `Valid` includes that every live session belongs to a registered client.
 */
module ServerCores {
  import opened ClientEntries
  import opened PacketAuthentication
  import opened ProcessorManagers
  import opened SessionLookup
  import opened Sessions
  import opened SlotTable
  import opened Words
  import opened Wrappers

  ghost predicate NoOrphans(sessions: map<Handle, Session>, clients: set<uint64>) {
    forall h :: h in sessions ==> sessions[h].clientId in clients
  }

  /** Removing a client's sessions with the client leaves no orphan. */
  lemma OthersHaveClients(sessions: map<Handle, Session>, clients: set<uint64>, id: nat)
    requires NoOrphans(sessions, clients)
    ensures NoOrphans(OwnedByOthers(sessions, OwnerOf, id), clients - {id})
  {}

  class ServerCore {
    const clientManager: ClientManager
    const processorManager: ProcessorManager

    constructor (mac: Mac, capacity: nat)
      requires capacity < UINT32_LIMIT
      ensures Valid() && Clients() == {} && Sessions() == map[]
      ensures fresh(clientManager) && fresh(processorManager.sessionLookupTable)
      ensures fresh(processorManager.sessionLookupTable.slots)
    {
      clientManager := new ClientManager();
      processorManager := new ProcessorManager(mac, capacity);
    }

    ghost function Clients(): set<uint64>
      reads clientManager
    {
      clientManager.clients.Keys
    }

    ghost function Sessions(): map<Handle, Session>
      reads processorManager.sessionLookupTable, processorManager.sessionLookupTable.slots
    {
      processorManager.Sessions()
    }

    ghost predicate Valid()
      reads clientManager, processorManager.sessionLookupTable, processorManager.sessionLookupTable.slots,
            Sessions().Values
    {
      && processorManager.Valid()
      && NoOrphans(Sessions(), Clients())
      && forall id :: id in Clients() ==> IsIssued(clientManager.nextClientId, id)
    }

    /** Fails only without a client or when the ids have run out; a new id was never used before. */
    method AddClient(hasClient: bool) returns (id: uint64)
      requires Valid()
      modifies clientManager
      ensures Valid() && Sessions() == old(Sessions())
      ensures id == if hasClient then old(clientManager.nextClientId) else 0
      ensures id == INVALID_CLIENT_ID ==> clientManager.clients == old(clientManager.clients)
      ensures id != INVALID_CLIENT_ID ==>
        id !in old(Clients()) && !IsIssued(old(clientManager.nextClientId), id)
        && IsIssued(clientManager.nextClientId, id)
        && id in Clients() && fresh(clientManager.clients[id])
        && clientManager.clients[id].Contents() == Entry(true, false, None, false, 0)
        && clientManager.clients == old(clientManager.clients)[id := clientManager.clients[id]]
    {
      id := clientManager.AddClient(hasClient);
    }

    /** The client's sessions go first, all of them and no others; then the client itself is detached and marked. */
    method RemoveClient(id: uint64) returns (removed: bool, ghost entry: ClientEntry?)
      requires Valid()
      modifies clientManager, clientManager.clients.Values,
               processorManager.sessionLookupTable, processorManager.sessionLookupTable.slots
      ensures Valid()
      ensures removed <==> id in old(Clients())
      ensures entry == if id in old(Clients()) then old(clientManager.clients)[id] else null
      ensures clientManager.clients == old(clientManager.clients) - {id}
      ensures clientManager.nextClientId == old(clientManager.nextClientId)
      ensures Sessions() == OwnedByOthers(old(Sessions()), OwnerOf, id)
      ensures forall h :: h in Sessions() <==> h in old(Sessions()) && old(Sessions())[h].clientId != id
      ensures forall h :: h in Sessions() ==> Sessions()[h] == old(Sessions())[h]
      ensures entry != null ==> entry.removing && entry.hasClient == (old(entry.hasClient) && old(entry.visitActive))
      ensures entry != null ==> entry.Contents() == old(Marked(entry.Contents()))
      ensures forall e :: e in old(clientManager.clients.Values) && e != entry ==> unchanged(e)
    {
      ghost var sessions, clients := Sessions(), Clients();
      var count := processorManager.RemoveClientSessions(id);
      OthersHaveClients(sessions, clients, id);
      removed, entry := DetachClient(id);
    }

    /** The second half of a removal: it does not touch the sessions. */
    method DetachClient(id: uint64) returns (removed: bool, ghost entry: ClientEntry?)
      requires processorManager.Valid()
      modifies clientManager, clientManager.clients.Values
      ensures processorManager.Valid() && Sessions() == old(Sessions())
      ensures removed <==> id in old(Clients())
      ensures entry == if id in old(Clients()) then old(clientManager.clients)[id] else null
      ensures clientManager.clients == old(clientManager.clients) - {id}
      ensures clientManager.nextClientId == old(clientManager.nextClientId)
      ensures entry != null ==> entry.removing && entry.hasClient == (old(entry.hasClient) && old(entry.visitActive))
      ensures entry != null ==> entry.Contents() == old(Marked(entry.Contents()))
      ensures forall e :: e in old(clientManager.clients.Values) && e != entry ==> unchanged(e)
    {
      removed, entry := clientManager.RemoveClient(id);
    }

    /** A session is created only for a registered client, with a valid key, while there is room. */
    method RegisterClientSession(now: int, clientId: uint64, remoteAddress: Endpoint, key: Key) returns (id: uint64)
      requires Valid()
      modifies processorManager.sessionLookupTable, processorManager.sessionLookupTable.slots
      ensures Valid()
      ensures id != INVALID_CONNECTION_ID <==>
        clientId in Clients() && ValidKey(key) && !old(Full(processorManager.sessionLookupTable.Contents()))
      ensures id == INVALID_CONNECTION_ID ==> Sessions() == old(Sessions())
      ensures id != INVALID_CONNECTION_ID ==>
        Unpack(id) !in old(Sessions()) && Unpack(id) in Sessions()
        && Sessions() == old(Sessions())[Unpack(id) := Sessions()[Unpack(id)]]
        && fresh(Sessions()[Unpack(id)]) && Sessions()[Unpack(id)].clientId == clientId
        && Sessions()[Unpack(id)].remoteAddress == remoteAddress && Sessions()[Unpack(id)].authenticationKey == key
    {
      if clientId !in clientManager.clients {
        return INVALID_CONNECTION_ID;
      }
      ghost var session;
      id, session := processorManager.RegisterClientSession(now, clientId, remoteAddress, key);
    }

    method RemoveClientSession(id: uint64) returns (removed: bool)
      requires Valid()
      modifies processorManager.sessionLookupTable, processorManager.sessionLookupTable.slots
      ensures Valid()
      ensures removed <==> Unpack(id) in old(Sessions())
      ensures Sessions() == old(Sessions()) - {Unpack(id)}
    {
      ghost var before := Sessions();
      removed := processorManager.sessionLookupTable.Release(id);
      FewerStayValid(before, Unpack(id));
    }
  }
}
