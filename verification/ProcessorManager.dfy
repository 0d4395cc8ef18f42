/**
 The sequential bodies of the packet and disconnect paths, over the session table and the session
 objects: what one call does when nothing runs in between. Server interleaves their sections.
 */
module ProcessorManagers {
  import opened PacketAuthentication
  import opened ReplayWindow
  import opened SessionLookup
  import opened Sessions
  import opened SlotTable
  import opened Wire
  import opened Words
  import opened Wrappers

  /** What a packet leads to once it has passed every check. */
  datatype Effect =
    | Ignored | Heartbeat | RequestDisconnect(connectionId: uint64)
    | Dispatch(client: nat, packetType: nat, payload: bytes)

  datatype DisconnectTask = DisconnectTask(connectionId: uint64, requestedTime: int, timeout: int)

  /** Heartbeats have type 1 and end here, disconnects type 2; everything else is for the client. */
  function EffectOf(session: Session, connectionId: uint64, p: Packet): (effect: Effect)
    ensures effect == Heartbeat <==> p.packetType == 1
    ensures effect == RequestDisconnect(connectionId) <==> p.packetType == 2
    ensures p.packetType != 1 && p.packetType != 2 ==> effect == Dispatch(session.clientId, p.packetType, p.payload)
  {
    if p.packetType == HEARTBEAT_PACKET_TYPE then Heartbeat
    else if p.packetType == DISCONNECT_PACKET_TYPE then RequestDisconnect(connectionId)
    else Dispatch(session.clientId, p.packetType, p.payload)
  }

  /** Every check on a packet that concerns the session it was looked up for, the replay window's verdict last. */
  ghost predicate Acceptable(mac: Mac, session: Session, sender: Endpoint, connectionId: uint64, data: bytes,
                             tag: bytes)
    reads session
  {
    && PassesChecks(mac, session.authenticationKey, session.remoteAddress, sender, connectionId, data, tag)
    && Fresh(session.accepted, ReceivePacket(connectionId, data).value.sequence)
  }

  method DispatchTo(mac: Mac, session: Session, now: int, sender: Endpoint, connectionId: uint64, data: bytes,
                    tag: bytes)
    returns (effect: Effect)
    requires session.Valid() && session.lastReceivedTime <= now
    modifies session
    ensures session.Valid() && session.sent == old(session.sent)
    ensures effect != Ignored <==>
      sender == session.remoteAddress
      && |tag| == 32 && ValidKey(session.authenticationKey) && mac(session.authenticationKey, data) == Some(tag)
      && ReceivePacket(connectionId, data).Some?
      && var sequence := ReceivePacket(connectionId, data).value.sequence;
         sequence != 0 && sequence !in old(session.accepted)
         && forall a :: a in old(session.accepted) ==> a < sequence + 64
    ensures effect != Ignored <==> old(Acceptable(mac, session, sender, connectionId, data, tag))
    ensures effect == Ignored ==> unchanged(session)
    ensures effect != Ignored ==>
      effect == EffectOf(session, connectionId, ReceivePacket(connectionId, data).value)
      && session.accepted == old(session.accepted) + {ReceivePacket(connectionId, data).value.sequence}
      && session.lastReceivedTime == now
  {
    var authentic := session.VerifyPacketAuthentication(mac, sender, data, tag);
    if !authentic {
      return Ignored;
    }
    var received := ReceivePacket(connectionId, data);
    if received.None? {
      return Ignored;
    }
    var packet := received.value;
    var accepted := session.AcceptSequence(packet.sequence);
    if !accepted {
      return Ignored;
    }
    session.MarkReceivedNow(now);
    effect := EffectOf(session, connectionId, packet);
  }

  /** What a send needs of the session, besides being found by its id. */
  ghost predicate Sendable(mac: Mac, session: Session, clientId: nat, connectionId: uint64, packetType: nat,
                           payload: bytes)
    reads session
  {
    var sequence := |session.sent| + 1;
    clientId != 0 && session.clientId == clientId && sequence < UINT64_MAX
    && ValidInputs(connectionId, sequence, packetType, payload, session.authenticationKey)
    && |payload| <= PayloadLimit(packetType)
    && mac(session.authenticationKey, EncodePacket(InnerPacket(connectionId, sequence, packetType, payload))).Some?
  }

  /** Which comes down to this. */
  lemma SendableExactly(mac: Mac, session: Session, clientId: nat, connectionId: uint64, packetType: nat,
                        payload: bytes)
    requires packetType < UINT32_LIMIT
    ensures Sendable(mac, session, clientId, connectionId, packetType, payload) <==>
      clientId != 0 && session.clientId == clientId && |session.sent| + 1 < 0xFFFF_FFFF_FFFF_FFFF
      && connectionId != 0 && packetType != 0 && session.authenticationKey != seq(32, i => 0)
      && |payload| + |Varint(packetType)| <= 4026
      && mac(session.authenticationKey,
             EncodePacket(Packet(1, connectionId, |session.sent| + 1, packetType, payload))).Some?
  {}

  /** The packet carries the number just used and goes to the session's peer. */
  ghost predicate IsSent(mac: Mac, session: Session, connectionId: uint64, packetType: nat, payload: bytes,
                         packet: (Endpoint, bytes))
    reads session
  {
    packet.0 == session.remoteAddress
    && IsDatagram(mac, session.authenticationKey, connectionId, |session.sent|, packetType, payload, packet.1)
  }

  /** So the peer, sharing the key, receives version 1, the connection, that number, the type and the payload. */
  lemma SentIsReceived(mac: Mac, session: Session, connectionId: uint64, packetType: nat, payload: bytes,
                       packet: (Endpoint, bytes))
    requires session.Valid() && packetType < UINT32_LIMIT
    requires IsSent(mac, session, connectionId, packetType, payload, packet)
    ensures packet.0 == session.remoteAddress && 0 < |packet.1| <= 4096 && ReceiveEnvelope(packet.1).Some?
    ensures var e := ReceiveEnvelope(packet.1).value;
            && e.connectionId == connectionId
            && mac(session.authenticationKey, e.authenticatedData) == Some(e.authenticationTag)
            && ReceivePacket(connectionId, e.authenticatedData)
               == Some(Packet(1, connectionId, |session.sent|, packetType, payload))
  {
    BuildThenReceive(mac, session.authenticationKey, connectionId, |session.sent|, packetType, payload, packet.1);
    DatagramIsNotEmpty(mac, session.authenticationKey, connectionId, |session.sent|, packetType, payload, packet.1);
  }

  const AF_INET: nat := 2

  /** The last step of a send: the packet goes to an IO queue, if one takes it (`queueTakes`). */
  method SendPacket(destination: Endpoint, packetData: bytes, queueTakes: bool) returns (ok: bool)
    ensures ok <==> destination.family == 2 && 0 < |packetData| <= 4096 && queueTakes
  {
    if destination.family != AF_INET || packetData == [] || |packetData| > MAX_PACKET_SIZE {
      return false;
    }
    ok := queueTakes;
  }

  /**
   A packet is queued exactly when it can be built, the peer has an IPv4 address and a queue takes it.
   One that is built uses its number even when it is not queued.
   */
  method SendVia(mac: Mac, session: Session, clientId: nat, connectionId: uint64, packetType: nat, payload: bytes,
                 queueTakes: bool)
    returns (queued: Option<(Endpoint, bytes)>)
    requires session.Valid() && packetType < UINT32_LIMIT
    modifies session`nextSendSequence, session`sent
    ensures session.Valid()
    ensures var sendable := old(Sendable(mac, session, clientId, connectionId, packetType, payload));
            session.sent == (if sendable then old(session.sent) + [|old(session.sent)| + 1] else old(session.sent))
            && (queued.Some? <==> sendable && session.remoteAddress.family == 2 && queueTakes)
    ensures queued.Some? ==> queued.value.0 == session.remoteAddress && 0 < |queued.value.1| <= 4096
    ensures queued.Some? ==> IsSent(mac, session, connectionId, packetType, payload, queued.value)
  {
    if clientId == 0 || connectionId == INVALID_CONNECTION_ID || packetType == INVALID_PACKET_TYPE {
      return None;
    }
    if session.clientId != clientId {
      return None;
    }
    var built, packetData := session.BuildSendPacket(mac, connectionId, packetType, payload);
    if !built {
      return None;
    }
    DatagramIsNotEmpty(mac, session.authenticationKey, connectionId, |session.sent|, packetType, payload, packetData);
    var ok := SendPacket(session.remoteAddress, packetData, queueTakes);
    queued := if ok then Some((session.remoteAddress, packetData)) else None;
  }

  /** The scan's loop: `from` are the places in the snapshot that the tasks are for. */
  method DisconnectsFor(snapshot: seq<(uint64, Session)>, now: int, timeout: int, accepts: uint64 -> bool)
    returns (tasks: seq<DisconnectTask>, ghost from: seq<nat>)
    requires timeout > 0
    ensures |from| == |tasks| && forall a, b :: 0 <= a < b < |from| ==> from[a] < from[b]
    ensures forall a :: 0 <= a < |from| ==>
      from[a] < |snapshot| && tasks[a] == DisconnectTask(snapshot[from[a]].0, now, timeout)
    ensures forall j :: 0 <= j < |snapshot| ==>
      (j in from <==> snapshot[j].1.lastReceivedTime <= now - timeout && accepts(snapshot[j].0))
  {
    tasks, from := [], [];
    for i := 0 to |snapshot|
      invariant |from| == |tasks| && forall a, b :: 0 <= a < b < |from| ==> from[a] < from[b]
      invariant forall a :: 0 <= a < |from| ==>
        from[a] < i && tasks[a] == DisconnectTask(snapshot[from[a]].0, now, timeout)
      invariant forall j :: 0 <= j < i ==>
        (j in from <==> snapshot[j].1.lastReceivedTime <= now - timeout && accepts(snapshot[j].0))
    {
      var (connectionId, session) := snapshot[i];
      var timedOut := session.HasTimedOut(now, timeout);
      if timedOut && accepts(connectionId) {
        tasks := tasks + [DisconnectTask(connectionId, now, timeout)];
        from := from + [i];
      }
    }
  }

  /** Where a complete snapshot has this id. */
  lemma ListedAt(snapshot: seq<(uint64, Session)>, sessions: map<Handle, Session>, id: uint64) returns (k: nat)
    requires Unpack(id) in sessions
    requires forall h :: h in sessions ==>
      exists k :: 0 <= k < |snapshot| && (Unpack(snapshot[k].0), snapshot[k].1) == (h, sessions[h])
    ensures k < |snapshot| && snapshot[k] == (id, sessions[Unpack(id)])
  {
    k :| 0 <= k < |snapshot| && (Unpack(snapshot[k].0), snapshot[k].1) == (Unpack(id), sessions[Unpack(id)]);
    UnpackRoundTrip(id);
    UnpackRoundTrip(snapshot[k].0);
  }

  /** Every silent session of a complete snapshot is among those the scan's loop asks to be disconnected. */
  lemma SilentIsAsked(snapshot: seq<(uint64, Session)>, sessions: map<Handle, Session>, now: int, timeout: int,
                      accepts: uint64 -> bool, tasks: seq<DisconnectTask>, from: seq<nat>, id: uint64)
    requires Unpack(id) in sessions && sessions[Unpack(id)].lastReceivedTime <= now - timeout && accepts(id)
    requires forall h :: h in sessions ==>
      exists k :: 0 <= k < |snapshot| && (Unpack(snapshot[k].0), snapshot[k].1) == (h, sessions[h])
    requires |from| == |tasks| && forall a :: 0 <= a < |from| ==>
      from[a] < |snapshot| && tasks[a] == DisconnectTask(snapshot[from[a]].0, now, timeout)
    requires forall j :: 0 <= j < |snapshot| ==>
      (j in from <==> snapshot[j].1.lastReceivedTime <= now - timeout && accepts(snapshot[j].0))
    ensures DisconnectTask(id, now, timeout) in tasks
  {
    var k := ListedAt(snapshot, sessions, id);
    var a :| 0 <= a < |from| && from[a] == k;
    assert tasks[a] == DisconnectTask(id, now, timeout);
  }

  ghost predicate AllValid(sessions: map<Handle, Session>)
    reads sessions.Values
  {
    forall h :: h in sessions ==> sessions[h].Valid()
  }

  lemma FewerStayValid(sessions: map<Handle, Session>, h: Handle)
    requires AllValid(sessions)
    ensures AllValid(sessions - {h})
  {}

  lemma OneMoreStaysValid(sessions: map<Handle, Session>, h: Handle, session: Session)
    requires AllValid(sessions) && session.Valid()
    ensures AllValid(sessions[h := session])
  {}

  lemma OthersStayValid(sessions: map<Handle, Session>, id: nat)
    requires AllValid(sessions)
    ensures AllValid(OwnedByOthers(sessions, OwnerOf, id))
  {}

  lemma OthersExactly(sessions: map<Handle, Session>, others: map<Handle, Session>, id: nat)
    requires others == OwnedByOthers(sessions, OwnerOf, id)
    ensures forall h :: h in others <==> h in sessions && sessions[h].clientId != id
    ensures forall h :: h in others ==> others[h] == sessions[h]
  {}

  /** Sending through one session of several keeps them all valid. */
  method SendAmong(ghost sessions: map<Handle, Session>, mac: Mac, session: Session, clientId: nat,
                   connectionId: uint64, packetType: nat, payload: bytes, queueTakes: bool)
    returns (queued: Option<(Endpoint, bytes)>)
    requires AllValid(sessions) && session in sessions.Values && packetType < UINT32_LIMIT
    modifies session`nextSendSequence, session`sent
    ensures AllValid(sessions)
    ensures var sendable := old(Sendable(mac, session, clientId, connectionId, packetType, payload));
            session.sent == (if sendable then old(session.sent) + [|old(session.sent)| + 1] else old(session.sent))
            && (queued.Some? <==> sendable && session.remoteAddress.family == 2 && queueTakes)
    ensures queued.Some? ==>
      session.clientId == clientId && IsSent(mac, session, connectionId, packetType, payload, queued.value)
    ensures queued.Some? ==> queued.value.0 == session.remoteAddress && 0 < |queued.value.1| <= 4096
  {
    queued := SendVia(mac, session, clientId, connectionId, packetType, payload, queueTakes);
  }

  /** So does handing a packet to one of them. */
  method DispatchAmong(ghost sessions: map<Handle, Session>, mac: Mac, session: Session, now: int, sender: Endpoint,
                       connectionId: uint64, data: bytes, tag: bytes)
    returns (effect: Effect)
    requires AllValid(sessions) && session in sessions.Values && session.lastReceivedTime <= now
    modifies session
    ensures AllValid(sessions) && session.sent == old(session.sent)
    ensures effect != Ignored <==> old(Acceptable(mac, session, sender, connectionId, data, tag))
    ensures effect == Ignored ==> unchanged(session)
    ensures effect != Ignored ==>
      effect == EffectOf(session, connectionId, ReceivePacket(connectionId, data).value)
      && session.accepted == old(session.accepted) + {ReceivePacket(connectionId, data).value.sequence}
      && session.lastReceivedTime == now
  {
    effect := DispatchTo(mac, session, now, sender, connectionId, data, tag);
  }

  class ProcessorManager {
    const sessionLookupTable: SessionLookupTable
    const mac: Mac

    constructor (mac: Mac, capacity: nat)
      requires capacity < UINT32_LIMIT
      ensures Valid() && this.mac == mac && fresh(sessionLookupTable) && fresh(sessionLookupTable.slots)
      ensures Sessions() == map[] && sessionLookupTable.slots.Length == capacity
    {
      this.mac := mac;
      sessionLookupTable := new SessionLookupTable(capacity);
    }

    ghost function Sessions(): map<Handle, Session>
      reads sessionLookupTable, sessionLookupTable.slots
    {
      sessionLookupTable.Sessions()
    }

    ghost predicate Valid()
      reads sessionLookupTable, sessionLookupTable.slots, Sessions().Values
    {
      sessionLookupTable.Valid() && AllValid(Sessions())
    }

    /**
     A packet that fails any check changes nothing. One that passes them all marks its number as
     accepted in its own session, marks that session as heard from, and leads to one effect.
     */
    method AuthenticateAndDispatchPacket(now: int, sender: Endpoint, connectionId: uint64, data: bytes, tag: bytes)
      returns (effect: Effect, ghost found: Option<Session>)
      requires Valid() && forall h :: h in Sessions() ==> Sessions()[h].lastReceivedTime <= now
      modifies Sessions().Values
      ensures Valid()
      ensures found.Some? <==> Unpack(connectionId) in old(Sessions())
      ensures found.Some? ==> found.value == old(Sessions())[Unpack(connectionId)]
      ensures effect != Ignored <==> found.Some? && old(Acceptable(mac, found.value, sender, connectionId, data, tag))
      ensures effect != Ignored ==>
        var p := ReceivePacket(connectionId, data).value;
        (effect == Heartbeat <==> p.packetType == 1)
        && (effect == RequestDisconnect(connectionId) <==> p.packetType == 2)
        && (p.packetType != 1 && p.packetType != 2 ==>
              effect == Dispatch(found.value.clientId, p.packetType, p.payload))
      ensures effect != Ignored ==>
        found.value.accepted == old(found.value.accepted) + {ReceivePacket(connectionId, data).value.sequence}
        && found.value.lastReceivedTime == now
        && found.value.sent == old(found.value.sent)
      ensures forall h :: h in old(Sessions()) && (effect == Ignored || found != Some(old(Sessions())[h])) ==>
        unchanged(old(Sessions())[h])
    {
      ghost var sessions := Sessions();
      var session := sessionLookupTable.FindSession(connectionId);
      if session == null {
        return Ignored, None;
      }
      found := Some(session);
      effect := DispatchAmong(sessions, mac, session, now, sender, connectionId, data, tag);
    }

    /** The Logic processor's part: the envelope is checked before its session is looked up. */
    method ProcessReceivedPacket(now: int, sender: Endpoint, packetData: bytes)
      returns (effect: Effect, ghost found: Option<Session>)
      requires Valid() && forall h :: h in Sessions() ==> Sessions()[h].lastReceivedTime <= now
      modifies Sessions().Values
      ensures Valid()
      ensures found.Some? <==>
        ReceiveEnvelope(packetData).Some? && Unpack(ReceiveEnvelope(packetData).value.connectionId) in old(Sessions())
      ensures found.Some? ==> found.value == old(Sessions())[Unpack(ReceiveEnvelope(packetData).value.connectionId)]
      ensures effect != Ignored <==>
        found.Some?
        && var e := ReceiveEnvelope(packetData).value;
           old(Acceptable(mac, found.value, sender, e.connectionId, e.authenticatedData, e.authenticationTag))
      ensures effect != Ignored ==>
        var e := ReceiveEnvelope(packetData).value;
        var p := ReceivePacket(e.connectionId, e.authenticatedData).value;
        (effect == Heartbeat <==> p.packetType == 1)
        && (effect == RequestDisconnect(e.connectionId) <==> p.packetType == 2)
        && (p.packetType != 1 && p.packetType != 2 ==>
              effect == Dispatch(found.value.clientId, p.packetType, p.payload))
      ensures effect != Ignored ==>
        var e := ReceiveEnvelope(packetData).value;
        found.value.accepted
           == old(found.value.accepted) + {ReceivePacket(e.connectionId, e.authenticatedData).value.sequence}
        && found.value.lastReceivedTime == now && found.value.sent == old(found.value.sent)
      ensures forall h :: h in old(Sessions()) && (effect == Ignored || found != Some(old(Sessions())[h])) ==>
        unchanged(old(Sessions())[h])
    {
      var received := ReceiveEnvelope(packetData);
      if received.None? {
        return Ignored, None;
      }
      var e := received.value;
      effect, found :=
        AuthenticateAndDispatchPacket(now, sender, e.connectionId, e.authenticatedData, e.authenticationTag);
    }

    /** A packet goes out only through a session that belongs to the sending client. */
    method SendAuthenticatedPacket(clientId: nat, connectionId: uint64, packetType: nat, payload: bytes,
                                   queueTakes: bool)
      returns (queued: Option<(Endpoint, bytes)>, ghost found: Option<Session>)
      requires Valid() && packetType < UINT32_LIMIT
      modifies Sessions().Values
      ensures Valid()
      ensures found.Some? <==> Unpack(connectionId) in old(Sessions())
      ensures found.Some? ==> found.value == old(Sessions())[Unpack(connectionId)]
      ensures found.None? ==> queued.None?
      ensures found.Some? ==>
        var sendable := old(Sendable(mac, found.value, clientId, connectionId, packetType, payload));
        found.value.sent == (if sendable then old(found.value.sent) + [|old(found.value.sent)| + 1]
                             else old(found.value.sent))
        && (queued.Some? <==> sendable && found.value.remoteAddress.family == 2 && queueTakes)
      ensures queued.Some? ==>
        found.value.clientId == clientId && queued.value.0 == found.value.remoteAddress && 0 < |queued.value.1| <= 4096
      ensures queued.Some? ==> IsSent(mac, found.value, connectionId, packetType, payload, queued.value)
      ensures found.Some? ==>
        found.value.accepted == old(found.value.accepted)
        && found.value.lastReceivedTime == old(found.value.lastReceivedTime)
      ensures forall h :: h in old(Sessions()) && found != Some(old(Sessions())[h]) ==> unchanged(old(Sessions())[h])
    {
      ghost var sessions := Sessions();
      var session := sessionLookupTable.FindSession(connectionId);
      if session == null {
        return None, None;
      }
      found := Some(session);
      queued := SendAmong(sessions, mac, session, clientId, connectionId, packetType, payload, queueTakes);
    }

    /**
     One scan: a disconnect for exactly the live sessions that have been silent, in index order, each
     once, as far as the Logic queues take them (`accepts`).
     */
    method RequestTimedOutSessionDisconnects(now: int, timeout: int, accepts: uint64 -> bool)
      returns (tasks: seq<DisconnectTask>)
      requires Valid()
      ensures timeout <= 0 ==> tasks == []
      ensures forall task :: task in tasks ==>
        Unpack(task.connectionId) in Sessions()
        && Sessions()[Unpack(task.connectionId)].lastReceivedTime <= now - timeout
        && accepts(task.connectionId) && task == DisconnectTask(task.connectionId, now, timeout)
      ensures timeout > 0 ==> forall id: uint64 ::
        Unpack(id) in Sessions() && Sessions()[Unpack(id)].lastReceivedTime <= now - timeout && accepts(id) ==>
          DisconnectTask(id, now, timeout) in tasks
      ensures forall i, j :: 0 <= i < j < |tasks| ==>
        Unpack(tasks[i].connectionId).index < Unpack(tasks[j].connectionId).index
    {
      tasks := [];
      if timeout <= 0 {
        return;
      }
      var snapshot := sessionLookupTable.SnapshotActiveSessions();
      ghost var from;
      tasks, from := DisconnectsFor(snapshot, now, timeout, accepts);
      assert forall a :: 0 <= a < |from| ==> from[a] in from;
      forall id: uint64 |
        Unpack(id) in Sessions() && Sessions()[Unpack(id)].lastReceivedTime <= now - timeout && accepts(id)
        ensures DisconnectTask(id, now, timeout) in tasks
      {
        SilentIsAsked(snapshot, Sessions(), now, timeout, accepts, tasks, from, id);
      }
    }

    /**
     A disconnect removes its session and no other: at once when no timeout is to be validated, and
     otherwise only if the session is still silent for the timeout before the request.
     */
    method ProcessClientDisconnect(task: DisconnectTask) returns (removed: bool)
      requires Valid()
      modifies sessionLookupTable, sessionLookupTable.slots
      ensures Valid()
      ensures removed <==>
        var h := Unpack(task.connectionId);
        h in old(Sessions())
        && (task.timeout > 0 ==> old(Sessions()[h].lastReceivedTime) <= task.requestedTime - task.timeout)
      ensures Sessions() == if removed then old(Sessions()) - {Unpack(task.connectionId)} else old(Sessions())
    {
      FindIsLookup(sessionLookupTable.Contents(), Unpack(task.connectionId));
      UnpackRoundTrip(task.connectionId);
      if task.connectionId == INVALID_CONNECTION_ID {
        return false;
      }
      if task.timeout > 0 {
        var session := sessionLookupTable.FindSession(task.connectionId);
        if session == null {
          return false;
        }
        var timedOut := session.HasTimedOut(task.requestedTime, task.timeout);
        if !timedOut {
          return false;
        }
      }
      ghost var before := Sessions();
      removed := sessionLookupTable.Release(task.connectionId);
      FewerStayValid(before, Unpack(task.connectionId));
    }

    method RegisterClientSession(now: int, clientId: uint64, remoteAddress: Endpoint, key: Key)
      returns (id: uint64, ghost session: Session?)
      requires Valid()
      modifies sessionLookupTable, sessionLookupTable.slots
      ensures Valid()
      ensures id != INVALID_CONNECTION_ID <==>
        clientId != 0 && ValidKey(key) && !old(Full(sessionLookupTable.Contents()))
      ensures id == INVALID_CONNECTION_ID ==> Sessions() == old(Sessions())
      ensures id != INVALID_CONNECTION_ID ==>
        session != null && fresh(session) && session.clientId == clientId && session.remoteAddress == remoteAddress
        && session.authenticationKey == key && session.accepted == {} && session.lastReceivedTime == now
        && Unpack(id) !in old(Sessions()) && Sessions() == old(Sessions())[Unpack(id) := session]
    {
      id, session := INVALID_CONNECTION_ID, null;
      var validKey := IsValidAuthenticationKey(key);
      if clientId == 0 || !validKey {
        return;
      }
      var created := new Session(clientId, remoteAddress, key, now);
      session := created;
      ghost var before := Sessions();
      id := sessionLookupTable.Allocate(created);
      OneMoreStaysValid(before, Unpack(id), created);
    }

    method RemoveClientSessions(clientId: nat) returns (removed: nat)
      requires Valid()
      modifies sessionLookupTable, sessionLookupTable.slots
      ensures Valid()
      ensures Sessions() == OwnedByOthers(old(Sessions()), OwnerOf, clientId)
      ensures forall h :: h in Sessions() <==> h in old(Sessions()) && old(Sessions())[h].clientId != clientId
      ensures forall h :: h in Sessions() ==> Sessions()[h] == old(Sessions())[h]
      ensures removed == |old(Sessions())| - |Sessions()|
    {
      ghost var before := Sessions();
      removed := sessionLookupTable.ReleaseByClientId(clientId);
      OthersStayValid(before, clientId);
      OthersExactly(before, Sessions(), clientId);
    }
  }
}
