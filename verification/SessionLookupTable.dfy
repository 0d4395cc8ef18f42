/** The lookup table the server keeps its sessions in, updated in place. */
module SessionLookup {
  import opened Sessions
  import opened SlotTable
  import opened Words
  import opened Wrappers

  function OwnerOf(session: Session): nat { session.clientId }

  /** The id of a slot's current occupant; with a generation that is never zero it is never the invalid id. */
  function PackedId(index: nat, generation: nat): (id: uint64)
    requires index < UINT32_LIMIT && 0 < generation < UINT32_LIMIT
    ensures Unpack(id) == Handle(index, generation) && id != INVALID_CONNECTION_ID
  {
    PackRoundTrip(Handle(index, generation));
    MakeConnectionId(index, generation)
  }

  class SessionLookupTable {
    const slots: array<Slot<Session>>
    var freeIndices: seq<nat>
    ghost var releases: seq<nat>

    ghost function Contents(): (t: Table<Session>)
      reads this, slots
    {
      Table(slots[..], freeIndices, releases)
    }

    ghost predicate Valid()
      reads this, slots
    {
      SlotTable.Valid(Contents())
    }

    /** The connection ids in use, with their sessions. */
    ghost function Sessions(): (m: map<Handle, Session>)
      reads this, slots
    {
      Live(Contents())
    }

    constructor (maxSessionCount: nat)
      requires maxSessionCount < UINT32_LIMIT
      ensures Valid() && fresh(slots) && slots.Length == maxSessionCount
      ensures Sessions() == map[]
      ensures freeIndices == seq(maxSessionCount, i => i) && releases == seq(maxSessionCount, i => 0)
    {
      slots := new Slot<Session>[maxSessionCount](i => Slot(None, 1));
      freeIndices := [];
      releases := seq(maxSessionCount, i => 0);
      new;
      for i := 0 to maxSessionCount
        modifies this
        invariant freeIndices == seq(i, j => j)
        invariant releases == seq(maxSessionCount, j => 0)
      {
        freeIndices := freeIndices + [i];
      }
      forall i | 0 <= i < maxSessionCount ensures i in freeIndices { assert freeIndices[i] == i; }
    }

    /** A missing session or a full table gives the invalid id and changes nothing. */
    method Allocate(session: Session?) returns (id: uint64)
      requires Valid()
      modifies this, slots
      ensures Valid()
      ensures id == INVALID_CONNECTION_ID <==> session == null || old(Full(Contents()))
      ensures id == INVALID_CONNECTION_ID ==> Contents() == old(Contents())
      ensures id != INVALID_CONNECTION_ID ==>
        old(freeIndices) != [] && Contents() == old(Allocated(Contents(), session))
      ensures id != INVALID_CONNECTION_ID ==>
        old(freeIndices) != [] && Unpack(id) == old(HandleOf(Contents(), freeIndices[0]))
      ensures id != INVALID_CONNECTION_ID ==>
        Unpack(id) !in old(Sessions()) && Sessions() == old(Sessions())[Unpack(id) := session]
    {
      if session == null {
        return INVALID_CONNECTION_ID;
      }
      ghost var t := Contents();
      NoRoomExactlyWhenFull(t);
      if freeIndices == [] {
        return INVALID_CONNECTION_ID;
      }
      var present: Session := session;
      AllocateKeepsValid(t, present);
      AllocateExtends(t, present);
      id := Occupy(present);
      assert Sessions() == Live(Allocated(t, present));
    }

    /** Puts a session in the slot at the front of the queue. */
    method Occupy(session: Session) returns (id: uint64)
      requires freeIndices != [] && freeIndices[0] < slots.Length < UINT32_LIMIT
      requires 0 < slots[freeIndices[0]].generation < UINT32_LIMIT
      modifies this, slots
      ensures Contents() == old(Allocated(Contents(), session))
      ensures id != INVALID_CONNECTION_ID && Unpack(id) == old(HandleOf(Contents(), freeIndices[0]))
    {
      ghost var t := Contents();
      var index := freeIndices[0];
      freeIndices := freeIndices[1..];
      slots[index] := slots[index].(session := Some(session));
      assert Contents().slots == Allocated(t, session).slots;
      id := PackedId(index, slots[index].generation);
    }

    /** Empties a slot, moves it to its next generation and puts it at the back of the queue. */
    method Vacate(index: nat)
      requires index < slots.Length && |releases| == slots.Length
      modifies this, slots
      ensures Contents() == old(Vacated(Contents(), index))
    {
      ghost var t := Contents();
      slots[index] := Slot(None, NextGeneration(slots[index].generation));
      releases := releases[index := releases[index] + 1];
      freeIndices := freeIndices + [index];
      assert Contents().slots == Vacated(t, index).slots;
    }

    /** Succeeds exactly on the id of a live session, and removes that one only. */
    method Release(id: uint64) returns (ok: bool)
      requires Valid()
      modifies this, slots
      ensures Valid()
      ensures ok <==> Unpack(id) in old(Sessions())
      ensures Sessions() == old(Sessions()) - {Unpack(id)}
      ensures Contents() == old(Released(Contents(), Unpack(id)))
    {
      ReleaseKeepsValid(Contents(), Unpack(id));
      ReleaseRemoves(Contents(), Unpack(id));
      var index := GetIndex(id);
      if index >= slots.Length {
        return false;
      }
      if slots[index].session.None? || slots[index].generation != GetGeneration(id) {
        return false;
      }
      Vacate(index);
      ok := true;
    }

    /**
     One pass over the slots leaves what releasing the client's ids one by one in index order would,
     and so removes exactly that client's sessions.
     */
    method ReleaseByClientId(clientId: nat) returns (removed: nat)
      requires Valid()
      modifies this, slots
      ensures Valid()
      ensures Contents() == old(ReleasedAll(Contents(), OwnedHandles(Contents(), OwnerOf, clientId, slots.Length)))
      ensures removed == |old(OwnedHandles(Contents(), OwnerOf, clientId, slots.Length))|
      ensures Sessions() == OwnedByOthers(old(Sessions()), OwnerOf, clientId)
      ensures removed == |old(Sessions())| - |Sessions()|
    {
      ghost var t := Contents();
      removed := 0;
      for index := 0 to slots.Length
        invariant |t.slots| == |t.releases| == slots.Length
        invariant Contents() == ReleasedAll(t, OwnedHandles(t, OwnerOf, clientId, index))
        invariant removed == |OwnedHandles(t, OwnerOf, clientId, index)| && |freeIndices| == |t.free| + removed
      {
        PassStep(t, OwnerOf, clientId, index, Contents());
        assert slots[index] == Contents().slots[index];
        if slots[index].session.None? || slots[index].session.value.clientId != clientId {
          continue;
        }
        Vacate(index);
        removed := removed + 1;
      }
      ClientReleased(t, OwnerOf, clientId);
      LiveSize(t);
      LiveSize(Contents());
    }

    method FindSession(id: uint64) returns (session: Session?)
      requires Valid()
      ensures Unpack(id) in Sessions() ==> session == Sessions()[Unpack(id)]
      ensures Unpack(id) !in Sessions() ==> session == null
    {
      FindIsLookup(Contents(), Unpack(id));
      if id == INVALID_CONNECTION_ID {
        return null;
      }
      var index := GetIndex(id);
      if index >= slots.Length {
        return null;
      }
      if slots[index].generation != GetGeneration(id) || slots[index].session.None? {
        return null;
      }
      session := slots[index].session.value;
    }

    /** The snapshot lists the live sessions in index order, each once, and has the reserved size. */
    method SnapshotActiveSessions() returns (snapshot: seq<(uint64, Session)>)
      requires Valid()
      ensures |snapshot| == slots.Length - |freeIndices|
      ensures forall k :: 0 <= k < |snapshot| ==>
        Unpack(snapshot[k].0) in Sessions() && Sessions()[Unpack(snapshot[k].0)] == snapshot[k].1
      ensures forall j, k :: 0 <= j < k < |snapshot| ==> Unpack(snapshot[j].0).index < Unpack(snapshot[k].0).index
      ensures forall h :: h in Sessions() ==>
        exists k :: 0 <= k < |snapshot| && (Unpack(snapshot[k].0), snapshot[k].1) == (h, Sessions()[h])
    {
      snapshot := [];
      ghost var t := Contents();
      for index := 0 to slots.Length
        invariant |snapshot| == |Listing(t, index)|
        invariant forall k :: 0 <= k < |snapshot| ==> (Unpack(snapshot[k].0), snapshot[k].1) == Listing(t, index)[k]
      {
        if slots[index].session.None? {
          continue;
        }
        assert t.slots[index] == slots[index];
        var id := PackedId(index, slots[index].generation);
        snapshot := snapshot + [(id, slots[index].session.value)];
      }
      ListingSize(t);
      ListingSound(t, slots.Length);
      forall h | h in Sessions()
        ensures exists k :: 0 <= k < |snapshot| && (Unpack(snapshot[k].0), snapshot[k].1) == (h, Sessions()[h])
      {
        ListingComplete(t, slots.Length, h);
      }
    }
  }
}
