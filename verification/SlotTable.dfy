/**
 The generational slot table on values: an array of slots, a first-in first-out queue of
 empty slots, and handles that pack a slot index with the slot's 32-bit generation.
 It stands for a map from live handles to sessions.

 `releases` counts how often each slot has been released. The code does not store it;
 it is what the claims about stale handles are stated with.
 */
module SlotTable {
  import opened Words
  import opened Wrappers

  const UINT32_MAX: nat := 0xFFFF_FFFF

  datatype Slot<+T> = Slot(session: Option<T>, generation: nat)
  datatype Table<+T> = Table(slots: seq<Slot<T>>, free: seq<nat>, releases: seq<nat>)

  /** A connection id taken apart. */
  datatype Handle = Handle(index: nat, generation: nat)

  // ---------- connection ids ----------

  const INVALID_CONNECTION_ID: uint64 := 0

  function GetIndex(id: uint64): nat { id % UINT32_LIMIT }

  function GetGeneration(id: uint64): nat { id / UINT32_LIMIT }

  function Unpack(id: uint64): Handle { Handle(GetIndex(id), GetGeneration(id)) }

  ghost predicate Packable(h: Handle) {
    h.index < UINT32_LIMIT && h.generation < UINT32_LIMIT
  }

  function MakeConnectionId(index: nat, generation: nat): uint64
    requires index < UINT32_LIMIT && generation < UINT32_LIMIT
  {
    generation * UINT32_LIMIT + index
  }

  /** Packing is the shift and the bitwise or of the two halves. */
  lemma PackingShiftsAndJoins(index: nat, generation: nat)
    requires index < UINT32_LIMIT && generation < UINT32_LIMIT
    ensures MakeConnectionId(index, generation) == Or(ShiftLeft(generation, 32), index)
    ensures MakeConnectionId(index, generation) == generation * 0x1_0000_0000 + index
  {
    Power32();
    ShiftIsProduct(generation, 32);
    OrOfParts(generation, index, 32);
  }

  /** Packing and unpacking are inverse, so a connection id and its two parts say the same. */
  lemma PackRoundTrip(h: Handle)
    requires Packable(h)
    ensures Unpack(MakeConnectionId(h.index, h.generation)) == h
  {}

  lemma UnpackRoundTrip(id: uint64)
    ensures Packable(Unpack(id))
    ensures MakeConnectionId(Unpack(id).index, Unpack(id).generation) == id
  {}

  // ---------- generations ----------

  /** The wrapping increment that skips zero. */
  function NextGeneration(generation: nat): nat {
    var next := if generation == UINT32_MAX then 0 else generation + 1;
    if next == 0 then next + 1 else next
  }

  /** The generation of a slot that has been released so many times. */
  function GenerationAfter(releases: nat): (g: nat)
    ensures 0 < g < UINT32_LIMIT
  {
    if releases == 0 then 1 else NextGeneration(GenerationAfter(releases - 1))
  }

  lemma {:induction false} GenerationCycle(releases: nat) returns (cycles: nat)
    ensures releases + 1 == cycles * UINT32_MAX + GenerationAfter(releases)
  {
    if releases == 0 {
      cycles := 0;
    } else {
      cycles := GenerationCycle(releases - 1);
      if GenerationAfter(releases - 1) == UINT32_MAX { cycles := cycles + 1; }
    }
  }

  /** After r releases the generation is 1 + (r mod (2^32 - 1)). */
  lemma GenerationClosedForm(releases: nat)
    ensures GenerationAfter(releases) == 1 + releases % 0xFFFF_FFFF
  {
    var cycles := GenerationCycle(releases);
    var g := GenerationAfter(releases) - 1;
    assert UINT32_MAX * cycles + g == releases;
    Remainder(releases, UINT32_MAX, cycles, g);
  }

  /** Two release counts give the same generation only a whole number of cycles apart. */
  lemma SameGeneration(r: nat, later: nat) returns (cycles: nat)
    requires r <= later && GenerationAfter(r) == GenerationAfter(later)
    ensures later == r + cycles * 0xFFFF_FFFF
  {
    var before := GenerationCycle(r);
    var after := GenerationCycle(later);
    cycles := after - before;
  }

  // ---------- validity and meaning ----------

  ghost predicate Valid<T>(t: Table<T>) {
    && |t.slots| < UINT32_LIMIT
    && |t.releases| == |t.slots|
    && (forall i :: 0 <= i < |t.slots| ==> t.slots[i].generation == GenerationAfter(t.releases[i]))
    && Distinct(t.free)
    && (forall k :: 0 <= k < |t.free| ==> t.free[k] < |t.slots|)
    && (forall i :: 0 <= i < |t.slots| ==> (t.slots[i].session.None? <==> i in t.free))
  }

  function HandleOf<T>(t: Table<T>, i: nat): Handle
    requires i < |t.slots|
  {
    Handle(i, t.slots[i].generation)
  }

  predicate Current<T>(t: Table<T>, h: Handle) {
    h.index < |t.slots| && t.slots[h.index].session.Some? && t.slots[h.index].generation == h.generation
  }

  /** The map the table stands for. */
  ghost function Live<T>(t: Table<T>): (m: map<Handle, T>)
    ensures forall h :: h in m <==> Current(t, h)
    ensures forall h :: h in m ==> Current(t, h) && m[h] == t.slots[h.index].session.value
  {
    map h | h in LiveHandles(t) :: t.slots[h.index].session.value
  }

  ghost function LiveHandles<T>(t: Table<T>): (handles: set<Handle>)
    ensures forall h :: h in handles <==> Current(t, h)
  {
    var handles := set i | 0 <= i < |t.slots| && t.slots[i].session.Some? :: HandleOf(t, i);
    assert forall h :: Current(t, h) ==> h == HandleOf(t, h.index);
    handles
  }

  // ---------- the operations ----------

  function Find<T>(t: Table<T>, h: Handle): Option<T> {
    if h.index >= |t.slots| || t.slots[h.index].generation != h.generation then None
    else t.slots[h.index].session
  }

  /** The table after giving the front of the queue to a session. */
  function Allocated<T>(t: Table<T>, session: T): Table<T>
    requires t.free != [] && t.free[0] < |t.slots|
  {
    var i := t.free[0];
    Table(t.slots[i := t.slots[i].(session := Some(session))], t.free[1..], t.releases)
  }

  function Vacated<T>(t: Table<T>, i: nat): Table<T>
    requires i < |t.slots| == |t.releases|
  {
    Table(t.slots[i := Slot(None, NextGeneration(t.slots[i].generation))], t.free + [i],
          t.releases[i := t.releases[i] + 1])
  }

  function Released<T>(t: Table<T>, h: Handle): Table<T>
    requires |t.slots| == |t.releases|
  {
    if Current(t, h) then Vacated(t, h.index) else t
  }

  /** Looking a handle up is looking it up in the map; no live handle packs to the invalid id. */
  lemma FindIsLookup<T>(t: Table<T>, h: Handle)
    requires Valid(t)
    ensures Find(t, h) == if h in Live(t) then Some(Live(t)[h]) else None
    ensures h in Live(t) ==> Packable(h) && MakeConnectionId(h.index, h.generation) != INVALID_CONNECTION_ID
  {}

  lemma AllocateKeepsValid<T>(t: Table<T>, session: T)
    requires Valid(t) && t.free != []
    ensures Valid(Allocated(t, session))
  {
    var i := t.free[0];
    var after := Allocated(t, session);
    assert i in t.free;
    assert t.free == [i] + after.free;
  }

  lemma AllocateExtends<T>(t: Table<T>, session: T)
    requires Valid(t) && t.free != []
    ensures HandleOf(t, t.free[0]) !in Live(t)
    ensures Live(Allocated(t, session)) == Live(t)[HandleOf(t, t.free[0]) := session]
  {
    assert t.free[0] in t.free;
    assert Live(Allocated(t, session)).Keys == Live(t).Keys + {HandleOf(t, t.free[0])};
  }

  ghost predicate Full<T>(t: Table<T>) {
    forall i :: 0 <= i < |t.slots| ==> HandleOf(t, i) in Live(t)
  }

  /** There is nothing left to hand out exactly when every slot is live. */
  lemma NoRoomExactlyWhenFull<T>(t: Table<T>)
    requires Valid(t)
    ensures t.free == [] <==> Full(t)
  {
    if t.free != [] {
      assert t.free[0] in t.free;
      assert HandleOf(t, t.free[0]) !in Live(t);
    }
  }

  lemma ReleaseKeepsValid<T>(t: Table<T>, h: Handle)
    requires Valid(t)
    ensures Valid(Released(t, h))
  {
    if Current(t, h) {
      assert Released(t, h).free == t.free + [h.index];
    }
  }

  lemma ReleaseRemoves<T>(t: Table<T>, h: Handle)
    requires |t.slots| == |t.releases|
    ensures Live(Released(t, h)) == Live(t) - {h}
    ensures h !in Live(t) ==> Released(t, h) == t
  {
    assert Live(Released(t, h)).Keys == Live(t).Keys - {h};
  }

  // ---------- runs ----------

  datatype Op<+T> = AllocateOp(session: T) | ReleaseOp(handle: Handle)

  function Apply<T>(t: Table<T>, op: Op<T>): (after: Table<T>)
    requires |t.slots| == |t.releases| && (forall k :: 0 <= k < |t.free| ==> t.free[k] < |t.slots|)
    ensures |after.slots| == |after.releases| && (forall k :: 0 <= k < |after.free| ==> after.free[k] < |after.slots|)
  {
    match op
    case AllocateOp(session) => if t.free == [] then t else Allocated(t, session)
    case ReleaseOp(h) => Released(t, h)
  }

  function ApplyAll<T>(t: Table<T>, ops: seq<Op<T>>): Table<T>
    requires |t.slots| == |t.releases| && (forall k :: 0 <= k < |t.free| ==> t.free[k] < |t.slots|)
    decreases |ops|
  {
    if ops == [] then t else ApplyAll(Apply(t, ops[0]), ops[1..])
  }

  lemma ApplyKeepsValid<T>(t: Table<T>, op: Op<T>)
    requires Valid(t)
    ensures Valid(Apply(t, op)) && |Apply(t, op).slots| == |t.slots|
  {
    match op
    case AllocateOp(session) => if t.free != [] { AllocateKeepsValid(t, session); }
    case ReleaseOp(h) => ReleaseKeepsValid(t, h);
  }

  /** What holds of one slot between an earlier and a later table of a run. */
  ghost predicate SlotHistory<T>(t: Table<T>, after: Table<T>, i: nat)
    requires Valid(t) && Valid(after) && |after.slots| == |t.slots| && i < |t.slots|
  {
    && after.releases[i] >= t.releases[i]
    && (after.releases[i] == t.releases[i] && t.slots[i].session.Some? ==> after.slots[i] == t.slots[i])
  }

  lemma {:induction false} SlotsOverRun<T>(t: Table<T>, ops: seq<Op<T>>, i: nat)
    requires Valid(t) && i < |t.slots|
    ensures Valid(ApplyAll(t, ops)) && |ApplyAll(t, ops).slots| == |t.slots|
    ensures SlotHistory(t, ApplyAll(t, ops), i)
    decreases |ops|
  {
    if ops != [] {
      ApplyKeepsValid(t, ops[0]);
      SlotsOverRun(Apply(t, ops[0]), ops[1..], i);
    }
  }

  /**
   A handle that was live and is live again names the session it named before, unless its slot was
   released a nonzero multiple of 2^32 - 1 times in between.
   */
  lemma StaleHandle<T>(t: Table<T>, ops: seq<Op<T>>, h: Handle) returns (cycles: nat)
    requires Valid(t) && h in Live(t) && h in Live(ApplyAll(t, ops))
    ensures |ApplyAll(t, ops).releases| == |t.releases|
    ensures ApplyAll(t, ops).releases[h.index] == t.releases[h.index] + cycles * 0xFFFF_FFFF
    ensures cycles == 0 ==> Live(ApplyAll(t, ops))[h] == Live(t)[h]
  {
    SlotsOverRun(t, ops, h.index);
    cycles := SameGeneration(t.releases[h.index], ApplyAll(t, ops).releases[h.index]);
  }

  /** Once a live handle is released, it resolves to nothing for the next 2^32 - 2 releases of its slot. */
  lemma ReleasedHandleStaysDead<T>(t: Table<T>, h: Handle, ops: seq<Op<T>>)
    requires Valid(t) && h in Live(t)
    ensures var after := ApplyAll(Released(t, h), ops);
            |after.releases| == |t.releases|
            && (after.releases[h.index] < t.releases[h.index] + 0xFFFF_FFFF ==> Find(after, h) == None)
  {
    ReleaseKeepsValid(t, h);
    SlotsOverRun(Released(t, h), ops, h.index);
    var after := ApplyAll(Released(t, h), ops);
    if after.slots[h.index].generation == h.generation {
      var cycles := SameGeneration(t.releases[h.index], after.releases[h.index]);
    }
  }

  // ---------- the order slots are handed out in ----------

  function Taken<T>(t: Table<T>, op: Op<T>): seq<nat> {
    if op.AllocateOp? && t.free != [] then [t.free[0]] else []
  }

  function Returned<T>(t: Table<T>, op: Op<T>): seq<nat> {
    if op.ReleaseOp? && Current(t, op.handle) then [op.handle.index] else []
  }

  function AllTaken<T>(t: Table<T>, ops: seq<Op<T>>): seq<nat>
    requires |t.slots| == |t.releases| && (forall k :: 0 <= k < |t.free| ==> t.free[k] < |t.slots|)
    decreases |ops|
  {
    if ops == [] then [] else Taken(t, ops[0]) + AllTaken(Apply(t, ops[0]), ops[1..])
  }

  function AllReturned<T>(t: Table<T>, ops: seq<Op<T>>): seq<nat>
    requires |t.slots| == |t.releases| && (forall k :: 0 <= k < |t.free| ==> t.free[k] < |t.slots|)
    decreases |ops|
  {
    if ops == [] then [] else Returned(t, ops[0]) + AllReturned(Apply(t, ops[0]), ops[1..])
  }

  lemma StepConserved<T>(t: Table<T>, op: Op<T>)
    requires |t.slots| == |t.releases| && (forall k :: 0 <= k < |t.free| ==> t.free[k] < |t.slots|)
    ensures t.free + Returned(t, op) == Taken(t, op) + Apply(t, op).free
  {}

  lemma Rearranged(a: seq<nat>, r1: seq<nat>, r2: seq<nat>, t1: seq<nat>, t2: seq<nat>, f1: seq<nat>, f2: seq<nat>)
    requires a + r1 == t1 + f1 && f1 + r2 == t2 + f2
    ensures a + (r1 + r2) == (t1 + t2) + f2
  {
    assert a + (r1 + r2) == (a + r1) + r2 == t1 + (f1 + r2);
  }

  /** The queue conserves slots in order: what was free, then what came back, is what went out, then what is free. */
  lemma {:induction false} QueueConserved<T>(t: Table<T>, ops: seq<Op<T>>)
    requires |t.slots| == |t.releases| && (forall k :: 0 <= k < |t.free| ==> t.free[k] < |t.slots|)
    ensures t.free + AllReturned(t, ops) == AllTaken(t, ops) + ApplyAll(t, ops).free
    decreases |ops|
  {
    if ops != [] {
      var op, next := ops[0], Apply(t, ops[0]);
      StepConserved(t, op);
      QueueConserved(next, ops[1..]);
      Rearranged(t.free, Returned(t, op), AllReturned(next, ops[1..]), Taken(t, op), AllTaken(next, ops[1..]),
                 next.free, ApplyAll(next, ops[1..]).free);
    }
  }

  /** A released slot is handed out again only after every slot that was free at that moment. */
  lemma ReuseIsLast<T>(t: Table<T>, h: Handle, ops: seq<Op<T>>, p: nat)
    requires Valid(t) && h in Live(t)
    requires p < |AllTaken(Released(t, h), ops)| && AllTaken(Released(t, h), ops)[p] == h.index
    ensures p >= |t.free| && AllTaken(Released(t, h), ops)[..|t.free|] == t.free
  {
    var after := Released(t, h);
    var taken := AllTaken(after, ops);
    ReleaseKeepsValid(t, h);
    QueueConserved(after, ops);
    var queue := t.free + [h.index] + AllReturned(after, ops);
    assert queue == taken + ApplyAll(after, ops).free;
    assert forall k :: 0 <= k < |t.free| ==> queue[k] == t.free[k] && t.free[k] in t.free;
    assert queue[p] == taken[p];
  }

  // ---------- releasing a client's sessions together ----------

  predicate Owned<T>(slot: Slot<T>, owner: T -> nat, client: nat) {
    slot.session.Some? && owner(slot.session.value) == client
  }

  /** The live handles of one owner among the first k slots, in index order. */
  function OwnedHandles<T>(t: Table<T>, owner: T -> nat, client: nat, k: nat): seq<Handle>
    requires k <= |t.slots|
  {
    if k == 0 then []
    else OwnedHandles(t, owner, client, k - 1)
         + if Owned(t.slots[k - 1], owner, client) then [HandleOf(t, k - 1)] else []
  }

  function ReleasedAll<T>(t: Table<T>, handles: seq<Handle>): (after: Table<T>)
    requires |t.slots| == |t.releases|
    ensures |after.slots| == |after.releases| == |t.slots|
  {
    if handles == [] then t else Released(ReleasedAll(t, handles[..|handles| - 1]), handles[|handles| - 1])
  }

  lemma ReleasedOneMore<T>(t: Table<T>, handles: seq<Handle>, h: Handle)
    requires |t.slots| == |t.releases|
    ensures ReleasedAll(t, handles + [h]) == Released(ReleasedAll(t, handles), h)
  {
    assert (handles + [h])[..|handles|] == handles;
  }

  /** A pass that has come as far as slot k has not touched the slots from there on. */
  lemma {:induction false} LaterSlotsStand<T>(t: Table<T>, owner: T -> nat, client: nat, k: nat, j: nat)
    requires k <= j < |t.slots| == |t.releases|
    ensures ReleasedAll(t, OwnedHandles(t, owner, client, k)).slots[j] == t.slots[j]
  {
    if k > 0 {
      LaterSlotsStand(t, owner, client, k - 1, j);
      var handles := OwnedHandles(t, owner, client, k - 1);
      if Owned(t.slots[k - 1], owner, client) {
        ReleasedOneMore(t, handles, HandleOf(t, k - 1));
      } else {
        assert handles + [] == handles;
      }
    }
  }

  /** One step of a pass over the slots: it releases slot k when the client owns it. */
  lemma PassStep<T>(t: Table<T>, owner: T -> nat, client: nat, k: nat, current: Table<T>)
    requires k < |t.slots| == |t.releases| && current == ReleasedAll(t, OwnedHandles(t, owner, client, k))
    ensures current.slots[k] == t.slots[k]
    ensures |OwnedHandles(t, owner, client, k + 1)|
         == |OwnedHandles(t, owner, client, k)| + if Owned(t.slots[k], owner, client) then 1 else 0
    ensures ReleasedAll(t, OwnedHandles(t, owner, client, k + 1))
         == if Owned(t.slots[k], owner, client) then Vacated(current, k) else current
  {
    var handles := OwnedHandles(t, owner, client, k);
    LaterSlotsStand(t, owner, client, k, k);
    if Owned(t.slots[k], owner, client) {
      ReleasedOneMore(t, handles, HandleOf(t, k));
    } else {
      assert handles + [] == handles;
    }
  }

  lemma {:induction false} OwnedHandlesExactly<T>(t: Table<T>, owner: T -> nat, client: nat, k: nat)
    requires k <= |t.slots|
    ensures forall h :: h in OwnedHandles(t, owner, client, k) <==>
              (h in Live(t) && h.index < k && owner(Live(t)[h]) == client)
  {
    if k > 0 {
      OwnedHandlesExactly(t, owner, client, k - 1);
    }
  }

  function Elements(handles: seq<Handle>): (e: set<Handle>)
    ensures forall h :: h in e <==> h in handles
  {
    set h | h in handles
  }

  lemma RemoveOneMore<T>(m: map<Handle, T>, front: seq<Handle>, last: Handle)
    ensures m - Elements(front) - {last} == m - Elements(front + [last])
  {
    assert Elements(front + [last]) == Elements(front) + {last};
  }

  lemma {:induction false} ReleasedAllRemoves<T>(t: Table<T>, handles: seq<Handle>)
    requires |t.slots| == |t.releases|
    ensures Live(ReleasedAll(t, handles)) == Live(t) - Elements(handles)
    decreases |handles|
  {
    if handles == [] {
      assert Elements(handles) == {};
    } else {
      var front, last := handles[..|handles| - 1], handles[|handles| - 1];
      ReleasedAllRemoves(t, front);
      ReleaseRemoves(ReleasedAll(t, front), last);
      RemoveOneMore(Live(t), front, last);
      assert handles == front + [last];
    }
  }

  lemma {:induction false} ReleasedAllValid<T>(t: Table<T>, handles: seq<Handle>)
    requires Valid(t)
    ensures Valid(ReleasedAll(t, handles))
    decreases |handles|
  {
    if handles != [] {
      ReleasedAllValid(t, handles[..|handles| - 1]);
      ReleaseKeepsValid(ReleasedAll(t, handles[..|handles| - 1]), handles[|handles| - 1]);
    }
  }

  ghost function OwnedByOthers<T>(live: map<Handle, T>, owner: T -> nat, client: nat): map<Handle, T> {
    map h | h in live && owner(live[h]) != client :: live[h]
  }

  /** Releasing a client's handles one by one removes exactly that client's sessions from the map. */
  lemma ClientReleased<T>(t: Table<T>, owner: T -> nat, client: nat)
    requires Valid(t)
    ensures var after := ReleasedAll(t, OwnedHandles(t, owner, client, |t.slots|));
            Valid(after) && Live(after) == OwnedByOthers(Live(t), owner, client)
  {
    var handles := OwnedHandles(t, owner, client, |t.slots|);
    OwnedHandlesExactly(t, owner, client, |t.slots|);
    ReleasedAllRemoves(t, handles);
    ReleasedAllValid(t, handles);
  }

  // ---------- the snapshot ----------

  /** The live sessions among the first k slots, in index order. */
  ghost function Listing<T>(t: Table<T>, k: nat): seq<(Handle, T)>
    requires k <= |t.slots|
  {
    if k == 0 then []
    else
      var slot := t.slots[k - 1];
      Listing(t, k - 1) + if slot.session.Some? then [(HandleOf(t, k - 1), slot.session.value)] else []
  }

  /** Every entry of a listing is live, and they come in strictly increasing slot order. */
  lemma {:induction false} ListingSound<T>(t: Table<T>, k: nat)
    requires k <= |t.slots|
    ensures forall j :: 0 <= j < |Listing(t, k)| ==> Listing(t, k)[j].0.index < k
    ensures forall j :: 0 <= j < |Listing(t, k)| ==>
      Listing(t, k)[j].0 in Live(t) && Live(t)[Listing(t, k)[j].0] == Listing(t, k)[j].1
    ensures forall i, j :: 0 <= i < j < |Listing(t, k)| ==> Listing(t, k)[i].0.index < Listing(t, k)[j].0.index
  {
    if k > 0 { ListingSound(t, k - 1); }
  }

  /** Every live session below slot k is listed. */
  lemma {:induction false} ListingComplete<T>(t: Table<T>, k: nat, h: Handle)
    requires k <= |t.slots| && h in Live(t) && h.index < k
    ensures (h, Live(t)[h]) in Listing(t, k)
  {
    var front := Listing(t, k - 1);
    if h.index == k - 1 {
      assert Listing(t, k)[|front|] == (h, Live(t)[h]);
    } else {
      ListingComplete(t, k - 1, h);
      var j :| 0 <= j < |front| && front[j] == (h, Live(t)[h]);
      assert Listing(t, k)[j] == front[j];
    }
  }

  // ---------- tables over time ----------

  /** The later table comes from the earlier one by operations: no slot's past is rewritten. */
  ghost predicate Evolves<T>(t: Table<T>, after: Table<T>) {
    && Valid(t) && Valid(after) && |after.slots| == |t.slots|
    && forall i :: 0 <= i < |t.slots| ==> SlotHistory(t, after, i)
  }

  lemma AllocatedEvolves<T>(t: Table<T>, session: T)
    requires Valid(t) && t.free != []
    ensures Evolves(t, Allocated(t, session))
  {
    AllocateKeepsValid(t, session);
    assert t.free[0] in t.free;
  }

  lemma ReleasedEvolves<T>(t: Table<T>, h: Handle)
    requires Valid(t)
    ensures Evolves(t, Released(t, h))
  {
    ReleaseKeepsValid(t, h);
  }

  lemma EvolvesSame<T>(t: Table<T>)
    requires Valid(t)
    ensures Evolves(t, t)
  {}

  lemma EvolvesOn<T>(a: Table<T>, b: Table<T>, c: Table<T>)
    requires Evolves(a, b) && Evolves(b, c)
    ensures Evolves(a, c)
  {
    forall i | 0 <= i < |a.slots|
      ensures SlotHistory(a, c, i)
    {
      assert SlotHistory(a, b, i) && SlotHistory(b, c, i);
    }
  }

  lemma {:induction false} ReleasedAllEvolves<T>(t: Table<T>, handles: seq<Handle>)
    requires Valid(t)
    ensures Evolves(t, ReleasedAll(t, handles))
    decreases |handles|
  {
    if handles == [] {
      EvolvesSame(t);
    } else {
      var before := ReleasedAll(t, handles[..|handles| - 1]);
      ReleasedAllEvolves(t, handles[..|handles| - 1]);
      ReleasedEvolves(before, handles[|handles| - 1]);
      EvolvesOn(t, before, ReleasedAll(t, handles));
    }
  }

  // ---------- counting ----------

  /** The numbers below k that occur in s. */
  ghost function Below(s: seq<nat>, k: nat): (b: set<nat>)
    ensures forall x :: x in b <==> (x in s && x < k)
  {
    set x | x in s && x < k
  }

  lemma {:induction false} DistinctSize(s: seq<nat>, k: nat)
    requires Distinct(s) && forall x :: x in s ==> x < k
    ensures |Below(s, k)| == |s|
  {
    if s != [] {
      var front, last := s[..|s| - 1], s[|s| - 1];
      assert s == front + [last];
      assert forall x :: x in s <==> x in front || x == last;
      assert last !in front;
      DistinctSize(front, k);
      assert Below(s, k) == Below(front, k) + {last};
    } else {
      assert Below(s, k) == {};
    }
  }

  lemma {:induction false} OccupiedCount<T>(t: Table<T>, k: nat)
    requires k <= |t.slots| && (forall i :: 0 <= i < |t.slots| ==> (t.slots[i].session.None? <==> i in t.free))
    ensures |Listing(t, k)| + |Below(t.free, k)| == k
  {
    if k == 0 {
      assert Below(t.free, k) == {};
    } else {
      OccupiedCount(t, k - 1);
      if k - 1 in t.free {
        assert Below(t.free, k) == Below(t.free, k - 1) + {k - 1};
      } else {
        assert Below(t.free, k) == Below(t.free, k - 1);
      }
    }
  }

  /** A full listing has as many entries as there are slots that are not free. */
  lemma ListingSize<T>(t: Table<T>)
    requires Valid(t)
    ensures |Listing(t, |t.slots|)| == |t.slots| - |t.free|
  {
    OccupiedCount(t, |t.slots|);
    DistinctSize(t.free, |t.slots|);
  }

  lemma {:induction false} LiveBelowSize<T>(t: Table<T>, k: nat)
    requires k <= |t.slots|
    ensures |LiveBelow(t, k)| == |Listing(t, k)|
  {
    if k == 0 {
      assert LiveBelow(t, 0) == {};
    } else {
      LiveBelowSize(t, k - 1);
      if t.slots[k - 1].session.Some? {
        assert LiveBelow(t, k) == LiveBelow(t, k - 1) + {HandleOf(t, k - 1)};
      } else {
        assert LiveBelow(t, k) == LiveBelow(t, k - 1);
      }
    }
  }

  ghost function LiveBelow<T>(t: Table<T>, k: nat): (handles: set<Handle>)
    ensures forall h :: h in handles <==> Current(t, h) && h.index < k
  {
    set h | h in LiveHandles(t) && h.index < k
  }

  lemma LiveSize<T>(t: Table<T>)
    requires Valid(t)
    ensures |Live(t)| == |t.slots| - |t.free|
  {
    LiveBelowSize(t, |t.slots|);
    ListingSize(t);
    assert Live(t).Keys == LiveBelow(t, |t.slots|);
  }

  // ---------- the table is a map of bounded size ----------

  /** What a caller gets back: an id if there was room, or whether the id given up was live. */
  datatype Result = Given(id: Option<Handle>) | GivenUp(wasLive: bool)

  /** A plain map of at most `capacity` ids may answer so: with any id not in use, and with none only when full. */
  ghost predicate MapAllows<T>(m: map<Handle, T>, capacity: nat, op: Op<T>, result: Result) {
    match op
    case AllocateOp(_) =>
      result.Given? && (result.id.None? <==> |m| == capacity) && (result.id.Some? ==> result.id.value !in m)
    case ReleaseOp(h) => result == GivenUp(h in m)
  }

  ghost function MapAfter<T>(m: map<Handle, T>, op: Op<T>, result: Result): map<Handle, T> {
    match op
    case AllocateOp(session) => if result.Given? && result.id.Some? then m[result.id.value := session] else m
    case ReleaseOp(h) => m - {h}
  }

  /** With these results the operations may take the map from m to m'. */
  ghost predicate MapRuns<T>(m: map<Handle, T>, capacity: nat, ops: seq<Op<T>>, results: seq<Result>, m': map<Handle,
                             T>)
    decreases |ops|
  {
    |results| == |ops|
    && if ops == [] then m' == m
       else MapAllows(m, capacity, ops[0], results[0])
            && MapRuns(MapAfter(m, ops[0], results[0]), capacity, ops[1..], results[1..], m')
  }

  /** What the table answers. */
  function ResultOf<T>(t: Table<T>, op: Op<T>): Result
    requires forall k :: 0 <= k < |t.free| ==> t.free[k] < |t.slots|
  {
    match op
    case AllocateOp(_) => Given(if t.free == [] then None else Some(HandleOf(t, t.free[0])))
    case ReleaseOp(h) => GivenUp(Current(t, h))
  }

  function ResultsOf<T>(t: Table<T>, ops: seq<Op<T>>): seq<Result>
    requires |t.slots| == |t.releases| && (forall k :: 0 <= k < |t.free| ==> t.free[k] < |t.slots|)
    decreases |ops|
  {
    if ops == [] then [] else [ResultOf(t, ops[0])] + ResultsOf(Apply(t, ops[0]), ops[1..])
  }

  lemma StepRefinesMap<T>(t: Table<T>, op: Op<T>)
    requires Valid(t)
    ensures MapAllows(Live(t), |t.slots|, op, ResultOf(t, op))
    ensures Live(Apply(t, op)) == MapAfter(Live(t), op, ResultOf(t, op))
  {
    LiveSize(t);
    match op
    case AllocateOp(session) => if t.free != [] { AllocateExtends(t, session); }
    case ReleaseOp(h) => ReleaseRemoves(t, h);
  }

  /**
   Refinement: under every sequence of operations the table stays valid, and its answers are those of a
   map of bounded size that nothing else is known of.
   */
  lemma {:induction false} RunRefinesMap<T>(t: Table<T>, ops: seq<Op<T>>)
    requires Valid(t)
    ensures Valid(ApplyAll(t, ops))
    ensures MapRuns(Live(t), |t.slots|, ops, ResultsOf(t, ops), Live(ApplyAll(t, ops)))
    decreases |ops|
  {
    if ops != [] {
      ApplyKeepsValid(t, ops[0]);
      StepRefinesMap(t, ops[0]);
      RunRefinesMap(Apply(t, ops[0]), ops[1..]);
      assert ResultsOf(t, ops)[1..] == ResultsOf(Apply(t, ops[0]), ops[1..]);
    }
  }
}
