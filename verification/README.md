# Verified model of a connection-multiplexed UDP server

A Dafny 4.11 model of the server's stateful components, each protected by its own lock, with proofs of
what they promise together. `dafny verify dfyconfig.toml` checks it. Every section of code under a lock,
and every single atomic access, is one step; a clock is a number that does not go back; the message
authentication code is a parameter.

## What is modelled

Components that change their fields are classes, each method proved against a function on values; the
same functions then serve as the steps of transition systems, in which any number of threads interleave. For each
transition system there are invariants and claims about whole runs, statements of what its sections do field by field,
and paths that show that what is promised can happen.

- **Client visits and removal** (`ClientEntries`, `ClientVisits`, `VisitOutcomes`): entries with two flags, a condition
  variable and one owned pointer. Threads are stacks of the calls they are inside, because visitors and
  callbacks may call the manager again. Waiting is three steps (test, sleep, wake), wakeups may be spurious,
  and one notification wakes any one sleeper.
- **Sessions** (`Words`, `ReplayWindow`, `Session`, `Channel`): the 64-bit replay bitmap as a set of accepted
  numbers (the scheme of section 3.4.3 of RFC 4303), the send counter, and two sessions joined by an arbitrary
  channel.
- **Packets** (`Wire`, `WireLayout`, `PacketAuthentication`): the two messages in the proto3 wire encoding, a parser for
  any field list, keys and tags, and the exact bound on what can be built.
- **Session table** (`SlotTable`, `SessionLookupTable`): slots, the queue of free slots and wrapping
  generations, as a map from connection ids to sessions.
- **Workers** (`ProcessorSections`, `Worker`, `WorkerProgress`, `ProcessorView`, `ManagerLifecycle`,
  `ManagedWorkers`, `ManagerProgress`, `Receiving`): one processor's start, stop, drain and wakeup protocol; a view of
  it that each of its steps is shown to follow; the ordered start, unwinding and stop of all processors over that view,
  and the manager over the processors themselves, whose runs are shown to be runs over views; and the receive loop of
  an IO processor.
- **Dispatch** (`Dispatch`): which queue a task goes to, and packet order over a group of workers.
- **Ticker** (`TickerQueue`, `Ticker`, `TickerProgress`): the timer queue's loop, and its two locks and stop flag step
  by step.
- **The server** (`ProcessorManager`, `ServerCore`, `Server`, `ServerGuarantees`, `PacketOrigins`, `ServerLimits`): the
  packet, scan, disconnect and registration paths as methods over the session objects, and the interleaving of their
  sections over whole runs. In `Server` a session is the number of its incarnation, and packets and disconnect tasks keep
  their place after they are done, so that claims can be made about whole runs.

## Where code and documents differ

The model follows the code.

- `Docs/Files/ClientManager.md` (lines 18 and 43) speaks of a visit count and of a remover that waits. The code
  has one flag, no remover waits, and a visitor that ends after its client's removal destroys it
  (`ClientVisits.WhoDestroys`).
- `Docs/Files/Client.md` (line 34) says only application packet types reach `OnRecvPacket`. The code keeps back
  types 0, 1 and 2 only (`ProcessorManagers.EffectOf`); types 3 to 1023 are dispatched.
- Removing a client is final only for ids that have been issued. `RemoveClient` on an id still to be issued returns
  false, and that id can later be handed out and given sessions; `ServerGuarantees.RemovedClientHasNoSessions` and
  `ServerLimits.UnissuedClientMayComeBack` give both directions.
- A packet that is marked after a timeout task was validated does not stop the removal
  (`ServerLimits.MarkAfterValidationIsTooLate`, `ServerLimits.LateMarkIsReachable`).
- A stop waits for the receive thread of an IO processor, and that thread looks at the stop flag only after a receive has
  failed, so a socket that never runs dry holds the stop up (`Receiving.EndsExactlyWhenAReceiveFails`).

## Model

| member | source | states |
|---|---|---|
| `ClientVisits.VisitsAreSafe` | ConnectionMultiplexedUDP/ConnectionMultiplexedUDP/ClientManager.cpp:90-149 | In every interleaving of adds, visits, removals and remove-alls by any number of threads, two visits of one client at the same time are the same visit, and its client is still owned by the entry while it is visited. |
| `ClientVisits.DestroyedExactlyOnce` | ConnectionMultiplexedUDP/ConnectionMultiplexedUDP/ClientManager.cpp:49-88 | A client is handed out for destruction at most once; once it is out of the map and neither a removal nor a visit of it is under way it has been, and if it has been, nobody visits it; the pointer is gone exactly when removal was asked for and nobody visits. Covers the throwing visitor. |
| `ClientVisits.WhoDestroys` | ConnectionMultiplexedUDP/ConnectionMultiplexedUDP/ClientManager.cpp:189-223 | The step that destroys is either the mark of a remover that finds no visit, or the finish of the visitor that finds `removing` set; exactly that thread goes on to run the destroyed callback. |
| `ClientVisits.EntryChanges` | ConnectionMultiplexedUDP/ConnectionMultiplexedUDP/ClientManager.cpp:111-132 | Only an entering visit, a mark and a finishing visit change an entry, each in its own way. |
| `ClientVisits.NoVisitOnceRemoving` | ConnectionMultiplexedUDP/ConnectionMultiplexedUDP/ClientManager.cpp:124-131 | A visit begins only on an entry that is idle, not being removed and still owns its client. |
| `ClientVisits.RemovalIsFinal` | ConnectionMultiplexedUDP/ConnectionMultiplexedUDP/ClientManager.cpp:55-63 | No step brings back a client that has left the map, nor clears `removing`. |
| `ClientVisits.RemovedStaysRemoved` | ConnectionMultiplexedUDP/ConnectionMultiplexedUDP/ClientManager.cpp:49-88 | The same over every stretch of every run. |
| `ClientVisits.SleeperIsWaitedFor` | ConnectionMultiplexedUDP/ConnectionMultiplexedUDP/ClientManager.cpp:119-122 | No lost wakeup and no visit deadlock, although finishing notifies only one thread: for every sleeper some other thread, the one the entry names as its visitor or one that is waking on it, is itself awake and has a step to take. |
| `ClientVisits.NobodySleepsOnRemoved` | ConnectionMultiplexedUDP/ConnectionMultiplexedUDP/ClientManager.cpp:189-194 | Once removal of an entry has been asked for, no thread sleeps on it. |
| `ClientVisits.VisitorNeverWaits` | ConnectionMultiplexedUDP/ConnectionMultiplexedUDP/ClientManager.cpp:92-96 | A thread holding a visit never waits on any entry, so wait chains have length one. |
| `ClientVisits.GuardNeverHit` | ConnectionMultiplexedUDP/ConnectionMultiplexedUDP/ClientManager.cpp:113-117 | The test for visiting an entry from the thread that already visits it can never succeed: a thread that has looked a client up, or wakes on it, visits nothing. |
| `ClientVisits.NotStuck` | ConnectionMultiplexedUDP/ConnectionMultiplexedUDP/ClientManager.cpp:134-148 | Every thread inside a call and not asleep has a step. |
| `ClientVisits.RunKeeps` | ConnectionMultiplexedUDP/ConnectionMultiplexedUDP/ClientManager.cpp:16-223 | Every run of any threads keeps the invariant: ids in one place, entries naming exactly their visitor, pointers gone exactly when taken, sleepers provided for. |
| `VisitOutcomes.TryOutcome` | ConnectionMultiplexedUDP/ConnectionMultiplexedUDP/ClientManager.cpp:111-132 | In every run, what a call that has looked up a client meets is decided by two flags of its entry alone: removal asked for, it returns; otherwise somebody visiting, it waits; otherwise it visits. The self-visit test decides nothing. |
| `VisitOutcomes.MarkOutcome` | ConnectionMultiplexedUDP/ConnectionMultiplexedUDP/ClientManager.cpp:189-200 | In every run a mark sets the flag, leaves the pointer in place exactly when a visit is under way, goes on to the destruction exactly when it took the pointer, and wakes every thread waiting on the entry and no other. |
| `VisitOutcomes.FinishOutcome` | ConnectionMultiplexedUDP/ConnectionMultiplexedUDP/ClientManager.cpp:202-214 | In every run the end of a visit frees the entry, and takes the pointer and goes on to the destruction exactly when removal was asked for meanwhile. |
| `VisitOutcomes.FinishWakes` | ConnectionMultiplexedUDP/ConnectionMultiplexedUDP/ClientManager.cpp:202-214 | And it wakes one of the threads waiting on the entry whenever there is one. |
| `VisitOutcomes.VisitCanBegin` | ConnectionMultiplexedUDP/ConnectionMultiplexedUDP/ClientManager.cpp:90-132 | From any state of any run, a thread in user code outside a visit can visit any client of the map that nobody visits. |
| `VisitOutcomes.CreationCanFinish` | ConnectionMultiplexedUDP/ConnectionMultiplexedUDP/ClientManager.cpp:16-47 | From any state of any run with ids left, a thread in user code can add a client: it gets the next id and an idle entry of its own, and the counter goes to zero after the last id. |
| `VisitOutcomes.RemovalCanFinish` | ConnectionMultiplexedUDP/ConnectionMultiplexedUDP/ClientManager.cpp:49-67 | From any state of any run, a thread in user code, a visitor or a callback included, can remove any client of the map; without a visit under way the client is taken at once. |
| `VisitOutcomes.RemovalOfAllCanBegin` | ConnectionMultiplexedUDP/ConnectionMultiplexedUDP/ClientManager.cpp:69-88 | The same for removing every client. |
| `ClientEntries.ClientEntry.TryVisit` | ConnectionMultiplexedUDP/ConnectionMultiplexedUDP/ClientManager.cpp:111-132 | The visitor's lock section: exactly when it refuses, has to wait and enters, that only entering changes the entry, and that it does as the protocol's entry function does. |
| `ClientEntries.ClientEntry.MarkForRemoval` | ConnectionMultiplexedUDP/ConnectionMultiplexedUDP/ClientManager.cpp:189-200 | The remover gets the client exactly when it is there and nobody visits. |
| `ClientEntries.ClientEntry.FinishVisit` | ConnectionMultiplexedUDP/ConnectionMultiplexedUDP/ClientManager.cpp:202-214 | The finishing visitor gets the client exactly when it is there and its removal was asked for. |
| `ClientEntries.ClientManager.AllocateClientId` | ConnectionMultiplexedUDP/ConnectionMultiplexedUDP/ClientManager.cpp:179-187 | Ids are issued in order; after the last one, 2^64 - 1, the counter is 0 and stays there. |
| `ClientEntries.ClientManager.DetachAll` | ConnectionMultiplexedUDP/ConnectionMultiplexedUDP/ClientManager.cpp:69-82 | The loop moves out every entry of the map, each once, and leaves the map empty. |
| `ClientEntries.ClientManager.AddClient` | ConnectionMultiplexedUDP/ConnectionMultiplexedUDP/ClientManager.cpp:16-47 | Fails exactly without a client or without ids left; otherwise one fresh idle entry appears under an id never issued before. |
| `ClientEntries.ClientManager.RemoveClient` | ConnectionMultiplexedUDP/ConnectionMultiplexedUDP/ClientManager.cpp:49-67 | Exactly the named entry leaves the map and is marked; all others stay as they were. |
| `Sessions.Session.AcceptSequence` | ConnectionMultiplexedUDP/ConnectionMultiplexedUDP/Session.cpp:104-144 | The bitmap and the highest number decide as the set of accepted numbers does: a number is accepted exactly when it is nonzero, not accepted before and less than 64 behind every accepted one; the fields go on representing the set. |
| `Sessions.Session.constructor` | ConnectionMultiplexedUDP/ConnectionMultiplexedUDP/Session.cpp:5-14 | A new session represents the empty set, has sent nothing and was heard from now. |
| `Sessions.Session.MarkReceivedNow` | ConnectionMultiplexedUDP/ConnectionMultiplexedUDP/Session.cpp:26-30 | The mark is the reading of the clock at that moment; given a steady clock, the session's time moves up to it. That it never goes back is ServerGuarantees.RunLater. |
| `Sessions.Session.HasTimedOut` | ConnectionMultiplexedUDP/ConnectionMultiplexedUDP/Session.cpp:32-43 | True exactly for a positive timeout with nothing received after now minus it. |
| `Sessions.Session.BuildSendPacket` | ConnectionMultiplexedUDP/ConnectionMultiplexedUDP/Session.cpp:50-84 | Successful builds carry 1, 2, 3 and so on; failures use no number and leave no data; the counter refuses at 2^64 - 1 rather than wrap; the exact condition of success. |
| `Sessions.Session.VerifyPacketAuthentication` | ConnectionMultiplexedUDP/ConnectionMultiplexedUDP/Session.cpp:86-102 | Passes exactly for the session's own endpoint and the tag computed with its key. |
| `ReplayWindow.RestartRepresents` | ConnectionMultiplexedUDP/ConnectionMultiplexedUDP/Session.cpp:113-118 | Starting the bitmap over with one bit stands for the old set plus the new number, when that is the first or 64 or more ahead. |
| `ReplayWindow.AdvanceRepresents` | ConnectionMultiplexedUDP/ConnectionMultiplexedUDP/Session.cpp:120-128 | Shifting by the advance and setting the low bit stands for the old set plus the new highest number. |
| `ReplayWindow.FillRepresents` | ConnectionMultiplexedUDP/ConnectionMultiplexedUDP/Session.cpp:130-143 | Setting the bit at its distance stands for the old set plus a number inside the window. |
| `ReplayWindow.RepresentationIsUnique` | ConnectionMultiplexedUDP/ConnectionMultiplexedUDP/Session.cpp:104-144 | The two fields are determined by the set of accepted numbers. |
| `ReplayWindow.FirstPacketNeedsNoBranch` | ConnectionMultiplexedUDP/ConnectionMultiplexedUDP/Session.cpp:113-128 | The first-packet branch gives what the general advance would. |
| `ReplayWindow.AcceptedExactly` | ConnectionMultiplexedUDP/ConnectionMultiplexedUDP/Session.cpp:104-144 | The rule on sets, over any arrival sequence: the k-th arrival is accepted exactly when it is nonzero, did not arrive before and nothing 64 or more ahead of it did. `Channels.AcceptAll` is the code's method doing so. |
| `ReplayWindow.EndToEnd` | ConnectionMultiplexedUDP/ConnectionMultiplexedUDP/Session.cpp:50-144 | The same for copies of numbers 1, 2, 3 and so on after any loss, duplication and reordering: accepted exactly when first to arrive with nothing sent 64 or more later arrived before; so none is accepted twice. `Channels.Exchange` is the two sessions doing so. |
| `Channels.AcceptAll` | ConnectionMultiplexedUDP/ConnectionMultiplexedUDP/Session.cpp:104-144 | The method with the bitmap, called on a new session for every number of any stream, accepts the k-th exactly when it is nonzero, not a repeat and not 64 or more behind an earlier arrival. |
| `Channels.BuildAll` | ConnectionMultiplexedUDP/ConnectionMultiplexedUDP/Session.cpp:50-84 | A new session that is asked to send any list of messages builds datagrams numbered 1, 2, 3 and so on without gap, whichever of them cannot be built. |
| `Channels.AllAreBuildable` | ConnectionMultiplexedUDP/ConnectionMultiplexedUDP/Session.cpp:50-84 | With a valid key, a working provider and fewer than 2^64 - 1 messages, every message with a type and a payload within the bound is built. |
| `Channels.ReceiveAll` | ConnectionMultiplexedUDP/ConnectionMultiplexedUDP/ProcessorManager.cpp:311-353 | A new session that receives copies of such datagrams through every check lets a copy have an effect exactly when it is the first to arrive and nothing sent 64 or more later has arrived; a heartbeat and a disconnect have their own effects, and any other message is dispatched with its own type and payload. |
| `Channels.Exchange` | ConnectionMultiplexedUDP/ConnectionMultiplexedUDP/Session.cpp:50-144 | End to end, sender and receiver sharing a key over a channel that may lose, repeat and reorder: each message has its effect at most once, and exactly when its first copy arrives before anything sent 64 or more later; an application message arrives with the type and payload it was sent with. |
| `PacketAuthentication.IsValidAuthenticationKey` | ConnectionMultiplexedUDP/ConnectionMultiplexedUDP/Protocol/PacketAuthentication.cpp:137-145 | The accumulating loop decides whether some key byte is not zero. |
| `PacketAuthentication.VerifyAuthenticationTag` | ConnectionMultiplexedUDP/ConnectionMultiplexedUDP/Protocol/PacketAuthentication.cpp:167-190 | The comparison that never stops early decides equality with the computed tag. |
| `PacketAuthentication.SerializeAuthenticatedPacket` | ConnectionMultiplexedUDP/ConnectionMultiplexedUDP/Protocol/PacketAuthentication.cpp:192-241 | With valid inputs and a working provider, the build succeeds exactly when the payload is at most 4026 minus the varint length of the packet type; every built datagram fits 4096 bytes. |
| `PacketAuthentication.FitsExactly` | ConnectionMultiplexedUDP/ConnectionMultiplexedUDP/Protocol/PacketAuthentication.cpp:236-239 | The size test on the envelope is that same bound on the payload. |
| `PacketAuthentication.BuildThenReceive` | ConnectionMultiplexedUDP/ConnectionMultiplexedUDP/LogicProcessor.cpp:66-91 | Whatever the builder produces passes every receive-side check up to the sequence check, and what the receiver parses is version 1 with the connection, sequence, type and payload given to the builder. |
| `Wire.PacketRoundTrip` | ConnectionMultiplexedUDP/ConnectionMultiplexedUDP/Protocol/PacketEnvelope.proto:11-17 | Decoding undoes encoding for every inner message, with default fields left out on the wire. |
| `Wire.EnvelopeRoundTrip` | ConnectionMultiplexedUDP/ConnectionMultiplexedUDP/Protocol/PacketEnvelope.proto:5-9 | Decoding undoes encoding for every envelope. |
| `Wire.FieldsRoundTrip` | ConnectionMultiplexedUDP/ConnectionMultiplexedUDP/Protocol/PacketEnvelope.proto:1-17 | Any list of well-formed fields, in any order and with repeats, decodes to itself. |
| `Wire.ParsedPacketFits` | ConnectionMultiplexedUDP/ConnectionMultiplexedUDP/ProcessorManager.cpp:327-333 | Whatever bytes arrive, a parsed inner message has values of the declared widths. |
| `Wire.ParsedEnvelopeFits` | ConnectionMultiplexedUDP/ConnectionMultiplexedUDP/LogicProcessor.cpp:74-83 | The same for a parsed envelope. |
| `WireLayout.PacketLayout` | ConnectionMultiplexedUDP/ConnectionMultiplexedUDP/Protocol/PacketEnvelope.proto:11-17 | The bytes of every inner message: its fields in order under the tags 8, 17, 25, 32 and 42, each left out when it has its default value. |
| `WireLayout.EnvelopeLayout` | ConnectionMultiplexedUDP/ConnectionMultiplexedUDP/Protocol/PacketEnvelope.proto:5-9 | The bytes of every envelope: its fields in order under the tags 9, 18 and 26. |
| `WireLayout.LittleEndianAt` | ConnectionMultiplexedUDP/ConnectionMultiplexedUDP/Protocol/PacketEnvelope.proto:13-14 | Byte i of a fixed-width number n is n / 256^i mod 256. |
| `WireLayout.VarintAt` | ConnectionMultiplexedUDP/ConnectionMultiplexedUDP/Protocol/PacketEnvelope.proto:12 | Byte i of a base-128 number n is n / 128^i mod 128, plus 128 in all but the last byte, which is not a needless zero. |
| `WireLayout.VarintIsRead` | ConnectionMultiplexedUDP/ConnectionMultiplexedUDP/ProcessorManager.cpp:327-330 | A base-128 number is read up to its first byte below 128, longer forms than needed included, and refused when that byte comes too late. |
| `WireLayout.NumberIsRead` | ConnectionMultiplexedUDP/ConnectionMultiplexedUDP/ProcessorManager.cpp:327-330 | A number field takes at most ten bytes, and 64 bits of its value count. |
| `WireLayout.BytesAreRead` | ConnectionMultiplexedUDP/ConnectionMultiplexedUDP/LogicProcessor.cpp:74-77 | A bytes field is its length, of at most five bytes and 31 bits, and so many bytes, all of which must be there. |
| `WireLayout.FixedIsRead` | ConnectionMultiplexedUDP/ConnectionMultiplexedUDP/LogicProcessor.cpp:74-77 | A fixed 64-bit field is read exactly when eight bytes are there, as the number with those bytes. |
| `WireLayout.TagsAreChecked` | ConnectionMultiplexedUDP/ConnectionMultiplexedUDP/ProcessorManager.cpp:327-330 | A field is read only under a tag of 32 bits with a nonzero number and wire type 0, 1, 2 or 5. |
| `WireLayout.PacketMeaning` | ConnectionMultiplexedUDP/ConnectionMultiplexedUDP/ProcessorManager.cpp:327-333 | Any bytes that are a list of fields are an inner message: of each field the last occurrence with the declared wire type counts, 32-bit numbers lose their high part, and the rest is ignored. |
| `WireLayout.EnvelopeMeaning` | ConnectionMultiplexedUDP/ConnectionMultiplexedUDP/LogicProcessor.cpp:74-83 | The same for an envelope. |
| `SlotTable.PackRoundTrip` | ConnectionMultiplexedUDP/ConnectionMultiplexedUDP/SessionLookupTable.cpp:143-156 | Unpacking a packed handle gives it back. |
| `SlotTable.UnpackRoundTrip` | ConnectionMultiplexedUDP/ConnectionMultiplexedUDP/SessionLookupTable.cpp:143-156 | Packing the parts of an id gives it back. |
| `SlotTable.PackingShiftsAndJoins` | ConnectionMultiplexedUDP/ConnectionMultiplexedUDP/SessionLookupTable.cpp:153-156 | Packing is the code's shift and bitwise or, and so puts the generation in the high and the index in the low 32 bits. |
| `SlotTable.FindIsLookup` | ConnectionMultiplexedUDP/ConnectionMultiplexedUDP/SessionLookupTable.cpp:98-119 | Finding is looking up in the map of live ids; no live id is the invalid one. |
| `SlotTable.RunRefinesMap` | ConnectionMultiplexedUDP/ConnectionMultiplexedUDP/SessionLookupTable.cpp:17-71 | Under every sequence of operations the table keeps its invariant and answers as a plain map of at most that many ids may: an allocation gives some id not in use, and none exactly when the map is full; a release reports whether its id was in use and removes just that one. |
| `SlotTable.StepRefinesMap` | ConnectionMultiplexedUDP/ConnectionMultiplexedUDP/SessionLookupTable.cpp:17-71 | The same for one operation. |
| `SlotTable.LiveSize` | ConnectionMultiplexedUDP/ConnectionMultiplexedUDP/SessionLookupTable.cpp:4-11 | The map has as many ids as there are slots not in the queue, so the table is full when the queue is empty. |
| `SlotTable.AllocateExtends` | ConnectionMultiplexedUDP/ConnectionMultiplexedUDP/SessionLookupTable.cpp:24-36 | Allocation adds one id, not live before, to the map and changes nothing else in it. |
| `SlotTable.AllocateKeepsValid` | ConnectionMultiplexedUDP/ConnectionMultiplexedUDP/SessionLookupTable.cpp:30-36 | Allocation keeps the queue free of repeats and holding exactly the empty slots. |
| `SlotTable.NoRoomExactlyWhenFull` | ConnectionMultiplexedUDP/ConnectionMultiplexedUDP/SessionLookupTable.cpp:25-28 | The queue is empty exactly when every slot is live. |
| `SlotTable.ReleaseRemoves` | ConnectionMultiplexedUDP/ConnectionMultiplexedUDP/SessionLookupTable.cpp:39-71 | Release removes its id from the map and nothing else; on an id that is not live it does nothing. |
| `SlotTable.ReleaseKeepsValid` | ConnectionMultiplexedUDP/ConnectionMultiplexedUDP/SessionLookupTable.cpp:56-63 | Release keeps the queue and generation invariants, past the wrap that skips 0. |
| `SlotTable.GenerationClosedForm` | ConnectionMultiplexedUDP/ConnectionMultiplexedUDP/SessionLookupTable.cpp:57-61 | After r releases a slot's generation is 1 + (r mod (2^32 - 1)). |
| `SlotTable.StaleHandle` | ConnectionMultiplexedUDP/ConnectionMultiplexedUDP/SessionLookupTable.cpp:56-63 | Over any run of operations, an id that is live again names the session it named, unless its slot was released a nonzero multiple of 2^32 - 1 times. |
| `SlotTable.ReleasedHandleStaysDead` | ConnectionMultiplexedUDP/ConnectionMultiplexedUDP/SessionLookupTable.cpp:56-63 | A released id resolves to nothing during the next 2^32 - 2 releases of its slot. |
| `SlotTable.QueueConserved` | ConnectionMultiplexedUDP/ConnectionMultiplexedUDP/SessionLookupTable.cpp:30-31 | What was free, then what came back, is what was handed out, then what is free, in order. |
| `SlotTable.ReuseIsLast` | ConnectionMultiplexedUDP/ConnectionMultiplexedUDP/SessionLookupTable.cpp:30-63 | A released slot is handed out again only after every slot free at that moment, in their order. |
| `SlotTable.PassStep` | ConnectionMultiplexedUDP/ConnectionMultiplexedUDP/SessionLookupTable.cpp:78-93 | One iteration of the bulk release is the release of that slot's id, if the client owns it. |
| `SlotTable.OwnedHandlesExactly` | ConnectionMultiplexedUDP/ConnectionMultiplexedUDP/SessionLookupTable.cpp:78-93 | The ids the pass releases are exactly the client's live ids. |
| `SlotTable.ClientReleased` | ConnectionMultiplexedUDP/ConnectionMultiplexedUDP/SessionLookupTable.cpp:73-96 | Releasing them one by one leaves exactly the other clients' sessions in the map. |
| `SlotTable.ListingSound` | ConnectionMultiplexedUDP/ConnectionMultiplexedUDP/SessionLookupTable.cpp:127-138 | Everything in a snapshot is live, and slots come in increasing order. |
| `SlotTable.ListingComplete` | ConnectionMultiplexedUDP/ConnectionMultiplexedUDP/SessionLookupTable.cpp:127-138 | Every live session is in the snapshot. |
| `SlotTable.ListingSize` | ConnectionMultiplexedUDP/ConnectionMultiplexedUDP/SessionLookupTable.cpp:125 | The reserved size, slots minus free, is exact. |
| `SessionLookup.SessionLookupTable.constructor` | ConnectionMultiplexedUDP/ConnectionMultiplexedUDP/SessionLookupTable.cpp:4-11 | A new table has no live ids and hands slots out from 0. |
| `SessionLookup.SessionLookupTable.Allocate` | ConnectionMultiplexedUDP/ConnectionMultiplexedUDP/SessionLookupTable.cpp:17-37 | Fails exactly for a missing session or a full table; else the map gains the returned id, never the invalid one. |
| `SessionLookup.SessionLookupTable.Release` | ConnectionMultiplexedUDP/ConnectionMultiplexedUDP/SessionLookupTable.cpp:39-71 | Succeeds exactly on a live id and removes that one from the map. |
| `SessionLookup.SessionLookupTable.ReleaseByClientId` | ConnectionMultiplexedUDP/ConnectionMultiplexedUDP/SessionLookupTable.cpp:73-96 | The loop gives the same table and queue as releasing the client's ids one by one in index order, and returns their count; other ids resolve as before. |
| `SessionLookup.SessionLookupTable.FindSession` | ConnectionMultiplexedUDP/ConnectionMultiplexedUDP/SessionLookupTable.cpp:98-119 | Finds exactly the live ids. |
| `SessionLookup.SessionLookupTable.SnapshotActiveSessions` | ConnectionMultiplexedUDP/ConnectionMultiplexedUDP/SessionLookupTable.cpp:121-141 | The snapshot is exactly the live map, in index order, of size slots minus free. |
| `Worker.StopProcessesEverything` | ConnectionMultiplexedUDP/ConnectionMultiplexedUDP/ProcessorBase.cpp:53-76 | When a stop from Running completes, every task accepted since the start has been processed, once and in order, and both threads are joined. Holds when tasks throw. |
| `Worker.FailedStartProcessesNothing` | ConnectionMultiplexedUDP/ConnectionMultiplexedUDP/ProcessorBase.cpp:34-46 | A failed start processes no task and leaves an empty queue and no threads. |
| `Worker.HistoryGrows` | ConnectionMultiplexedUDP/ConnectionMultiplexedUDP/ProcessorBase.cpp:172-212 | At every step what has been processed is an initial part of what has been accepted, and both only grow between starts. |
| `Worker.NothingAcceptedWhileStopping` | ConnectionMultiplexedUDP/ConnectionMultiplexedUDP/ProcessorBase.cpp:151-160 | From the moment Stopping is entered no push succeeds until the next start. |
| `Worker.SleepingWorkerIsWoken` | ConnectionMultiplexedUDP/ConnectionMultiplexedUDP/ProcessorBase.cpp:144-185 | A worker asleep with work queued or a stop asked for has a notification on its way. |
| `Worker.NeverJoinsItself` | ConnectionMultiplexedUDP/ConnectionMultiplexedUDP/ProcessorBase.cpp:78-138 | No call joins its own thread, and a stop asked for from the processor's own code is refused. |
| `Worker.StoppingIsNeverStuck` | ConnectionMultiplexedUDP/ConnectionMultiplexedUDP/ProcessorBase.cpp:67-76 | While stopping, some step other than a spurious wakeup is always possible. All a stop may have to wait for outside this code is the return of the processor thread's function, at the join of that thread, and the end of a task, at the join of the worker. |
| `Worker.StoppingWorkDecreases` | ConnectionMultiplexedUDP/ConnectionMultiplexedUDP/ProcessorBase.cpp:119-138 | While stopping, every step that changes anything leaves less work or is the last. |
| `Worker.StoppingIsBounded` | ConnectionMultiplexedUDP/ConnectionMultiplexedUDP/ProcessorBase.cpp:53-76 | So a stop takes at most as many changes as there was work when it began. |
| `Worker.NextKeeps` | ConnectionMultiplexedUDP/ConnectionMultiplexedUDP/ProcessorBase.cpp:12-218 | Every section of start, stop, push, worker and processor thread keeps the invariant: accepted = processed, in flight, queued, in that order; identities recorded whenever user code may run; no wakeup missed. |
| `Worker.RunKeeps` | ConnectionMultiplexedUDP/ConnectionMultiplexedUDP/ProcessorBase.cpp:12-218 | So does every run. |
| `WorkerProgress.PushOutcome` | ConnectionMultiplexedUDP/ConnectionMultiplexedUDP/ProcessorBase.cpp:144-164 | In every run a push while Starting or Running is accepted and stands last in the queue, with a notification on its way; at any other time it changes nothing. |
| `WorkerProgress.StopDrains` | ConnectionMultiplexedUDP/ConnectionMultiplexedUDP/ProcessorBase.cpp:53-76 | In the words of the lifecycle alone: on the way from Running down to Stopped everything accepted has been processed, in order, and both threads are gone. |
| `WorkerProgress.FailedStartDiscards` | ConnectionMultiplexedUDP/ConnectionMultiplexedUDP/ProcessorBase.cpp:34-46 | And on the way from Starting down to Stopped, without Running in between, nothing has been processed and the queue is empty. |
| `WorkerProgress.PendingTaskCanBeProcessed` | ConnectionMultiplexedUDP/ConnectionMultiplexedUDP/ProcessorBase.cpp:172-212 | From any running state of any run with tasks unprocessed, the worker's own steps and a notification on its way are enough to process the next one, and that is the oldest. |
| `WorkerProgress.StartCanSucceed` | ConnectionMultiplexedUDP/ConnectionMultiplexedUDP/ProcessorBase.cpp:12-51 | From any stopped state of any run any thread can start the processor, with or without a thread of its own beside the worker. |
| `WorkerProgress.StartCanFail` | ConnectionMultiplexedUDP/ConnectionMultiplexedUDP/ProcessorBase.cpp:34-46 | And a start can fail, before or at the launch of the worker, and then undoes itself without one. |
| `WorkerProgress.StopCanBegin` | ConnectionMultiplexedUDP/ConnectionMultiplexedUDP/ProcessorBase.cpp:53-66 | From any running state of any run any thread the processor does not own can begin a stop, which closes the queue and leaves the tasks in it. |
| `WorkerProgress.StopCanComplete` | ConnectionMultiplexedUDP/ConnectionMultiplexedUDP/ProcessorBase.cpp:67-76 | From any stopping state of any run, steps lead to the stopped state. |
| `ProcessorSections.Processor.PushTask` | ConnectionMultiplexedUDP/ConnectionMultiplexedUDP/ProcessorBase.cpp:144-164 | A task is accepted exactly when there is one and the state is Starting or Running; it then stands last in the queue, and otherwise nothing changes. |
| `ProcessorSections.Processor.BeginStart` | ConnectionMultiplexedUDP/ConnectionMultiplexedUDP/ProcessorBase.cpp:14-23 | A start gets in exactly from Stopped. |
| `ProcessorSections.Processor.BeginStop` | ConnectionMultiplexedUDP/ConnectionMultiplexedUDP/ProcessorBase.cpp:55-70 | A stop gets in exactly from Running and off the processor's own threads; otherwise its answer says whether it was stopped already. |
| `ProcessorSections.Processor.NextTask` | ConnectionMultiplexedUDP/ConnectionMultiplexedUDP/ProcessorBase.cpp:181-195 | With the lock held the worker takes the oldest task, leaves, or sleeps. |
| `ProcessorSections.Processor.DiscardTasks` | ConnectionMultiplexedUDP/ConnectionMultiplexedUDP/ProcessorBase.cpp:133-137 | The loop empties the queue and touches nothing else. |
| `ProcessorView.RunsShowTheView` | ConnectionMultiplexedUDP/ConnectionMultiplexedUDP/ProcessorBase.cpp:12-218 | Along every run of the worker protocol each step is a step of the view the manager works with: a start begins exactly from Stopped, a stop exactly from Running off the processor's own threads, calls go on and end as promised, and all else leaves the lifecycle alone. |
| `Receiving.RunRecvThread` | ConnectionMultiplexedUDP/ConnectionMultiplexedUDP/IOProcessor.cpp:105-160 | The receive loop ends at the first receive that fails once the stop flag is set, and until then passes on every datagram, in order, under its endpoint's key. |
| `Receiving.ReceivedExactly` | ConnectionMultiplexedUDP/ConnectionMultiplexedUDP/IOProcessor.cpp:147-158 | What is passed on is every datagram exactly once, in the order of arrival, under its sender's address times 2^16 plus its port. |
| `Receiving.EndsExactlyWhenAReceiveFails` | ConnectionMultiplexedUDP/ConnectionMultiplexedUDP/IOProcessor.cpp:124-145 | A receive thread told to stop ends exactly when some later receive fails or times out; on a socket that always has a datagram ready, it and the join that waits for it never end. |
| `ManagerLifecycle.OrdersCover` | ConnectionMultiplexedUDP/ConnectionMultiplexedUDP/ProcessorManager.cpp:59-63 | The start and stop loops reach every registered processor exactly once. |
| `ManagerLifecycle.RunKeeps` | ConnectionMultiplexedUDP/ConnectionMultiplexedUDP/ProcessorManager.cpp:47-124 | Every state of every start, unwinding and stop over the processors' views, all of them working at the same time, has each processor where its place in the loops says. |
| `ManagerLifecycle.ReceivingIsSupported` | ConnectionMultiplexedUDP/ConnectionMultiplexedUDP/ProcessorManager.cpp:59-79 | While an IO processor is not stopped, every Logic, ticker and heartbeat processor is running. |
| `ManagerLifecycle.LogicIsThereForTheRest` | ConnectionMultiplexedUDP/ConnectionMultiplexedUDP/ProcessorManager.cpp:378-393 | At every moment of every run: while an IO, ticker or heartbeat processor is not stopped, every Logic processor is running. |
| `ManagerLifecycle.StartsInOrder` | ConnectionMultiplexedUDP/ConnectionMultiplexedUDP/ProcessorManager.cpp:59-79 | While starting, nothing is up before what comes earlier is running: Logic, ticker, heartbeat, IO, and by index within a group. |
| `ManagerLifecycle.StopsInOrder` | ConnectionMultiplexedUDP/ConnectionMultiplexedUDP/ProcessorManager.cpp:378-393 | While stopping, nothing is being stopped before what comes earlier has stopped: IO, ticker, heartbeat, Logic, and by index within a group. |
| `ManagerLifecycle.ProcessorsAreFixed` | ConnectionMultiplexedUDP/ConnectionMultiplexedUDP/ProcessorManager.cpp:355-376 | The processors are the configured numbers of IO and Logic processors, one ticker and one heartbeat processor. |
| `ManagerLifecycle.StartedMeansAllRunning` | ConnectionMultiplexedUDP/ConnectionMultiplexedUDP/ProcessorManager.cpp:89-90 | A start that returns true leaves every processor running. |
| `ManagerLifecycle.StoppedMeansAllDone` | ConnectionMultiplexedUDP/ConnectionMultiplexedUDP/ProcessorManager.cpp:378-393 | A completed stop or undone start leaves every processor stopped without threads, and every task accepted by a fully started one processed. |
| `ManagerLifecycle.FailedStartUnwinds` | ConnectionMultiplexedUDP/ConnectionMultiplexedUDP/ProcessorManager.cpp:71-87 | When a processor fails to start, exactly those before it are running, it has processed nothing, and all are stopped next. |
| `ManagerLifecycle.StopIsNeverRefused` | ConnectionMultiplexedUDP/ConnectionMultiplexedUDP/ProcessorManager.cpp:386-392 | The stop loops may ignore the result of each stop: no processor they reach refuses it, and none is found running by a start. |
| `ManagedWorkers.RunIsSeen` | ConnectionMultiplexedUDP/ConnectionMultiplexedUDP/ProcessorManager.cpp:47-124 | Every run of the manager over processors that each run the full worker protocol is, seen through their views, a run of the manager over views. |
| `ManagedWorkers.ReceivingIsSupported` | ConnectionMultiplexedUDP/ConnectionMultiplexedUDP/ProcessorManager.cpp:59-79 | So over the processors themselves: while an IO processor is not stopped, every Logic, ticker and heartbeat processor is running. |
| `ManagedWorkers.LogicIsThereForTheRest` | ConnectionMultiplexedUDP/ConnectionMultiplexedUDP/ProcessorManager.cpp:378-393 | And while any other processor is not stopped, every Logic processor is running. |
| `ManagedWorkers.StartsInOrder` | ConnectionMultiplexedUDP/ConnectionMultiplexedUDP/ProcessorManager.cpp:59-79 | The start order, on the processors themselves. |
| `ManagedWorkers.StopsInOrder` | ConnectionMultiplexedUDP/ConnectionMultiplexedUDP/ProcessorManager.cpp:378-393 | The stop order, on the processors themselves. |
| `ManagedWorkers.StoppedMeansAllProcessed` | ConnectionMultiplexedUDP/ConnectionMultiplexedUDP/ProcessorManager.cpp:378-393 | When a stop, or the undoing of a failed start, is complete, every processor is stopped with an empty queue and no threads, and a fully started one has processed every task its queue accepted. |
| `ManagerProgress.StartCanSucceed` | ConnectionMultiplexedUDP/ConnectionMultiplexedUDP/ProcessorManager.cpp:47-91 | From any stopped state of any run of the manager over its processors, with an accepted configuration, any thread can start it: all the configured processors come up. |
| `ManagerProgress.StopCanBegin` | ConnectionMultiplexedUDP/ConnectionMultiplexedUDP/ProcessorManager.cpp:93-124 | From any running state any thread that no processor owns can begin a stop. |
| `ManagerProgress.StopCanComplete` | ConnectionMultiplexedUDP/ConnectionMultiplexedUDP/ProcessorManager.cpp:378-393 | From any state in which a stop or the unwinding of a failed start is under way, wherever it is, steps of the manager and its processors lead to all of them stopped. |
| `ProcessorManagers.ProcessorManager.AuthenticateAndDispatchPacket` | ConnectionMultiplexedUDP/ConnectionMultiplexedUDP/ProcessorManager.cpp:311-353 | A packet that fails any check leaves every session as it was; one that passes them all accepts its number, marks its own session only, and leads to one effect: type 1 a heartbeat, type 2 a disconnect of its connection, any other type a dispatch of its type and payload to the session's client. |
| `ProcessorManagers.ProcessorManager.ProcessReceivedPacket` | ConnectionMultiplexedUDP/ConnectionMultiplexedUDP/LogicProcessor.cpp:66-91 | The same from the raw datagram, with the envelope checks first: which packets are let through, the number accepted, the time marked, the effect, and that nothing else changes. |
| `ProcessorManagers.ProcessorManager.SendAuthenticatedPacket` | ConnectionMultiplexedUDP/ConnectionMultiplexedUDP/ProcessorManager.cpp:225-277 | A packet is queued exactly when its session is found, belongs to the client, can build it, has an IPv4 peer and an IO queue takes it. One that is built uses the session's next number even if it is not queued; otherwise nothing changes. |
| `ProcessorManagers.SendableExactly` | ConnectionMultiplexedUDP/ConnectionMultiplexedUDP/Session.cpp:50-84 | When a packet can be built for a session: the session is the client's, numbers are left, connection and type are set, the key is valid, the payload is within the bound and the provider works. |
| `ProcessorManagers.SentIsReceived` | ConnectionMultiplexedUDP/ConnectionMultiplexedUDP/ProcessorManager.cpp:225-277 | What is queued fits a datagram and goes to the session's peer; a receiver with the session's key finds the tag right and reads version 1, the connection, the session's next number, the type and the payload. |
| `ProcessorManagers.ProcessorManager.RequestTimedOutSessionDisconnects` | ConnectionMultiplexedUDP/ConnectionMultiplexedUDP/ProcessorManager.cpp:193-223 | The scan asks for a disconnect of exactly the silent live sessions, each once, in index order, as far as the queues accept. |
| `ProcessorManagers.ProcessorManager.ProcessClientDisconnect` | ConnectionMultiplexedUDP/ConnectionMultiplexedUDP/LogicProcessor.cpp:45-64 | Removes exactly the named live session, and with a timeout only if it is still silent for the timeout before the request. |
| `ProcessorManagers.ProcessorManager.RegisterClientSession` | ConnectionMultiplexedUDP/ConnectionMultiplexedUDP/ProcessorManager.cpp:279-294 | Fails exactly for an invalid client, an all-zero key or a full table; else one fresh session appears under an id that was not live. |
| `ProcessorManagers.ProcessorManager.RemoveClientSessions` | ConnectionMultiplexedUDP/ConnectionMultiplexedUDP/ProcessorManager.cpp:301-304 | Exactly the client's sessions go, and the result is by how many sessions the table got smaller. |
| `ServerCores.ServerCore.AddClient` | ConnectionMultiplexedUDP/ConnectionMultiplexedUDP/ServerCore.cpp:96-100 | Adding keeps sessions and their clients consistent and never reuses an id. |
| `ServerCores.ServerCore.RemoveClient` | ConnectionMultiplexedUDP/ConnectionMultiplexedUDP/ServerCore.cpp:102-107 | The client and exactly its sessions go together, so no session is left without its client. |
| `ServerCores.ServerCore.RegisterClientSession` | ConnectionMultiplexedUDP/ConnectionMultiplexedUDP/ServerCore.cpp:109-124 | A session is created exactly for a registered client with a valid key and room in the table. |
| `ServerCores.ServerCore.RemoveClientSession` | ConnectionMultiplexedUDP/ConnectionMultiplexedUDP/ServerCore.cpp:126-130 | Removes exactly the named session. |
| `Server.NextKeeps` | ConnectionMultiplexedUDP/ConnectionMultiplexedUDP/ServerCore.cpp:96-130 | Every step of registrations, removals, packets, scans and disconnects, interleaved section by section, keeps the server's invariant. |
| `Server.RunKeeps` | ConnectionMultiplexedUDP/ConnectionMultiplexedUDP/ServerCore.cpp:96-130 | So does every run. |
| `ServerGuarantees.RunLater` | ConnectionMultiplexedUDP/ConnectionMultiplexedUDP/Session.cpp:26-30 | Over any stretch of any run a session keeps its client, endpoint and key, its accepted numbers only grow and its last-received time never goes back; issued ids stay issued and removed clients stay removed. |
| `ServerGuarantees.NoOrphans` | ConnectionMultiplexedUDP/ConnectionMultiplexedUDP/ServerCore.cpp:102-124 | At every moment of every run, with Logic threads removing sessions without the lock, each live session's client is registered. |
| `PacketOrigins.SessionsComeAndGo` | ConnectionMultiplexedUDP/ConnectionMultiplexedUDP/SessionLookupTable.cpp:17-96 | In every run a live session goes exactly when it is removed by its id, a disconnect for its id is executed, or its client is removed; one comes only as a registration ends; and an id that stays live keeps its session. |
| `PacketOrigins.RegistrationOutcome` | ConnectionMultiplexedUDP/ConnectionMultiplexedUDP/ServerCore.cpp:109-124 | In every run a registration constructs a session with nothing accepted and heard from now, for a known client and a valid key, and gives it one id not in use unless every slot is taken. |
| `PacketOrigins.ClientsComeAndGo` | ConnectionMultiplexedUDP/ConnectionMultiplexedUDP/ClientManager.cpp:16-67 | In every run a client comes as its addition ends, under the id issued as it began, and goes as its removal ends. |
| `ServerGuarantees.IdsAreNotReused` | ConnectionMultiplexedUDP/ConnectionMultiplexedUDP/ClientManager.cpp:179-187 | No client id is issued twice in a run. |
| `ServerGuarantees.RemovedClientHasNoSessions` | ConnectionMultiplexedUDP/ConnectionMultiplexedUDP/ServerCore.cpp:102-107 | Once the removal of an id issued by then is complete, no connection id ever again resolves to a session of that client. |
| `ServerLimits.UnissuedClientMayComeBack` | ConnectionMultiplexedUDP/ConnectionMultiplexedUDP/ServerCore.cpp:102-124 | For an id not issued yet the claim fails: from any state of the invariant with the client-session lock free, whatever the id, its removal runs to the end without finding a client, and a run from there gives it a client and a live session. |
| `ServerGuarantees.OnlyAuthenticPacketsTouchSessions` | ConnectionMultiplexedUDP/ConnectionMultiplexedUDP/ProcessorManager.cpp:317-339 | In every run a session's window or last-received time changes only for a packet of its own that passed every check. |
| `ServerGuarantees.RejectedPacketsNeverAct` | ConnectionMultiplexedUDP/ConnectionMultiplexedUDP/ProcessorManager.cpp:328-337 | A packet that failed a check has no later step. |
| `ServerGuarantees.AcceptedAtMostOnce` | ConnectionMultiplexedUDP/ConnectionMultiplexedUDP/ProcessorManager.cpp:334 | No two packets past the checks carry the same number for the same session incarnation. |
| `ServerGuarantees.EffectsAreUnique` | ConnectionMultiplexedUDP/ConnectionMultiplexedUDP/ProcessorManager.cpp:339-352 | In any run each number of each session incarnation causes at most one heartbeat, disconnect or dispatch. |
| `PacketOrigins.EffectsAreAuthentic` | ConnectionMultiplexedUDP/ConnectionMultiplexedUDP/ProcessorManager.cpp:311-353 | Every effect of every run has its history in that run, in this order: the registration of its session for a known client with a valid key; the arrival, from that session's endpoint and while the id named the session, of the very datagram; the check that found its tag to be the one computed under the session's key, its content consistent and its number new to the window; and the mark of the time. |
| `PacketOrigins.CheckOutcome` | ConnectionMultiplexedUDP/ConnectionMultiplexedUDP/ProcessorManager.cpp:317-339 | In every run a check accepts a packet exactly when its sender is the session's endpoint, its tag the computed one, its content consistent, and its number nonzero, new, and less than 64 behind every accepted one; it then adds the number and changes nothing else. |
| `PacketOrigins.HandleOutcome` | ConnectionMultiplexedUDP/ConnectionMultiplexedUDP/ProcessorManager.cpp:340-352 | In every run handling a packet queues a disconnect, of the id it came under and without validation, exactly when its type is 2 and the queue takes it; no type changes anything else. |
| `PacketOrigins.PacketCanTakeEffect` | ConnectionMultiplexedUDP/ConnectionMultiplexedUDP/LogicProcessor.cpp:66-91 | From any state of any run, a datagram from the endpoint of a live session with the right tag, a consistent content and a number new to the session can be carried to its effect. |
| `ServerGuarantees.TimeoutRemovalIsSound` | ConnectionMultiplexedUDP/ConnectionMultiplexedUDP/LogicProcessor.cpp:53-63 | A timeout removes only after a validation step at which, and at every moment up to which, the located session had received nothing after the requested time minus the timeout; any later packet marked before validation cancels it. |
| `PacketOrigins.SnapshotOutcome` | ConnectionMultiplexedUDP/ConnectionMultiplexedUDP/SessionLookupTable.cpp:121-141 | In every run a scan's snapshot lists every live session, all with the one clock reading. |
| `PacketOrigins.ScanOutcome` | ConnectionMultiplexedUDP/ConnectionMultiplexedUDP/ProcessorManager.cpp:203-220 | In every run the scan asks for the removal of a listed session exactly when that had received nothing after the reading minus the timeout and the queue takes the task. |
| `ServerLimits.SilentSessionCanBeRemoved` | ConnectionMultiplexedUDP/ConnectionMultiplexedUDP/LogicProcessor.cpp:45-64 | From any state of any run, a live session that has been silent for the timeout can be removed for it, and it alone. |
| `ServerGuarantees.RemovalHitsTheNamedSession` | ConnectionMultiplexedUDP/ConnectionMultiplexedUDP/LogicProcessor.cpp:45-64 | Every disconnect, from a timeout or asked for by a packet, removes the session that was validated or whose packet asked, unless its slot was released a nonzero multiple of 2^32 - 1 times since that session was looked up; and no other id. |
| `ServerGuarantees.DisconnectNamesItsSession` | ConnectionMultiplexedUDP/ConnectionMultiplexedUDP/ProcessorManager.cpp:344-347 | The disconnect a packet asks for names the session incarnation that accepted the packet. |
| `ServerLimits.MarkAfterValidationIsTooLate` | ConnectionMultiplexedUDP/ConnectionMultiplexedUDP/LogicProcessor.cpp:56-63 | A packet marked between validation and removal does not save the session: wherever a validated task and an accepted packet of the same session are pending, a run marks the one and then removes the session. |
| `ServerLimits.LateMarkIsReachable` | ConnectionMultiplexedUDP/ConnectionMultiplexedUDP/LogicProcessor.cpp:45-64 | And that happens: for every capacity, key, endpoint and timeout, a run from the first state on removes a session for its timeout just after its heartbeat was marked. |
| `Dispatch.GetLeastBusyProcessorIndex` | ConnectionMultiplexedUDP/ConnectionMultiplexedUDP/ProcessorManager.cpp:395-422 | The first processor with the shortest queue; none exactly when there is none whose size is below the largest value. |
| `Dispatch.ChooseProcessor` | ConnectionMultiplexedUDP/ConnectionMultiplexedUDP/ProcessorManager.cpp:126-157 | When a push reaches a processor, and which. |
| `Dispatch.ChooseByAffinity` | ConnectionMultiplexedUDP/ConnectionMultiplexedUDP/ProcessorManager.cpp:159-177 | A key always leads to the same, existing processor, whatever the queues hold. |
| `Dispatch.DispatchPacket` | ConnectionMultiplexedUDP/ConnectionMultiplexedUDP/IOProcessor.cpp:147-158 | An IO processor gives a received packet to the Logic processor whose index is the sender's address times 2^16 plus its port, modulo their number, whatever the queues hold: the endpoint's home. |
| `Dispatch.AffinityKeySeparates` | ConnectionMultiplexedUDP/ConnectionMultiplexedUDP/IOProcessor.cpp:152-154 | The key of an endpoint loses neither address nor port. |
| `Dispatch.EndpointsAreServedInOrder` | ConnectionMultiplexedUDP/ConnectionMultiplexedUDP/IOProcessor.cpp:152-158 | Over every run of a group of processors, only one ever has an endpoint's packets, and it has processed an initial part of those it accepted: one at a time, in the order they were queued. |
| `Dispatch.SessionsUseOneQueue` | ConnectionMultiplexedUDP/ConnectionMultiplexedUDP/Session.cpp:91-96 | All packets that can pass one session's endpoint check go to one queue, whenever and through whichever IO processor they came. |
| `TickerQueue.TaskQueue.TakeDue` | ConnectionMultiplexedUDP/ConnectionMultiplexedUDP/TickerProcessor.cpp:65-70 | A tick's batch is exactly the queued tasks with fire time at most now, each once, in non-decreasing fire time; the rest stay queued. |
| `TickerQueue.TaskQueue.Push` | ConnectionMultiplexedUDP/ConnectionMultiplexedUDP/TickerProcessor.cpp:109-116 | A task is queued unless stopping has begun. |
| `TickerQueue.TaskQueue.Clear` | ConnectionMultiplexedUDP/ConnectionMultiplexedUDP/TickerProcessor.cpp:30-33 | Stopping leaves nothing queued. |
| `TickerQueue.SomeTaskIsEarliest` | ConnectionMultiplexedUDP/ConnectionMultiplexedUDP/TickerProcessor.h:22-33 | A nonempty queue has an earliest task. |
| `Ticker.NeverEarlyNeverTwice` | ConnectionMultiplexedUDP/ConnectionMultiplexedUDP/TickerProcessor.cpp:73-93 | In every run no task fires before its time and none fires twice, also when callbacks throw. |
| `Ticker.FiresInOrder` | ConnectionMultiplexedUDP/ConnectionMultiplexedUDP/TickerProcessor.cpp:73-93 | While a callback runs, nothing still to run in its tick is earlier, and none of it has run. |
| `Ticker.NothingIsLostWhileStarted` | ConnectionMultiplexedUDP/ConnectionMultiplexedUDP/TickerProcessor.cpp:98-117 | From a start until a stop begins, every task created since that start is being scheduled, queued, in the tick's batch, or fired, and none of them has been discarded. |
| `TickerProgress.LivesWhileStarted` | ConnectionMultiplexedUDP/ConnectionMultiplexedUDP/TickerProcessor.cpp:50-62 | In every run a ticker thread that a start has spawned does not end before a stop begins. |
| `TickerProgress.DueTaskCanFire` | ConnectionMultiplexedUDP/ConnectionMultiplexedUDP/TickerProcessor.cpp:50-95 | From any such state a queued task that is due can fire: the ticker's own steps, and the worker's while that holds the queue lock, lead to its callback. |
| `TickerProgress.TaskCanBeScheduled` | ConnectionMultiplexedUDP/ConnectionMultiplexedUDP/TickerProcessor.cpp:98-117 | While started, a new task can be got into the queue unless the ticker holds the lock. |
| `TickerProgress.StartCanBegin` | ConnectionMultiplexedUDP/ConnectionMultiplexedUDP/TickerProcessor.cpp:16-26 | A ticker that is not started can be started, with an empty queue. |
| `TickerProgress.StopCanComplete` | ConnectionMultiplexedUDP/ConnectionMultiplexedUDP/TickerProcessor.cpp:28-39 | A stop can begin at any moment and be carried through. |
| `Ticker.NothingRunsAfterStop` | ConnectionMultiplexedUDP/ConnectionMultiplexedUDP/TickerProcessor.cpp:28-39 | From the return of StopImpl to the next start, no callback is running or begins, and the queue stays empty, although the worker may still drain tasks. |
| `Ticker.StoppingIsNeverStuck` | ConnectionMultiplexedUDP/ConnectionMultiplexedUDP/TickerProcessor.cpp:28-62 | Neither lock can hold a stop up for ever: a step of the stop, ticker or worker is always possible. |
| `Ticker.StoppingWorkDecreases` | ConnectionMultiplexedUDP/ConnectionMultiplexedUDP/TickerProcessor.cpp:28-96 | And each such step brings the stop closer to its end. |
| `Ticker.RunKeeps` | ConnectionMultiplexedUDP/ConnectionMultiplexedUDP/TickerProcessor.cpp:28-117 | Every run keeps each task in at most one place and the two locks exclusive. |

## Left out

- Sockets, `recvfrom`, `sendto`, Winsock startup and cleanup: a datagram arrives as a step with any bytes and any sender.
- HMAC-SHA256, key generation and clearing of memory: the tag is an uninterpreted function that may fail; nothing is claimed about forgery.
- The generated protobuf code and general protobuf features: only the two messages are encoded, and the parser refuses group wire types and tags of more than 32 bits where the library may skip or truncate them.
- Weak memory, real time, allocation failure and scheduling fairness: progress is stated as steps that are possible and work that decreases.
- Bodies of visitors, callbacks and tasks: visitors and tasks end, by return or exception; the created and destroyed callbacks, which are `noexcept`, return; visitors and callbacks may call the client manager in between.
- `Worker.StoppingIsNeverStuck`: that the processor thread's function returns once it is told to stop is a step that is possible, not one that is bound to happen; for the receive loop `Receiving` gives the exact condition.
- `ServerCore` start and stop: the lifecycle flag around the processor manager's, and Winsock, add nothing beyond `ManagerLifecycle`.
- Exceptions thrown out of a processor's `Start` or `Stop` in the manager's loops: a start that fails stands for both ways of failing.
- The interval between heartbeat scans and the checks of the configuration: easy facts.
- `Server.NextKeeps`: a visit to a client is one step at the end of a packet; what visits do is in `ClientVisits`. Sending is only in `ProcessorManager`.
- `ProcessorManagers.ProcessorManager.SendAuthenticatedPacket`: whether an IO queue takes the packet is a parameter; the choice of the queue is in `Dispatch`.
- `ProcessorManagers.ProcessorManager.RequestTimedOutSessionDisconnects`: whether a queue takes a task is a parameter, fixed for the scan.
- `Dispatch.GetLeastBusyProcessorIndex`: queue sizes are given as the list of values read; each was right at its own moment.
- Words are bounded numbers with their bitwise operations written out, not machine vectors.
- The transition systems are over values; the class methods they share their functions with are proved for one call at a time.
