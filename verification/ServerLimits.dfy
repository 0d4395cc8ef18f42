/**
 Where the server's guarantees end: runs that show what removing an id still to be issued, and a
 packet that comes between the validation and the removal of its session, can lead to.
 */
module ServerLimits {
  import opened ClientEntries
  import opened PacketAuthentication
  import opened ReplayWindow
  import opened Server
  import opened Sessions
  import opened SlotTable
  import opened Wire
  import opened Words
  import opened Wrappers

  ghost predicate Path(mac: Mac, run: seq<State>, steps: seq<Step>) {
    |run| == |steps| + 1 && forall i :: 0 <= i < |steps| ==> Next(mac, run[i], run[i + 1], steps[i])
  }

  ghost predicate Reaches(mac: Mac, s: State, s': State) {
    exists run, steps :: Path(mac, run, steps) && run[0] == s && run[|steps|] == s'
  }

  lemma ReachesItself(mac: Mac, s: State)
    ensures Reaches(mac, s, s)
  {
    assert Path(mac, [s], []) && [s][0] == s;
  }

  lemma ReachesOn(mac: Mac, s: State, s1: State, s2: State, step: Step)
    requires Reaches(mac, s, s1) && Next(mac, s1, s2, step)
    ensures Reaches(mac, s, s2)
  {
    var run, steps :| Path(mac, run, steps) && run[0] == s && run[|steps|] == s1;
    var run', steps' := run + [s2], steps + [step];
    forall i | 0 <= i < |steps'|
      ensures Next(mac, run'[i], run'[i + 1], steps'[i])
    {
      if i < |steps| { assert run'[i] == run[i] && run'[i + 1] == run[i + 1]; }
    }
    assert Path(mac, run', steps') && run'[0] == s && run'[|steps'|] == s2;
  }

  function AfterAdding(s: State): State {
    s.(clients := s.clients + {s.nextClient}, nextClient := IdAfter(s.nextClient))
  }

  lemma ReachesAdding(mac: Mac, s: State, s1: State)
    requires Reaches(mac, s, s1) && s1.lock == Free && s1.nextClient != INVALID_CLIENT_ID
    ensures Reaches(mac, s, AfterAdding(s1))
  {
    var begun := s1.(lock := Adding(s1.nextClient), nextClient := IdAfter(s1.nextClient));
    ReachesOn(mac, s, s1, begun, DoAddBegin);
    ReachesOn(mac, s, begun, AfterAdding(s1), DoAddEnd);
  }

  /** Adding clients until one has the id c. */
  lemma {:induction false} ReachesClient(mac: Mac, s: State, s1: State, c: uint64) returns (s2: State)
    requires Reaches(mac, s, s1) && s1.lock == Free && 0 < s1.nextClient <= c
    ensures Reaches(mac, s, s2) && s2.lock == Free && s2.table == s1.table && s2.sessions == s1.sessions
    ensures c in s2.clients
    decreases c - s1.nextClient
  {
    ReachesAdding(mac, s, s1);
    s2 := AfterAdding(s1);
    if s1.nextClient != c { s2 := ReachesClient(mac, s, s2, c); }
  }

  /** The table after making room, if there was none. */
  lemma ReachesRoom(mac: Mac, s: State) returns (s1: State)
    requires TableOk(s) && s.lock == Free && |s.table.slots| > 0
    ensures Reaches(mac, s, s1) && s1.table.free != [] && SlotTable.Valid(s1.table)
    ensures s1 == s.(table := s1.table)
  {
    ReachesItself(mac, s);
    s1 := s;
    if s.table.free == [] {
      var h := HandleOf(s.table, 0);
      NoRoomExactlyWhenFull(s.table);
      ReleaseKeepsValid(s.table, h);
      s1 := s.(table := Released(s.table, h));
      ReachesOn(mac, s, s, s1, DoRemoveSession(h));
    }
  }

  // ---------- an id still to be issued ----------

  /** The steps that register a session for a known client while there is room. */
  lemma ReachesSession(mac: Mac, s: State, known: State, c: uint64, endpoint: Endpoint, key: Key) returns (s': State)
    requires Reaches(mac, s, known) && known.lock == Free && c in known.clients && c != INVALID_CLIENT_ID
    requires ValidKey(key)
    requires SlotTable.Valid(known.table) && known.table.free != []
    ensures Reaches(mac, s, s')
    ensures s' == known.(sessions := known.sessions + [SessionState(c, endpoint, key, {}, known.clock)],
                         table := Allocated(known.table, |known.sessions|))
  {
    var session := |known.sessions|;
    var begun := known.(lock := Registering(session),
                        sessions := known.sessions + [SessionState(c, endpoint, key, {}, known.clock)]);
    ReachesOn(mac, s, known, begun, DoRegisterBegin(c, endpoint, key));
    assert known.table.free[0] in known.table.free;
    s' := begun.(lock := Free, table := Allocated(begun.table, session));
    ReachesOn(mac, s, begun, s', DoRegisterEnd);
  }

  /** A removal, from beginning to end. */
  lemma RemovalRuns(mac: Mac, s: State, c: uint64) returns (begun: State, removed: State)
    requires Inv(mac, s) && s.lock == Free
    ensures Next(mac, s, begun, DoRemoveBegin(c)) && Next(mac, begun, removed, DoRemoveEnd)
    ensures Inv(mac, begun) && Inv(mac, removed) && removed.lock == Free
    ensures begun.clients == s.clients && removed.nextClient == s.nextClient && |removed.table.slots| == |s.table.slots|
  {
    var handles := OwnedHandles(s.table, OwnerIn(s.sessions), c, |s.table.slots|);
    begun := s.(lock := Removing(c), table := ReleasedAll(s.table, handles));
    removed := begun.(lock := Free, clients := begun.clients - {c});
    NextKeeps(mac, s, begun, DoRemoveBegin(c));
    NextKeeps(mac, begun, removed, DoRemoveEnd);
  }

  /**
   The id has to be issued for a removal to be final: removing any id still to be issued finds no client,
   and afterwards the id can be handed out and given a session.
   */
  lemma UnissuedClientMayComeBack(mac: Mac, s: State, c: uint64, endpoint: Endpoint, key: Key)
    returns (begun: State, removed: State, s': State)
    requires Inv(mac, s) && s.lock == Free && |s.table.slots| > 0 && ValidKey(key)
    requires c != INVALID_CLIENT_ID && !Issued(s, c)
    ensures Next(mac, s, begun, DoRemoveBegin(c)) && Next(mac, begun, removed, DoRemoveEnd)
    ensures c !in begun.clients
    ensures Reaches(mac, removed, s') && c in s'.clients
    ensures exists h :: (h in Live(s'.table) && Live(s'.table)[h] < |s'.sessions|
                         && s'.sessions[Live(s'.table)[h]].client == c)
  {
    begun, removed := RemovalRuns(mac, s, c);
    var room := ReachesRoom(mac, removed);
    var known := ReachesClient(mac, removed, room, c);
    s' := ReachesSession(mac, removed, known, c, endpoint, key);
    assert known.table.free[0] in known.table.free;
    AllocateExtends(known.table, |known.sessions|);
    assert HandleOf(known.table, known.table.free[0]) in Live(s'.table);
  }

  // ---------- a silent session ----------

  /** A scan of the live sessions puts this one on its list. */
  lemma ReachesScanned(mac: Mac, s: State, h: Handle, now: int) returns (s': State)
    requires h in Live(s.table) && now <= s.clock
    ensures Reaches(mac, s, s') && s' == s.(scans := s'.scans) && Scan(h, Live(s.table)[h], now) in s'.scans
  {
    s' := s.(scans := s.scans + set l | l in Live(s.table) :: Scan(l, Live(s.table)[l], now));
    ReachesItself(mac, s);
    ReachesOn(mac, s, s, s', DoSnapshot(now));
  }

  /** The task the scan queued finds its session again. */
  lemma ReachesLocated(mac: Mac, s: State, s1: State, k: nat) returns (s2: State)
    requires Reaches(mac, s, s1) && k < |s1.tasks| && SlotTable.Valid(s1.table) && s1.tasks[k].stage == Queued
    requires s1.tasks[k].handle in Live(s1.table) && s1.tasks[k].timeout > 0
    ensures Reaches(mac, s, s2) && s2 == s1.(tasks := s2.tasks) && |s2.tasks| == |s1.tasks|
    ensures s2.tasks[k] == s1.tasks[k].(stage := Located, session := Live(s1.table)[s1.tasks[k].handle],
                                        releases := s2.tasks[k].releases)
  {
    var task := s1.tasks[k];
    FindIsLookup(s1.table, task.handle);
    s2 := WithTask(s1, k, task.(stage := Located, session := Live(s1.table)[task.handle],
                                releases := s1.table.releases[task.handle.index]));
    ReachesOn(mac, s, s1, s2, DoLocate(k));
  }

  /** And that the session is still silent. */
  lemma ReachesSilent(mac: Mac, s: State, s1: State, k: nat) returns (s2: State)
    requires Reaches(mac, s, s1) && k < |s1.tasks| && s1.tasks[k].stage == Located
    requires s1.tasks[k].session < |s1.sessions| && s1.tasks[k].timeout > 0
    requires s1.tasks[k].requested - s1.sessions[s1.tasks[k].session].lastReceived >= s1.tasks[k].timeout
    ensures Reaches(mac, s, s2) && s2 == s1.(tasks := s2.tasks) && |s2.tasks| == |s1.tasks|
    ensures s2.tasks[k] == s1.tasks[k].(stage := Validated)
  {
    s2 := WithTask(s1, k, s1.tasks[k].(stage := Validated));
    ReachesOn(mac, s, s1, s2, DoValidate(k));
  }

  /** A live session that has been silent for the timeout can be removed for it, and it alone. */
  lemma SilentSessionCanBeRemoved(mac: Mac, capacity: nat, run: seq<State>, before: seq<Step>, h: Handle, timeout: int)
    returns (s': State)
    requires Run(mac, capacity, run, before) && h in Live(run[|before|].table) && timeout > 0
    requires Live(run[|before|].table)[h] < |run[|before|].sessions|
    requires run[|before|].clock - run[|before|].sessions[Live(run[|before|].table)[h]].lastReceived >= timeout
    ensures Reaches(mac, run[|before|], s') && Live(s'.table) == Live(run[|before|].table) - {h}
    ensures s'.sessions == run[|before|].sessions && s'.clients == run[|before|].clients
  {
    RunKeeps(mac, capacity, run, before, |before|);
    s' := ReachesTimeout(mac, run[|before|], h, timeout);
  }

  lemma ReachesTimeout(mac: Mac, s: State, h: Handle, timeout: int) returns (s': State)
    requires TableOk(s) && h in Live(s.table) && timeout > 0
    requires s.clock - s.sessions[Live(s.table)[h]].lastReceived >= timeout
    ensures Reaches(mac, s, s') && Live(s'.table) == Live(s.table) - {h}
    ensures s'.sessions == s.sessions && s'.clients == s.clients
  {
    var scanned := ReachesScanned(mac, s, h, s.clock);
    var e := Scan(h, Live(s.table)[h], s.clock);
    var queued := scanned.(scans := scanned.scans - {e}, tasks := s.tasks + [Task(h, s.clock, timeout, 0, 0, Queued)]);
    ReachesOn(mac, s, scanned, queued, DoScan(e, timeout, true));
    var located := ReachesLocated(mac, s, queued, |s.tasks|);
    var silent := ReachesSilent(mac, s, located, |s.tasks|);
    s' := ReachesRemoval(mac, s, silent, |s.tasks|);
  }

  // ---------- a packet between validation and removal ----------

  lemma ReachesRemoval(mac: Mac, s: State, s1: State, k: nat) returns (s2: State)
    requires Reaches(mac, s, s1) && |s1.table.slots| == |s1.table.releases| && k < |s1.tasks|
    requires s1.tasks[k].stage == Validated
    ensures Reaches(mac, s, s2) && s2.sessions == s1.sessions && s2.clock == s1.clock && s2.clients == s1.clients
    ensures Live(s2.table) == Live(s1.table) - {s1.tasks[k].handle}
  {
    s2 := WithTask(s1, k, s1.tasks[k].(stage := Executed)).(table := Released(s1.table, s1.tasks[k].handle));
    ReachesOn(mac, s, s1, s2, DoExecute(k));
    ReleaseRemoves(s1.table, s1.tasks[k].handle);
  }

  /** A packet marked after validation comes too late: the session goes, although it was just heard from. */
  lemma MarkAfterValidationIsTooLate(mac: Mac, s: State, k: nat, j: nat) returns (s': State)
    requires |s.table.slots| == |s.table.releases| && k < |s.tasks| && s.tasks[k].stage == Validated
    requires Find(s.table, s.tasks[k].handle) == Some(s.tasks[k].session) && s.tasks[k].session < |s.sessions|
    requires j < |s.jobs| && s.jobs[j].stage == Accepted && s.jobs[j].session == s.tasks[k].session
    ensures Reaches(mac, s, s') && s.tasks[k].handle !in Live(s'.table)
    ensures s'.sessions == s.sessions[s.tasks[k].session := s.sessions[s.tasks[k].session].(lastReceived := s.clock)]
    ensures s'.clock == s.clock
  {
    ReachesItself(mac, s);
    var r := s.tasks[k].session;
    var marked := WithStage(s, j, Marked).(sessions := s.sessions[r := s.sessions[r].(lastReceived := s.clock)]);
    ReachesOn(mac, s, s, marked, DoMark(j));
    s' := ReachesRemoval(mac, s, marked, k);
  }

  /** The id of the first session in the first slot, and a heartbeat sent to it. */
  const FIRST_HANDLE := Handle(0, 1)

  function FirstId(): uint64 { MakeConnectionId(0, 1) }

  function FirstHeartbeat(): Packet { InnerPacket(FirstId(), 1, HEARTBEAT_PACKET_TYPE, []) }

  function StartState(capacity: nat): State {
    State(EmptyTable(capacity), [], {}, 1, Free, 0, [], [], {})
  }

  /** One client with one session, in the first slot, the clock still at its start. */
  ghost predicate OneSession(s: State, endpoint: Endpoint, key: Key) {
    && s.lock == Free && s.clock == 0 && s.jobs == [] && s.tasks == [] && s.scans == {}
    && s.sessions == [SessionState(1, endpoint, key, {}, 0)]
    && Live(s.table) == map[FIRST_HANDLE := 0] && SlotTable.Valid(s.table) && |s.table.slots| > 0
    && s.table.releases[0] == 0
  }

  lemma ReachesOneSession(mac: Mac, capacity: nat, endpoint: Endpoint, key: Key) returns (s: State)
    requires 0 < capacity < UINT32_LIMIT && ValidKey(key)
    ensures Init(capacity, StartState(capacity)) && Reaches(mac, StartState(capacity), s)
    ensures OneSession(s, endpoint, key)
  {
    var start := StartState(capacity);
    InitOk(mac, capacity, start);
    ReachesItself(mac, start);
    ReachesAdding(mac, start, start);
    var known := AfterAdding(start);
    s := ReachesSession(mac, start, known, 1, endpoint, key);
    AllocateKeepsValid(known.table, 0);
    AllocateExtends(known.table, 0);
    assert Live(known.table) == map[];
  }

  /** The session's heartbeat has arrived. */
  lemma ReachesFound(mac: Mac, start: State, s: State, endpoint: Endpoint, key: Key) returns (s': State)
    requires Reaches(mac, start, s) && OneSession(s, endpoint, key)
    requires ValidKey(key) && mac(key, EncodePacket(FirstHeartbeat())).Some?
    ensures Reaches(mac, start, s') && |s'.jobs| == 1 && s'.jobs[0].stage == Found && s'.jobs[0].session == 0
    ensures s' == s.(jobs := s'.jobs) && Authentic(mac, s.sessions[0], s'.jobs[0])
    ensures PacketOf(s'.jobs[0]) == FirstHeartbeat()
  {
    var data := EncodePacket(FirstHeartbeat());
    var datagram := EncodeEnvelope(Envelope(FirstId(), data, mac(key, data).value));
    FitsExactly(FirstId(), 1, HEARTBEAT_PACKET_TYPE, [], mac(key, data).value);
    BuildThenReceive(mac, key, FirstId(), 1, HEARTBEAT_PACKET_TYPE, [], datagram);
    PackRoundTrip(FIRST_HANDLE);
    FindIsLookup(s.table, FIRST_HANDLE);
    s' := s.(jobs := [Job(endpoint, ReceiveEnvelope(datagram).value, 0, 0, Found)]);
    ReachesOn(mac, start, s, s', DoReceive(endpoint, datagram));
  }

  /** It has passed its checks, and is not marked yet. */
  lemma ReachesAccepted(mac: Mac, start: State, s: State, endpoint: Endpoint, key: Key) returns (s': State)
    requires Reaches(mac, start, s) && s.sessions == [SessionState(1, endpoint, key, {}, 0)]
    requires |s.jobs| == 1 && s.jobs[0].stage == Found && s.jobs[0].session == 0
    requires Authentic(mac, s.sessions[0], s.jobs[0]) && PacketOf(s.jobs[0]) == FirstHeartbeat()
    ensures Reaches(mac, start, s')
    ensures s' == s.(jobs := [s.jobs[0].(stage := Accepted)], sessions := [SessionState(1, endpoint, key, {1}, 0)])
  {
    s' := s.(jobs := [s.jobs[0].(stage := Accepted)], sessions := [SessionState(1, endpoint, key, {1}, 0)]);
    assert Accepting({}, 1) == {1};
    assert s'.jobs == s.jobs[0 := s'.jobs[0]] && s'.sessions == s.sessions[0 := s'.sessions[0]];
    ReachesOn(mac, start, s, s', DoCheck(0));
  }

  function FirstTask(timeout: nat, stage: TaskStage): Task {
    Task(FIRST_HANDLE, timeout, timeout, 0, 0, stage)
  }

  /** The clock moves on, and a scan finds the session silent. */
  lemma ReachesQueued(mac: Mac, start: State, s: State, timeout: nat) returns (s': State)
    requires Reaches(mac, start, s) && timeout > 0 && s.clock == 0 && s.tasks == [] && s.scans == {}
    requires |s.sessions| == 1 && s.sessions[0].lastReceived == 0 && Live(s.table) == map[FIRST_HANDLE := 0]
    ensures Reaches(mac, start, s') && s' == s.(clock := timeout, tasks := [FirstTask(timeout, Queued)])
  {
    var late := s.(clock := timeout);
    ReachesOn(mac, start, s, late, DoTick(timeout));
    var scan := Scan(FIRST_HANDLE, 0, timeout);
    var scanned := late.(scans := {scan});
    ReachesOn(mac, start, late, scanned, DoSnapshot(timeout));
    s' := late.(tasks := [FirstTask(timeout, Queued)]);
    assert scanned.scans - {scan} == {};
    ReachesOn(mac, start, scanned, s', DoScan(scan, timeout, true));
  }

  /** The task is located and validated. */
  lemma ReachesValidated(mac: Mac, start: State, s: State, timeout: nat) returns (s': State)
    requires Reaches(mac, start, s) && timeout > 0 && s.tasks == [FirstTask(timeout, Queued)]
    requires |s.sessions| == 1 && s.sessions[0].lastReceived == 0
    requires Find(s.table, FIRST_HANDLE) == Some(0) && |s.table.releases| > 0 && s.table.releases[0] == 0
    ensures Reaches(mac, start, s') && s' == s.(tasks := [FirstTask(timeout, Validated)])
  {
    var located := s.(tasks := [FirstTask(timeout, Located)]);
    ReachesOn(mac, start, s, located, DoLocate(0));
    s' := s.(tasks := [FirstTask(timeout, Validated)]);
    ReachesOn(mac, start, located, s', DoValidate(0));
  }

  /**
   And it does happen: from the first state on, a run removes a session for its timeout although its
   heartbeat has just been marked.
   */
  lemma LateMarkIsReachable(mac: Mac, capacity: nat, endpoint: Endpoint, key: Key, timeout: nat)
    returns (s: State, s': State)
    requires 0 < capacity < UINT32_LIMIT && timeout > 0
    requires ValidKey(key) && mac(key, EncodePacket(FirstHeartbeat())).Some?
    ensures Init(capacity, StartState(capacity)) && Reaches(mac, StartState(capacity), s) && Reaches(mac, s, s')
    ensures FIRST_HANDLE in Live(s.table) && FIRST_HANDLE !in Live(s'.table)
    ensures |s'.sessions| == 1 && s'.sessions[0].lastReceived == s'.clock == timeout
  {
    var start := StartState(capacity);
    var one := ReachesOneSession(mac, capacity, endpoint, key);
    FindIsLookup(one.table, FIRST_HANDLE);
    var found := ReachesFound(mac, start, one, endpoint, key);
    var accepted := ReachesAccepted(mac, start, found, endpoint, key);
    var queued := ReachesQueued(mac, start, accepted, timeout);
    s := ReachesValidated(mac, start, queued, timeout);
    s' := MarkAfterValidationIsTooLate(mac, s, 0, 0);
  }
}
