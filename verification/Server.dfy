/**
 The server as a whole: registrations and removals under the client-session lock, Logic threads
 that receive packets and carry out disconnects without it, the timeout scan, and a clock.

 Sessions are numbered in the order they were constructed, so a number names one incarnation.
 Packets and disconnect tasks keep their place in `jobs` and `tasks` after they are done.
 */
module Server {
  import opened ClientEntries
  import opened PacketAuthentication
  import opened ReplayWindow
  import opened Sessions
  import opened SlotTable
  import opened Wire
  import opened Words
  import opened Wrappers

  datatype SessionState = SessionState(client: uint64, endpoint: Endpoint, key: Key, accepted: set<nat>,
                                       lastReceived: int)

  /** What the holder of the client-session lock is in the middle of. */
  datatype Lock = Free | Adding(client: uint64) | Removing(client: uint64) | Registering(session: nat)

  datatype Stage = Found | Rejected | Accepted | Marked | Handled
  /** `releases` is how often the slot had been released when the session was looked up in it. */
  datatype Job = Job(sender: Endpoint, envelope: Envelope, session: nat, releases: nat, stage: Stage)

  /** A timeout of zero stands for a disconnect that needs no validation. */
  datatype TaskStage = Queued | Located | Validated | Dropped | Executed
  datatype Task = Task(handle: Handle, requested: int, timeout: int, session: nat, releases: nat, stage: TaskStage)

  /** One entry of a scan's snapshot, still to be looked at. */
  datatype Scan = Scan(handle: Handle, session: nat, requested: int)

  datatype State = State(
    table: Table<nat>, sessions: seq<SessionState>, clients: set<uint64>, nextClient: uint64, lock: Lock,
    clock: int, jobs: seq<Job>, tasks: seq<Task>, scans: set<Scan>)

  function HandleIn(e: Envelope): Handle
    requires e.connectionId < UINT64_LIMIT
  {
    Unpack(e.connectionId)
  }

  /** Everything checked about a packet before its sequence number, given the session it was looked up for. */
  ghost predicate Authentic(mac: Mac, s: SessionState, j: Job) {
    PassesChecks(mac, s.key, s.endpoint, j.sender, j.envelope.connectionId, j.envelope.authenticatedData,
                 j.envelope.authenticationTag)
  }

  function PacketOf(j: Job): Packet
    requires ReceivePacket(j.envelope.connectionId, j.envelope.authenticatedData).Some?
  {
    ReceivePacket(j.envelope.connectionId, j.envelope.authenticatedData).value
  }

  // ---------- steps under the client-session lock ----------

  ghost predicate AddBegin(s: State, s': State) {
    s.lock == Free && s.nextClient != INVALID_CLIENT_ID
    && s' == s.(lock := Adding(s.nextClient), nextClient := IdAfter(s.nextClient))
  }

  ghost predicate AddEnd(s: State, s': State) {
    s.lock.Adding? && s' == s.(lock := Free, clients := s.clients + {s.lock.client})
  }

  ghost function OwnerIn(sessions: seq<SessionState>): nat -> nat {
    (r: nat) => if r < |sessions| then sessions[r].client else 0
  }

  ghost predicate RemoveBegin(s: State, s': State, c: uint64) {
    s.lock == Free && |s.table.slots| == |s.table.releases|
    && s' == s.(lock := Removing(c),
                table := ReleasedAll(s.table, OwnedHandles(s.table, OwnerIn(s.sessions), c, |s.table.slots|)))
  }

  ghost predicate RemoveEnd(s: State, s': State) {
    s.lock.Removing? && s' == s.(lock := Free, clients := s.clients - {s.lock.client})
  }

  /** The client is known and the key is valid: the session is constructed. */
  ghost predicate RegisterBegin(s: State, s': State, c: uint64, endpoint: Endpoint, key: Key) {
    s.lock == Free && c in s.clients && c != INVALID_CLIENT_ID && ValidKey(key)
    && s' == s.(lock := Registering(|s.sessions|),
                sessions := s.sessions + [SessionState(c, endpoint, key, {}, s.clock)])
  }

  ghost predicate RegisterEnd(s: State, s': State) {
    s.lock.Registering?
    && s' == s.(lock := Free,
                table := if s.table.free == [] || s.table.free[0] >= |s.table.slots| then s.table
                         else Allocated(s.table, s.lock.session))
  }

  ghost predicate RemoveSession(s: State, s': State, h: Handle) {
    s.lock == Free && |s.table.slots| == |s.table.releases| && s' == s.(table := Released(s.table, h))
  }

  // ---------- packets ----------

  ghost predicate Receive(s: State, s': State, sender: Endpoint, datagram: seq<byte>) {
    ReceiveEnvelope(datagram).Some?
    && var e := ReceiveEnvelope(datagram).value;
       Find(s.table, HandleIn(e)).Some? && HandleIn(e).index < |s.table.releases|
       && var session, releases := Find(s.table, HandleIn(e)).value, s.table.releases[HandleIn(e).index];
          s' == s.(jobs := s.jobs + [Job(sender, e, session, releases, Found)])
  }

  function WithStage(s: State, k: nat, stage: Stage): State
    requires k < |s.jobs|
  {
    s.(jobs := s.jobs[k := s.jobs[k].(stage := stage)])
  }

  /** The sequence check comes last; it alone has an effect, and only when everything holds. */
  ghost predicate Check(mac: Mac, s: State, s': State, k: nat) {
    k < |s.jobs| && s.jobs[k].stage == Found && s.jobs[k].session < |s.sessions|
    && var r := s.jobs[k].session;
       s' == if Authentic(mac, s.sessions[r], s.jobs[k]) && Fresh(s.sessions[r].accepted, PacketOf(s.jobs[k]).sequence)
             then WithStage(s, k, Accepted).(sessions :=
                    s.sessions[r := s.sessions[r].(accepted :=
                      Accepting(s.sessions[r].accepted, PacketOf(s.jobs[k]).sequence))])
             else WithStage(s, k, Rejected)
  }

  ghost predicate MarkReceived(s: State, s': State, k: nat) {
    k < |s.jobs| && s.jobs[k].stage == Accepted && s.jobs[k].session < |s.sessions|
    && var r := s.jobs[k].session;
       s' == WithStage(s, k, Marked).(sessions := s.sessions[r := s.sessions[r].(lastReceived := s.clock)])
  }

  /** Heartbeats end here; a disconnect queues a task if the queue takes it; the rest goes to the client. */
  ghost predicate Handle(s: State, s': State, k: nat, pushed: bool) {
    k < |s.jobs| && s.jobs[k].stage == Marked && s.jobs[k].envelope.connectionId < UINT64_LIMIT
    && ReceivePacket(s.jobs[k].envelope.connectionId, s.jobs[k].envelope.authenticatedData).Some?
    && s' == if PacketOf(s.jobs[k]).packetType == DISCONNECT_PACKET_TYPE && pushed
             then WithStage(s, k, Handled).(tasks :=
                    s.tasks + [Task(HandleIn(s.jobs[k].envelope), 0, 0, s.jobs[k].session, s.jobs[k].releases, Queued)])
             else WithStage(s, k, Handled)
  }

  // ---------- timeouts and disconnects ----------

  ghost predicate Snapshot(s: State, s': State, now: int) {
    now <= s.clock
    && (forall h :: h in Live(s.table) ==> Scan(h, Live(s.table)[h], now) in s'.scans)
    && (forall e :: e in s'.scans ==>
         e in s.scans || (e.handle in Live(s.table) && e == Scan(e.handle, Live(s.table)[e.handle], now)))
    && s' == s.(scans := s'.scans)
  }

  predicate TimedOut(lastReceived: int, now: int, timeout: int) {
    timeout > 0 && now - lastReceived >= timeout
  }

  ghost predicate ScanOne(s: State, s': State, e: Scan, timeout: int, pushed: bool) {
    e in s.scans && e.session < |s.sessions| && timeout > 0
    && s' == if TimedOut(s.sessions[e.session].lastReceived, e.requested, timeout) && pushed
             then s.(scans := s.scans - {e}, tasks := s.tasks + [Task(e.handle, e.requested, timeout, 0, 0, Queued)])
             else s.(scans := s.scans - {e})
  }

  function WithTask(s: State, k: nat, task: Task): State
    requires k < |s.tasks|
  {
    s.(tasks := s.tasks[k := task])
  }

  /** Looking the session up is one section; what was found is kept, with the slot's release count. */
  ghost predicate Locate(s: State, s': State, k: nat) {
    k < |s.tasks| && s.tasks[k].stage == Queued && s.tasks[k].timeout > 0
    && s' == if Find(s.table, s.tasks[k].handle).Some? && s.tasks[k].handle.index < |s.table.releases|
             then WithTask(s, k, s.tasks[k].(stage := Located, session := Find(s.table, s.tasks[k].handle).value,
                                             releases := s.table.releases[s.tasks[k].handle.index]))
             else WithTask(s, k, s.tasks[k].(stage := Dropped))
  }

  ghost predicate Validate(s: State, s': State, k: nat) {
    k < |s.tasks| && s.tasks[k].stage == Located && s.tasks[k].session < |s.sessions|
    && s' == WithTask(s, k, s.tasks[k].(stage :=
               if TimedOut(s.sessions[s.tasks[k].session].lastReceived, s.tasks[k].requested, s.tasks[k].timeout)
               then Validated else Dropped))
  }

  /** The removal goes by handle, and does not look again at what was validated. */
  ghost predicate Execute(s: State, s': State, k: nat) {
    k < |s.tasks| && (s.tasks[k].stage == Validated || (s.tasks[k].stage == Queued && s.tasks[k].timeout <= 0))
    && |s.table.slots| == |s.table.releases|
    && s' == WithTask(s, k, s.tasks[k].(stage := Executed)).(table := Released(s.table, s.tasks[k].handle))
  }

  ghost predicate Tick(s: State, s': State, now: int) {
    now >= s.clock && s' == s.(clock := now)
  }

  datatype Step =
    | DoAddBegin | DoAddEnd | DoRemoveBegin(c: uint64) | DoRemoveEnd
    | DoRegisterBegin(c: uint64, endpoint: Endpoint, key: Key) | DoRegisterEnd | DoRemoveSession(h: Handle)
    | DoReceive(sender: Endpoint, datagram: seq<byte>) | DoCheck(k: nat) | DoMark(k: nat)
    | DoHandle(k: nat, pushed: bool)
    | DoSnapshot(now: int) | DoScan(e: Scan, timeout: int, pushed: bool)
    | DoLocate(k: nat) | DoValidate(k: nat) | DoExecute(k: nat)
    | DoTick(now: int)

  ghost predicate Next(mac: Mac, s: State, s': State, step: Step) {
    match step
    case DoAddBegin => AddBegin(s, s')
    case DoAddEnd => AddEnd(s, s')
    case DoRemoveBegin(c) => RemoveBegin(s, s', c)
    case DoRemoveEnd => RemoveEnd(s, s')
    case DoRegisterBegin(c, endpoint, key) => RegisterBegin(s, s', c, endpoint, key)
    case DoRegisterEnd => RegisterEnd(s, s')
    case DoRemoveSession(h) => RemoveSession(s, s', h)
    case DoReceive(sender, datagram) => Receive(s, s', sender, datagram)
    case DoCheck(k) => Check(mac, s, s', k)
    case DoMark(k) => MarkReceived(s, s', k)
    case DoHandle(k, pushed) => Handle(s, s', k, pushed)
    case DoSnapshot(now) => Snapshot(s, s', now)
    case DoScan(e, timeout, pushed) => ScanOne(s, s', e, timeout, pushed)
    case DoLocate(k) => Locate(s, s', k)
    case DoValidate(k) => Validate(s, s', k)
    case DoExecute(k) => Execute(s, s', k)
    case DoTick(now) => Tick(s, s', now)
  }

  function EmptyTable(capacity: nat): Table<nat> {
    Table(seq(capacity, i => Slot(None, 1)), seq(capacity, i => i), seq(capacity, i => 0))
  }

  ghost predicate Init(capacity: nat, s: State) {
    capacity < UINT32_LIMIT && s.table == EmptyTable(capacity) && s.sessions == [] && s.clients == {}
    && s.nextClient == 1
    && s.lock == Free && s.jobs == [] && s.tasks == [] && s.scans == {}
  }

  ghost predicate Run(mac: Mac, capacity: nat, run: seq<State>, steps: seq<Step>) {
    |run| == |steps| + 1 && Init(capacity, run[0])
    && forall i :: 0 <= i < |steps| ==> Next(mac, run[i], run[i + 1], steps[i])
  }

  // ---------- the invariant, part by part ----------

  ghost predicate TableOk(s: State) {
    && SlotTable.Valid(s.table)
    && (forall h :: h in Live(s.table) ==> Live(s.table)[h] < |s.sessions|)
    && (s.lock.Registering? ==> s.lock.session < |s.sessions|)
  }

  predicate Issued(s: State, c: uint64) { IsIssued(s.nextClient, c) }

  /** No orphans: a live session's client is registered, and so is the client of a session about to be. */
  ghost predicate ClientsOk(s: State) {
    && (forall c :: c in s.clients ==> Issued(s, c))
    && (s.lock.Adding? ==> Issued(s, s.lock.client) && s.lock.client !in s.clients)
    && (forall h :: h in Live(s.table) ==>
         Live(s.table)[h] < |s.sessions| && s.sessions[Live(s.table)[h]].client in s.clients)
    && (s.lock.Registering? ==> s.lock.session < |s.sessions| && s.sessions[s.lock.session].client in s.clients)
    && (s.lock.Removing? ==> forall h :: h in Live(s.table) ==> s.sessions[Live(s.table)[h]].client != s.lock.client)
  }

  predicate Passed(j: Job) { j.stage == Accepted || j.stage == Marked || j.stage == Handled }

  /** A packet past the checks is authentic, and its number is among those its session accepted. */
  ghost predicate JobOk(mac: Mac, s: State, j: Job) {
    j.session < |s.sessions| && j.envelope.connectionId < UINT64_LIMIT
    && (Passed(j) ==>
         Authentic(mac, s.sessions[j.session], j) && PacketOf(j).sequence in s.sessions[j.session].accepted)
  }

  ghost predicate SameNumber(i: Job, j: Job) {
    i.session == j.session
    && ReceivePacket(i.envelope.connectionId, i.envelope.authenticatedData).Some?
    && ReceivePacket(j.envelope.connectionId, j.envelope.authenticatedData).Some?
    && PacketOf(i).sequence == PacketOf(j).sequence
  }

  ghost predicate JobsOk(mac: Mac, s: State) {
    && (forall k :: 0 <= k < |s.jobs| ==> JobOk(mac, s, s.jobs[k]))
    && (forall i, j :: 0 <= i < j < |s.jobs| && Passed(s.jobs[i]) && Passed(s.jobs[j]) ==>
         !SameNumber(s.jobs[i], s.jobs[j]))
  }

  /** What was looked up by a handle is still in its slot, unless the slot was released since. */
  ghost predicate StillThere(s: State, h: Handle, session: nat, releases: nat) {
    && h.index < |s.table.slots| == |s.table.releases|
    && session < |s.sessions|
    && h.generation == GenerationAfter(releases)
    && releases <= s.table.releases[h.index]
    && (releases == s.table.releases[h.index] ==> s.table.slots[h.index].session == Some(session))
  }

  ghost predicate LookupsOk(s: State) {
    forall k :: 0 <= k < |s.jobs| ==>
      s.jobs[k].envelope.connectionId < UINT64_LIMIT
      && StillThere(s, HandleIn(s.jobs[k].envelope), s.jobs[k].session, s.jobs[k].releases)
  }

  /** A task that names a session: one that a packet asked for, or one that has located it. */
  predicate Names(task: Task) {
    task.stage == Located || task.stage == Validated || (task.stage == Queued && task.timeout <= 0)
  }

  ghost predicate TaskOk(s: State, task: Task) {
    Names(task) ==> StillThere(s, task.handle, task.session, task.releases)
  }

  ghost predicate TasksOk(s: State) {
    && (forall k :: 0 <= k < |s.tasks| ==> TaskOk(s, s.tasks[k]))
    && (forall e :: e in s.scans ==> e.session < |s.sessions|)
  }

  ghost predicate ClockOk(s: State) {
    forall r :: 0 <= r < |s.sessions| ==> s.sessions[r].lastReceived <= s.clock
  }

  ghost predicate Inv(mac: Mac, s: State) {
    TableOk(s) && ClientsOk(s) && JobsOk(mac, s) && LookupsOk(s) && TasksOk(s) && ClockOk(s)
  }

  // ---------- what each step does to each part ----------

  /** The session list only grows, keeps who each session belongs to, and only moves forward. */
  ghost predicate SessionsGrow(a: seq<SessionState>, b: seq<SessionState>) {
    |a| <= |b| && forall r :: 0 <= r < |a| ==>
      b[r].client == a[r].client && b[r].endpoint == a[r].endpoint && b[r].key == a[r].key
      && a[r].accepted <= b[r].accepted && a[r].lastReceived <= b[r].lastReceived
  }

  lemma StepGrowsSessions(mac: Mac, s: State, s': State, step: Step)
    requires ClockOk(s) && Next(mac, s, s', step)
    ensures SessionsGrow(s.sessions, s'.sessions) && ClockOk(s') && s'.clock >= s.clock
  {}

  /** The table stays as it is, or takes one allocation of the session being registered, or loses live handles. */
  ghost predicate TableMoves(s: State, s': State) {
    && Evolves(s.table, s'.table)
    && forall h :: h in Live(s'.table) ==>
         (h in Live(s.table) && Live(s'.table)[h] == Live(s.table)[h])
         || (s.lock.Registering? && s'.lock == Free && Live(s'.table)[h] == s.lock.session)
  }

  lemma StepMovesTable(mac: Mac, s: State, s': State, step: Step)
    requires TableOk(s) && Next(mac, s, s', step)
    ensures TableMoves(s, s')
  {
    match step
    case DoRemoveBegin(c) =>
      ReleasedAllEvolves(s.table, OwnedHandles(s.table, OwnerIn(s.sessions), c, |s.table.slots|));
      ReleasedAllRemoves(s.table, OwnedHandles(s.table, OwnerIn(s.sessions), c, |s.table.slots|));
    case DoRegisterEnd =>
      if s.table.free == [] {
        EvolvesSame(s.table);
      } else {
        AllocatedEvolves(s.table, s.lock.session);
        AllocateExtends(s.table, s.lock.session);
      }
    case DoRemoveSession(h) => ReleasedEvolves(s.table, h); ReleaseRemoves(s.table, h);
    case DoExecute(k) => ReleasedEvolves(s.table, s.tasks[k].handle); ReleaseRemoves(s.table, s.tasks[k].handle);
    case _ => EvolvesSame(s.table);
  }

  lemma TableKept(mac: Mac, s: State, s': State, step: Step)
    requires Inv(mac, s) && Next(mac, s, s', step)
    ensures TableOk(s')
  {
    StepMovesTable(mac, s, s', step);
    StepGrowsSessions(mac, s, s', step);
  }

  lemma InitOk(mac: Mac, capacity: nat, s: State)
    requires Init(capacity, s)
    ensures Inv(mac, s)
  {
    forall i | 0 <= i < capacity
      ensures i in s.table.free
    {
      assert s.table.free[i] == i;
    }
    assert forall h :: h !in Live(s.table);
  }

  /** A step that leaves the lock, the clients and the id counter alone, and gives no slot away. */
  lemma ClientsFrame(s: State, s': State)
    requires ClientsOk(s) && SessionsGrow(s.sessions, s'.sessions)
    requires s'.lock == s.lock && s'.clients == s.clients && s'.nextClient == s.nextClient
    requires forall h :: h in Live(s'.table) ==> h in Live(s.table) && Live(s'.table)[h] == Live(s.table)[h]
    ensures ClientsOk(s')
  {}

  lemma AddKeepsClients(s: State, s': State)
    requires ClientsOk(s) && (AddBegin(s, s') || AddEnd(s, s'))
    ensures ClientsOk(s')
  {}

  lemma RemoveKeepsClients(s: State, s': State)
    requires TableOk(s) && ClientsOk(s) && ((exists c: uint64 :: RemoveBegin(s, s', c)) || RemoveEnd(s, s'))
    ensures ClientsOk(s')
  {
    if c: uint64 :| RemoveBegin(s, s', c) {
      ClientReleased(s.table, OwnerIn(s.sessions), c);
    }
  }

  lemma RegisterBeginKeepsClients(s: State, s': State, c: uint64, endpoint: Endpoint, key: Key)
    requires TableOk(s) && ClientsOk(s) && RegisterBegin(s, s', c, endpoint, key)
    ensures ClientsOk(s')
  {}

  lemma RegisterEndKeepsClients(s: State, s': State)
    requires TableOk(s) && ClientsOk(s) && RegisterEnd(s, s')
    ensures ClientsOk(s')
  {
    if s.table.free != [] {
      AllocateExtends(s.table, s.lock.session);
    }
  }

  /** The steps taken without holding the client-session lock, and removals of a single session. */
  predicate Unlocked(step: Step) {
    !step.DoAddBegin? && !step.DoAddEnd? && !step.DoRemoveBegin? && !step.DoRemoveEnd? && !step.DoRegisterBegin?
    && !step.DoRegisterEnd?
  }

  lemma UnlockedLeavesClients(mac: Mac, s: State, s': State, step: Step)
    requires Next(mac, s, s', step) && Unlocked(step)
    ensures s'.lock == s.lock && s'.clients == s.clients && s'.nextClient == s.nextClient
    ensures forall h :: h in Live(s'.table) ==> h in Live(s.table) && Live(s'.table)[h] == Live(s.table)[h]
  {
    if step.DoRemoveSession? { ReleaseRemoves(s.table, step.h); }
    if step.DoExecute? { ReleaseRemoves(s.table, s.tasks[step.k].handle); }
  }

  lemma UnlockedKeepsClients(mac: Mac, s: State, s': State, step: Step)
    requires ClientsOk(s) && ClockOk(s) && Next(mac, s, s', step) && Unlocked(step)
    ensures ClientsOk(s')
  {
    UnlockedLeavesClients(mac, s, s', step);
    StepGrowsSessions(mac, s, s', step);
    ClientsFrame(s, s');
  }

  lemma ClientsKept(mac: Mac, s: State, s': State, step: Step)
    requires TableOk(s) && ClientsOk(s) && ClockOk(s) && Next(mac, s, s', step)
    ensures ClientsOk(s')
  {
    match step
    case DoAddBegin => AddKeepsClients(s, s');
    case DoAddEnd => AddKeepsClients(s, s');
    case DoRemoveBegin(c) => RemoveKeepsClients(s, s');
    case DoRemoveEnd => RemoveKeepsClients(s, s');
    case DoRegisterBegin(c, endpoint, key) => RegisterBeginKeepsClients(s, s', c, endpoint, key);
    case DoRegisterEnd => RegisterEndKeepsClients(s, s');
    case _ => UnlockedKeepsClients(mac, s, s', step);
  }

  lemma JobStays(mac: Mac, s: State, s': State, j: Job)
    requires JobOk(mac, s, j) && SessionsGrow(s.sessions, s'.sessions)
    ensures JobOk(mac, s', j)
  {}

  lemma CheckKeepsJobs(mac: Mac, s: State, s': State, k: nat)
    requires JobsOk(mac, s) && Check(mac, s, s', k) && SessionsGrow(s.sessions, s'.sessions)
    ensures JobsOk(mac, s')
  {
    forall i | 0 <= i < |s'.jobs|
      ensures JobOk(mac, s', s'.jobs[i])
    {
      JobStays(mac, s, s', s.jobs[i]);
    }
  }

  lemma ReceiveKeepsJobs(mac: Mac, s: State, s': State, sender: Endpoint, datagram: seq<byte>)
    requires TableOk(s) && JobsOk(mac, s) && Receive(s, s', sender, datagram)
    ensures JobsOk(mac, s')
  {
    ReceivedIsFound(s, s', sender, datagram);
    forall i | 0 <= i < |s'.jobs|
      ensures JobOk(mac, s', s'.jobs[i])
    {
      if i < |s.jobs| { JobStays(mac, s, s', s.jobs[i]); }
    }
  }

  lemma ReceivedIsFound(s: State, s': State, sender: Endpoint, datagram: seq<byte>)
    requires TableOk(s) && Receive(s, s', sender, datagram)
    ensures s'.jobs == s.jobs + [s'.jobs[|s.jobs|]] && s'.sessions == s.sessions
    ensures var job := s'.jobs[|s.jobs|];
            job.stage == Found && job.session < |s.sessions| && job.envelope.connectionId < UINT64_LIMIT
  {
    FindIsLookup(s.table, HandleIn(s'.jobs[|s.jobs|].envelope));
  }

  /** The jobs stay as they are, except that one that has passed moves on. */
  ghost predicate JobMovesOn(a: seq<Job>, b: seq<Job>) {
    |a| == |b| && forall i :: 0 <= i < |a| ==>
      a[i] == b[i] || (Passed(a[i]) && Passed(b[i]) && b[i] == a[i].(stage := b[i].stage))
  }

  lemma JobsFrame(mac: Mac, s: State, s': State)
    requires JobsOk(mac, s) && SessionsGrow(s.sessions, s'.sessions) && JobMovesOn(s.jobs, s'.jobs)
    ensures JobsOk(mac, s')
  {
    forall i | 0 <= i < |s'.jobs|
      ensures JobOk(mac, s', s'.jobs[i])
    {
      JobStays(mac, s, s', s.jobs[i]);
    }
  }

  lemma OtherStepsMoveOn(mac: Mac, s: State, s': State, step: Step)
    requires Next(mac, s, s', step) && !step.DoCheck? && !step.DoReceive?
    ensures JobMovesOn(s.jobs, s'.jobs)
  {}

  lemma JobsKept(mac: Mac, s: State, s': State, step: Step)
    requires TableOk(s) && JobsOk(mac, s) && ClockOk(s) && Next(mac, s, s', step)
    ensures JobsOk(mac, s')
  {
    StepGrowsSessions(mac, s, s', step);
    match step
    case DoCheck(k) => CheckKeepsJobs(mac, s, s', k);
    case DoReceive(sender, datagram) => ReceiveKeepsJobs(mac, s, s', sender, datagram);
    case _ =>
      OtherStepsMoveOn(mac, s, s', step);
      JobsFrame(mac, s, s');
  }

  lemma StaysThere(s: State, s': State, h: Handle, session: nat, releases: nat)
    requires StillThere(s, h, session, releases) && Evolves(s.table, s'.table) && |s.sessions| <= |s'.sessions|
    ensures StillThere(s', h, session, releases)
  {
    assert SlotHistory(s.table, s'.table, h.index);
  }

  /** Jobs keep what they were looked up with; a step adds at most one, found just now. */
  ghost predicate LookupsMoveOn(s: State, s': State) {
    |s.jobs| <= |s'.jobs|
    && (forall k :: 0 <= k < |s.jobs| ==> s'.jobs[k] == s.jobs[k].(stage := s'.jobs[k].stage))
    && (forall k :: |s.jobs| <= k < |s'.jobs| ==>
          s'.jobs[k].envelope.connectionId < UINT64_LIMIT
          && StillThere(s', HandleIn(s'.jobs[k].envelope), s'.jobs[k].session, s'.jobs[k].releases))
  }

  lemma ReceiveFinds(s: State, s': State, sender: Endpoint, datagram: seq<byte>)
    requires TableOk(s) && Receive(s, s', sender, datagram)
    ensures LookupsMoveOn(s, s')
  {
    FindIsLookup(s.table, HandleIn(s'.jobs[|s.jobs|].envelope));
  }

  lemma OtherStepsKeepLookups(mac: Mac, s: State, s': State, step: Step)
    requires Next(mac, s, s', step) && !step.DoReceive?
    ensures LookupsMoveOn(s, s')
  {}

  lemma LookupsKept(mac: Mac, s: State, s': State, step: Step)
    requires TableOk(s) && LookupsOk(s) && ClockOk(s) && Next(mac, s, s', step)
    ensures LookupsOk(s')
  {
    StepMovesTable(mac, s, s', step);
    StepGrowsSessions(mac, s, s', step);
    if step.DoReceive? {
      ReceiveFinds(s, s', step.sender, step.datagram);
    } else {
      OtherStepsKeepLookups(mac, s, s', step);
    }
    LookupsFrame(s, s');
  }

  lemma LookupsFrame(s: State, s': State)
    requires LookupsOk(s) && Evolves(s.table, s'.table) && |s.sessions| <= |s'.sessions| && LookupsMoveOn(s, s')
    ensures LookupsOk(s')
  {
    forall k | 0 <= k < |s.jobs|
      ensures StillThere(s', HandleIn(s.jobs[k].envelope), s.jobs[k].session, s.jobs[k].releases)
    {
      StaysThere(s, s', HandleIn(s.jobs[k].envelope), s.jobs[k].session, s.jobs[k].releases);
    }
  }

  /** What a step does to the tasks: earlier ones keep what they name, and a new one names nothing yet. */
  ghost predicate TasksMoveOn(a: seq<Task>, b: seq<Task>) {
    |a| <= |b|
    && (forall i :: 0 <= i < |a| ==> a[i] == b[i] || b[i].stage == Dropped || b[i].stage == Executed
                                     || (a[i].stage == Located && b[i] == a[i].(stage := Validated)))
    && (forall i :: |a| <= i < |b| ==> !Names(b[i]))
  }

  lemma TasksFrame(s: State, s': State)
    requires TasksOk(s) && Evolves(s.table, s'.table) && |s.sessions| <= |s'.sessions| && TasksMoveOn(s.tasks, s'.tasks)
    ensures forall k :: 0 <= k < |s'.tasks| ==> TaskOk(s', s'.tasks[k])
  {
    forall k | 0 <= k < |s'.tasks| && Names(s'.tasks[k])
      ensures TaskOk(s', s'.tasks[k])
    {
      assert Names(s.tasks[k]) && TaskOk(s, s.tasks[k]);
      StaysThere(s, s', s.tasks[k].handle, s.tasks[k].session, s.tasks[k].releases);
    }
  }

  /** A disconnect that a packet asks for names the session the packet was looked up with. */
  lemma HandleKeepsTasks(s: State, s': State, k: nat, pushed: bool)
    requires TasksOk(s) && LookupsOk(s) && Handle(s, s', k, pushed)
    ensures TasksOk(s')
  {
    assert StillThere(s, HandleIn(s.jobs[k].envelope), s.jobs[k].session, s.jobs[k].releases);
    forall i | 0 <= i < |s.tasks|
      ensures TaskOk(s', s'.tasks[i])
    {
      assert TaskOk(s, s.tasks[i]) && s'.tasks[i] == s.tasks[i];
    }
  }

  lemma LocateKeepsTasks(s: State, s': State, k: nat)
    requires TableOk(s) && TasksOk(s) && Locate(s, s', k)
    ensures TasksOk(s')
  {
    FindIsLookup(s.table, s.tasks[k].handle);
    assert TaskOk(s', s'.tasks[k]);
    assert forall i :: 0 <= i < |s.tasks| && i != k ==> TaskOk(s, s.tasks[i]) && s'.tasks[i] == s.tasks[i];
  }

  lemma SnapshotKeepsScans(s: State, s': State, now: int)
    requires TableOk(s) && TasksOk(s) && Snapshot(s, s', now)
    ensures forall e :: e in s'.scans ==> e.session < |s'.sessions|
  {}

  lemma OtherStepsMoveTasksOn(mac: Mac, s: State, s': State, step: Step)
    requires Next(mac, s, s', step) && !step.DoLocate? && !step.DoHandle?
    ensures TasksMoveOn(s.tasks, s'.tasks)
    ensures !step.DoSnapshot? ==> s'.scans <= s.scans
  {}

  lemma TasksKept(mac: Mac, s: State, s': State, step: Step)
    requires TableOk(s) && LookupsOk(s) && TasksOk(s) && ClockOk(s) && Next(mac, s, s', step)
    ensures TasksOk(s')
  {
    if step.DoLocate? {
      LocateKeepsTasks(s, s', step.k);
    } else if step.DoHandle? {
      HandleKeepsTasks(s, s', step.k, step.pushed);
    } else {
      StepMovesTable(mac, s, s', step);
      StepGrowsSessions(mac, s, s', step);
      OtherStepsMoveTasksOn(mac, s, s', step);
      TasksFrame(s, s');
      if step.DoSnapshot? { SnapshotKeepsScans(s, s', step.now); }
    }
  }

  lemma NextKeeps(mac: Mac, s: State, s': State, step: Step)
    requires Inv(mac, s) && Next(mac, s, s', step)
    ensures Inv(mac, s')
  {
    TableKept(mac, s, s', step);
    ClientsKept(mac, s, s', step);
    JobsKept(mac, s, s', step);
    LookupsKept(mac, s, s', step);
    TasksKept(mac, s, s', step);
    StepGrowsSessions(mac, s, s', step);
  }

  lemma {:induction false} RunKeeps(mac: Mac, capacity: nat, run: seq<State>, steps: seq<Step>, i: nat)
    requires Run(mac, capacity, run, steps) && i < |run|
    ensures Inv(mac, run[i])
  {
    if i == 0 {
      InitOk(mac, capacity, run[0]);
    } else {
      RunKeeps(mac, capacity, run, steps, i - 1);
      assert Next(mac, run[i - 1], run[i - 1 + 1], steps[i - 1]);
      NextKeeps(mac, run[i - 1], run[i], steps[i - 1]);
    }
  }
}
