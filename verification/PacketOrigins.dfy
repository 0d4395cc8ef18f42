/**
 Where the server's effects come from: what checks, handled packets, scans and removals do in every
 run; every effect traced back to the datagram that brought it and to the registration of its session;
 and a packet that has to take effect, able to.
 */
module PacketOrigins {
  import opened PacketAuthentication
  import opened ReplayWindow
  import opened Server
  import opened ServerGuarantees
  import opened Sessions
  import opened SlotTable
  import opened Wire
  import opened Words
  import opened Wrappers

  // ---------- one step ----------

  /** The step is the arrival of this job's datagram, and its session is the one live under the named handle. */
  ghost predicate Arrives(s: State, step: Step, job: Job) {
    step.DoReceive? && step.sender == job.sender && ReceiveEnvelope(step.datagram) == Some(job.envelope)
    && job.envelope.connectionId < UINT64_LIMIT && Unpack(job.envelope.connectionId) in Live(s.table)
    && Live(s.table)[Unpack(job.envelope.connectionId)] == job.session
  }

  /** Every job was there before with the same contents, or is the one that arrives now. */
  ghost predicate JobsCome(s: State, s': State, step: Step) {
    forall k :: 0 <= k < |s'.jobs| ==>
      (k < |s.jobs| && s'.jobs[k] == s.jobs[k].(stage := s'.jobs[k].stage))
      || (k == |s.jobs| && Arrives(s, step, s'.jobs[k]))
  }

  /** A job passes in its own check, and is marked in its own mark. */
  ghost predicate StagesCome(s: State, s': State, step: Step) {
    forall k :: 0 <= k < |s'.jobs| && Passed(s'.jobs[k]) ==>
      k < |s.jobs| && (Passed(s.jobs[k]) || step == DoCheck(k))
      && (s'.jobs[k].stage == Marked ==> s.jobs[k].stage == Marked || step == DoMark(k))
  }

  ghost predicate SessionsCome(s: State, s': State, step: Step) {
    forall r :: 0 <= r < |s'.sessions| ==>
      r < |s.sessions| || (r == |s.sessions| && Constructs(s, step, s'.sessions[r]))
  }

  ghost predicate Constructs(s: State, step: Step, session: SessionState) {
    step == DoRegisterBegin(session.client, session.endpoint, session.key)
    && session.client in s.clients && session.key != seq(32, i => 0)
  }

  lemma StepBringsJobs(mac: Mac, s: State, s': State, step: Step)
    requires TableOk(s) && Next(mac, s, s', step)
    ensures JobsCome(s, s', step)
  {
    if step.DoReceive? {
      ReceiveBrings(s, s', step.sender, step.datagram);
    } else {
      OthersBringNone(mac, s, s', step);
    }
  }

  lemma ReceiveBrings(s: State, s': State, sender: Endpoint, datagram: bytes)
    requires TableOk(s) && Receive(s, s', sender, datagram)
    ensures JobsCome(s, s', DoReceive(sender, datagram))
  {
    FindIsLookup(s.table, HandleIn(s'.jobs[|s.jobs|].envelope));
  }

  lemma OthersBringNone(mac: Mac, s: State, s': State, step: Step)
    requires Next(mac, s, s', step) && !step.DoReceive?
    ensures |s'.jobs| == |s.jobs|
    ensures forall k :: 0 <= k < |s.jobs| ==> s'.jobs[k] == s.jobs[k].(stage := s'.jobs[k].stage)
  {}

  lemma StepBringsStages(mac: Mac, s: State, s': State, step: Step)
    requires Next(mac, s, s', step)
    ensures StagesCome(s, s', step)
  {}

  lemma StepBringsSessions(mac: Mac, s: State, s': State, step: Step)
    requires Next(mac, s, s', step)
    ensures SessionsCome(s, s', step)
  {
    if step.DoRegisterBegin? {
      assert step.c in s.clients;
      assert step.key != seq(32, i => 0);
      assert s'.sessions[|s.sessions|] == SessionState(step.c, step.endpoint, step.key, {}, s.clock);
    } else { assert |s'.sessions| == |s.sessions|; }
  }

  // ---------- back along a path ----------

  lemma {:induction false} ArrivalOnPath(run: seq<State>, steps: seq<Step>, e: nat, k: nat) returns (j: nat)
    requires e < |run| && e <= |steps| && run[0].jobs == [] && k < |run[e].jobs|
    requires forall n :: 0 <= n < e ==> JobsCome(run[n], run[n + 1], steps[n])
    ensures j < e && |run[j].jobs| == k && Arrives(run[j], steps[j], run[e].jobs[k])
  {
    assert e > 0;
    assert JobsCome(run[e - 1], run[e - 1 + 1], steps[e - 1]);
    if k < |run[e - 1].jobs| {
      j := ArrivalOnPath(run, steps, e - 1, k);
    } else {
      j := e - 1;
      assert Arrives(run[j], steps[j], run[j + 1].jobs[k]);
    }
  }

  lemma {:induction false} CheckOnPath(run: seq<State>, steps: seq<Step>, e: nat, k: nat) returns (j: nat)
    requires e < |run| && e <= |steps| && run[0].jobs == [] && k < |run[e].jobs| && Passed(run[e].jobs[k])
    requires forall n :: 0 <= n < e ==> StagesCome(run[n], run[n + 1], steps[n])
    ensures j < e && steps[j] == DoCheck(k) && k < |run[j + 1].jobs| && Passed(run[j + 1].jobs[k])
  {
    assert e > 0;
    assert StagesCome(run[e - 1], run[e - 1 + 1], steps[e - 1]);
    if Passed(run[e - 1].jobs[k]) {
      j := CheckOnPath(run, steps, e - 1, k);
    } else {
      j := e - 1;
    }
  }

  lemma {:induction false} MarkOnPath(run: seq<State>, steps: seq<Step>, e: nat, k: nat) returns (j: nat)
    requires e < |run| && e <= |steps| && run[0].jobs == [] && k < |run[e].jobs| && run[e].jobs[k].stage == Marked
    requires forall n :: 0 <= n < e ==> StagesCome(run[n], run[n + 1], steps[n])
    ensures j < e && steps[j] == DoMark(k)
  {
    assert e > 0;
    assert StagesCome(run[e - 1], run[e - 1 + 1], steps[e - 1]);
    if run[e - 1].jobs[k].stage == Marked {
      j := MarkOnPath(run, steps, e - 1, k);
    } else {
      j := e - 1;
    }
  }

  lemma {:induction false} ConstructionOnPath(run: seq<State>, steps: seq<Step>, e: nat, r: nat) returns (j: nat)
    requires e < |run| && e <= |steps| && run[0].sessions == [] && r < |run[e].sessions|
    requires forall n :: 0 <= n < e ==> SessionsCome(run[n], run[n + 1], steps[n])
    ensures j < e && |run[j].sessions| == r < |run[j + 1].sessions|
    ensures Constructs(run[j], steps[j], run[j + 1].sessions[r])
  {
    assert e > 0;
    assert SessionsCome(run[e - 1], run[e - 1 + 1], steps[e - 1]);
    if r < |run[e - 1].sessions| {
      j := ConstructionOnPath(run, steps, e - 1, r);
    } else {
      j := e - 1;
      assert Constructs(run[j], steps[j], run[j + 1].sessions[r]);
    }
  }

  lemma ArrivalHappened(mac: Mac, capacity: nat, run: seq<State>, steps: seq<Step>, e: nat, k: nat) returns (j: nat)
    requires Run(mac, capacity, run, steps) && e < |run| && k < |run[e].jobs|
    ensures j < e && |run[j].jobs| == k && Arrives(run[j], steps[j], run[e].jobs[k])
  {
    forall n | 0 <= n < e ensures JobsCome(run[n], run[n + 1], steps[n]) {
      RunStep(mac, capacity, run, steps, n);
      StepBringsJobs(mac, run[n], run[n + 1], steps[n]);
    }
    j := ArrivalOnPath(run, steps, e, k);
  }

  lemma StagesHappened(mac: Mac, capacity: nat, run: seq<State>, steps: seq<Step>, e: nat, k: nat)
    returns (check: nat, mark: nat)
    requires Run(mac, capacity, run, steps) && e < |run| && k < |run[e].jobs| && run[e].jobs[k].stage == Marked
    ensures check < mark < e && steps[check] == DoCheck(k) && steps[mark] == DoMark(k)
    ensures k < |run[check + 1].jobs| && Passed(run[check + 1].jobs[k])
  {
    forall n | 0 <= n < e ensures StagesCome(run[n], run[n + 1], steps[n]) {
      RunStep(mac, capacity, run, steps, n);
      StepBringsStages(mac, run[n], run[n + 1], steps[n]);
    }
    mark := MarkOnPath(run, steps, e, k);
    assert Next(mac, run[mark], run[mark + 1], steps[mark]);
    check := CheckOnPath(run, steps, mark, k);
  }

  lemma ConstructionHappened(mac: Mac, capacity: nat, run: seq<State>, steps: seq<Step>, e: nat, r: nat)
    returns (j: nat)
    requires Run(mac, capacity, run, steps) && e < |run| && r < |run[e].sessions|
    ensures j < e && |run[j].sessions| == r && run[e].sessions[r].client in run[j].clients
    ensures run[e].sessions[r].key != seq(32, i => 0)
    ensures steps[j] == DoRegisterBegin(run[e].sessions[r].client, run[e].sessions[r].endpoint, run[e].sessions[r].key)
  {
    forall n | 0 <= n < e ensures SessionsCome(run[n], run[n + 1], steps[n]) {
      StepBringsSessions(mac, run[n], run[n + 1], steps[n]);
    }
    j := ConstructionOnPath(run, steps, e, r);
    RunLater(mac, capacity, run, steps, j + 1, e);
  }

  // ---------- what single sections do ----------

  /**
   A packet is accepted exactly when it comes from its session's endpoint, carries the tag computed
   under the session's key, names itself consistently, and has a number that is not zero, was not
   accepted before and is less than 64 behind every accepted one. Nothing else changes.
   */
  lemma CheckOutcome(mac: Mac, capacity: nat, run: seq<State>, steps: seq<Step>, i: nat, k: nat)
    requires Run(mac, capacity, run, steps) && i < |steps| && steps[i] == DoCheck(k)
    ensures k < |run[i].jobs| && run[i].jobs[k].session < |run[i].sessions|
    ensures
      var s, job := run[i], run[i].jobs[k];
      var session := s.sessions[job.session];
      var p := ReceivePacket(job.envelope.connectionId, job.envelope.authenticatedData);
      run[i + 1] ==
        if job.sender == session.endpoint && session.key != seq(32, i => 0)
           && mac(session.key, job.envelope.authenticatedData) == Some(job.envelope.authenticationTag)
           && p.Some? && p.value.sequence != 0 && p.value.sequence !in session.accepted
           && (forall a :: a in session.accepted ==> a < p.value.sequence + 64)
        then s.(jobs := s.jobs[k := job.(stage := Accepted)],
                sessions := s.sessions[job.session := session.(accepted := session.accepted + {p.value.sequence})])
        else s.(jobs := s.jobs[k := job.(stage := Rejected)])
  {
    assert Next(mac, run[i], run[i + 1], steps[i]);
  }

  /**
   Handling a packet queues a disconnect exactly when its type is 2 and the queue takes it: of the
   session its id names, without validation. Nothing else changes for any type.
   */
  lemma HandleOutcome(mac: Mac, capacity: nat, run: seq<State>, steps: seq<Step>, i: nat, k: nat, pushed: bool)
    requires Run(mac, capacity, run, steps) && i < |steps| && steps[i] == DoHandle(k, pushed)
    ensures k < |run[i].jobs| && run[i].jobs[k].envelope.connectionId < UINT64_LIMIT
    ensures ReceivePacket(run[i].jobs[k].envelope.connectionId, run[i].jobs[k].envelope.authenticatedData).Some?
    ensures
      var s, job := run[i], run[i].jobs[k];
      run[i + 1] ==
        s.(jobs := s.jobs[k := job.(stage := Handled)],
           tasks := s.tasks +
             if pushed && ReceivePacket(job.envelope.connectionId, job.envelope.authenticatedData).value.packetType == 2
             then [Task(Unpack(job.envelope.connectionId), 0, 0, job.session, job.releases, Queued)] else [])
  {
    assert Next(mac, run[i], run[i + 1], steps[i]);
    assert run[i].tasks + [] == run[i].tasks;
  }

  /** A scan asks for the removal of a session exactly when it was silent for the timeout and the queue takes it. */
  lemma ScanOutcome(mac: Mac, capacity: nat, run: seq<State>, steps: seq<Step>, i: nat, e: Scan, timeout: int,
                    pushed: bool)
    requires Run(mac, capacity, run, steps) && i < |steps| && steps[i] == DoScan(e, timeout, pushed)
    ensures e in run[i].scans && e.session < |run[i].sessions| && timeout > 0
    ensures
      var s := run[i];
      run[i + 1] ==
        s.(scans := s.scans - {e},
           tasks := s.tasks +
             if pushed && e.requested - s.sessions[e.session].lastReceived >= timeout
             then [Task(e.handle, e.requested, timeout, 0, 0, Queued)] else [])
  {
    assert Next(mac, run[i], run[i + 1], steps[i]);
    assert run[i].tasks + [] == run[i].tasks;
  }

  /** A snapshot lists every live session, with the one clock reading, and nothing else is added to the list. */
  lemma SnapshotOutcome(mac: Mac, capacity: nat, run: seq<State>, steps: seq<Step>, i: nat, now: int)
    requires Run(mac, capacity, run, steps) && i < |steps| && steps[i] == DoSnapshot(now)
    ensures run[i + 1] == run[i].(scans := run[i + 1].scans) && now <= run[i].clock
    ensures forall h :: h in Live(run[i].table) ==> Scan(h, Live(run[i].table)[h], now) in run[i + 1].scans
    ensures forall e :: e in run[i + 1].scans && e !in run[i].scans ==>
      e.handle in Live(run[i].table) && e.session == Live(run[i].table)[e.handle] && e.requested == now
  {
    assert Next(mac, run[i], run[i + 1], steps[i]);
  }

  /**
   A live session goes exactly when it is removed by its id, when a disconnect for its id is executed, or
   when its client is removed; a session comes only at the end of its registration; and an id that stays
   live keeps its session.
   */
  lemma SessionsComeAndGo(mac: Mac, capacity: nat, run: seq<State>, steps: seq<Step>, i: nat, h: Handle)
    requires Run(mac, capacity, run, steps) && i < |steps|
    ensures h in Live(run[i].table) ==> Live(run[i].table)[h] < |run[i].sessions|
    ensures h in Live(run[i].table) ==>
      (h !in Live(run[i + 1].table) <==>
         steps[i] == DoRemoveSession(h)
         || (steps[i].DoExecute? && steps[i].k < |run[i].tasks| && run[i].tasks[steps[i].k].handle == h)
         || steps[i] == DoRemoveBegin(run[i].sessions[Live(run[i].table)[h]].client))
    ensures h in Live(run[i + 1].table) && h !in Live(run[i].table) ==>
      steps[i] == DoRegisterEnd && run[i].lock.Registering? && Live(run[i + 1].table)[h] == run[i].lock.session
    ensures h in Live(run[i].table) && h in Live(run[i + 1].table) ==>
      Live(run[i + 1].table)[h] == Live(run[i].table)[h]
  {
    RunStep(mac, capacity, run, steps, i);
    StepComesAndGoes(mac, run[i], run[i + 1], steps[i], h);
  }

  ghost predicate Departs(s: State, step: Step, h: Handle)
    requires h in Live(s.table) && Live(s.table)[h] < |s.sessions|
  {
    step == DoRemoveSession(h) || (step.DoExecute? && step.k < |s.tasks| && s.tasks[step.k].handle == h)
    || step == DoRemoveBegin(s.sessions[Live(s.table)[h]].client)
  }

  ghost predicate ComesAndGoes(s: State, s': State, step: Step, h: Handle)
    requires TableOk(s)
  {
    && (h in Live(s.table) ==> (h !in Live(s'.table) <==> Departs(s, step, h)))
    && (h in Live(s'.table) && h !in Live(s.table) ==>
          step == DoRegisterEnd && s.lock.Registering? && Live(s'.table)[h] == s.lock.session)
    && (h in Live(s.table) && h in Live(s'.table) ==> Live(s'.table)[h] == Live(s.table)[h])
  }

  lemma RemovalGoes(s: State, s': State, c: uint64, h: Handle)
    requires TableOk(s) && RemoveBegin(s, s', c)
    ensures ComesAndGoes(s, s', DoRemoveBegin(c), h)
  {
    ClientReleased(s.table, OwnerIn(s.sessions), c);
  }

  lemma RegistrationComes(s: State, s': State, h: Handle)
    requires TableOk(s) && RegisterEnd(s, s')
    ensures ComesAndGoes(s, s', DoRegisterEnd, h)
  {
    if s.table.free != [] { AllocateExtends(s.table, s.lock.session); }
  }

  lemma ReleaseGoes(s: State, s': State, released: Handle, step: Step, h: Handle)
    requires TableOk(s) && s'.table == Released(s.table, released)
    requires step == DoRemoveSession(released)
          || (step.DoExecute? && step.k < |s.tasks| && s.tasks[step.k].handle == released)
    ensures ComesAndGoes(s, s', step, h)
  {
    ReleaseRemoves(s.table, released);
    LosesOne(s, s', released, step, h);
  }

  lemma LosesOne(s: State, s': State, released: Handle, step: Step, h: Handle)
    requires TableOk(s) && Live(s'.table) == Live(s.table) - {released}
    requires step == DoRemoveSession(released)
          || (step.DoExecute? && step.k < |s.tasks| && s.tasks[step.k].handle == released)
    ensures ComesAndGoes(s, s', step, h)
  {}

  lemma OthersLeaveTheTable(mac: Mac, s: State, s': State, step: Step)
    requires Next(mac, s, s', step)
    requires !step.DoRemoveBegin? && !step.DoRegisterEnd? && !step.DoRemoveSession? && !step.DoExecute?
    ensures s'.table == s.table
  {}

  lemma SameTableStays(s: State, s': State, step: Step, h: Handle)
    requires TableOk(s) && s'.table == s.table
    requires !step.DoRemoveBegin? && !step.DoRemoveSession? && !step.DoExecute?
    ensures ComesAndGoes(s, s', step, h)
  {}

  lemma StepComesAndGoes(mac: Mac, s: State, s': State, step: Step, h: Handle)
    requires TableOk(s) && Next(mac, s, s', step)
    ensures ComesAndGoes(s, s', step, h)
  {
    match step
    case DoRemoveBegin(c) => RemovalGoes(s, s', c, h);
    case DoRegisterEnd => RegistrationComes(s, s', h);
    case DoRemoveSession(l) => ReleaseGoes(s, s', l, step, h);
    case DoExecute(k) => ReleaseGoes(s, s', s.tasks[k].handle, step, h);
    case _ =>
      OthersLeaveTheTable(mac, s, s', step);
      SameTableStays(s, s', step, h);
  }

  /**
   A registration constructs its session for a known client and a key that is not all zero, with nothing
   accepted and heard from now; it then gets an id that is not in use, unless every slot is taken.
   */
  lemma RegistrationOutcome(mac: Mac, capacity: nat, run: seq<State>, steps: seq<Step>, i: nat)
    requires Run(mac, capacity, run, steps) && i < |steps|
    ensures
      var s, s' := run[i], run[i + 1];
      steps[i].DoRegisterBegin? ==>
        steps[i].c in s.clients && steps[i].key != seq(32, i => 0) && s'.lock == Registering(|s.sessions|)
        && s'.sessions == s.sessions + [SessionState(steps[i].c, steps[i].endpoint, steps[i].key, {}, s.clock)]
    ensures
      var s, s' := run[i], run[i + 1];
      steps[i].DoRegisterEnd? ==>
        s.lock.Registering?
        && if |Live(s.table)| == |s.table.slots| then Live(s'.table) == Live(s.table)
           else exists h :: h !in Live(s.table) && Live(s'.table) == Live(s.table)[h := s.lock.session]
  {
    RunStep(mac, capacity, run, steps, i);
    if steps[i].DoRegisterEnd? { RegistersOne(run[i], run[i + 1]); }
  }

  lemma RegistersOne(s: State, s': State)
    requires TableOk(s) && RegisterEnd(s, s')
    ensures if |Live(s.table)| == |s.table.slots| then Live(s'.table) == Live(s.table)
            else exists h :: h !in Live(s.table) && Live(s'.table) == Live(s.table)[h := s.lock.session]
  {
    LiveSize(s.table);
    if s.table.free != [] {
      AllocateExtends(s.table, s.lock.session);
      assert HandleOf(s.table, s.table.free[0]) !in Live(s.table);
    }
  }

  /** A client comes at the end of its addition, under the id issued at its beginning, and goes as its removal ends. */
  lemma ClientsComeAndGo(mac: Mac, capacity: nat, run: seq<State>, steps: seq<Step>, i: nat)
    requires Run(mac, capacity, run, steps) && i < |steps|
    ensures steps[i].DoAddBegin? ==>
      run[i].nextClient != 0 && run[i + 1].lock == Adding(run[i].nextClient)
      && run[i + 1].nextClient == if run[i].nextClient == 0xFFFF_FFFF_FFFF_FFFF then 0 else run[i].nextClient + 1
    ensures !steps[i].DoAddBegin? ==> run[i + 1].nextClient == run[i].nextClient
    ensures steps[i].DoAddEnd? ==> run[i].lock.Adding? && run[i].lock.client !in run[i].clients
    ensures steps[i].DoRemoveEnd? ==> run[i].lock.Removing?
    ensures run[i + 1].clients ==
      if steps[i].DoAddEnd? then run[i].clients + {run[i].lock.client}
      else if steps[i].DoRemoveEnd? then run[i].clients - {run[i].lock.client} else run[i].clients
  {
    RunStep(mac, capacity, run, steps, i);
  }

  // ---------- effects traced back ----------

  /** A packet that passed its check at step m was not accepted before, in the words of CheckOutcome. */
  lemma CheckWasPassed(mac: Mac, capacity: nat, run: seq<State>, steps: seq<Step>, m: nat, k: nat)
    requires Run(mac, capacity, run, steps) && m < |steps| && steps[m] == DoCheck(k)
    requires k < |run[m + 1].jobs| && Passed(run[m + 1].jobs[k])
    ensures k < |run[m].jobs| && run[m].jobs[k].session < |run[m].sessions|
    ensures
      var job, session := run[m].jobs[k], run[m].sessions[run[m].jobs[k].session];
      && job.sender == session.endpoint
      && mac(session.key, job.envelope.authenticatedData) == Some(job.envelope.authenticationTag)
      && ReceivePacket(job.envelope.connectionId, job.envelope.authenticatedData).Some?
      && PacketOf(job).sequence != 0 && PacketOf(job).sequence !in session.accepted
      && forall a :: a in session.accepted ==> a < PacketOf(job).sequence + 64
  {
    CheckOutcome(mac, capacity, run, steps, m, k);
  }

  /** Jobs keep their contents and sessions keep who they are for. */
  lemma RecordsStay(mac: Mac, capacity: nat, run: seq<State>, steps: seq<Step>, a: nat, b: nat, k: nat)
    requires Run(mac, capacity, run, steps) && a <= b < |run| && k < |run[a].jobs|
    ensures k < |run[b].jobs| && run[b].jobs[k] == run[a].jobs[k].(stage := run[b].jobs[k].stage)
    ensures run[a].jobs[k].session < |run[a].sessions| <= |run[b].sessions|
    ensures
      var was, now := run[a].sessions[run[a].jobs[k].session], run[b].sessions[run[a].jobs[k].session];
      was.client == now.client && was.endpoint == now.endpoint && was.key == now.key
  {
    RunKeeps(mac, capacity, run, steps, a);
    assert JobOk(mac, run[a], run[a].jobs[k]);
    RunLater(mac, capacity, run, steps, a, b);
  }

  lemma ArrivesForASession(mac: Mac, capacity: nat, run: seq<State>, steps: seq<Step>, e: nat, k: nat)
    returns (registered: nat, arrived: nat)
    requires Run(mac, capacity, run, steps) && e < |run| && k < |run[e].jobs|
    ensures registered < arrived < e && run[e].jobs[k].session < |run[e].sessions|
    ensures Arrives(run[arrived], steps[arrived], run[e].jobs[k])
    ensures
      var r := run[e].jobs[k].session;
      var session := run[e].sessions[r];
      && steps[registered] == DoRegisterBegin(session.client, session.endpoint, session.key)
      && |run[registered].sessions| == r && session.client in run[registered].clients
      && session.key != seq(32, i => 0)
  {
    arrived := ArrivalHappened(mac, capacity, run, steps, e, k);
    RunKeeps(mac, capacity, run, steps, arrived);
    registered := ConstructionHappened(mac, capacity, run, steps, arrived, run[e].jobs[k].session);
    RunLater(mac, capacity, run, steps, arrived, e);
  }

  /**
   Every effect has its whole history in the run: the registration of a session for a known client
   with a valid key, the arrival of a datagram from that session's endpoint while its id named the session,
   the check that found its tag right and its number new, and the mark that noted the time, in this order.
   */
  lemma EffectsAreAuthentic(mac: Mac, capacity: nat, run: seq<State>, steps: seq<Step>, i: nat)
    returns (registered: nat, arrived: nat, checked: nat, marked: nat)
    requires Run(mac, capacity, run, steps) && i < |steps| && steps[i].DoHandle?
    ensures steps[i].k < |run[i].jobs| && run[i].jobs[steps[i].k].session < |run[i].sessions|
    ensures registered < arrived < checked < marked < i
    ensures
      var r := run[i].jobs[steps[i].k].session;
      var session := run[i].sessions[r];
      && steps[registered] == DoRegisterBegin(session.client, session.endpoint, session.key)
      && |run[registered].sessions| == r && session.client in run[registered].clients
      && session.key != seq(32, i => 0)
    ensures
      var job := run[i].jobs[steps[i].k];
      && steps[arrived].DoReceive? && steps[arrived].sender == run[i].sessions[job.session].endpoint
      && ReceiveEnvelope(steps[arrived].datagram) == Some(job.envelope) && job.envelope.connectionId < UINT64_LIMIT
      && Unpack(job.envelope.connectionId) in Live(run[arrived].table)
      && Live(run[arrived].table)[Unpack(job.envelope.connectionId)] == job.session
    ensures
      var job := run[i].jobs[steps[i].k];
      && steps[checked] == DoCheck(steps[i].k) && job.session < |run[checked].sessions|
      && mac(run[i].sessions[job.session].key, job.envelope.authenticatedData) == Some(job.envelope.authenticationTag)
      && ReceivePacket(job.envelope.connectionId, job.envelope.authenticatedData).Some?
      && PacketOf(job).sequence != 0 && PacketOf(job).sequence !in run[checked].sessions[job.session].accepted
      && forall a :: a in run[checked].sessions[job.session].accepted ==> a < PacketOf(job).sequence + 64
    ensures steps[marked] == DoMark(steps[i].k)
  {
    var k := steps[i].k;
    assert Next(mac, run[i], run[i + 1], steps[i]);
    checked, marked := StagesHappened(mac, capacity, run, steps, i, k);
    CheckWasPassed(mac, capacity, run, steps, checked, k);
    registered, arrived := ArrivesForASession(mac, capacity, run, steps, checked, k);
    RecordsStay(mac, capacity, run, steps, checked, i, k);
  }

  // ---------- what can be made to happen ----------

  /** An authentic datagram for a live session, with a consistent content and a number new to that session. */
  ghost predicate Deliverable(mac: Mac, s: State, h: Handle, datagram: bytes) {
    h in Live(s.table) && Live(s.table)[h] < |s.sessions|
    && ReceiveEnvelope(datagram).Some? && Unpack(ReceiveEnvelope(datagram).value.connectionId) == h
    && var session, e := s.sessions[Live(s.table)[h]], ReceiveEnvelope(datagram).value;
       ReceivePacket(e.connectionId, e.authenticatedData).Some?
       && session.key != seq(32, i => 0) && mac(session.key, e.authenticatedData) == Some(e.authenticationTag)
       && var sequence := ReceivePacket(e.connectionId, e.authenticatedData).value.sequence;
          sequence != 0 && sequence !in session.accepted && forall a :: a in session.accepted ==> a < sequence + 64
  }

  /** The number is accepted, the session was heard from now, and a disconnect is queued if that is the type. */
  ghost predicate HasTakenEffect(s: State, s': State, r: nat, h: Handle, p: Packet) {
    r < |s.sessions|
    && s'.sessions == s.sessions[r := SessionState(s.sessions[r].client, s.sessions[r].endpoint, s.sessions[r].key,
                                                   s.sessions[r].accepted + {p.sequence}, s.clock)]
    && |s'.tasks| == |s.tasks| + (if p.packetType == 2 then 1 else 0)
    && (p.packetType == 2 ==> s'.tasks[|s.tasks|].handle == h && s'.tasks[|s.tasks|].timeout == 0)
  }

  lemma CanArrive(mac: Mac, s: State, h: Handle, datagram: bytes) returns (found: State)
    requires TableOk(s) && Deliverable(mac, s, h, datagram)
    ensures Next(mac, s, found, DoReceive(s.sessions[Live(s.table)[h]].endpoint, datagram))
    ensures found == s.(jobs := found.jobs) && |found.jobs| == |s.jobs| + 1
    ensures
      var job := found.jobs[|s.jobs|];
      job.stage == Found && job.session == Live(s.table)[h] && job.sender == s.sessions[Live(s.table)[h]].endpoint
      && ReceiveEnvelope(datagram) == Some(job.envelope)
  {
    var r, e := Live(s.table)[h], ReceiveEnvelope(datagram).value;
    FindIsLookup(s.table, h);
    found := s.(jobs := s.jobs + [Job(s.sessions[r].endpoint, e, r, s.table.releases[h.index], Found)]);
  }

  lemma CanPass(mac: Mac, s: State, k: nat) returns (accepted: State)
    requires k < |s.jobs| && s.jobs[k].stage == Found && s.jobs[k].session < |s.sessions|
    requires Authentic(mac, s.sessions[s.jobs[k].session], s.jobs[k])
    requires Fresh(s.sessions[s.jobs[k].session].accepted, PacketOf(s.jobs[k]).sequence)
    ensures Next(mac, s, accepted, DoCheck(k))
    ensures accepted.jobs == s.jobs[k := s.jobs[k].(stage := Accepted)]
    ensures
      var r, p := s.jobs[k].session, PacketOf(s.jobs[k]);
      accepted == s.(jobs := accepted.jobs,
                     sessions := s.sessions[r := s.sessions[r].(accepted := s.sessions[r].accepted + {p.sequence})])
  {
    var r, p := s.jobs[k].session, PacketOf(s.jobs[k]);
    accepted := WithStage(s, k, Accepted).(sessions :=
                  s.sessions[r := s.sessions[r].(accepted := s.sessions[r].accepted + {p.sequence})]);
  }

  lemma CanBeHandled(mac: Mac, s: State, k: nat) returns (marked: State, handled: State)
    requires k < |s.jobs| && s.jobs[k].stage == Accepted && s.jobs[k].session < |s.sessions|
    requires s.jobs[k].envelope.connectionId < UINT64_LIMIT
    requires ReceivePacket(s.jobs[k].envelope.connectionId, s.jobs[k].envelope.authenticatedData).Some?
    ensures Next(mac, s, marked, DoMark(k)) && Next(mac, marked, handled, DoHandle(k, true))
    ensures
      var r, kind := s.jobs[k].session, PacketOf(s.jobs[k]).packetType;
      && handled.sessions == s.sessions[r := s.sessions[r].(lastReceived := s.clock)]
      && |handled.tasks| == |s.tasks| + (if kind == 2 then 1 else 0)
      && (kind == 2 ==> handled.tasks[|s.tasks|].handle == Unpack(s.jobs[k].envelope.connectionId)
                        && handled.tasks[|s.tasks|].timeout == 0)
  {
    var r := s.jobs[k].session;
    marked := WithStage(s, k, Marked).(sessions := s.sessions[r := s.sessions[r].(lastReceived := s.clock)]);
    var task := Task(Unpack(s.jobs[k].envelope.connectionId), 0, 0, r, s.jobs[k].releases, Queued);
    handled := if PacketOf(s.jobs[k]).packetType == 2 then WithStage(marked, k, Handled).(tasks := s.tasks + [task])
               else WithStage(marked, k, Handled);
  }

  lemma EffectAddsUp(s: State, accepted: State, handled: State, r: nat, h: Handle, p: Packet)
    requires r < |s.sessions| && accepted.clock == s.clock && accepted.tasks == s.tasks
    requires accepted.sessions ==
      s.sessions[r := s.sessions[r].(accepted := s.sessions[r].accepted + {p.sequence})]
    requires handled.sessions == accepted.sessions[r := accepted.sessions[r].(lastReceived := accepted.clock)]
    requires |handled.tasks| == |s.tasks| + (if p.packetType == 2 then 1 else 0)
    requires p.packetType == 2 ==> handled.tasks[|s.tasks|].handle == h && handled.tasks[|s.tasks|].timeout == 0
    ensures HasTakenEffect(s, handled, r, h, p)
  {}

  lemma TakesEffect(mac: Mac, s: State, h: Handle, datagram: bytes)
    returns (found: State, accepted: State, marked: State, handled: State)
    requires TableOk(s) && Deliverable(mac, s, h, datagram)
    ensures Next(mac, s, found, DoReceive(s.sessions[Live(s.table)[h]].endpoint, datagram))
    ensures Next(mac, found, accepted, DoCheck(|s.jobs|)) && Next(mac, accepted, marked, DoMark(|s.jobs|))
    ensures Next(mac, marked, handled, DoHandle(|s.jobs|, true))
    ensures var e := ReceiveEnvelope(datagram).value;
            HasTakenEffect(s, handled, Live(s.table)[h], h, ReceivePacket(e.connectionId, e.authenticatedData).value)
  {
    found := CanArrive(mac, s, h, datagram);
    accepted := CanPass(mac, found, |s.jobs|);
    marked, handled := CanBeHandled(mac, accepted, |s.jobs|);
    EffectAddsUp(s, accepted, handled, Live(s.table)[h], h, PacketOf(found.jobs[|s.jobs|]));
  }

  /**
   A datagram from the endpoint of a live session, with the right tag, a consistent content and a number
   that is new to the session, can be carried to its effect: the number is accepted, the session is
   heard from now, and a disconnect is queued if that is the packet's type.
   */
  lemma PacketCanTakeEffect(mac: Mac, capacity: nat, run: seq<State>, before: seq<Step>, h: Handle, datagram: bytes)
    returns (found: State, accepted: State, marked: State, handled: State)
    requires Run(mac, capacity, run, before) && Deliverable(mac, run[|before|], h, datagram)
    ensures
      var s, k := run[|before|], |run[|before|].jobs|;
      && Next(mac, s, found, DoReceive(s.sessions[Live(s.table)[h]].endpoint, datagram))
      && Next(mac, found, accepted, DoCheck(k)) && Next(mac, accepted, marked, DoMark(k))
      && Next(mac, marked, handled, DoHandle(k, true))
    ensures var e := ReceiveEnvelope(datagram).value;
            HasTakenEffect(run[|before|], handled, Live(run[|before|].table)[h], h,
                           ReceivePacket(e.connectionId, e.authenticatedData).value)
  {
    RunKeeps(mac, capacity, run, before, |before|);
    found, accepted, marked, handled := TakesEffect(mac, run[|before|], h, datagram);
  }
}
