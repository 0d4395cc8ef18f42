/**
 What the server as a whole guarantees over every run: no orphan sessions, removals that are final,
 at most one effect per packet, and sound timeouts.
 */
module ServerGuarantees {
  import opened ClientEntries
  import opened PacketAuthentication
  import opened Server
  import opened SlotTable
  import opened Words
  import opened Wrappers

  // ---------- what only ever moves one way ----------

  /** The client was issued its id and is not registered, nor about to be. */
  ghost predicate Gone(s: State, c: uint64) {
    Issued(s, c) && c !in s.clients && s.lock != Adding(c)
  }

  /** Rejection and handling are final. */
  predicate MayBecome(a: Stage, b: Stage) {
    a == b || a == Found || (a == Accepted && (b == Marked || b == Handled)) || (a == Marked && b == Handled)
  }

  ghost predicate JobsPersist(a: seq<Job>, b: seq<Job>) {
    |a| <= |b| && forall k :: 0 <= k < |a| ==> b[k] == a[k].(stage := b[k].stage) && MayBecome(a[k].stage, b[k].stage)
  }

  ghost predicate Later(a: State, b: State) {
    && SessionsGrow(a.sessions, b.sessions)
    && JobsPersist(a.jobs, b.jobs)
    && (forall c :: Issued(a, c) ==> Issued(b, c))
    && (forall c :: Gone(a, c) ==> Gone(b, c))
  }

  lemma JobsOnlyAdvance(mac: Mac, s: State, s': State, step: Step)
    requires Next(mac, s, s', step)
    ensures JobsPersist(s.jobs, s'.jobs)
  {}

  lemma IdsOnlyAdvance(mac: Mac, s: State, s': State, step: Step, c: uint64)
    requires ClientsOk(s) && Next(mac, s, s', step)
    ensures Issued(s, c) ==> Issued(s', c)
    ensures Gone(s, c) ==> Gone(s', c)
  {}

  lemma StepIsLater(mac: Mac, s: State, s': State, step: Step)
    requires Inv(mac, s) && Next(mac, s, s', step)
    ensures Later(s, s')
  {
    StepGrowsSessions(mac, s, s', step);
    JobsOnlyAdvance(mac, s, s', step);
    forall c: uint64
      ensures Issued(s, c) ==> Issued(s', c)
      ensures Gone(s, c) ==> Gone(s', c)
    {
      IdsOnlyAdvance(mac, s, s', step, c);
    }
  }

  lemma LaterOn(a: State, b: State, c: State)
    requires Later(a, b) && Later(b, c)
    ensures Later(a, c)
  {}

  lemma {:induction false} StatesOnPath(run: seq<State>, i: nat, j: nat)
    requires i <= j < |run| && (forall n :: i <= n < j ==> Later(run[n], run[n + 1]))
    ensures Later(run[i], run[j])
  {
    if i < j {
      StatesOnPath(run, i, j - 1);
      LaterOn(run[i], run[j - 1], run[j - 1 + 1]);
    }
  }

  lemma RunStep(mac: Mac, capacity: nat, run: seq<State>, steps: seq<Step>, i: nat)
    requires Run(mac, capacity, run, steps) && i < |steps|
    ensures Inv(mac, run[i]) && Inv(mac, run[i + 1]) && Next(mac, run[i], run[i + 1], steps[i])
    ensures Later(run[i], run[i + 1])
  {
    RunKeeps(mac, capacity, run, steps, i);
    RunKeeps(mac, capacity, run, steps, i + 1);
    StepIsLater(mac, run[i], run[i + 1], steps[i]);
  }

  lemma RunLater(mac: Mac, capacity: nat, run: seq<State>, steps: seq<Step>, i: nat, j: nat)
    requires Run(mac, capacity, run, steps) && i <= j < |run|
    ensures Later(run[i], run[j])
  {
    forall n | i <= n < j
      ensures Later(run[n], run[n + 1])
    {
      RunStep(mac, capacity, run, steps, n);
    }
    StatesOnPath(run, i, j);
  }

  // ---------- clients and their sessions ----------

  /** No orphans: at every moment of every run, each live session belongs to a registered client. */
  lemma NoOrphans(mac: Mac, capacity: nat, run: seq<State>, steps: seq<Step>, i: nat, h: Handle)
    requires Run(mac, capacity, run, steps) && i < |run| && h in Live(run[i].table)
    ensures Live(run[i].table)[h] < |run[i].sessions| && run[i].sessions[Live(run[i].table)[h]].client in run[i].clients
  {
    RunKeeps(mac, capacity, run, steps, i);
  }

  /** No id is issued twice in a run. */
  lemma IdsAreNotReused(mac: Mac, capacity: nat, run: seq<State>, steps: seq<Step>, i: nat, j: nat)
    requires Run(mac, capacity, run, steps) && i < j < |steps| && steps[i].DoAddBegin? && steps[j].DoAddBegin?
    ensures run[i].nextClient != run[j].nextClient
  {
    RunStep(mac, capacity, run, steps, i);
    RunStep(mac, capacity, run, steps, j);
    RunLater(mac, capacity, run, steps, i + 1, j);
    assert Issued(run[i + 1], run[i].nextClient);
  }

  /** Once the removal of an id issued by then is complete, the client never has a live session again. */
  lemma RemovedClientHasNoSessions(mac: Mac, capacity: nat, run: seq<State>, steps: seq<Step>, i: nat, j: nat,
                                   c: uint64)
    requires Run(mac, capacity, run, steps) && i < |steps| && i < j < |run|
    requires steps[i] == DoRemoveEnd && run[i].lock == Removing(c)
    requires c < run[i].nextClient || run[i].nextClient == 0 || c == 0
    ensures c !in run[j].clients && forall h :: h in Live(run[j].table) ==>
      Live(run[j].table)[h] < |run[j].sessions| && run[j].sessions[Live(run[j].table)[h]].client != c
  {
    RunStep(mac, capacity, run, steps, i);
    assert c != INVALID_CLIENT_ID ==> Gone(run[i + 1], c);
    RunLater(mac, capacity, run, steps, i + 1, j);
    RunKeeps(mac, capacity, run, steps, j);
  }

  // ---------- packets ----------

  /** A session changes only for a packet that passes every check; a rejected packet has no effect anywhere. */
  lemma OnlyAuthenticPacketsTouchSessions(mac: Mac, capacity: nat, run: seq<State>, steps: seq<Step>, i: nat, r: nat)
    requires Run(mac, capacity, run, steps) && i < |steps| && r < |run[i].sessions|
    ensures r < |run[i + 1].sessions|
    ensures run[i + 1].sessions[r] != run[i].sessions[r] ==>
      && (steps[i].DoCheck? || steps[i].DoMark?) && steps[i].k < |run[i].jobs| && run[i].jobs[steps[i].k].session == r
      && var job, session := run[i].jobs[steps[i].k], run[i].sessions[r];
         && job.sender == session.endpoint && session.key != seq(32, i => 0)
         && mac(session.key, job.envelope.authenticatedData) == Some(job.envelope.authenticationTag)
         && ReceivePacket(job.envelope.connectionId, job.envelope.authenticatedData).Some?
         && PacketOf(job).sequence in run[i + 1].sessions[r].accepted
         && run[i + 1].sessions[r] ==
              if steps[i].DoCheck? then session.(accepted := session.accepted + {PacketOf(job).sequence})
              else session.(lastReceived := run[i].clock)
  {
    RunStep(mac, capacity, run, steps, i);
  }

  /** A packet that failed a check has no later part in the run. */
  lemma RejectedPacketsNeverAct(mac: Mac, capacity: nat, run: seq<State>, steps: seq<Step>, i: nat, j: nat, k: nat)
    requires Run(mac, capacity, run, steps) && i <= j < |steps| && k < |run[i].jobs| && run[i].jobs[k].stage == Rejected
    ensures steps[j] != DoCheck(k) && steps[j] != DoMark(k) && !(steps[j].DoHandle? && steps[j].k == k)
  {
    RunLater(mac, capacity, run, steps, i, j);
    RunStep(mac, capacity, run, steps, j);
  }

  /** No two packets past the checks carry the same number for the same session. */
  lemma AcceptedAtMostOnce(mac: Mac, capacity: nat, run: seq<State>, steps: seq<Step>, i: nat, a: nat, b: nat)
    requires Run(mac, capacity, run, steps) && i < |run| && a < |run[i].jobs| && b < |run[i].jobs| && a != b
    requires Passed(run[i].jobs[a]) && Passed(run[i].jobs[b])
    ensures !SameNumber(run[i].jobs[a], run[i].jobs[b])
  {
    RunKeeps(mac, capacity, run, steps, i);
  }

  lemma HandledStays(mac: Mac, capacity: nat, run: seq<State>, steps: seq<Step>, i: nat, j: nat)
    requires Run(mac, capacity, run, steps) && i < j < |run| && i < |steps| && steps[i].DoHandle?
    ensures steps[i].k < |run[i].jobs| && steps[i].k < |run[j].jobs|
    ensures run[j].jobs[steps[i].k] == run[i].jobs[steps[i].k].(stage := Handled)
  {
    RunStep(mac, capacity, run, steps, i);
    RunLater(mac, capacity, run, steps, i + 1, j);
  }

  /** At most one effect: two steps that act on packets never act for the same number of the same session. */
  lemma EffectsAreUnique(mac: Mac, capacity: nat, run: seq<State>, steps: seq<Step>, i: nat, j: nat)
    requires Run(mac, capacity, run, steps) && i < j < |steps| && steps[i].DoHandle? && steps[j].DoHandle?
    ensures steps[i].k < |run[i].jobs| && steps[j].k < |run[j].jobs|
    ensures
      var p, q := run[i].jobs[steps[i].k], run[j].jobs[steps[j].k];
      && ReceivePacket(p.envelope.connectionId, p.envelope.authenticatedData).Some?
      && ReceivePacket(q.envelope.connectionId, q.envelope.authenticatedData).Some?
      && (p.session != q.session || PacketOf(p).sequence != PacketOf(q).sequence)
  {
    HandledStays(mac, capacity, run, steps, i, j);
    RunStep(mac, capacity, run, steps, i);
    RunStep(mac, capacity, run, steps, j);
    assert JobOk(mac, run[i], run[i].jobs[steps[i].k]) && JobOk(mac, run[j], run[j].jobs[steps[j].k]);
    AcceptedAtMostOnce(mac, capacity, run, steps, j, steps[i].k, steps[j].k);
  }

  // ---------- timeouts ----------

  /** A task is validated by a step that validates it, and otherwise was so before. */
  ghost predicate ValidationComes(s: State, s': State, step: Step) {
    forall k :: 0 <= k < |s'.tasks| && s'.tasks[k].stage == Validated ==>
      k < |s.tasks| && (s.tasks[k] == s'.tasks[k] || Validates(s, s'.tasks[k], step, k))
  }

  ghost predicate Validates(s: State, task: Task, step: Step, k: nat) {
    step == DoValidate(k) && k < |s.tasks| && s.tasks[k] == task.(stage := Located)
    && task.session < |s.sessions| && TimedOut(s.sessions[task.session].lastReceived, task.requested, task.timeout)
  }

  lemma StepsValidate(mac: Mac, s: State, s': State, step: Step)
    requires Next(mac, s, s', step)
    ensures ValidationComes(s, s', step)
  {}

  lemma {:induction false} ValidationOnPath(run: seq<State>, steps: seq<Step>, e: nat, k: nat) returns (j: nat)
    requires e < |run| && e <= |steps| && |run[0].tasks| == 0 && k < |run[e].tasks|
    requires run[e].tasks[k].stage == Validated
    requires forall n :: 0 <= n < e ==> ValidationComes(run[n], run[n + 1], steps[n])
    ensures j < e && Validates(run[j], run[e].tasks[k], steps[j], k)
  {
    assert e > 0;
    assert ValidationComes(run[e - 1], run[e - 1 + 1], steps[e - 1]);
    if run[e - 1].tasks[k] == run[e].tasks[k] {
      j := ValidationOnPath(run, steps, e - 1, k);
    } else {
      j := e - 1;
    }
  }

  lemma ValidationHappened(mac: Mac, capacity: nat, run: seq<State>, steps: seq<Step>, e: nat, k: nat) returns (j: nat)
    requires Run(mac, capacity, run, steps) && e < |run| && k < |run[e].tasks| && run[e].tasks[k].stage == Validated
    ensures j < e && Validates(run[j], run[e].tasks[k], steps[j], k)
  {
    forall n | 0 <= n < e
      ensures ValidationComes(run[n], run[n + 1], steps[n])
    {
      StepsValidate(mac, run[n], run[n + 1], steps[n]);
    }
    j := ValidationOnPath(run, steps, e, k);
  }

  /**
   Sound timeouts: a disconnect that needs validation removes anything only if, at some step before,
   the session it had located had received nothing after `requested - timeout`: not at that step, nor
   at any time up to it. So any packet marked later than that instant and before validation cancels it.
   */
  lemma TimeoutRemovalIsSound(mac: Mac, capacity: nat, run: seq<State>, steps: seq<Step>, e: nat, k: nat)
    returns (j: nat)
    requires Run(mac, capacity, run, steps) && e < |steps| && steps[e] == DoExecute(k)
    requires k < |run[e].tasks| && run[e].tasks[k].timeout > 0
    ensures j < e && Validates(run[j], run[e].tasks[k], steps[j], k) && steps[j] == DoValidate(k)
    ensures run[e].tasks[k].session < |run[j].sessions|
    ensures forall i :: 0 <= i <= j && run[e].tasks[k].session < |run[i].sessions| ==>
              run[i].sessions[run[e].tasks[k].session].lastReceived
              <= run[e].tasks[k].requested - run[e].tasks[k].timeout
  {
    RunStep(mac, capacity, run, steps, e);
    var task := run[e].tasks[k];
    j := ValidationHappened(mac, capacity, run, steps, e, k);
    forall i | 0 <= i <= j && task.session < |run[i].sessions|
      ensures run[i].sessions[task.session].lastReceived <= task.requested - task.timeout
    {
      RunLater(mac, capacity, run, steps, i, j);
    }
  }

  /**
   A disconnect goes by handle, in a later step than the lookup: of the session a timeout was validated
   for, or of the session whose packet asked for it. What it removes is that session, unless the slot
   was released a nonzero multiple of 2^32 - 1 times since the lookup.
   */
  lemma RemovalHitsTheNamedSession(mac: Mac, capacity: nat, run: seq<State>, steps: seq<Step>, e: nat, k: nat)
    returns (cycles: nat)
    requires Run(mac, capacity, run, steps) && e < |steps| && steps[e] == DoExecute(k)
    requires k < |run[e].tasks| && run[e].tasks[k].handle in Live(run[e].table)
    ensures run[e].tasks[k].handle.index < |run[e].table.releases|
    ensures run[e].table.releases[run[e].tasks[k].handle.index] == run[e].tasks[k].releases + cycles * 0xFFFF_FFFF
    ensures cycles == 0 ==> Live(run[e].table)[run[e].tasks[k].handle] == run[e].tasks[k].session
    ensures Live(run[e + 1].table) == Live(run[e].table) - {run[e].tasks[k].handle}
  {
    RunStep(mac, capacity, run, steps, e);
    var task := run[e].tasks[k];
    assert TaskOk(run[e], task);
    ReleaseRemoves(run[e].table, task.handle);
    cycles := SameGeneration(task.releases, run[e].table.releases[task.handle.index]);
  }

  /** The disconnect that a packet asks for names the incarnation the packet was accepted by. */
  lemma DisconnectNamesItsSession(mac: Mac, capacity: nat, run: seq<State>, steps: seq<Step>, i: nat, k: nat)
    requires Run(mac, capacity, run, steps) && i < |steps| && steps[i] == DoHandle(k, true)
    ensures k < |run[i].jobs| && Passed(run[i].jobs[k]) && run[i].jobs[k].session < |run[i].sessions|
    ensures ReceivePacket(run[i].jobs[k].envelope.connectionId, run[i].jobs[k].envelope.authenticatedData).Some?
    ensures PacketOf(run[i].jobs[k]).sequence in run[i].sessions[run[i].jobs[k].session].accepted
    ensures PacketOf(run[i].jobs[k]).packetType == DISCONNECT_PACKET_TYPE ==>
      |run[i + 1].tasks| == |run[i].tasks| + 1
      && run[i + 1].tasks[|run[i].tasks|].session == run[i].jobs[k].session
      && run[i + 1].tasks[|run[i].tasks|].releases == run[i].jobs[k].releases
  {
    RunStep(mac, capacity, run, steps, i);
  }
}
