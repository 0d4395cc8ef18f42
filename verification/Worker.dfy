/**
 One processor under any number of threads: start, stop, pushes from anywhere, the task worker and
 the optional long-running thread, interleaved lock section by lock section.

 `accepted` and `processed` record, since the last start, the tasks pushed with success and the
 tasks whose processing ended, by return or by exception.
 */
module Worker {
  import opened ProcessorSections
  import opened Wrappers

  /** Where the task worker is. */
  datatype WorkerPc =
    | NoWorker                 // not launched, or joined
    | Identifying              // about to record its identity
    | AtLock                   // about to take the queue lock and look
    | Asleep                   // waiting on the condition
    | Busy(task: Task)         // processing, lock released
    | Leaving                  // out of the loop, about to clear its identity
    | Ended

  /** Where the optional processor thread is. */
  datatype LoopPc = NoLoop | LoopIdentifying | InLoop | LoopLeaving | LoopEnded

  /** Where a caller inside Start or Stop is. `failed` marks a start that is being undone. */
  datatype CallPc =
    | BeforeImpl | BeforeLaunch | BeforeRunning | BeforeGivingUp
    | BeforeStopImpl(failed: bool) | BeforeJoinLoop(failed: bool) | BeforeNotify(failed: bool)
    | BeforeJoinWorker(failed: bool) | BeforeDiscard(failed: bool) | BeforeStopped(failed: bool)

  datatype State = State(
    core: Core,
    worker: WorkerPc, workerId: ThreadId, recordedWorker: Option<ThreadId>,
    loop: LoopPc, loopId: ThreadId, recordedLoop: Option<ThreadId>,
    calls: map<ThreadId, CallPc>,
    notifying: nat,                       // pushers between their unlock and their notify
    accepted: seq<Task>, processed: seq<Task>)

  // ---------- steps ----------

  predicate WorkerLives(s: State) { !s.worker.NoWorker? }

  predicate LoopLives(s: State) { !s.loop.NoLoop? }

  /** Thread t may be running code that calls this processor: the two threads it owns only in user code. */
  predicate MayCall(s: State, t: ThreadId) {
    && t !in s.calls
    && (WorkerLives(s) && t == s.workerId ==> s.worker.Busy?)
    && (LoopLives(s) && t == s.loopId ==> s.loop == InLoop)
  }

  predicate IsCurrentThread(s: State, t: ThreadId) {
    s.recordedWorker == Some(t) || s.recordedLoop == Some(t)
  }

  /** A new thread's identity differs from that of every live thread in sight. */
  predicate Fresh(s: State, t: ThreadId) {
    t !in s.calls && (WorkerLives(s) ==> t != s.workerId) && (LoopLives(s) ==> t != s.loopId)
  }

  function At(s: State, t: ThreadId, pc: CallPc): State { s.(calls := s.calls[t := pc]) }

  function Back(s: State, t: ThreadId): State { s.(calls := s.calls - {t}) }

  function Notified(s: State): State {
    if s.worker == Asleep then s.(worker := AtLock) else s
  }

  datatype Step =
    | Push(task: Task) | NotifyPush
    | StartCall(t: ThreadId) | StopCall(t: ThreadId)
    | CallStep(t: ThreadId, fails: bool, spawned: ThreadId, spawns: bool)
    | WorkerStep | WakeSpuriously | LoopStep

  function Looks(s: State): State {
    var after := s.(core := AfterDeciding(s.core));
    match Decide(s.core)
    case Sleep => after.(worker := Asleep)
    case Leave => after.(worker := Leaving)
    case Take(task) => after.(worker := Busy(task))
  }

  /** The inner loop goes on while there are tasks; else the lock is dropped and taken afresh. */
  function EndsTask(s: State): State
    requires s.worker.Busy?
  {
    var done := s.(processed := s.processed + [s.worker.task]);
    if s.core.queue != [] then Looks(done) else done.(worker := AtLock)
  }

  ghost predicate WorkerMoves(s: State, s': State) {
    match s.worker
    case NoWorker => false
    case Identifying => s' == s.(worker := AtLock, recordedWorker := Some(s.workerId))
    case AtLock => s' == Looks(s)
    case Asleep => false
    case Busy(_) => s.workerId !in s.calls && s' == EndsTask(s)
    case Leaving => s' == s.(worker := Ended, recordedWorker := None)
    case Ended => false
  }

  ghost predicate LoopMoves(s: State, s': State) {
    match s.loop
    case NoLoop => false
    case LoopIdentifying => s' == s.(loop := InLoop, recordedLoop := Some(s.loopId))
    case InLoop => s.loopId !in s.calls && s' == s.(loop := LoopLeaving)
    case LoopLeaving => s' == s.(loop := LoopEnded, recordedLoop := None)
    case LoopEnded => false
  }

  /** The rest of Start and Stop, one section at a time. */
  ghost predicate CallMoves(s: State, s': State, t: ThreadId, fails: bool, spawned: ThreadId, spawns: bool) {
    t in s.calls
    && match s.calls[t]
       case BeforeImpl =>
         (spawns ==> Fresh(s, spawned))
         && var begun := if spawns then s.(loop := LoopIdentifying, loopId := spawned) else s;
            s' == At(begun, t, if fails then BeforeGivingUp else BeforeLaunch)
       case BeforeLaunch =>
         if fails then s' == At(s, t, BeforeGivingUp)
         else Fresh(s, spawned) && s' == At(s.(worker := Identifying, workerId := spawned), t, BeforeRunning)
       case BeforeRunning => s' == Back(s.(core := s.core.(state := Running)), t)
       case BeforeGivingUp => s' == At(s.(core := StopBegun(s.core)), t, BeforeStopImpl(true))
       case BeforeStopImpl(failed) => s' == At(s, t, BeforeJoinLoop(failed))
       case BeforeJoinLoop(failed) =>
         (LoopLives(s) ==> s.loop == LoopEnded && t != s.loopId)
         && s' == At(s.(loop := NoLoop), t, BeforeNotify(failed))
       case BeforeNotify(failed) =>
         s' == if WorkerLives(s) then At(Notified(s), t, BeforeJoinWorker(failed)) else At(s, t, BeforeDiscard(failed))
       case BeforeJoinWorker(failed) =>
         s.worker == Ended && t != s.workerId && s' == At(s.(worker := NoWorker), t, BeforeDiscard(failed))
       case BeforeDiscard(failed) => s' == At(s.(core := s.core.(queue := [])), t, BeforeStopped(failed))
       case BeforeStopped(_) => s' == Back(s.(core := s.core.(state := Stopped)), t)
  }

  ghost predicate Next(s: State, s': State, step: Step) {
    match step
    case Push(task) =>
      s' == if Accepts(s.core)
            then s.(core := Pushed(s.core, task), accepted := s.accepted + [task], notifying := s.notifying + 1)
            else s
    case NotifyPush => s.notifying > 0 && s' == Notified(s).(notifying := s.notifying - 1)
    case StartCall(t) =>
      MayCall(s, t)
      && s' == if s.core.state == Stopped
               then At(s.(core := StartBegun(s.core), accepted := [], processed := []), t, BeforeImpl)
               else s
    case StopCall(t) =>
      MayCall(s, t)
      && s' == if s.core.state == Running && !IsCurrentThread(s, t)
               then At(s.(core := StopBegun(s.core)), t, BeforeStopImpl(false))
               else s
    case CallStep(t, fails, spawned, spawns) => CallMoves(s, s', t, fails, spawned, spawns)
    case WorkerStep => WorkerMoves(s, s')
    case WakeSpuriously => s.worker == Asleep && s' == s.(worker := AtLock)
    case LoopStep => LoopMoves(s, s')
  }

  ghost predicate Init(s: State) {
    s.core == Core(Stopped, false, []) && s.worker == NoWorker && s.loop == NoLoop
    && s.recordedWorker == None && s.recordedLoop == None && s.calls == map[] && s.notifying == 0
    && s.accepted == [] && s.processed == []
  }

  ghost predicate Run(run: seq<State>, steps: seq<Step>) {
    |run| == |steps| + 1 && Init(run[0]) && forall i :: 0 <= i < |steps| ==> Next(run[i], run[i + 1], steps[i])
  }

  // ---------- the invariant ----------

  function InFlight(w: WorkerPc): seq<Task> {
    if w.Busy? then [w.task] else []
  }

  predicate Undoing(pc: CallPc) {
    pc.BeforeStopImpl? || pc.BeforeJoinLoop? || pc.BeforeNotify? || pc.BeforeJoinWorker? || pc.BeforeDiscard?
    || pc.BeforeStopped?
  }

  /** One call at a time is inside, exactly while the processor is starting or stopping. */
  ghost predicate CallsOk(s: State) {
    && (forall t, u :: t in s.calls && u in s.calls ==> t == u)
    && (forall t :: t in s.calls ==> s.core.state == if Undoing(s.calls[t]) then Stopping else Starting)
    && (s.core.state == Starting || s.core.state == Stopping ==> s.calls != map[])
    && (s.core.needStop ==> s.core.state == Stopping || s.core.state == Stopped)
    && (s.core.state == Stopping ==> s.core.needStop)
  }

  /** Which threads exist in which phase. */
  ghost predicate PhaseOk(s: State, pc: CallPc) {
    && (pc.BeforeImpl? || pc.BeforeLaunch? || pc.BeforeGivingUp? ==> !WorkerLives(s) && s.processed == [])
    && (pc.BeforeImpl? ==> !LoopLives(s))
    && (pc.BeforeRunning? ==> WorkerLives(s) && !s.worker.Leaving? && !s.worker.Ended?)
    && (Undoing(pc) && pc.failed ==> !WorkerLives(s) && s.processed == [])
    && (pc.BeforeStopImpl? || pc.BeforeJoinLoop? || pc.BeforeNotify? ==> (!pc.failed ==> WorkerLives(s)))
    && (pc.BeforeNotify? || pc.BeforeJoinWorker? || pc.BeforeDiscard? || pc.BeforeStopped? ==> !LoopLives(s))
    && (pc.BeforeJoinWorker? ==> WorkerLives(s) && s.worker != Asleep)
    && (pc.BeforeDiscard? || pc.BeforeStopped? ==> !WorkerLives(s))
    && (pc.BeforeStopped? || (pc.BeforeDiscard? && !pc.failed) ==> s.core.queue == [])
  }

  ghost predicate PhasesOk(s: State) {
    && (forall t :: t in s.calls ==> PhaseOk(s, s.calls[t]))
    && (s.core.state == Running ==> WorkerLives(s) && !s.worker.Leaving? && !s.worker.Ended?)
    && (s.core.state == Stopped ==> !WorkerLives(s) && !LoopLives(s) && s.core.queue == [])
    && (s.worker.Leaving? || s.worker.Ended? ==> s.core.needStop && s.core.queue == [])
  }

  /** The two owned threads are recorded whenever they may run user code, and are never inside a call. */
  ghost predicate IdentityOk(s: State) {
    && s.recordedWorker == (if s.worker.AtLock? || s.worker.Asleep? || s.worker.Busy? || s.worker.Leaving?
                            then Some(s.workerId) else None)
    && s.recordedLoop == (if s.loop.InLoop? || s.loop.LoopLeaving? then Some(s.loopId) else None)
    && (WorkerLives(s) ==> s.workerId !in s.calls)
    && (LoopLives(s) ==> s.loopId !in s.calls)
    && (WorkerLives(s) && LoopLives(s) ==> s.workerId != s.loopId)
  }

  /** What was accepted is what was processed, then what is in flight, then what is queued. */
  ghost predicate TasksOk(s: State) {
    && s.processed <= s.accepted
    && (s.core.state != Stopped && (forall t :: t in s.calls ==> !(s.calls[t].BeforeStopped? && s.calls[t].failed))
        ==> s.accepted == s.processed + InFlight(s.worker) + s.core.queue)
  }

  /** A sleeping worker with something to do has a notification on its way. */
  ghost predicate NoMissedWakeup(s: State) {
    s.worker == Asleep ==>
      && (s.core.queue != [] ==> s.notifying > 0)
      && (s.core.needStop ==> exists t :: WillNotifyAll(s, t))
  }

  predicate WillNotifyAll(s: State, t: ThreadId) {
    t in s.calls && (s.calls[t].BeforeStopImpl? || s.calls[t].BeforeJoinLoop? || s.calls[t].BeforeNotify?)
  }

  ghost predicate Inv(s: State) {
    CallsOk(s) && PhasesOk(s) && IdentityOk(s) && TasksOk(s) && NoMissedWakeup(s)
  }

  lemma InitOk(s: State)
    requires Init(s)
    ensures Inv(s)
  {}

  lemma PushKeeps(s: State, s': State, step: Step)
    requires Inv(s) && step.Push? && Next(s, s', step)
    ensures Inv(s')
  {
    forall u | WillNotifyAll(s, u) ensures WillNotifyAll(s', u) {}
  }

  lemma NotifyPushKeeps(s: State, s': State, step: Step)
    requires Inv(s) && step.NotifyPush? && Next(s, s', step)
    ensures Inv(s')
  {
    forall u | WillNotifyAll(s, u) ensures WillNotifyAll(s', u) {}
  }

  lemma StartCallKeeps(s: State, s': State, step: Step)
    requires Inv(s) && step.StartCall? && Next(s, s', step)
    ensures Inv(s')
  {
  }

  lemma StopCallKeeps(s: State, s': State, step: Step)
    requires Inv(s) && step.StopCall? && Next(s, s', step)
    ensures Inv(s')
  {
    if s' != s { assert WillNotifyAll(s', step.t); }
    forall u | WillNotifyAll(s, u) ensures WillNotifyAll(s', u) {}
  }

  lemma WakeKeeps(s: State, s': State, step: Step)
    requires Inv(s) && step.WakeSpuriously? && Next(s, s', step)
    ensures Inv(s')
  {
    forall u | WillNotifyAll(s, u) ensures WillNotifyAll(s', u) {}
  }

  lemma LoopKeeps(s: State, s': State, step: Step)
    requires Inv(s) && step.LoopStep? && Next(s, s', step)
    ensures Inv(s')
  {
    forall u | WillNotifyAll(s, u) ensures WillNotifyAll(s', u) {}
  }

  /** One look at the queue, with the lock held. */
  lemma LookKeeps(s: State)
    requires Inv(s) && s.worker.AtLock?
    ensures Inv(Looks(s))
  {
    var s' := Looks(s);
    if s.core.queue != [] { assert s.core.queue == [s.core.queue[0]] + s.core.queue[1..]; }
    assert s.processed + [] == s.processed;
  }

  lemma EndTaskKeeps(s: State)
    requires Inv(s) && s.worker.Busy?
    ensures Inv(s.(processed := s.processed + [s.worker.task], worker := AtLock))
  {
    assert s.processed + [s.worker.task] + [] == s.processed + [s.worker.task];
  }

  lemma WorkerKeeps(s: State, s': State)
    requires Inv(s) && WorkerMoves(s, s')
    ensures Inv(s')
  {
    match s.worker
    case Identifying => assert s.processed + [] == s.processed;
    case AtLock => LookKeeps(s);
    case Busy(task) =>
      EndTaskKeeps(s);
      if s.core.queue != [] { LookKeeps(s.(processed := s.processed + [task], worker := AtLock)); }
    case Leaving =>
    case _ =>
  }

  lemma BeforeImplKeeps(s: State, s': State, t: ThreadId, fails: bool, spawned: ThreadId, spawns: bool)
    requires Inv(s) && CallMoves(s, s', t, fails, spawned, spawns) && s.calls[t].BeforeImpl?
    ensures Inv(s')
  {
    assert t in s'.calls;
  }

  lemma BeforeLaunchKeeps(s: State, s': State, t: ThreadId, fails: bool, spawned: ThreadId, spawns: bool)
    requires Inv(s) && CallMoves(s, s', t, fails, spawned, spawns) && s.calls[t].BeforeLaunch?
    ensures Inv(s')
  {
    assert t in s'.calls;
  }

  lemma BeforeRunningKeeps(s: State, s': State, t: ThreadId, fails: bool, spawned: ThreadId, spawns: bool)
    requires Inv(s) && CallMoves(s, s', t, fails, spawned, spawns) && s.calls[t].BeforeRunning?
    ensures Inv(s')
  {
  }

  lemma BeforeGivingUpKeeps(s: State, s': State, t: ThreadId, fails: bool, spawned: ThreadId, spawns: bool)
    requires Inv(s) && CallMoves(s, s', t, fails, spawned, spawns) && s.calls[t].BeforeGivingUp?
    ensures Inv(s')
  {
    assert t in s'.calls;
    assert WillNotifyAll(s', t);
  }

  lemma BeforeStopImplKeeps(s: State, s': State, t: ThreadId, fails: bool, spawned: ThreadId, spawns: bool)
    requires Inv(s) && CallMoves(s, s', t, fails, spawned, spawns) && s.calls[t].BeforeStopImpl?
    ensures Inv(s')
  {
    assert t in s'.calls;
    assert WillNotifyAll(s', t);
  }

  lemma BeforeJoinLoopKeeps(s: State, s': State, t: ThreadId, fails: bool, spawned: ThreadId, spawns: bool)
    requires Inv(s) && CallMoves(s, s', t, fails, spawned, spawns) && s.calls[t].BeforeJoinLoop?
    ensures Inv(s')
  {
    assert t in s'.calls;
    assert WillNotifyAll(s', t);
  }

  lemma BeforeNotifyKeeps(s: State, s': State, t: ThreadId, fails: bool, spawned: ThreadId, spawns: bool)
    requires Inv(s) && CallMoves(s, s', t, fails, spawned, spawns) && s.calls[t].BeforeNotify?
    ensures Inv(s')
  {
    assert t in s'.calls;
  }

  lemma BeforeJoinWorkerKeeps(s: State, s': State, t: ThreadId, fails: bool, spawned: ThreadId, spawns: bool)
    requires Inv(s) && CallMoves(s, s', t, fails, spawned, spawns) && s.calls[t].BeforeJoinWorker?
    ensures Inv(s')
  {
    assert t in s'.calls;
  }

  lemma BeforeDiscardKeeps(s: State, s': State, t: ThreadId, fails: bool, spawned: ThreadId, spawns: bool)
    requires Inv(s) && CallMoves(s, s', t, fails, spawned, spawns) && s.calls[t].BeforeDiscard?
    ensures Inv(s')
  {
    assert t in s'.calls;
  }

  lemma BeforeStoppedKeeps(s: State, s': State, t: ThreadId, fails: bool, spawned: ThreadId, spawns: bool)
    requires Inv(s) && CallMoves(s, s', t, fails, spawned, spawns) && s.calls[t].BeforeStopped?
    ensures Inv(s')
  {
  }

  lemma NextKeeps(s: State, s': State, step: Step)
    requires Inv(s) && Next(s, s', step)
    ensures Inv(s')
  {
    match step
    case Push(_) => PushKeeps(s, s', step);
    case NotifyPush => NotifyPushKeeps(s, s', step);
    case StartCall(_) => StartCallKeeps(s, s', step);
    case StopCall(_) => StopCallKeeps(s, s', step);
    case WorkerStep => WorkerKeeps(s, s');
    case WakeSpuriously => WakeKeeps(s, s', step);
    case LoopStep => LoopKeeps(s, s', step);
    case CallStep(t, fails, spawned, spawns) =>
      match s.calls[t]
      case BeforeImpl => BeforeImplKeeps(s, s', t, fails, spawned, spawns);
      case BeforeLaunch => BeforeLaunchKeeps(s, s', t, fails, spawned, spawns);
      case BeforeRunning => BeforeRunningKeeps(s, s', t, fails, spawned, spawns);
      case BeforeGivingUp => BeforeGivingUpKeeps(s, s', t, fails, spawned, spawns);
      case BeforeStopImpl(_) => BeforeStopImplKeeps(s, s', t, fails, spawned, spawns);
      case BeforeJoinLoop(_) => BeforeJoinLoopKeeps(s, s', t, fails, spawned, spawns);
      case BeforeNotify(_) => BeforeNotifyKeeps(s, s', t, fails, spawned, spawns);
      case BeforeJoinWorker(_) => BeforeJoinWorkerKeeps(s, s', t, fails, spawned, spawns);
      case BeforeDiscard(_) => BeforeDiscardKeeps(s, s', t, fails, spawned, spawns);
      case BeforeStopped(_) => BeforeStoppedKeeps(s, s', t, fails, spawned, spawns);
  }

  lemma {:induction false} RunKeeps(run: seq<State>, steps: seq<Step>, i: nat)
    requires Run(run, steps) && i < |run|
    ensures Inv(run[i])
  {
    if i == 0 {
      InitOk(run[0]);
    } else {
      RunKeeps(run, steps, i - 1);
      NextKeeps(run[i - 1], run[i], steps[i - 1]);
    }
  }

  // ---------- what the invariant means ----------

  predicate StartsAfresh(s: State, step: Step) { step.StartCall? && s.core.state == Stopped }

  /** The call that step i of the run completes, and whether it undid a failed start. */
  ghost predicate CompletesStop(run: seq<State>, steps: seq<Step>, i: nat, failed: bool) {
    i < |steps| && |run| == |steps| + 1 && steps[i].CallStep? && steps[i].t in run[i].calls
    && run[i].calls[steps[i].t] == BeforeStopped(failed)
  }

  /** When a stop of a running processor completes, every task accepted since the start has been processed, in order. */
  lemma StopProcessesEverything(run: seq<State>, steps: seq<Step>, i: nat)
    requires Run(run, steps) && CompletesStop(run, steps, i, false)
    ensures run[i + 1].processed == run[i + 1].accepted && run[i + 1].core == Core(Stopped, true, [])
    ensures !WorkerLives(run[i + 1]) && !LoopLives(run[i + 1])
  {
    RunKeeps(run, steps, i);
    assert Next(run[i], run[i + 1], steps[i]);
  }

  /** A start that fails has processed nothing and leaves an empty queue. */
  lemma FailedStartProcessesNothing(run: seq<State>, steps: seq<Step>, i: nat)
    requires Run(run, steps) && CompletesStop(run, steps, i, true)
    ensures run[i + 1].processed == [] && run[i + 1].core == Core(Stopped, true, [])
    ensures !WorkerLives(run[i + 1]) && !LoopLives(run[i + 1])
  {
    RunKeeps(run, steps, i);
    assert Next(run[i], run[i + 1], steps[i]);
  }

  ghost predicate Extends(s: State, s': State) {
    s.accepted <= s'.accepted && s.processed <= s'.processed
  }

  ghost predicate StaysClosed(s: State, s': State) {
    Closed(s.core.state) ==> Closed(s'.core.state) && s'.accepted == s.accepted
  }

  lemma StepExtends(s: State, s': State, step: Step)
    requires Next(s, s', step) && !StartsAfresh(s, step)
    ensures Extends(s, s')
  {}

  lemma StepStaysClosed(s: State, s': State, step: Step)
    requires CallsOk(s) && Next(s, s', step) && !StartsAfresh(s, step)
    ensures StaysClosed(s, s')
  {}

  lemma {:induction false} ExtendsChains(run: seq<State>, i: nat, j: nat)
    requires i <= j < |run| && forall k :: i <= k < j ==> Extends(run[k], run[k + 1])
    ensures Extends(run[i], run[j])
    decreases j
  {
    if i < j {
      ExtendsChains(run, i, j - 1);
      assert Extends(run[j - 1], run[j - 1 + 1]);
    }
  }

  lemma {:induction false} ClosedChains(run: seq<State>, i: nat, j: nat)
    requires i <= j < |run| && Closed(run[i].core.state) && forall k :: i <= k < j ==> StaysClosed(run[k], run[k + 1])
    ensures Closed(run[j].core.state) && run[j].accepted == run[i].accepted
    decreases j
  {
    if i < j {
      ClosedChains(run, i, j - 1);
      assert StaysClosed(run[j - 1], run[j - 1 + 1]);
    }
  }

  /**
   Between two starts both histories only grow, and what has been processed is at every moment an
   initial part of what has been accepted: first in, first out, and nothing twice.
   */
  lemma HistoryGrows(run: seq<State>, steps: seq<Step>, i: nat, j: nat)
    requires Run(run, steps) && i <= j < |run|
    requires forall k :: i <= k < j ==> !(steps[k].StartCall? && run[k].core.state == Stopped)
    ensures run[i].accepted <= run[j].accepted && run[i].processed <= run[j].processed <= run[j].accepted
  {
    forall k | i <= k < j ensures Extends(run[k], run[k + 1]) { StepExtends(run[k], run[k + 1], steps[k]); }
    ExtendsChains(run, i, j);
    RunKeeps(run, steps, j);
  }

  /** No push succeeds once stopping has begun, until the next start. */
  lemma NothingAcceptedWhileStopping(run: seq<State>, steps: seq<Step>, i: nat, j: nat)
    requires Run(run, steps) && i <= j < |run| && (run[i].core.state == Stopping || run[i].core.state == Stopped)
    requires forall k :: i <= k < j ==> !(steps[k].StartCall? && run[k].core.state == Stopped)
    ensures (run[j].core.state == Stopping || run[j].core.state == Stopped) && run[j].accepted == run[i].accepted
  {
    forall k | i <= k < j ensures StaysClosed(run[k], run[k + 1]) {
      RunKeeps(run, steps, k);
      StepStaysClosed(run[k], run[k + 1], steps[k]);
    }
    ClosedChains(run, i, j);
  }

  /** A worker that sleeps although there is something for it to do has a notification coming. */
  lemma SleepingWorkerIsWoken(run: seq<State>, steps: seq<Step>, i: nat)
    requires Run(run, steps) && i < |run| && run[i].worker == Asleep
    requires run[i].core.queue != [] || run[i].core.needStop
    ensures run[i].notifying > 0 || exists t :: WillNotifyAll(run[i], t)
  {
    RunKeeps(run, steps, i);
  }

  /** No call ever joins the thread it runs on, and a stop asked for from the processor's own code is refused. */
  lemma NeverJoinsItself(run: seq<State>, steps: seq<Step>, i: nat, t: ThreadId)
    requires Run(run, steps) && i < |run|
    ensures t in run[i].calls ==>
      (WorkerLives(run[i]) ==> t != run[i].workerId) && (LoopLives(run[i]) ==> t != run[i].loopId)
    ensures (run[i].worker.Busy? && t == run[i].workerId) || (run[i].loop.InLoop? && t == run[i].loopId) ==>
              forall after :: Next(run[i], after, StopCall(t)) ==> after == run[i]
  {
    RunKeeps(run, steps, i);
  }

  // ---------- stopping ends ----------

  function WorkerRank(w: WorkerPc): nat {
    match w
    case NoWorker => 0
    case Ended => 0
    case Leaving => 1
    case AtLock => 2
    case _ => 3
  }

  function LoopRank(l: LoopPc): nat {
    match l
    case NoLoop => 0
    case LoopEnded => 0
    case LoopLeaving => 1
    case InLoop => 2
    case LoopIdentifying => 3
  }

  function CallRank(pc: CallPc): nat {
    match pc
    case BeforeStopped(_) => 1
    case BeforeDiscard(_) => 2
    case BeforeJoinWorker(_) => 3
    case BeforeNotify(_) => 4
    case BeforeJoinLoop(_) => 5
    case _ => 6
  }

  function Work(s: State, t: ThreadId): nat
    requires t in s.calls
  {
    3 * |s.core.queue| + WorkerRank(s.worker) + LoopRank(s.loop) + CallRank(s.calls[t]) + s.notifying
  }

  ghost predicate LessWork(s: State, s': State, t: ThreadId) {
    s'.core.state == Stopped || (s'.core.state == Stopping && t in s.calls && t in s'.calls && Work(s', t) < Work(s, t))
  }

  lemma CallWorkDecreases(s: State, s': State, t: ThreadId, fails: bool, spawned: ThreadId, spawns: bool)
    requires CallsOk(s) && PhasesOk(s) && s.core.state == Stopping && CallMoves(s, s', t, fails, spawned, spawns)
    ensures LessWork(s, s', t)
  {}

  lemma WorkerWorkDecreases(s: State, s': State, t: ThreadId)
    requires s.core.state == Stopping && s.core.needStop && t in s.calls && WorkerMoves(s, s')
    ensures LessWork(s, s', t)
  {}

  /** While stopping, every step that changes anything leaves less to do, or is the last one. */
  lemma StoppingWorkDecreases(s: State, s': State, step: Step, t: ThreadId)
    requires Inv(s) && s.core.state == Stopping && t in s.calls && Next(s, s', step) && s' != s
    ensures LessWork(s, s', t)
  {
    match step
    case WorkerStep => WorkerWorkDecreases(s, s', t);
    case CallStep(u, fails, spawned, spawns) => CallWorkDecreases(s, s', t, fails, spawned, spawns);
    case _ =>
  }

  /** The function of the processor thread returns: the one step that no code of this class brings about. */
  predicate FunctionReturns(s: State, step: Step) { step.LoopStep? && s.loop.InLoop? }

  /** The processing of a task ends. */
  predicate TaskEnds(s: State, step: Step) { step.WorkerStep? && s.worker.Busy? }

  /**
   While stopping, some step other than a spurious wakeup changes something: nobody waits for nothing.
   The only steps of foreign code a stop may have to wait for are the return of the processor thread's
   function, at the join of that thread, and the end of a task, at the join of the worker.
   */
  lemma StoppingIsNeverStuck(s: State, t: ThreadId) returns (s': State, step: Step)
    requires Inv(s) && s.core.state == Stopping && t in s.calls
    ensures Next(s, s', step) && s' != s
    ensures step == CallStep(t, false, 0, false) || step == WorkerStep || step == LoopStep
    ensures FunctionReturns(s, step) ==> s.calls[t].BeforeJoinLoop?
    ensures TaskEnds(s, step) ==> s.calls[t].BeforeJoinWorker?
  {
    step := CallStep(t, false, 0, false);
    match s.calls[t]
    case BeforeStopImpl(failed) => s' := At(s, t, BeforeJoinLoop(failed));
    case BeforeJoinLoop(failed) =>
      if s.loop.NoLoop? || s.loop.LoopEnded? {
        s' := At(s.(loop := NoLoop), t, BeforeNotify(failed));
      } else {
        step := LoopStep;
        s' := if s.loop.LoopIdentifying? then s.(loop := InLoop, recordedLoop := Some(s.loopId))
              else if s.loop.InLoop? then s.(loop := LoopLeaving) else s.(loop := LoopEnded, recordedLoop := None);
      }
    case BeforeNotify(failed) =>
      s' := if WorkerLives(s) then At(Notified(s), t, BeforeJoinWorker(failed)) else At(s, t, BeforeDiscard(failed));
    case BeforeJoinWorker(failed) =>
      if s.worker.Ended? {
        s' := At(s.(worker := NoWorker), t, BeforeDiscard(failed));
      } else {
        step := WorkerStep;
        s' := match s.worker
              case Identifying => s.(worker := AtLock, recordedWorker := Some(s.workerId))
              case AtLock => Looks(s)
              case Busy(_) => EndsTask(s)
              case _ => s.(worker := Ended, recordedWorker := None);
      }
    case BeforeDiscard(failed) => s' := At(s.(core := s.core.(queue := [])), t, BeforeStopped(failed));
    case BeforeStopped(_) => s' := Back(s.(core := s.core.(state := Stopped)), t);
  }

  lemma {:induction false} LessWorkChains(run: seq<State>, i: nat, j: nat, t: ThreadId)
    requires i <= j < |run| && t in run[i].calls && forall k :: i <= k <= j ==> run[k].core.state == Stopping
    requires forall k :: i <= k < j && t in run[k].calls ==> LessWork(run[k], run[k + 1], t)
    ensures t in run[j].calls && Work(run[j], t) + (j - i) <= Work(run[i], t)
    decreases j
  {
    if i < j {
      LessWorkChains(run, i, j - 1, t);
      assert LessWork(run[j - 1], run[j - 1 + 1], t);
    }
  }

  /** So a stretch of a run that stays in stopping makes at most as many changes as there was work at its start. */
  lemma StoppingIsBounded(run: seq<State>, steps: seq<Step>, i: nat, j: nat, t: ThreadId)
    requires Run(run, steps) && i <= j < |run| && t in run[i].calls
    requires forall k :: i <= k <= j ==> run[k].core.state == Stopping
    requires forall k :: i <= k < j ==> run[k] != run[k + 1]
    ensures t in run[j].calls && Work(run[j], t) + (j - i) <= Work(run[i], t)
  {
    forall k | i <= k < j && t in run[k].calls ensures LessWork(run[k], run[k + 1], t) {
      RunKeeps(run, steps, k);
      StoppingWorkDecreases(run[k], run[k + 1], steps[k], t);
    }
    LessWorkChains(run, i, j, t);
  }
}
