/**
 What a processor can always go on to do, and what its histories say in terms of the lifecycle
 states alone. Worker has the protocol and its invariant.
 */
module WorkerProgress {
  import opened ProcessorSections
  import opened Worker
  import opened Wrappers

  /** Some steps, one after the other. */
  ghost predicate Path(path: seq<State>, steps: seq<Step>) {
    |path| == |steps| + 1 && forall i :: 0 <= i < |steps| ==> Next(path[i], path[i + 1], steps[i])
  }

  // ---------- pushing ----------

  /** A push while starting or running is accepted and queued last; at any other time it changes nothing. */
  lemma PushOutcome(run: seq<State>, steps: seq<Step>, i: nat)
    requires Run(run, steps) && i < |steps| && steps[i].Push?
    ensures
      var s, task := run[i], steps[i].task;
      run[i + 1] ==
        if s.core.state == Starting || s.core.state == Running
        then s.(core := Core(s.core.state, s.core.needStop, s.core.queue + [task]), accepted := s.accepted + [task],
                notifying := s.notifying + 1)
        else s
  {
    assert Next(run[i], run[i + 1], steps[i]);
  }

  // ---------- starting ----------

  /**
   A stopped processor can be started by any thread, with or without a thread of its own besides the
   worker: it then runs with an empty queue and empty histories.
   */
  lemma StartCanSucceed(run: seq<State>, before: seq<Step>, t: ThreadId, withLoop: bool, l: ThreadId, w: ThreadId)
    returns (path: seq<State>, steps: seq<Step>)
    requires Run(run, before) && run[|before|].core.state == Stopped && t != l && t != w && l != w
    ensures Path(path, steps) && path[0] == run[|before|] && |steps| == 4
    ensures path[4].core == Core(Running, false, []) && path[4].calls == map[]
    ensures path[4].worker == Identifying && path[4].workerId == w && path[4].accepted == path[4].processed == []
    ensures if withLoop then path[4].loop == LoopIdentifying && path[4].loopId == l else path[4].loop == NoLoop
  {
    var s := run[|before|];
    RunKeeps(run, before, |before|);
    path, steps := StartPath(s, t, withLoop, l, w);
  }

  lemma StartPath(s: State, t: ThreadId, withLoop: bool, l: ThreadId, w: ThreadId)
    returns (path: seq<State>, steps: seq<Step>)
    requires Inv(s) && s.core.state == Stopped && t != l && t != w && l != w
    ensures Path(path, steps) && path[0] == s && |steps| == 4
    ensures path[4].core == Core(Running, false, []) && path[4].calls == map[]
    ensures path[4].worker == Identifying && path[4].workerId == w && path[4].accepted == path[4].processed == []
    ensures if withLoop then path[4].loop == LoopIdentifying && path[4].loopId == l else path[4].loop == NoLoop
  {
    var begun := At(s.(core := StartBegun(s.core), accepted := [], processed := []), t, BeforeImpl);
    var ready := At(if withLoop then begun.(loop := LoopIdentifying, loopId := l) else begun, t, BeforeLaunch);
    var launched := At(ready.(worker := Identifying, workerId := w), t, BeforeRunning);
    var running := Back(launched.(core := launched.core.(state := Running)), t);
    path := [s, begun, ready, launched, running];
    steps := [StartCall(t), CallStep(t, false, l, withLoop), CallStep(t, false, w, false),
              CallStep(t, false, 0, false)];
    assert s.calls == map[];
    assert Next(s, begun, steps[0]);
    assert Next(begun, ready, steps[1]);
    assert Next(ready, launched, steps[2]);
    assert Next(launched, running, steps[3]);
    assert running.calls == map[];
  }

  /** A start can also fail, in StartImpl or at the launch of the worker, and then undoes itself without one. */
  lemma StartCanFail(run: seq<State>, before: seq<Step>, t: ThreadId, atLaunch: bool)
    returns (path: seq<State>, steps: seq<Step>)
    requires Run(run, before) && run[|before|].core.state == Stopped
    ensures Path(path, steps) && path[0] == run[|before|] && |steps| == if atLaunch then 4 else 3
    ensures path[|steps| - 1].core.state == Starting && path[|steps|].core == Core(Stopping, true, [])
    ensures path[|steps|].worker == NoWorker && path[|steps|].calls == map[t := BeforeStopImpl(true)]
  {
    var s := run[|before|];
    RunKeeps(run, before, |before|);
    path, steps := FailurePath(s, t, atLaunch);
  }

  lemma FailurePath(s: State, t: ThreadId, atLaunch: bool) returns (path: seq<State>, steps: seq<Step>)
    requires Inv(s) && s.core.state == Stopped
    ensures Path(path, steps) && path[0] == s && |steps| == if atLaunch then 4 else 3
    ensures path[|steps| - 1].core.state == Starting && path[|steps|].core == Core(Stopping, true, [])
    ensures path[|steps|].worker == NoWorker && path[|steps|].calls == map[t := BeforeStopImpl(true)]
  {
    assert s.calls == map[];
    var begun := At(s.(core := StartBegun(s.core), accepted := [], processed := []), t, BeforeImpl);
    var failing := At(begun, t, BeforeGivingUp);
    var undoing := At(begun.(core := StopBegun(begun.core)), t, BeforeStopImpl(true));
    assert Next(s, begun, StartCall(t));
    assert Next(failing, undoing, CallStep(t, false, 0, false));
    assert undoing.calls == map[t := BeforeStopImpl(true)];
    if atLaunch {
      var ready := At(begun, t, BeforeLaunch);
      assert Next(begun, ready, CallStep(t, false, 0, false)) && Next(ready, failing, CallStep(t, true, 0, false));
      path := [s, begun, ready, failing, undoing];
      steps := [StartCall(t), CallStep(t, false, 0, false), CallStep(t, true, 0, false), CallStep(t, false, 0, false)];
    } else {
      assert Next(begun, failing, CallStep(t, true, 0, false));
      path := [s, begun, failing, undoing];
      steps := [StartCall(t), CallStep(t, true, 0, false), CallStep(t, false, 0, false)];
    }
  }

  // ---------- processing ----------

  /**
   While the processor runs, an accepted task that has not been processed can be: a notification on
   its way and steps of the worker are all it takes, and the task that comes next is the oldest one.
   */
  lemma PendingTaskCanBeProcessed(run: seq<State>, before: seq<Step>)
    returns (path: seq<State>, steps: seq<Step>)
    requires Run(run, before) && run[|before|].core.state == Running
    requires |run[|before|].processed| < |run[|before|].accepted|
    ensures Path(path, steps) && path[0] == run[|before|]
    ensures forall i :: 0 <= i < |steps| ==> steps[i] == WorkerStep || steps[i] == NotifyPush
    ensures path[|steps|].accepted == run[|before|].accepted
    ensures path[|steps|].processed ==
      run[|before|].processed + [run[|before|].accepted[|run[|before|].processed|]]
  {
    var s := run[|before|];
    RunKeeps(run, before, |before|);
    path, steps := ToNextProcessed(s);
  }

  /** How far the worker is from the end of the next task. */
  function Distance(w: WorkerPc): nat {
    match w
    case Busy(_) => 0
    case AtLock => 1
    case _ => 2
  }

  lemma {:induction false} ToNextProcessed(s: State) returns (path: seq<State>, steps: seq<Step>)
    requires Inv(s) && s.core.state == Running && |s.processed| < |s.accepted|
    ensures Path(path, steps) && path[0] == s
    ensures forall i :: 0 <= i < |steps| ==> steps[i] == WorkerStep || steps[i] == NotifyPush
    ensures path[|steps|].accepted == s.accepted
    ensures path[|steps|].processed == s.processed + [s.accepted[|s.processed|]]
    decreases Distance(s.worker)
  {
    var step, s' := TowardsProcessed(s);
    if s.worker.Busy? {
      path, steps := [s, s'], [step];
    } else {
      NextKeeps(s, s', step);
      path, steps := ToNextProcessed(s');
      path, steps := [s] + path, [step] + steps;
    }
  }

  lemma TowardsProcessed(s: State) returns (step: Step, s': State)
    requires Inv(s) && s.core.state == Running && |s.processed| < |s.accepted|
    ensures Next(s, s', step) && (step == WorkerStep || step == NotifyPush)
    ensures s'.core.state == Running && s'.accepted == s.accepted
    ensures if s.worker.Busy? then s'.processed == s.processed + [s.accepted[|s.processed|]]
            else s'.processed == s.processed && Distance(s'.worker) < Distance(s.worker)
  {
    match s.worker
    case Identifying => step, s' := WorkerStep, s.(worker := AtLock, recordedWorker := Some(s.workerId));
    case AtLock => step, s' := WorkerStep, Looks(s);
    case Asleep => step, s' := NotifyPush, Notified(s).(notifying := s.notifying - 1);
    case Busy(_) => step, s' := WorkerStep, EndsTask(s);
  }

  // ---------- stopping ----------

  /** A stop from any thread that the processor does not own begins at once and closes the queue. */
  lemma StopCanBegin(run: seq<State>, before: seq<Step>, t: ThreadId) returns (s': State)
    requires Run(run, before) && run[|before|].core.state == Running
    requires t != run[|before|].workerId && (run[|before|].loop.NoLoop? || t != run[|before|].loopId)
    ensures Next(run[|before|], s', StopCall(t))
    ensures s'.core == Core(Stopping, true, run[|before|].core.queue) && s'.calls == map[t := BeforeStopImpl(false)]
    ensures s'.accepted == run[|before|].accepted && s'.processed == run[|before|].processed
  {
    var s := run[|before|];
    RunKeeps(run, before, |before|);
    assert s.calls == map[];
    s' := At(s.(core := StopBegun(s.core)), t, BeforeStopImpl(false));
  }

  /** Once begun, a stop can be carried through to the stopped state. */
  lemma StopCanComplete(run: seq<State>, before: seq<Step>) returns (path: seq<State>, steps: seq<Step>)
    requires Run(run, before) && run[|before|].core.state == Stopping
    ensures Path(path, steps) && path[0] == run[|before|] && path[|steps|].core.state == Stopped
  {
    var s := run[|before|];
    RunKeeps(run, before, |before|);
    assert s.calls != map[];
    var t :| t in s.calls;
    path, steps := ToStopped(s, t);
  }

  lemma {:induction false} ToStopped(s: State, t: ThreadId) returns (path: seq<State>, steps: seq<Step>)
    requires Inv(s) && s.core.state == Stopping && t in s.calls
    ensures Path(path, steps) && path[0] == s && path[|steps|].core.state == Stopped
    decreases Work(s, t)
  {
    var s', step := StoppingIsNeverStuck(s, t);
    StoppingWorkDecreases(s, s', step, t);
    if s'.core.state == Stopped {
      path, steps := [s, s'], [step];
    } else {
      NextKeeps(s, s', step);
      path, steps := ToStopped(s', t);
      path, steps := [s] + path, [step] + steps;
    }
  }

  // ---------- the histories, by lifecycle state alone ----------

  /** On its way down from running. */
  ghost predicate WasRunning(s: State) {
    s.core.state == Running
    || (s.core.state == Stopping && forall t :: t in s.calls && Undoing(s.calls[t]) ==> !s.calls[t].failed)
  }

  ghost predicate WasStarting(s: State) {
    s.core.state == Starting
    || (s.core.state == Stopping && forall t :: t in s.calls && Undoing(s.calls[t]) ==> s.calls[t].failed)
  }

  ghost predicate StaysOnItsWay(s: State, s': State) {
    && (WasRunning(s) && s'.core.state != Stopped ==> WasRunning(s'))
    && (WasStarting(s) && s'.core.state != Stopped && s'.core.state != Running ==> WasStarting(s'))
  }

  lemma StepStaysOnItsWay(s: State, s': State, step: Step)
    requires CallsOk(s) && Next(s, s', step)
    ensures StaysOnItsWay(s, s')
  {
    if step.CallStep? {
      CallStaysOnItsWay(s, s', step.t, step.fails, step.spawned, step.spawns);
    }
  }

  lemma CallStaysOnItsWay(s: State, s': State, t: ThreadId, fails: bool, spawned: ThreadId, spawns: bool)
    requires CallsOk(s) && CallMoves(s, s', t, fails, spawned, spawns)
    ensures StaysOnItsWay(s, s')
  {
    assert forall u :: u in s'.calls ==> u == t;
  }

  lemma {:induction false} RunningChains(run: seq<State>, k: nat, i: nat)
    requires k <= i < |run| && WasRunning(run[k]) && forall j :: k <= j <= i ==> run[j].core.state != Stopped
    requires forall j :: k <= j < i ==> StaysOnItsWay(run[j], run[j + 1])
    ensures WasRunning(run[i])
    decreases i
  {
    if k < i {
      RunningChains(run, k, i - 1);
      assert StaysOnItsWay(run[i - 1], run[i - 1 + 1]);
    }
  }

  lemma {:induction false} StartingChains(run: seq<State>, k: nat, i: nat)
    requires k <= i < |run| && WasStarting(run[k])
    requires forall j :: k <= j <= i ==> run[j].core.state != Stopped && run[j].core.state != Running
    requires forall j :: k <= j < i ==> StaysOnItsWay(run[j], run[j + 1])
    ensures WasStarting(run[i])
    decreases i
  {
    if k < i {
      StartingChains(run, k, i - 1);
      assert StaysOnItsWay(run[i - 1], run[i - 1 + 1]);
    }
  }

  /** From running down to stopped nothing accepted is lost: all of it has been processed, in order. */
  lemma StopDrains(run: seq<State>, steps: seq<Step>, k: nat, i: nat)
    requires Run(run, steps) && k <= i < |steps| && run[k].core.state == Running
    requires (forall j :: k <= j <= i ==> run[j].core.state != Stopped) && run[i + 1].core.state == Stopped
    ensures run[i + 1].processed == run[i + 1].accepted && run[i + 1].core.queue == []
    ensures run[i + 1].worker == NoWorker && run[i + 1].loop == NoLoop
  {
    forall j | k <= j < i ensures StaysOnItsWay(run[j], run[j + 1]) {
      RunKeeps(run, steps, j);
      StepStaysOnItsWay(run[j], run[j + 1], steps[j]);
    }
    RunningChains(run, k, i);
    RunKeeps(run, steps, i);
    ReachesStopped(run[i], run[i + 1], steps[i]);
    assert WasRunning(run[i]);
    StopProcessesEverything(run, steps, i);
  }

  lemma ReachesStopped(s: State, s': State, step: Step)
    requires Inv(s) && Next(s, s', step) && s.core.state != Stopped && s'.core.state == Stopped
    ensures s.core.state == Stopping && step.CallStep? && step.t in s.calls && s.calls[step.t].BeforeStopped?
  {}

  /** A start that fails has processed nothing, and what was accepted meanwhile is gone with the queue. */
  lemma FailedStartDiscards(run: seq<State>, steps: seq<Step>, k: nat, i: nat)
    requires Run(run, steps) && k <= i < |steps| && run[k].core.state == Starting
    requires forall j :: k <= j <= i ==> run[j].core.state != Stopped && run[j].core.state != Running
    requires run[i + 1].core.state == Stopped
    ensures run[i + 1].processed == [] && run[i + 1].core.queue == []
    ensures run[i + 1].worker == NoWorker && run[i + 1].loop == NoLoop
  {
    forall j | k <= j < i ensures StaysOnItsWay(run[j], run[j + 1]) {
      RunKeeps(run, steps, j);
      StepStaysOnItsWay(run[j], run[j + 1], steps[j]);
    }
    StartingChains(run, k, i);
    RunKeeps(run, steps, i);
    ReachesStopped(run[i], run[i + 1], steps[i]);
    assert WasStarting(run[i]);
    FailedStartProcessesNothing(run, steps, i);
  }
}
