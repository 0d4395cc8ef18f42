/**
 What the ticker can always go on to do: it lives while started, a scheduled task gets into the
 queue, a due task of the queue fires, and a stop comes to its end.
 */
module TickerProgress {
  import opened Ticker
  import opened TickerQueue

  ghost predicate Path(path: seq<State>, steps: seq<Step>) {
    |path| == |steps| + 1 && forall i :: 0 <= i < |steps| ==> Next(path[i], path[i + 1], steps[i])
  }

  // ---------- the thread lives ----------

  predicate Lives(s: State) {
    s.phase == Started && s.ticker != NoThread && s.ticker != Ended
  }

  ghost predicate StaysAlive(s: State, s': State) { Lives(s) ==> Lives(s') }

  lemma StepStaysAlive(s: State, s': State, step: Step)
    requires LocksOk(s) && Next(s, s', step) && !step.StopBegin?
    ensures StaysAlive(s, s')
  {}

  lemma {:induction false} PathStaysAlive(run: seq<State>, i: nat, j: nat)
    requires i <= j < |run| && Lives(run[i]) && (forall n :: i <= n < j ==> StaysAlive(run[n], run[n + 1]))
    ensures Lives(run[j])
  {
    if i < j {
      PathStaysAlive(run, i, j - 1);
      assert StaysAlive(run[j - 1], run[j - 1 + 1]);
    }
  }

  /** A ticker thread that a start has spawned does not end before a stop has begun. */
  lemma LivesWhileStarted(run: seq<State>, steps: seq<Step>, j: nat, i: nat)
    requires Run(run, steps) && j < i < |run| && steps[j] == Start(true)
    requires forall n :: j < n < i ==> !steps[n].StopBegin?
    ensures run[i].phase == Started && run[i].ticker != NoThread && run[i].ticker != Ended
  {
    assert Next(run[j], run[j + 1], steps[j]);
    forall n | j + 1 <= n < i
      ensures StaysAlive(run[n], run[n + 1])
    {
      RunKeeps(run, steps, n);
      StepStaysAlive(run[n], run[n + 1], steps[n]);
    }
    PathStaysAlive(run, j + 1, i);
  }

  // ---------- due tasks fire ----------

  /** Steps until the rest of the batch is done with. */
  function RestSteps(ticker: TickerPc): nat {
    match ticker
    case Firing(rest) => 3 * |rest| + 1
    case Guarding(rest) => 3 * |rest|
    case InCallback(_, rest) => 3 * |rest| + 2
    case _ => 0
  }

  /** Steps until the next batch is taken. */
  function BatchSteps(s: State): nat {
    match s.ticker
    case Extracting => 1
    case Locked => 2
    case Waiting => 3 + (if s.worker.Deciding? then 2 else if s.worker.Pushing? then 1 else 0)
    case _ => 6 + RestSteps(s.ticker)
  }

  function FiringSteps(s: State, task: TickerTask): nat {
    if task in s.queue then BatchSteps(s) else RestSteps(s.ticker)
  }

  ghost predicate WillFire(s: State, task: TickerTask) {
    task in Pending(s.ticker) || (task in s.queue && task.fireTime <= s.clock)
  }

  /** The task's callback has just been started. */
  ghost predicate JustFired(s: State, task: TickerTask) {
    s.fired != [] && s.fired[|s.fired| - 1].task == task && s.ticker.InCallback? && s.ticker.task == task
  }

  /** Nearer to the task's callback: it starts, or the task gets into the batch, or fewer steps are left. */
  ghost predicate Nearer(s: State, s': State, task: TickerTask) {
    JustFired(s', task)
    || (WillFire(s', task)
        && ((task in s.queue && task !in s'.queue)
            || ((task in s.queue <==> task in s'.queue) && FiringSteps(s', task) < FiringSteps(s, task))))
  }

  /** Between two batches it is the ticker's own next step, or the worker's where that holds the queue lock. */
  lemma TowardsBatch(s: State, task: TickerTask) returns (step: Step, s': State)
    requires Inv(s) && Lives(s) && WillFire(s, task) && Pending(s.ticker) == [] && !s.ticker.Firing?
    requires !s.ticker.Guarding? && !s.ticker.InCallback?
    ensures (step == TickerMove(true) || step == WorkerMove) && Next(s, s', step) && Lives(s') && Nearer(s, s', task)
  {
    step := TickerMove(true);
    match s.ticker
    case AtTop => s' := s.(ticker := Waiting);
    case Waiting =>
      if s.worker == NotScheduling {
        s' := s.(ticker := Locked);
      } else {
        step := WorkerMove;
        s' := if s.worker.Deciding? then s.(worker := Pushing(s.worker.task))
              else s.(worker := NotScheduling, queue := s.queue + {s.worker.task});
      }
    case Locked => s' := s.(ticker := Extracting);
    case Extracting =>
      var batch := SomeBatch(s.queue, s.clock);
      s' := s.(queue := s.queue - AsSet(batch), ticker := Firing(batch));
  }

  /** Within a batch it is the ticker's. */
  lemma ThroughBatch(s: State, task: TickerTask) returns (s': State)
    requires Inv(s) && Lives(s) && WillFire(s, task)
    requires s.ticker.Firing? || s.ticker.Guarding? || s.ticker.InCallback?
    ensures Next(s, s', TickerMove(true)) && Lives(s') && Nearer(s, s', task)
  {
    match s.ticker
    case Firing(rest) => s' := s.(ticker := if rest == [] then AtTop else Guarding(rest));
    case Guarding(rest) =>
      s' := s.(ticker := InCallback(rest[0], rest[1..]), fired := s.fired + [Shot(rest[0], s.clock)]);
    case InCallback(_, rest) => s' := s.(ticker := Firing(rest));
  }

  lemma TowardsFiring(s: State, task: TickerTask) returns (step: Step, s': State)
    requires Inv(s) && Lives(s) && WillFire(s, task)
    ensures (step == TickerMove(true) || step == WorkerMove) && Next(s, s', step) && Lives(s') && Nearer(s, s', task)
  {
    if s.ticker.Firing? || s.ticker.Guarding? || s.ticker.InCallback? {
      step := TickerMove(true);
      s' := ThroughBatch(s, task);
    } else {
      step, s' := TowardsBatch(s, task);
    }
  }

  lemma {:induction false} ToFired(s: State, task: TickerTask) returns (path: seq<State>, steps: seq<Step>)
    requires Inv(s) && Lives(s) && WillFire(s, task)
    ensures Path(path, steps) && path[0] == s && JustFired(path[|steps|], task)
    ensures forall i :: 0 <= i < |steps| ==> steps[i] == TickerMove(true) || steps[i] == WorkerMove
    decreases task in s.queue, FiringSteps(s, task)
  {
    var step, s' := TowardsFiring(s, task);
    if JustFired(s', task) {
      path, steps := [s, s'], [step];
    } else {
      NextKeeps(s, s', step);
      path, steps := ToFired(s', task);
      path, steps := [s] + path, [step] + steps;
    }
  }

  /**
   Since a start that spawned the thread and with no stop begun, a queued task that is due can fire: the
   ticker's own steps, and the worker's where that holds the queue lock, lead to its callback.
   */
  lemma DueTaskCanFire(run: seq<State>, before: seq<Step>, j: nat, task: TickerTask)
    returns (path: seq<State>, steps: seq<Step>)
    requires Run(run, before) && j < |before| && before[j] == Start(true)
    requires forall n :: j < n < |before| ==> !before[n].StopBegin?
    requires task in run[|before|].queue && task.fireTime <= run[|before|].clock
    ensures Path(path, steps) && path[0] == run[|before|]
    ensures forall i :: 0 <= i < |steps| ==> steps[i] == TickerMove(true) || steps[i] == WorkerMove
    ensures path[|steps|].fired != [] && path[|steps|].fired[|path[|steps|].fired| - 1].task == task
    ensures path[|steps|].ticker.InCallback? && path[|steps|].ticker.task == task
  {
    RunKeeps(run, before, |before|);
    LivesWhileStarted(run, before, j, |before|);
    path, steps := ToFired(run[|before|], task);
  }

  // ---------- scheduling, starting and stopping ----------

  /** While started, the worker can get a new task into the queue unless the ticker holds the lock. */
  lemma TaskCanBeScheduled(run: seq<State>, before: seq<Step>, fireTime: int) returns (path: seq<State>)
    requires Run(run, before) && run[|before|].phase == Started && run[|before|].worker == NotScheduling
    requires run[|before|].ticker != Locked && run[|before|].ticker != Extracting
    ensures |path| == 4 && path[0] == run[|before|] && Next(path[0], path[1], Schedule(fireTime))
    ensures Next(path[1], path[2], WorkerMove) && Next(path[2], path[3], WorkerMove)
    ensures path[3].queue == path[0].queue + {TickerTask(|path[0].tasks|, fireTime)}
    ensures path[3].tasks == path[0].tasks + [TickerTask(|path[0].tasks|, fireTime)] && path[3].worker == NotScheduling
    ensures path[3].dropped == path[0].dropped && path[3].fired == path[0].fired && path[3].ticker == path[0].ticker
  {
    RunKeeps(run, before, |before|);
    var s, task := run[|before|], TickerTask(|run[|before|].tasks|, fireTime);
    var deciding := s.(worker := Deciding(task), tasks := s.tasks + [task]);
    path := [s, deciding, deciding.(worker := Pushing(task)),
             deciding.(worker := NotScheduling, queue := s.queue + {task})];
  }

  /** A ticker that is not started can be started, with or without the thread coming up. */
  lemma StartCanBegin(run: seq<State>, before: seq<Step>, spawns: bool) returns (s': State)
    requires Run(run, before) && (run[|before|].phase == NeverStarted || run[|before|].phase == Joined)
    ensures Next(run[|before|], s', Start(spawns)) && s'.phase == Started && !s'.needStop && s'.queue == {}
    ensures s'.ticker == if spawns then AtTop else NoThread
  {
    RunKeeps(run, before, |before|);
    s' := run[|before|].(phase := Started, needStop := false, ticker := if spawns then AtTop else NoThread);
  }

  /** A stop can begin at any moment of the started phase and be carried through. */
  lemma StopCanComplete(run: seq<State>, before: seq<Step>) returns (path: seq<State>, steps: seq<Step>)
    requires Run(run, before) && run[|before|].phase == Started
    ensures Path(path, steps) && path[0] == run[|before|] && steps != [] && steps[0] == StopBegin
    ensures path[|steps|].phase == Joined && path[|steps|].ticker == NoThread && path[|steps|].queue == {}
  {
    RunKeeps(run, before, |before|);
    var s := run[|before|];
    var begun := s.(phase := BeforeClear, needStop := true);
    NextKeeps(s, begun, StopBegin);
    path, steps := ToJoined(begun);
    path, steps := [s] + path, [StopBegin] + steps;
  }

  lemma {:induction false} ToJoined(s: State) returns (path: seq<State>, steps: seq<Step>)
    requires Inv(s) && Stopping(s)
    ensures Path(path, steps) && path[0] == s
    ensures path[|steps|].phase == Joined && path[|steps|].ticker == NoThread && path[|steps|].queue == {}
    decreases Work(s)
  {
    var s', step := StoppingIsNeverStuck(s);
    StoppingWorkDecreases(s, s', step);
    NextKeeps(s, s', step);
    if s'.phase == Joined {
      path, steps := [s, s'], [step];
    } else {
      path, steps := ToJoined(s');
      path, steps := [s] + path, [step] + steps;
    }
  }
}
