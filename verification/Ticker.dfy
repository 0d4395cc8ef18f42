/**
 The ticker under its two locks: the ticker thread, the worker that schedules tasks, and a stop that
 sets `needStop`, empties the queue and then passes once through the callback lock.

 The queue lock is held by the ticker in `Locked` and `Extracting` and by the worker outside
 `NotScheduling`; the callback lock is held in `Guarding` and `InCallback`.
 */
module Ticker {
  import opened TickerQueue
  import opened Wrappers

  datatype TickerPc =
    | NoThread
    | AtTop                                                    // about to test needStop
    | Waiting                                                  // in the timed wait, lock released
    | Locked                                                   // about to test needStop
    | Extracting                                               // tested; about to read the clock and take the batch
    | Firing(rest: seq<TickerTask>)                            // between two callbacks
    | Guarding(rest: seq<TickerTask>)                          // about to test needStop before firing rest[0]
    | InCallback(task: TickerTask, rest: seq<TickerTask>)
    | Ended

  datatype WorkerPc =
    | NotScheduling
    | Deciding(task: TickerTask)                               // about to test needStop
    | Pushing(task: TickerTask)

  datatype Phase = NeverStarted | Started | BeforeClear | BeforeBarrier | ImplDone | Joined

  /** A callback's start, with the clock reading its batch was taken at or later. */
  datatype Shot = Shot(task: TickerTask, at: int)

  /** `tasks` are all task objects so far; `dropped` are those discarded without firing. */
  datatype State = State(
    phase: Phase, needStop: bool, queue: set<TickerTask>, ticker: TickerPc, worker: WorkerPc, clock: int,
    tasks: seq<TickerTask>, fired: seq<Shot>, dropped: set<TickerTask>)

  predicate QueueLockFree(s: State) {
    s.worker == NotScheduling && s.ticker != Locked && s.ticker != Extracting
  }

  predicate CallbackLockFree(s: State) {
    !s.ticker.Guarding? && !s.ticker.InCallback?
  }

  /** What the ticker thread has taken out of the queue and not fired. */
  function Pending(ticker: TickerPc): seq<TickerTask> {
    if ticker.Firing? || ticker.Guarding? || ticker.InCallback? then ticker.rest else []
  }

  function Discarding(s: State, tasks: set<TickerTask>): State {
    s.(dropped := s.dropped + tasks)
  }

  function AsSet(tasks: seq<TickerTask>): (all: set<TickerTask>)
    ensures forall task :: task in all <==> task in tasks
  {
    set task | task in tasks
  }

  // ---------- steps ----------

  datatype Step =
    | Start(spawns: bool) | StopBegin | StopMove | Join
    | TickerMove(timedOut: bool) | Schedule(fireTime: int) | WorkerMove | Tick(now: int)

  /** `timedOut` is whether the wait ends with the tick rather than with a spurious wakeup. */
  ghost predicate TickerMoves(s: State, s': State, timedOut: bool) {
    match s.ticker
    case NoThread => false
    case AtTop => s' == s.(ticker := if s.needStop then Ended else Waiting)
    case Waiting => QueueLockFree(s) && s' == s.(ticker := Locked)
    case Locked => s' == s.(ticker := if s.needStop then Ended else if timedOut then Extracting else Waiting)
    case Extracting =>
      s'.ticker.Firing? && IsBatch(s.queue, s.clock, s'.ticker.rest)
      && s' == s.(queue := s.queue - AsSet(s'.ticker.rest), ticker := s'.ticker)
    case Firing(rest) => s' == s.(ticker := if rest == [] then AtTop else Guarding(rest))
    case Guarding(rest) =>
      rest != []
      && s' == if s.needStop then Discarding(s.(ticker := AtTop), AsSet(rest))
               else s.(ticker := InCallback(rest[0], rest[1..]), fired := s.fired + [Shot(rest[0], s.clock)])
    case InCallback(_, rest) => s' == s.(ticker := Firing(rest))
    case Ended => false
  }

  ghost predicate StopMoves(s: State, s': State) {
    match s.phase
    case BeforeClear => QueueLockFree(s) && s' == Discarding(s.(phase := BeforeBarrier, queue := {}), s.queue)
    case BeforeBarrier => CallbackLockFree(s) && s' == s.(phase := ImplDone)
    case _ => false
  }

  ghost predicate WorkerMoves(s: State, s': State) {
    match s.worker
    case NotScheduling => false
    case Deciding(task) =>
      s' == if s.needStop then Discarding(s.(worker := NotScheduling), {task}) else s.(worker := Pushing(task))
    case Pushing(task) => s' == s.(worker := NotScheduling, queue := s.queue + {task})
  }

  predicate HasWorker(phase: Phase) { phase != NeverStarted && phase != Joined }

  ghost predicate Next(s: State, s': State, step: Step) {
    match step
    case Start(spawns) =>
      !HasWorker(s.phase) && s' == s.(phase := Started, needStop := false, ticker := if spawns then AtTop else NoThread)
    case StopBegin => s.phase == Started && s' == s.(phase := BeforeClear, needStop := true)
    case StopMove => StopMoves(s, s')
    case Join =>
      s.phase == ImplDone && (s.ticker == Ended || s.ticker == NoThread) && s.worker == NotScheduling
      && s' == s.(phase := Joined, ticker := NoThread)
    case TickerMove(timedOut) => TickerMoves(s, s', timedOut)
    case Schedule(fireTime) =>
      HasWorker(s.phase) && QueueLockFree(s)
      && s' == s.(worker := Deciding(TickerTask(|s.tasks|, fireTime)),
                  tasks := s.tasks + [TickerTask(|s.tasks|, fireTime)])
    case WorkerMove => WorkerMoves(s, s')
    case Tick(now) => now >= s.clock && s' == s.(clock := now)
  }

  ghost predicate Init(s: State) {
    s.phase == NeverStarted && !s.needStop && s.queue == {} && s.ticker == NoThread && s.worker == NotScheduling
    && s.tasks == [] && s.fired == [] && s.dropped == {}
  }

  ghost predicate Run(run: seq<State>, steps: seq<Step>) {
    |run| == |steps| + 1 && Init(run[0]) && forall i :: 0 <= i < |steps| ==> Next(run[i], run[i + 1], steps[i])
  }

  // ---------- where each task is ----------

  ghost predicate WasFired(fired: seq<Shot>, task: TickerTask) {
    exists i :: 0 <= i < |fired| && fired[i].task == task
  }

  ghost predicate Somewhere(s: State, task: TickerTask) {
    task in s.queue || task in Pending(s.ticker) || task in s.dropped || WasFired(s.fired, task)
    || (s.worker != NotScheduling && s.worker.task == task)
  }

  ghost predicate AllSomewhere(s: State) {
    forall k :: 0 <= k < |s.tasks| ==> Somewhere(s, s.tasks[k])
  }

  /** At most one place holds a task, and no task still to be created is anywhere. */
  ghost predicate PlacesOk(s: State) {
    && (forall task :: task in s.queue ==> task.id < |s.tasks| && task !in s.dropped && task !in Pending(s.ticker))
    && (forall task :: task in Pending(s.ticker) ==> task.id < |s.tasks| && task !in s.dropped)
    && (forall task :: task in s.dropped ==> task.id < |s.tasks|)
    && (forall i :: 0 <= i < |s.fired| ==>
          s.fired[i].task.id < |s.tasks| && s.fired[i].task !in s.queue && s.fired[i].task !in Pending(s.ticker)
          && s.fired[i].task !in s.dropped)
  }

  ghost predicate InHandOk(s: State) {
    s.worker != NotScheduling ==>
      && s.worker.task.id < |s.tasks|
      && s.worker.task !in s.queue && s.worker.task !in Pending(s.ticker) && s.worker.task !in s.dropped
      && forall i :: 0 <= i < |s.fired| ==> s.fired[i].task != s.worker.task
  }

  ghost predicate BatchOk(s: State) {
    && Distinct(Pending(s.ticker)) && InOrder(Pending(s.ticker))
    && (forall task :: task in Pending(s.ticker) ==> task.fireTime <= s.clock)
    && (s.ticker.Guarding? ==> s.ticker.rest != [])
    && (s.ticker.InCallback? ==>
          s.fired != [] && s.fired[|s.fired| - 1].task == s.ticker.task
          && forall task :: task in s.ticker.rest ==> s.ticker.task.fireTime <= task.fireTime)
  }

  ghost predicate ShotsOk(s: State) {
    && (forall i, j :: 0 <= i < j < |s.fired| ==> s.fired[i].task != s.fired[j].task)
    && (forall i :: 0 <= i < |s.fired| ==> s.fired[i].task.fireTime <= s.fired[i].at)
  }

  ghost predicate LocksOk(s: State) {
    && !(s.worker != NotScheduling && (s.ticker == Locked || s.ticker == Extracting))
    && (s.phase == Started ==> !s.needStop)
    && (s.phase == BeforeClear || s.phase == BeforeBarrier || s.phase == ImplDone || s.phase == Joined ==> s.needStop)
    && (!HasWorker(s.phase) ==> s.ticker == NoThread && s.worker == NotScheduling && s.queue == {})
    && (s.phase == BeforeBarrier || s.phase == ImplDone ==>
         s.queue == {} && !s.worker.Pushing? && s.ticker != Extracting)
    && (s.phase == ImplDone ==> !s.ticker.InCallback?)
  }

  /** Task objects are numbered as they are created. */
  ghost predicate NumbersOk(s: State) {
    forall k :: 0 <= k < |s.tasks| ==> s.tasks[k].id == k
  }

  ghost predicate PiecesOk(s: State) {
    PlacesOk(s) && InHandOk(s) && ShotsOk(s)
  }

  ghost predicate Inv(s: State) {
    PiecesOk(s) && BatchOk(s) && LocksOk(s) && NumbersOk(s) && AllSomewhere(s)
  }

  lemma InitOk(s: State)
    requires Init(s)
    ensures Inv(s)
  {}

  /** A step that moves no task. */
  ghost predicate MovesNothing(s: State, s': State) {
    s'.queue == s.queue && Pending(s'.ticker) == Pending(s.ticker) && s'.fired == s.fired && s'.dropped == s.dropped
    && s'.tasks == s.tasks && s'.worker == s.worker
  }

  predicate MovesTasks(s: State, step: Step) {
    (step.TickerMove? && (s.ticker.Extracting? || s.ticker.Guarding?)) || (step.StopMove? && s.phase == BeforeClear)
    || step.Schedule? || step.WorkerMove?
  }

  lemma OtherStepsMoveNothing(s: State, s': State, step: Step)
    requires LocksOk(s) && Next(s, s', step) && !MovesTasks(s, step)
    ensures MovesNothing(s, s')
  {}

  lemma PiecesStay(s: State, s': State)
    requires PiecesOk(s) && MovesNothing(s, s')
    ensures PiecesOk(s')
  {}

  lemma ExtractKeepsPieces(s: State, s': State)
    requires PiecesOk(s) && s.ticker.Extracting? && TickerMoves(s, s', true)
    ensures PiecesOk(s')
  {}

  lemma FireKeepsPieces(s: State, s': State)
    requires PiecesOk(s) && BatchOk(s) && s.ticker.Guarding? && TickerMoves(s, s', true)
    ensures PiecesOk(s')
  {
    RestOfBatch(s.ticker.rest);
  }

  lemma ClearKeepsPieces(s: State, s': State)
    requires PiecesOk(s) && s.phase == BeforeClear && StopMoves(s, s')
    ensures PiecesOk(s')
  {}

  lemma WorkerKeepsPieces(s: State, s': State, step: Step)
    requires PiecesOk(s) && (step.Schedule? || step.WorkerMove?) && Next(s, s', step)
    ensures PiecesOk(s')
  {}

  lemma PiecesKept(s: State, s': State, step: Step)
    requires PiecesOk(s) && BatchOk(s) && LocksOk(s) && Next(s, s', step)
    ensures PiecesOk(s')
  {
    if !MovesTasks(s, step) {
      OtherStepsMoveNothing(s, s', step);
      PiecesStay(s, s');
    } else if step.StopMove? {
      ClearKeepsPieces(s, s');
    } else if step.TickerMove? {
      if s.ticker.Extracting? { ExtractKeepsPieces(s, s'); } else { FireKeepsPieces(s, s'); }
    } else {
      WorkerKeepsPieces(s, s', step);
    }
  }

  lemma FireKeepsBatch(s: State, s': State)
    requires BatchOk(s) && s.ticker.Guarding? && TickerMoves(s, s', true)
    ensures BatchOk(s')
  {
    RestOfBatch(s.ticker.rest);
  }

  lemma TickerKeepsBatch(s: State, s': State, timedOut: bool)
    requires BatchOk(s) && TickerMoves(s, s', timedOut)
    ensures BatchOk(s')
  {
    if s.ticker.Guarding? { FireKeepsBatch(s, s'); }
  }

  lemma BatchKept(s: State, s': State, step: Step)
    requires BatchOk(s) && LocksOk(s) && Next(s, s', step)
    ensures BatchOk(s')
  {
    if step.TickerMove? { TickerKeepsBatch(s, s', step.timedOut); }
  }

  lemma LocksKept(s: State, s': State, step: Step)
    requires LocksOk(s) && Next(s, s', step)
    ensures LocksOk(s')
  {}

  /** No step loses sight of a task. */
  lemma StaysSomewhere(s: State, s': State, step: Step, task: TickerTask)
    requires LocksOk(s) && Next(s, s', step) && Somewhere(s, task)
    ensures Somewhere(s', task)
  {
    if step.TickerMove? && s.ticker.Guarding? {
      if WasFired(s.fired, task) {
        var i :| 0 <= i < |s.fired| && s.fired[i].task == task;
        assert s'.fired[i].task == task;
      }
      assert !s.needStop ==> s'.fired[|s.fired|].task == s.ticker.rest[0];
      assert s.ticker.rest == [s.ticker.rest[0]] + s.ticker.rest[1..];
    }
  }

  lemma NextKeeps(s: State, s': State, step: Step)
    requires Inv(s) && Next(s, s', step)
    ensures Inv(s')
  {
    PiecesKept(s, s', step);
    BatchKept(s, s', step);
    LocksKept(s, s', step);
    AllStaySomewhere(s, s', step);
  }

  lemma AllStaySomewhere(s: State, s': State, step: Step)
    requires LocksOk(s) && NumbersOk(s) && AllSomewhere(s) && Next(s, s', step)
    ensures NumbersOk(s') && AllSomewhere(s')
  {
    forall k | 0 <= k < |s'.tasks|
      ensures Somewhere(s', s'.tasks[k])
    {
      if k < |s.tasks| { StaysSomewhere(s, s', step, s.tasks[k]); }
    }
  }

  lemma {:induction false} RunKeeps(run: seq<State>, steps: seq<Step>, i: nat)
    requires Run(run, steps) && i < |run|
    ensures Inv(run[i])
  {
    if i == 0 {
      InitOk(run[0]);
    } else {
      RunKeeps(run, steps, i - 1);
      assert Next(run[i - 1], run[i - 1 + 1], steps[i - 1]);
      NextKeeps(run[i - 1], run[i], steps[i - 1]);
    }
  }

  // ---------- guarantees ----------

  /** In every run no task fires before its time, and none fires twice. */
  lemma NeverEarlyNeverTwice(run: seq<State>, steps: seq<Step>, i: nat, a: nat, b: nat)
    requires Run(run, steps) && i < |run| && a < |run[i].fired| && b < |run[i].fired|
    ensures run[i].fired[a].task.fireTime <= run[i].fired[a].at
    ensures a != b ==> run[i].fired[a].task != run[i].fired[b].task
  {
    RunKeeps(run, steps, i);
  }

  /** A tick's tasks fire in order: while one runs, none still to run in its batch is earlier. */
  lemma FiresInOrder(run: seq<State>, steps: seq<Step>, i: nat, task: TickerTask)
    requires Run(run, steps) && i < |run| && run[i].ticker.InCallback? && task in run[i].ticker.rest
    ensures run[i].ticker.task.fireTime <= task.fireTime <= run[i].clock
    ensures forall k :: 0 <= k < |run[i].fired| ==> run[i].fired[k].task != task
  {
    RunKeeps(run, steps, i);
  }

  /** Within one lifetime: started, nothing more discarded, and tasks only added. */
  ghost predicate GoesOn(a: State, b: State) {
    a.phase == Started ==> b.phase == Started && b.dropped == a.dropped && a.tasks <= b.tasks
  }

  lemma StepGoesOn(s: State, s': State, step: Step)
    requires LocksOk(s) && Next(s, s', step) && !step.StopBegin?
    ensures GoesOn(s, s')
  {}

  lemma {:induction false} PathGoesOn(run: seq<State>, i: nat, j: nat)
    requires i <= j < |run| && (forall n :: i <= n < j ==> GoesOn(run[n], run[n + 1]))
    ensures GoesOn(run[i], run[j])
  {
    if i < j {
      PathGoesOn(run, i, j - 1);
      assert GoesOn(run[j - 1], run[j - 1 + 1]);
    }
  }

  /**
   From a start until a stop begins nothing is lost: every task created since then is being scheduled,
   queued, in the tick's batch, or fired, and none of them has been discarded.
   */
  lemma NothingIsLostWhileStarted(run: seq<State>, steps: seq<Step>, j: nat, i: nat, k: nat)
    requires Run(run, steps) && j < i < |run| && steps[j].Start? && forall n :: j < n < i ==> !steps[n].StopBegin?
    requires |run[j + 1].tasks| <= k < |run[i].tasks|
    ensures run[i].tasks[k] !in run[i].dropped
    ensures var s, task := run[i], run[i].tasks[k];
            task in s.queue || task in Pending(s.ticker) || WasFired(s.fired, task)
            || (s.worker != NotScheduling && s.worker.task == task)
  {
    forall n | j + 1 <= n < i
      ensures GoesOn(run[n], run[n + 1])
    {
      RunKeeps(run, steps, n);
      StepGoesOn(run[n], run[n + 1], steps[n]);
    }
    PathGoesOn(run, j + 1, i);
    RunKeeps(run, steps, j + 1);
    RunKeeps(run, steps, i);
    assert Next(run[j], run[j + 1], steps[j]);
    assert Somewhere(run[i], run[i].tasks[k]);
  }

  predicate StopImplReturned(s: State) { s.phase == ImplDone || s.phase == Joined }

  ghost predicate Quiet(a: State, b: State) {
    StopImplReturned(a) ==> StopImplReturned(b) && b.fired == a.fired && !b.ticker.InCallback? && b.queue == {}
  }

  lemma StepIsQuiet(s: State, s': State, step: Step)
    requires Inv(s) && Next(s, s', step) && !step.Start?
    ensures Quiet(s, s')
  {}

  lemma {:induction false} StaysQuiet(run: seq<State>, i: nat, j: nat)
    requires i <= j < |run| && Quiet(run[i], run[i]) && (forall n :: i <= n < j ==> Quiet(run[n], run[n + 1]))
    ensures Quiet(run[i], run[j])
  {
    if i < j {
      StaysQuiet(run, i, j - 1);
      assert Quiet(run[j - 1], run[j - 1 + 1]);
    }
  }

  /**
   After StopImpl has returned and until the next start, no callback is running, none ever begins,
   and the queue stays empty, although the worker may still be draining tasks to schedule.
   */
  lemma NothingRunsAfterStop(run: seq<State>, steps: seq<Step>, i: nat, j: nat)
    requires Run(run, steps) && i <= j < |run| && (run[i].phase == ImplDone || run[i].phase == Joined)
    requires forall n :: i <= n < j ==> !steps[n].Start?
    ensures run[j].fired == run[i].fired && !run[j].ticker.InCallback? && run[j].queue == {}
  {
    forall n | i <= n < j
      ensures Quiet(run[n], run[n + 1])
    {
      RunKeeps(run, steps, n);
      StepIsQuiet(run[n], run[n + 1], steps[n]);
    }
    RunKeeps(run, steps, i);
    StaysQuiet(run, i, j);
  }

  // ---------- stopping ends ----------

  function TickerWork(ticker: TickerPc): nat {
    match ticker
    case NoThread => 0
    case Ended => 0
    case AtTop => 1
    case Locked => 1
    case Waiting => 2
    case Guarding(_) => 2
    case Firing(_) => 3
    case InCallback(_, _) => 4
    case Extracting => 4
  }

  /** What is left to do once needStop is set, apart from tasks the worker has still to drain. */
  function Work(s: State): nat {
    TickerWork(s.ticker)
    + (if s.worker.Deciding? then 2 else if s.worker.Pushing? then 1 else 0)
    + match s.phase
      case BeforeClear => 3
      case BeforeBarrier => 2
      case ImplDone => 1
      case _ => 0
  }

  predicate Stopping(s: State) { s.phase == BeforeClear || s.phase == BeforeBarrier || s.phase == ImplDone }

  predicate OwnStep(step: Step) { step.StopMove? || step.Join? || step.TickerMove? || step.WorkerMove? }

  /** Every step of the stop, the ticker and the worker brings a stop closer to its end... */
  lemma StoppingWorkDecreases(s: State, s': State, step: Step)
    requires Inv(s) && Stopping(s) && OwnStep(step) && Next(s, s', step)
    ensures Work(s') < Work(s)
  {}

  lemma TickerCanMove(s: State) returns (s': State)
    requires Inv(s) && Stopping(s) && s.ticker != NoThread && s.ticker != Ended
    requires s.ticker == Waiting ==> s.worker == NotScheduling
    ensures Next(s, s', TickerMove(true))
  {
    match s.ticker
    case AtTop => s' := s.(ticker := Ended);
    case Waiting => s' := s.(ticker := Locked);
    case Locked => s' := s.(ticker := Ended);
    case Extracting =>
      var batch := SomeBatch(s.queue, s.clock);
      s' := s.(queue := s.queue - AsSet(batch), ticker := Firing(batch));
    case Firing(rest) => s' := s.(ticker := if rest == [] then AtTop else Guarding(rest));
    case Guarding(rest) => s' := Discarding(s.(ticker := AtTop), AsSet(rest));
    case InCallback(_, rest) => s' := s.(ticker := Firing(rest));
  }

  /** ...and one of them is always possible: neither lock can hold a stop up for ever. */
  lemma StoppingIsNeverStuck(s: State) returns (s': State, step: Step)
    requires Inv(s) && Stopping(s)
    ensures OwnStep(step) && Next(s, s', step)
  {
    if s.worker.Deciding? {
      s', step := Discarding(s.(worker := NotScheduling), {s.worker.task}), WorkerMove;
    } else if s.worker.Pushing? {
      s', step := s.(worker := NotScheduling, queue := s.queue + {s.worker.task}), WorkerMove;
    } else if s.ticker != NoThread && s.ticker != Ended {
      s' := TickerCanMove(s);
      step := TickerMove(true);
    } else if s.phase == BeforeClear {
      s', step := Discarding(s.(phase := BeforeBarrier, queue := {}), s.queue), StopMove;
    } else if s.phase == BeforeBarrier {
      s', step := s.(phase := ImplDone), StopMove;
    } else {
      s', step := s.(phase := Joined, ticker := NoThread), Join;
    }
  }
}
