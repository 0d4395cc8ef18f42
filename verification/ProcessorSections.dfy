/**
 The lock sections of one processor: lifecycle state, stop flag and task queue. Each section is a
 method, proved against a function on the values it guards; Worker runs them as a protocol.
 */
module ProcessorSections {
  import opened Wrappers

  datatype EState = Stopped | Starting | Running | Stopping

  /** No push succeeds in these states. */
  predicate Closed(state: EState) { state == Stopping || state == Stopped }

  /** Tasks are told apart by number; what processing does to the outside is not part of the model. */
  type Task = nat

  datatype Core = Core(state: EState, needStop: bool, queue: seq<Task>)

  predicate Accepts(c: Core) { !Closed(c.state) }

  function Pushed(c: Core, task: Task): Core {
    if Accepts(c) then c.(queue := c.queue + [task]) else c
  }

  function StartBegun(c: Core): Core {
    if c.state == Stopped then c.(needStop := false, state := Starting) else c
  }

  function StopBegun(c: Core): Core { c.(state := Stopping, needStop := true) }

  datatype Verdict = Sleep | Leave | Take(task: Task)

  /** What the worker does when it holds the queue lock: the wait predicate, the exit test, the next task. */
  function Decide(c: Core): Verdict {
    if c.queue != [] then Take(c.queue[0]) else if c.needStop then Leave else Sleep
  }

  function AfterDeciding(c: Core): Core {
    if c.queue != [] then c.(queue := c.queue[1..]) else c
  }

  class Processor {
    var state: EState
    var needStop: bool
    var taskQueue: seq<Task>

    ghost function Contents(): Core
      reads this
    {
      Core(state, needStop, taskQueue)
    }

    constructor ()
      ensures Contents() == Core(Stopped, false, [])
    {
      state, needStop, taskQueue := Stopped, false, [];
    }

    /** A missing task is refused before the lock is taken. */
    method PushTask(task: Option<Task>) returns (ok: bool)
      modifies this
      ensures ok <==> task.Some? && (old(state) == Starting || old(state) == Running)
      ensures taskQueue == old(taskQueue) + if ok then [task.value] else []
      ensures state == old(state) && needStop == old(needStop)
      ensures Contents() == if task.Some? then old(Pushed(Contents(), task.value)) else old(Contents())
    {
      if task.None? {
        return false;
      }
      if state != Starting && state != Running {
        return false;
      }
      taskQueue := taskQueue + [task.value];
      ok := true;
    }

    method BeginStart() returns (ok: bool)
      modifies this
      ensures ok <==> old(state) == Stopped
      ensures state == (if ok then Starting else old(state)) && needStop == (!ok && old(needStop))
      ensures taskQueue == old(taskQueue)
      ensures Contents() == old(StartBegun(Contents()))
    {
      if state != Stopped {
        return false;
      }
      needStop := false;
      state := Starting;
      ok := true;
    }

    /** `proceed` says that the caller has to carry the stop through; otherwise `result` is the answer. */
    method BeginStop(isCurrentThread: bool) returns (proceed: bool, result: bool)
      modifies this
      ensures proceed <==> old(state) == Running && !isCurrentThread
      ensures result <==> proceed || old(state) == Stopped
      ensures state == (if proceed then Stopping else old(state)) && needStop == (proceed || old(needStop))
      ensures taskQueue == old(taskQueue)
      ensures Contents() == if proceed then old(StopBegun(Contents())) else old(Contents())
    {
      if state == Stopped {
        return false, true;
      }
      if state != Running || isCurrentThread {
        return false, false;
      }
      state := Stopping;
      needStop := true;
      return true, true;
    }

    /** One look at the queue under the lock: it hands out the oldest task, says to leave, or says to wait. */
    method NextTask() returns (verdict: Verdict)
      modifies this
      ensures verdict.Take? <==> old(taskQueue) != []
      ensures verdict.Leave? <==> old(taskQueue) == [] && old(needStop)
      ensures old(taskQueue) == if verdict.Take? then [verdict.task] + taskQueue else taskQueue
      ensures state == old(state) && needStop == old(needStop)
      ensures verdict == old(Decide(Contents()))
      ensures Contents() == old(AfterDeciding(Contents()))
    {
      if taskQueue == [] && !needStop {
        return Sleep;
      }
      if needStop && taskQueue == [] {
        return Leave;
      }
      verdict := Take(taskQueue[0]);
      taskQueue := taskQueue[1..];
    }

    /** After the worker is joined: whatever is left is discarded, from the front. */
    method DiscardTasks()
      modifies this
      ensures taskQueue == [] && state == old(state) && needStop == old(needStop)
    {
      while taskQueue != []
        invariant state == old(state) && needStop == old(needStop)
        decreases |taskQueue|
      {
        taskQueue := taskQueue[1..];
      }
    }
  }
}
