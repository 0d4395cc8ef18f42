/**
 The ticker's priority queue and the loop that takes a tick's batch out of it. The queue is a set
 with a minimum by fire time; ties come out in any order.
 */
module TickerQueue {
  import opened Wrappers

  /** `id` tells task objects apart. */
  datatype TickerTask = TickerTask(id: nat, fireTime: int)

  ghost predicate InOrder(batch: seq<TickerTask>) {
    forall i, j :: 0 <= i < j < |batch| ==> batch[i].fireTime <= batch[j].fireTime
  }

  /** A tick's batch: exactly the queued tasks due by now, each once, in order of fire time. */
  ghost predicate IsBatch(queue: set<TickerTask>, now: int, batch: seq<TickerTask>) {
    && InOrder(batch) && Distinct(batch)
    && forall task :: task in batch <==> (task in queue && task.fireTime <= now)
  }

  /** What is left of a batch after its first task. */
  lemma RestOfBatch(batch: seq<TickerTask>)
    requires batch != [] && InOrder(batch) && Distinct(batch)
    ensures InOrder(batch[1..]) && Distinct(batch[1..])
    ensures forall task :: task in batch[1..] ==>
      task in batch && task != batch[0] && batch[0].fireTime <= task.fireTime
  {
    forall task | task in batch[1..]
      ensures task in batch && task != batch[0] && batch[0].fireTime <= task.fireTime
    {
      var k :| 0 < k < |batch| && batch[k] == task;
    }
  }

  lemma {:induction false} SomeTaskIsEarliest(queue: set<TickerTask>) returns (earliest: TickerTask)
    requires queue != {}
    ensures earliest in queue && forall other :: other in queue ==> earliest.fireTime <= other.fireTime
    decreases queue
  {
    var task :| task in queue;
    var rest := queue - {task};
    if rest == {} {
      assert queue == {task};
      earliest := task;
    } else {
      earliest := SomeTaskIsEarliest(rest);
      if task.fireTime < earliest.fireTime { earliest := task; }
      assert queue == rest + {task};
    }
  }

  lemma {:induction false} SomeBatch(queue: set<TickerTask>, now: int) returns (batch: seq<TickerTask>)
    ensures IsBatch(queue, now, batch)
    decreases queue
  {
    batch := [];
    if queue != {} {
      var first := SomeTaskIsEarliest(queue);
      if first.fireTime <= now {
        var rest := SomeBatch(queue - {first}, now);
        batch := [first] + rest;
      }
    }
  }

  class TaskQueue {
    var tickerTaskQueue: set<TickerTask>
    var needStop: bool

    constructor ()
      ensures tickerTaskQueue == {} && !needStop
    {
      tickerTaskQueue, needStop := {}, false;
    }

    method Top() returns (task: TickerTask)
      requires tickerTaskQueue != {}
      ensures task in tickerTaskQueue && forall other :: other in tickerTaskQueue ==> task.fireTime <= other.fireTime
    {
      ghost var earliest := SomeTaskIsEarliest(tickerTaskQueue);
      task :| task in tickerTaskQueue && forall other :: other in tickerTaskQueue ==> task.fireTime <= other.fireTime;
    }

    method Push(task: TickerTask)
      modifies this`tickerTaskQueue
      ensures tickerTaskQueue == if needStop then old(tickerTaskQueue) else old(tickerTaskQueue) + {task}
    {
      if needStop {
        return;
      }
      tickerTaskQueue := tickerTaskQueue + {task};
    }

    method Clear()
      modifies this`tickerTaskQueue
      ensures tickerTaskQueue == {}
    {
      tickerTaskQueue := {};
    }

    /** One tick, with the queue lock held. */
    method TakeDue(now: int) returns (tasksToFire: seq<TickerTask>)
      modifies this`tickerTaskQueue
      ensures forall task :: task in tasksToFire <==> (task in old(tickerTaskQueue) && task.fireTime <= now)
      ensures forall i, j :: 0 <= i < j < |tasksToFire| ==>
        tasksToFire[i] != tasksToFire[j] && tasksToFire[i].fireTime <= tasksToFire[j].fireTime
      ensures IsBatch(old(tickerTaskQueue), now, tasksToFire)
      ensures forall task :: task in tickerTaskQueue <==> (task in old(tickerTaskQueue) && task.fireTime > now)
    {
      tasksToFire := [];
      while tickerTaskQueue != {}
        invariant InOrder(tasksToFire) && Distinct(tasksToFire)
        invariant forall task :: task in old(tickerTaskQueue) <==> (task in tickerTaskQueue || task in tasksToFire)
        invariant forall task :: task in tasksToFire ==> task !in tickerTaskQueue && task.fireTime <= now
        invariant forall task, later :: task in tasksToFire && later in tickerTaskQueue ==>
          task.fireTime <= later.fireTime
        decreases tickerTaskQueue
      {
        var top := Top();
        if top.fireTime > now {
          break;
        }
        tasksToFire := tasksToFire + [top];
        tickerTaskQueue := tickerTaskQueue - {top};
      }
    }
  }
}
