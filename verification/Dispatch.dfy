/**
 Which processor of a group gets a task, and what that means for the packets of one endpoint: a
 group of processors, each running the protocol of Worker, that packets reach by affinity.
 */
module Dispatch {
  import opened PacketAuthentication
  import opened ProcessorSections
  import opened Server
  import opened Sessions
  import opened Words
  import opened Wrappers
  import Worker

  /** Sizes and indices are 64-bit; the largest one means no processor, or any. */
  const SIZE_MAX: nat := UINT64_MAX
  const ANY_PROCESSOR: nat := SIZE_MAX
  const INVALID_PROCESSOR: nat := ANY_PROCESSOR

  // ---------- choosing ----------

  /** `sizes` are the queue sizes as they were read, one after the other. */
  method GetLeastBusyProcessorIndex(sizes: seq<nat>) returns (index: nat)
    requires |sizes| < SIZE_MAX && forall k :: 0 <= k < |sizes| ==> sizes[k] <= SIZE_MAX
    ensures index != INVALID_PROCESSOR ==>
      index < |sizes| && (forall k :: 0 <= k < |sizes| ==> sizes[index] <= sizes[k])
      && (forall k :: 0 <= k < index ==> sizes[index] < sizes[k])
    ensures index == INVALID_PROCESSOR <==> forall k :: 0 <= k < |sizes| ==> sizes[k] == SIZE_MAX
  {
    var least := SIZE_MAX;
    index := INVALID_PROCESSOR;
    for i := 0 to |sizes|
      invariant least <= SIZE_MAX && forall k :: 0 <= k < i ==> least <= sizes[k]
      invariant index == INVALID_PROCESSOR <==> least == SIZE_MAX
      invariant index != INVALID_PROCESSOR ==>
        index < i && sizes[index] == least > 0 && forall k :: 0 <= k < index ==> least < sizes[k]
    {
      if sizes[i] == 0 {
        return i;
      }
      if sizes[i] < least {
        index := i;
        least := sizes[i];
      }
    }
  }

  /** The processor a task goes to, if any; whether it is then accepted is up to that processor. */
  method ChooseProcessor(state: EState, hasTask: bool, sizes: seq<nat>, wanted: nat) returns (index: Option<nat>)
    requires |sizes| < SIZE_MAX && forall k :: 0 <= k < |sizes| ==> sizes[k] <= SIZE_MAX
    ensures index.Some? <==>
      (state == Starting || state == Running) && hasTask
      && if wanted == ANY_PROCESSOR then exists k :: 0 <= k < |sizes| && sizes[k] != SIZE_MAX else wanted < |sizes|
    ensures index.Some? && wanted != ANY_PROCESSOR ==> index.value == wanted
    ensures index.Some? && wanted == ANY_PROCESSOR ==>
      index.value < |sizes| && (forall k :: 0 <= k < |sizes| ==> sizes[index.value] <= sizes[k])
      && (forall k :: 0 <= k < index.value ==> sizes[index.value] < sizes[k])
  {
    if (state != Starting && state != Running) || !hasTask {
      return None;
    }
    if wanted != ANY_PROCESSOR {
      if wanted >= |sizes| {
        return None;
      }
      return Some(wanted);
    }
    var least := GetLeastBusyProcessorIndex(sizes);
    if least == INVALID_PROCESSOR {
      return None;
    }
    index := Some(least);
  }

  /** A key always leads to the same processor, whatever the queues hold, and always to one that exists. */
  method ChooseByAffinity(state: EState, hasTask: bool, sizes: seq<nat>, key: uint64) returns (index: Option<nat>)
    requires |sizes| < SIZE_MAX && forall k :: 0 <= k < |sizes| ==> sizes[k] <= SIZE_MAX
    ensures index
         == if sizes != [] && (state == Starting || state == Running) && hasTask then Some(key % |sizes|) else None
  {
    if sizes == [] {
      return None;
    }
    index := ChooseProcessor(state, hasTask, sizes, key % |sizes|);
  }

  // ---------- the affinity of an endpoint ----------

  /** An address has 32 bits and a port 16. */
  predicate IsIPv4(e: Endpoint) {
    e.address < UINT32_LIMIT && e.port < Power2(16)
  }

  function AffinityKey(e: Endpoint): nat
    requires IsIPv4(e)
  {
    Or(ShiftLeft(e.address, 16), e.port)
  }

  lemma AffinityKeyIsSum(e: Endpoint)
    requires IsIPv4(e)
    ensures e.port < 65536 && AffinityKey(e) == e.address * 65536 + e.port < UINT64_LIMIT
  {
    Power16();
    ShiftIsProduct(e.address, 16);
    OrOfParts(e.address, e.port, 16);
  }

  /** The key keeps address and port apart: nothing is shifted out of the word or mixed. */
  lemma AffinityKeySeparates(e: Endpoint, f: Endpoint)
    requires IsIPv4(e) && IsIPv4(f)
    ensures AffinityKey(e) == AffinityKey(f) <==> (e.address == f.address && e.port == f.port)
  {
    AffinityKeyIsSum(e);
    AffinityKeyIsSum(f);
    if AffinityKey(e) == AffinityKey(f) {
      Division(65536, e.address, e.port, f.address, f.port);
    }
  }

  // ---------- packets of one endpoint ----------

  /** The Logic queue that packets from an endpoint reach, through whichever IO processor. */
  ghost function Home(e: Endpoint, count: nat): (home: nat)
    requires IsIPv4(e) && count > 0
    ensures home == (e.address * 65536 + e.port) % count < count
  {
    AffinityKeyIsSum(e);
    AffinityKey(e) % count
  }

  /** What an IO processor does with a received packet: it picks the Logic processor of the sender's endpoint. */
  method DispatchPacket(state: EState, sizes: seq<nat>, sender: Endpoint) returns (index: Option<nat>)
    requires IsIPv4(sender) && |sizes| < SIZE_MAX && forall k :: 0 <= k < |sizes| ==> sizes[k] <= SIZE_MAX
    ensures index.Some? <==> sizes != [] && (state == Starting || state == Running)
    ensures index.Some? ==> index.value == (sender.address * 65536 + sender.port) % |sizes| == Home(sender, |sizes|)
  {
    AffinityKeyIsSum(sender);
    var key := Or(ShiftLeft(sender.address, 16), sender.port);
    index := ChooseByAffinity(state, true, sizes, key);
  }

  /** Tasks are numbers here; `sender` says which are packets, and where from. */
  type Senders = nat -> Option<Endpoint>

  ghost predicate Known(sender: Senders) {
    forall task: nat :: sender(task).Some? ==> IsIPv4(sender(task).value)
  }

  datatype GroupStep = GroupStep(who: nat, step: Worker.Step)

  /** One processor of the group moves; packets are pushed by affinity, other tasks anywhere. */
  ghost predicate GroupNext(sender: Senders, s: seq<Worker.State>, s': seq<Worker.State>, g: GroupStep)
    requires Known(sender)
  {
    && g.who < |s| == |s'|
    && Worker.Next(s[g.who], s'[g.who], g.step)
    && (forall w :: 0 <= w < |s| && w != g.who ==> s'[w] == s[w])
    && (g.step.Push? && sender(g.step.task).Some? ==> g.who == Home(sender(g.step.task).value, |s|))
  }

  ghost predicate GroupRun(sender: Senders, run: seq<seq<Worker.State>>, steps: seq<GroupStep>)
    requires Known(sender)
  {
    && |run| == |steps| + 1
    && (forall w :: 0 <= w < |run[0]| ==> Worker.Init(run[0][w]))
    && (forall i :: 0 <= i < |steps| ==> GroupNext(sender, run[i], run[i + 1], steps[i]))
  }

  ghost predicate AtHome(sender: Senders, tasks: seq<nat>, w: nat, count: nat)
    requires Known(sender) && count > 0
  {
    forall k :: 0 <= k < |tasks| && sender(tasks[k]).Some? ==> Home(sender(tasks[k]).value, count) == w
  }

  ghost predicate GroupInv(sender: Senders, s: seq<Worker.State>)
    requires Known(sender)
  {
    forall w :: 0 <= w < |s| ==> Worker.Inv(s[w]) && AtHome(sender, s[w].accepted, w, |s|)
  }

  lemma AcceptsOnlyPushed(s: Worker.State, s': Worker.State, step: Worker.Step)
    requires Worker.Next(s, s', step)
    ensures s'.accepted == s.accepted || s'.accepted == [] || (step.Push? && s'.accepted == s.accepted + [step.task])
  {}

  lemma GroupNextKeeps(sender: Senders, s: seq<Worker.State>, s': seq<Worker.State>, g: GroupStep)
    requires Known(sender) && GroupInv(sender, s) && GroupNext(sender, s, s', g)
    ensures GroupInv(sender, s')
  {
    Worker.NextKeeps(s[g.who], s'[g.who], g.step);
    AcceptsOnlyPushed(s[g.who], s'[g.who], g.step);
  }

  lemma {:induction false} GroupRunKeeps(sender: Senders, run: seq<seq<Worker.State>>, steps: seq<GroupStep>, i: nat)
    requires Known(sender) && GroupRun(sender, run, steps) && i < |run|
    ensures |run[i]| == |run[0]| && GroupInv(sender, run[i])
  {
    if i > 0 {
      GroupRunKeeps(sender, run, steps, i - 1);
      assert GroupNext(sender, run[i - 1], run[i - 1 + 1], steps[i - 1]);
      GroupNextKeeps(sender, run[i - 1], run[i], steps[i - 1]);
    } else {
      forall w | 0 <= w < |run[0]| ensures Worker.Inv(run[0][w]) { Worker.InitOk(run[0][w]); }
    }
  }

  /** The packets of one endpoint among some tasks, in their order. */
  ghost function From(sender: Senders, tasks: seq<nat>, e: Endpoint): seq<nat> {
    if tasks == [] then []
    else
      var last := tasks[|tasks| - 1];
      From(sender, tasks[..|tasks| - 1], e) + if sender(last) == Some(e) then [last] else []
  }

  lemma {:induction false} FromPrefix(sender: Senders, front: seq<nat>, all: seq<nat>, e: Endpoint)
    requires front <= all
    ensures From(sender, front, e) <= From(sender, all, e)
    decreases |all|
  {
    if front != all {
      FromPrefix(sender, front, all[..|all| - 1], e);
    }
  }

  lemma {:induction false} FromNone(sender: Senders, tasks: seq<nat>, e: Endpoint)
    requires forall k :: 0 <= k < |tasks| ==> sender(tasks[k]) != Some(e)
    ensures From(sender, tasks, e) == []
  {
    if tasks != [] { FromNone(sender, tasks[..|tasks| - 1], e); }
  }

  /**
   The packets of an endpoint are processed one at a time, in the order they were accepted: only its
   home processor ever has any, and what that has processed of them is an initial part of what it
   has accepted of them.
   */
  lemma EndpointsAreServedInOrder(sender: Senders, run: seq<seq<Worker.State>>, steps: seq<GroupStep>, i: nat, w: nat,
                                  e: Endpoint)
    requires Known(sender) && GroupRun(sender, run, steps) && i < |run| && w < |run[i]| && IsIPv4(e)
    ensures From(sender, run[i][w].processed, e) <= From(sender, run[i][w].accepted, e)
    ensures w != Home(e, |run[i]|) ==> From(sender, run[i][w].accepted, e) == []
    ensures run[i][w].worker.Busy? && sender(run[i][w].worker.task) == Some(e) ==> w == Home(e, |run[i]|)
  {
    GroupRunKeeps(sender, run, steps, i);
    var s := run[i][w];
    FromPrefix(sender, s.processed, s.accepted, e);
    if w != Home(e, |run[i]|) { FromNone(sender, s.accepted, e); }
    if s.worker.Busy? {
      InFlightWasAccepted(s);
    }
  }

  lemma InFlightWasAccepted(s: Worker.State)
    requires Worker.Inv(s) && s.worker.Busy?
    ensures s.worker.task in s.accepted
  {
    assert s.accepted == s.processed + [s.worker.task] + s.core.queue;
    assert s.accepted[|s.processed|] == s.worker.task;
  }

  ghost function SenderOf(packets: nat -> Option<Job>): Senders {
    (task: nat) => if packets(task).Some? then Some(packets(task).value.sender) else None
  }

  ghost predicate ReachedWith(mac: Mac, s: SessionState, packets: nat -> Option<Job>, accepted: seq<nat>, k: nat) {
    k < |accepted| && packets(accepted[k]).Some? && Authentic(mac, s, packets(accepted[k]).value)
  }

  /** All packets that can pass the checks of one session go, at any time, to one and the same queue. */
  lemma SessionsUseOneQueue(mac: Mac, s: SessionState, packets: nat -> Option<Job>, run: seq<seq<Worker.State>>,
                            steps: seq<GroupStep>,
                            i: nat, w: nat, k: nat, j: nat, x: nat, l: nat)
    requires Known(SenderOf(packets)) && GroupRun(SenderOf(packets), run, steps)
    requires i < |run| && j < |run| && w < |run[i]| && x < |run[j]|
    requires ReachedWith(mac, s, packets, run[i][w].accepted, k) && ReachedWith(mac, s, packets, run[j][x].accepted, l)
    ensures w == x
  {
    var sender := SenderOf(packets);
    GroupRunKeeps(sender, run, steps, i);
    GroupRunKeeps(sender, run, steps, j);
    assert sender(run[i][w].accepted[k]) == Some(s.endpoint) == sender(run[j][x].accepted[l]);
  }
}
