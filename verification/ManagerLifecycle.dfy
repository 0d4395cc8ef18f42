/**
 Start, failure unwinding and stop of the processor groups, with every processor running its own
 protocol at the same time. Any thread may call Start and Stop at any moment; the calls that find
 the wrong state return false and change nothing, so only calls that get in are steps.
 */
module ManagerLifecycle {
  import opened ProcessorSections
  import opened ProcessorView
  import opened Wrappers

  datatype Kind = IO | Logic | Ticker | Heartbeat
  datatype Proc = Proc(kind: Kind, index: nat)

  /** How many processors the two sized groups have, and whether the configuration was accepted. */
  datatype Config = Config(io: nat, logic: nat, valid: bool)

  predicate Registered(cfg: Config, p: Proc) {
    p.index < match p.kind case IO => cfg.io case Logic => cfg.logic case Ticker => 1 case Heartbeat => 1
  }

  function Count(cfg: Config): nat { cfg.logic + cfg.io + 2 }

  /** The k-th processor the start loops reach: Logic, ticker, heartbeat, IO. */
  function StartOrder(cfg: Config, k: nat): Proc
    requires k < Count(cfg)
  {
    if k < cfg.logic then Proc(Logic, k)
    else if k == cfg.logic then Proc(Ticker, 0)
    else if k == cfg.logic + 1 then Proc(Heartbeat, 0)
    else Proc(IO, k - cfg.logic - 2)
  }

  /** The j-th processor the stop loops reach: IO, ticker, heartbeat, Logic. */
  function StopOrder(cfg: Config, j: nat): Proc
    requires j < Count(cfg)
  {
    if j < cfg.io then Proc(IO, j)
    else if j == cfg.io then Proc(Ticker, 0)
    else if j == cfg.io + 1 then Proc(Heartbeat, 0)
    else Proc(Logic, j - cfg.io - 2)
  }

  function StartPlace(cfg: Config, p: Proc): nat {
    match p.kind
    case Logic => p.index
    case Ticker => cfg.logic
    case Heartbeat => cfg.logic + 1
    case IO => cfg.logic + 2 + p.index
  }

  function StopPlace(cfg: Config, p: Proc): nat {
    match p.kind
    case IO => p.index
    case Ticker => cfg.io
    case Heartbeat => cfg.io + 1
    case Logic => cfg.io + 2 + p.index
  }

  /** Both loops reach every registered processor exactly once. */
  lemma OrdersCover(cfg: Config, p: Proc, k: nat)
    requires k < Count(cfg)
    ensures Registered(cfg, p) ==> StartPlace(cfg, p) < Count(cfg) && StopPlace(cfg, p) < Count(cfg)
    ensures Registered(cfg, StartOrder(cfg, k)) && Registered(cfg, StopOrder(cfg, k))
    ensures Registered(cfg, p) ==> (StartPlace(cfg, p) == k <==> StartOrder(cfg, k) == p)
    ensures Registered(cfg, p) ==> (StopPlace(cfg, p) == k <==> StopOrder(cfg, k) == p)
  {}

  /**
   Where the call inside the manager is: at or inside the k-th start, or at or inside the j-th stop.
   `reached` is how many processors had been started when the stopping began.
   */
  datatype Pc = StartAt(k: nat) | InStart(k: nat) | StopAt(j: nat, reached: nat) | InStop(j: nat, reached: nat)
  datatype Inside = Nobody | Caller(t: ThreadId, pc: Pc)

  datatype State = State(state: EState, inside: Inside, procs: map<Proc, View>)

  // ---------- steps ----------

  function At(s: State, pc: Pc): State
    requires s.inside.Caller?
  {
    s.(inside := s.inside.(pc := pc))
  }

  function WithProc(s: State, p: Proc, v: View): State { s.(procs := s.procs[p := v]) }

  predicate OwnedSomewhere(s: State, t: ThreadId) {
    exists p :: p in s.procs && t in s.procs[p].owned
  }

  ghost predicate ProcessorWorks(s: State, s': State, p: Proc, v: View) {
    p in s.procs && Works(s.procs[p], v) && s' == WithProc(s, p, v)
  }

  ghost predicate StartEntry(cfg: Config, s: State, s': State, t: ThreadId) {
    s.state == Stopped && cfg.valid && s' == s.(state := Starting, inside := Caller(t, StartAt(0)))
  }

  /** The caller is no processor's thread: the manager asks every processor before it stops. */
  ghost predicate StopEntry(cfg: Config, s: State, s': State, t: ThreadId) {
    s.state == Running && !OwnedSomewhere(s, t)
    && s' == s.(state := Stopping, inside := Caller(t, StopAt(0, Count(cfg))))
  }

  ghost predicate StartNext(cfg: Config, s: State, s': State, v: View) {
    s.inside.Caller? && s.inside.pc.StartAt? && s.inside.pc.k < Count(cfg)
    && var k := s.inside.pc.k;
       var p := StartOrder(cfg, k);
       p in s.procs
       && if s.procs[p].state == Stopped
          then BeginsStart(s.procs[p], v, s.inside.t) && s' == At(WithProc(s, p, v), InStart(k))
          else s' == At(s.(state := Stopping), StopAt(0, k))
  }

  predicate InProcessor(cfg: Config, s: State) {
    s.inside.Caller?
    && ((s.inside.pc.InStart? && s.inside.pc.k < Count(cfg) && StartOrder(cfg, s.inside.pc.k) in s.procs)
        || (s.inside.pc.InStop? && s.inside.pc.j < Count(cfg) && StopOrder(cfg, s.inside.pc.j) in s.procs))
  }

  function Current(cfg: Config, s: State): Proc
    requires InProcessor(cfg, s)
  {
    if s.inside.pc.InStart? then StartOrder(cfg, s.inside.pc.k) else StopOrder(cfg, s.inside.pc.j)
  }

  /** A section of the processor call the caller is inside. New threads differ from all threads in sight. */
  ghost predicate CallGoesOn(cfg: Config, s: State, s': State, v: View, spawned: set<ThreadId>) {
    InProcessor(cfg, s) && s.inside.t !in spawned && (forall u :: u in spawned ==> !OwnedSomewhere(s, u))
    && Progresses(s.procs[Current(cfg, s)], v, s.inside.t, spawned) && s' == WithProc(s, Current(cfg, s), v)
  }

  /** The processor call has returned; a start that left the processor running has succeeded. */
  ghost predicate CallReturns(cfg: Config, s: State, s': State) {
    InProcessor(cfg, s) && s.procs[Current(cfg, s)].caller != Some(s.inside.t)
    && s' == match s.inside.pc
             case InStart(k) =>
               if s.procs[Current(cfg, s)].state == Running then At(s, StartAt(k + 1))
               else At(s.(state := Stopping), StopAt(0, k))
             case InStop(j, reached) => At(s, StopAt(j + 1, reached))
             case _ => s
  }

  ghost predicate StartDone(cfg: Config, s: State, s': State) {
    s.inside.Caller? && s.inside.pc == StartAt(Count(cfg)) && s' == s.(state := Running, inside := Nobody)
  }

  /** Stopping a stopped processor returns at once, and so would a refused stop. */
  ghost predicate StopNext(cfg: Config, s: State, s': State, v: View) {
    s.inside.Caller? && s.inside.pc.StopAt? && s.inside.pc.j < Count(cfg)
    && var j, reached := s.inside.pc.j, s.inside.pc.reached;
       var p := StopOrder(cfg, j);
       p in s.procs
       && if s.procs[p].state == Running && s.inside.t !in s.procs[p].owned
          then BeginsStop(s.procs[p], v, s.inside.t) && s' == At(WithProc(s, p, v), InStop(j, reached))
          else s' == At(s, StopAt(j + 1, reached))
  }

  ghost predicate StopDone(cfg: Config, s: State, s': State) {
    s.inside.Caller? && s.inside.pc.StopAt? && s.inside.pc.j == Count(cfg)
    && s' == s.(state := Stopped, inside := Nobody)
  }

  datatype Step =
    | DoWork(p: Proc, v: View) | DoStartEntry(t: ThreadId) | DoStopEntry(t: ThreadId) | DoStartNext(v: View)
    | DoGoOn(v: View, spawned: set<ThreadId>) | DoReturn | DoStartDone | DoStopNext(v: View) | DoStopDone

  ghost predicate Next(cfg: Config, s: State, s': State, step: Step) {
    match step
    case DoWork(p, v) => ProcessorWorks(s, s', p, v)
    case DoStartEntry(t) => StartEntry(cfg, s, s', t)
    case DoStopEntry(t) => StopEntry(cfg, s, s', t)
    case DoStartNext(v) => StartNext(cfg, s, s', v)
    case DoGoOn(v, spawned) => CallGoesOn(cfg, s, s', v, spawned)
    case DoReturn => CallReturns(cfg, s, s')
    case DoStartDone => StartDone(cfg, s, s')
    case DoStopNext(v) => StopNext(cfg, s, s', v)
    case DoStopDone => StopDone(cfg, s, s')
  }

  const NEW_PROCESSOR := View(Stopped, None, false, {}, [], [])

  ghost predicate Init(cfg: Config, s: State) {
    s.state == Stopped && s.inside == Nobody
    && (forall p :: p in s.procs <==> Registered(cfg, p)) && (forall p :: p in s.procs ==> s.procs[p] == NEW_PROCESSOR)
  }

  ghost predicate Run(cfg: Config, run: seq<State>, steps: seq<Step>) {
    |run| == |steps| + 1 && Init(cfg, run[0])
    && forall i :: 0 <= i < |steps| ==> Next(cfg, run[i], run[i + 1], steps[i])
  }

  // ---------- the invariant ----------

  ghost predicate Idle(v: View, state: EState) { v.state == state && v.caller == None }

  ghost predicate Up(v: View) { Idle(v, Running) }

  /** Stopped, and with every accepted task processed if the processor had been fully started. */
  ghost predicate Down(cfg: Config, p: Proc, v: View, reached: nat) {
    Idle(v, Stopped) && (StartPlace(cfg, p) < reached ==> v.processed == v.accepted)
  }

  /** What one processor looks like while the call is at a place of the manager. */
  ghost predicate ArrangedAt(cfg: Config, t: ThreadId, pc: Pc, p: Proc, v: View) {
    match pc
    case StartAt(k) => k <= Count(cfg) && if StartPlace(cfg, p) < k then Up(v) else Idle(v, Stopped)
    case InStart(k) =>
      k < Count(cfg)
      && if StartPlace(cfg, p) < k then Up(v)
         else if StartPlace(cfg, p) > k then Idle(v, Stopped)
         else Up(v) || (Idle(v, Stopped) && v.processed == [])
              || (v.caller == Some(t) && (v.state == Stopping ==> v.undoing))
    case StopAt(j, reached) =>
      j <= Count(cfg) && reached <= Count(cfg)
      && if StopPlace(cfg, p) < j then Down(cfg, p, v, reached)
         else if StartPlace(cfg, p) < reached then Up(v) else Idle(v, Stopped)
    case InStop(j, reached) =>
      j < Count(cfg) && reached <= Count(cfg)
      && if StopPlace(cfg, p) < j then Down(cfg, p, v, reached)
         else if StopPlace(cfg, p) > j then (if StartPlace(cfg, p) < reached then Up(v) else Idle(v, Stopped))
         else StartPlace(cfg, p) < reached
              && (Down(cfg, p, v, reached) || (v.caller == Some(t) && v.state == Stopping && !v.undoing))
  }

  ghost predicate Arranged(cfg: Config, state: EState, inside: Inside, p: Proc, v: View) {
    match inside
    case Nobody => (state == Running && Up(v)) || (state == Stopped && Idle(v, Stopped))
    case Caller(t, pc) =>
      t !in v.owned && ArrangedAt(cfg, t, pc, p, v)
      && state == if pc.StartAt? || pc.InStart? then Starting else Stopping
  }

  ghost predicate Inv(cfg: Config, s: State) {
    && (forall p :: p in s.procs <==> Registered(cfg, p))
    && (forall p :: p in s.procs ==> Ok(s.procs[p]) && Arranged(cfg, s.state, s.inside, p, s.procs[p]))
    && (s.inside == Nobody <==> s.state == Stopped || s.state == Running)
  }

  lemma InitOk(cfg: Config, s: State)
    requires Init(cfg, s)
    ensures Inv(cfg, s)
  {}

  lemma WorkKeeps(cfg: Config, s: State, s': State, p: Proc, v: View)
    requires Inv(cfg, s) && ProcessorWorks(s, s', p, v)
    ensures Inv(cfg, s')
  {
    assert Arranged(cfg, s'.state, s'.inside, p, v);
  }

  lemma EntryKeeps(cfg: Config, s: State, s': State, t: ThreadId)
    requires Inv(cfg, s) && (StartEntry(cfg, s, s', t) || StopEntry(cfg, s, s', t))
    ensures Inv(cfg, s')
  {
    forall p | p in s'.procs ensures Arranged(cfg, s'.state, s'.inside, p, s'.procs[p]) {
      assert Arranged(cfg, s.state, s.inside, p, s.procs[p]);
      OrdersCover(cfg, p, 0);
    }
  }

  lemma StartNextKeeps(cfg: Config, s: State, s': State, v: View)
    requires Inv(cfg, s) && StartNext(cfg, s, s', v)
    ensures Inv(cfg, s')
  {
    forall p | p in s'.procs ensures Ok(s'.procs[p]) && Arranged(cfg, s'.state, s'.inside, p, s'.procs[p]) {
      assert Arranged(cfg, s.state, s.inside, p, s.procs[p]);
      OrdersCover(cfg, p, s.inside.pc.k);
    }
  }

  lemma GoOnKeeps(cfg: Config, s: State, s': State, v: View, spawned: set<ThreadId>)
    requires Inv(cfg, s) && CallGoesOn(cfg, s, s', v, spawned)
    ensures Inv(cfg, s')
  {
    var q := Current(cfg, s);
    assert Arranged(cfg, s.state, s.inside, q, s.procs[q]);
    OrdersCover(cfg, q, if s.inside.pc.InStart? then s.inside.pc.k else s.inside.pc.j);
    assert Ok(v) && Arranged(cfg, s.state, s.inside, q, v);
  }

  lemma ReturnKeeps(cfg: Config, s: State, s': State)
    requires Inv(cfg, s) && CallReturns(cfg, s, s')
    ensures Inv(cfg, s')
  {
    forall p | p in s'.procs ensures Arranged(cfg, s'.state, s'.inside, p, s'.procs[p]) {
      assert Arranged(cfg, s.state, s.inside, p, s.procs[p]);
      OrdersCover(cfg, p, if s.inside.pc.InStart? then s.inside.pc.k else s.inside.pc.j);
    }
  }

  lemma StopNextKeeps(cfg: Config, s: State, s': State, v: View)
    requires Inv(cfg, s) && StopNext(cfg, s, s', v)
    ensures Inv(cfg, s')
  {
    forall p | p in s'.procs ensures Ok(s'.procs[p]) && Arranged(cfg, s'.state, s'.inside, p, s'.procs[p]) {
      assert Arranged(cfg, s.state, s.inside, p, s.procs[p]);
      OrdersCover(cfg, p, s.inside.pc.j);
    }
  }

  lemma DoneKeeps(cfg: Config, s: State, s': State)
    requires Inv(cfg, s) && (StartDone(cfg, s, s') || StopDone(cfg, s, s'))
    ensures Inv(cfg, s')
  {
    forall p | p in s'.procs ensures Arranged(cfg, s'.state, s'.inside, p, s'.procs[p]) {
      assert Arranged(cfg, s.state, s.inside, p, s.procs[p]);
      OrdersCover(cfg, p, 0);
    }
  }

  lemma NextKeeps(cfg: Config, s: State, s': State, step: Step)
    requires Inv(cfg, s) && Next(cfg, s, s', step)
    ensures Inv(cfg, s')
  {
    match step
    case DoWork(p, v) => WorkKeeps(cfg, s, s', p, v);
    case DoStartEntry(t) => EntryKeeps(cfg, s, s', t);
    case DoStopEntry(t) => EntryKeeps(cfg, s, s', t);
    case DoStartNext(v) => StartNextKeeps(cfg, s, s', v);
    case DoGoOn(v, spawned) => GoOnKeeps(cfg, s, s', v, spawned);
    case DoReturn => ReturnKeeps(cfg, s, s');
    case DoStartDone => DoneKeeps(cfg, s, s');
    case DoStopNext(v) => StopNextKeeps(cfg, s, s', v);
    case DoStopDone => DoneKeeps(cfg, s, s');
  }

  lemma {:induction false} RunKeeps(cfg: Config, run: seq<State>, steps: seq<Step>, i: nat)
    requires Run(cfg, run, steps) && i < |run|
    ensures Inv(cfg, run[i])
  {
    if i == 0 {
      InitOk(cfg, run[0]);
    } else {
      RunKeeps(cfg, run, steps, i - 1);
      NextKeeps(cfg, run[i - 1], run[i], steps[i - 1]);
    }
  }

  // ---------- what the invariant means ----------

  /** The processors are those the configuration asks for, at every moment of every run. */
  lemma ProcessorsAreFixed(cfg: Config, run: seq<State>, steps: seq<Step>, i: nat, p: Proc)
    requires Run(cfg, run, steps) && i < |run|
    ensures p in run[i].procs <==>
      (p.kind == IO && p.index < cfg.io) || (p.kind == Logic && p.index < cfg.logic)
      || ((p.kind == Ticker || p.kind == Heartbeat) && p.index == 0)
  {
    RunKeeps(cfg, run, steps, i);
    assert p in run[i].procs <==> Registered(cfg, p);
  }

  lemma SupportedWhileReceiving(cfg: Config, s: State, p: Proc, q: Proc)
    requires Inv(cfg, s) && p in s.procs && q in s.procs && p.kind == IO && q.kind != IO && s.procs[p].state != Stopped
    ensures s.procs[q].state == Running
  {
    assert Arranged(cfg, s.state, s.inside, p, s.procs[p]) && Arranged(cfg, s.state, s.inside, q, s.procs[q]);
  }

  /** At every moment of every run: while an IO processor is not stopped, every other kind of processor is running. */
  lemma ReceivingIsSupported(cfg: Config, run: seq<State>, steps: seq<Step>, i: nat, p: Proc, q: Proc)
    requires Run(cfg, run, steps) && i < |run| && p in run[i].procs && q in run[i].procs
    requires p.kind == IO && run[i].procs[p].state != Stopped && q.kind != IO
    ensures run[i].procs[q].state == Running
  {
    RunKeeps(cfg, run, steps, i);
    SupportedWhileReceiving(cfg, run[i], p, q);
  }

  /** And while a processor of any other kind is not stopped, every Logic processor is running. */
  lemma LogicIsThereForTheRest(cfg: Config, run: seq<State>, steps: seq<Step>, i: nat, p: Proc, q: Proc)
    requires Run(cfg, run, steps) && i < |run| && p in run[i].procs && q in run[i].procs
    requires p.kind != Logic && run[i].procs[p].state != Stopped && q.kind == Logic
    ensures run[i].procs[q].state == Running
  {
    RunKeeps(cfg, run, steps, i);
    var s := run[i];
    assert Arranged(cfg, s.state, s.inside, p, s.procs[p]) && Arranged(cfg, s.state, s.inside, q, s.procs[q]);
  }

  /**
   While starting, nothing is up before what comes earlier is running: the Logic processors, then the
   ticker, the heartbeat and the IO processors, and within a group by index.
   */
  lemma StartsInOrder(cfg: Config, run: seq<State>, steps: seq<Step>, i: nat, p: Proc, q: Proc)
    requires Run(cfg, run, steps) && i < |run| && p in run[i].procs && q in run[i].procs && run[i].state == Starting
    requires (p.kind == Logic && q.kind != Logic) || (p.kind == Ticker && (q.kind == Heartbeat || q.kind == IO))
          || (p.kind == Heartbeat && q.kind == IO) || (p.kind == q.kind && p.index < q.index)
    ensures run[i].procs[q].state != Stopped ==> run[i].procs[p].state == Running
  {
    RunKeeps(cfg, run, steps, i);
    var s := run[i];
    assert Arranged(cfg, s.state, s.inside, p, s.procs[p]) && Arranged(cfg, s.state, s.inside, q, s.procs[q]);
  }

  /**
   While stopping, nothing is being stopped before what comes earlier has stopped: the IO processors, then
   the ticker, the heartbeat and the Logic processors, and within a group by index.
   */
  lemma StopsInOrder(cfg: Config, run: seq<State>, steps: seq<Step>, i: nat, p: Proc, q: Proc)
    requires Run(cfg, run, steps) && i < |run| && p in run[i].procs && q in run[i].procs && run[i].state == Stopping
    requires (p.kind == IO && q.kind != IO) || (p.kind == Ticker && (q.kind == Heartbeat || q.kind == Logic))
          || (p.kind == Heartbeat && q.kind == Logic) || (p.kind == q.kind && p.index < q.index)
    ensures run[i].procs[q].state == Stopping ==> run[i].procs[p].state == Stopped
  {
    RunKeeps(cfg, run, steps, i);
    var s := run[i];
    assert Arranged(cfg, s.state, s.inside, p, s.procs[p]) && Arranged(cfg, s.state, s.inside, q, s.procs[q]);
  }

  /** A start that succeeds leaves every processor running. */
  lemma StartedMeansAllRunning(cfg: Config, run: seq<State>, steps: seq<Step>, i: nat, p: Proc)
    requires Run(cfg, run, steps) && i < |steps| && steps[i].DoStartDone? && p in run[i + 1].procs
    ensures run[i + 1].state == Running && run[i + 1].procs[p].state == Running
  {
    RunKeeps(cfg, run, steps, i);
    RunKeeps(cfg, run, steps, i + 1);
    assert Next(cfg, run[i], run[i + 1], steps[i]);
  }

  /**
   A completed stop, and a start that failed and was undone, leave every processor stopped without
   threads, and every task that a fully started processor had accepted is processed.
   */
  lemma StoppedMeansAllDone(cfg: Config, run: seq<State>, steps: seq<Step>, i: nat, p: Proc)
    requires Run(cfg, run, steps) && i < |steps| && steps[i].DoStopDone? && p in run[i + 1].procs
    requires run[i].inside.Caller? && run[i].inside.pc.StopAt?
    ensures run[i + 1].state == Stopped && run[i + 1].procs[p].state == Stopped && run[i + 1].procs[p].caller == None
    ensures run[i + 1].procs[p].owned == {}
    ensures StartPlace(cfg, p) < run[i].inside.pc.reached ==>
      run[i + 1].procs[p].processed == run[i + 1].procs[p].accepted
  {
    RunKeeps(cfg, run, steps, i);
    assert Next(cfg, run[i], run[i + 1], steps[i]);
    assert Arranged(cfg, run[i].state, run[i].inside, p, run[i].procs[p]);
    OrdersCover(cfg, p, 0);
  }

  /** A processor whose start fails has processed nothing, and exactly the processors before it had been started. */
  lemma FailedStartUnwinds(cfg: Config, run: seq<State>, steps: seq<Step>, i: nat)
    requires Run(cfg, run, steps) && i < |steps| && steps[i].DoReturn? && InProcessor(cfg, run[i])
    requires run[i].inside.pc.InStart?
    requires run[i].procs[Current(cfg, run[i])].state != Running
    ensures run[i + 1].inside == Caller(run[i].inside.t, StopAt(0, run[i].inside.pc.k))
    ensures run[i].procs[Current(cfg, run[i])].state == Stopped && run[i].procs[Current(cfg, run[i])].processed == []
    ensures forall p :: p in run[i].procs ==>
      (run[i].procs[p].state == Running <==> StartPlace(cfg, p) < run[i].inside.pc.k)
  {
    RunKeeps(cfg, run, steps, i);
    assert Next(cfg, run[i], run[i + 1], steps[i]);
    var q := Current(cfg, run[i]);
    assert Arranged(cfg, run[i].state, run[i].inside, q, run[i].procs[q]) && Ok(run[i].procs[q]);
    forall p | p in run[i].procs
      ensures run[i].procs[p].state == Running <==> StartPlace(cfg, p) < run[i].inside.pc.k
    {
      assert Arranged(cfg, run[i].state, run[i].inside, p, run[i].procs[p]);
      OrdersCover(cfg, p, run[i].inside.pc.k);
    }
  }

  /** The loops ignore the result of stopping a processor, and may: a running one never refuses them. */
  lemma StopIsNeverRefused(cfg: Config, run: seq<State>, steps: seq<Step>, i: nat, p: Proc)
    requires Run(cfg, run, steps) && i < |run| && run[i].inside.Caller? && p in run[i].procs
    ensures run[i].inside.t !in run[i].procs[p].owned
    ensures run[i].inside.pc.StopAt? ==>
      run[i].procs[p].caller == None && (run[i].procs[p].state == Running || run[i].procs[p].state == Stopped)
    ensures run[i].inside.pc.StartAt? && StartPlace(cfg, p) == run[i].inside.pc.k ==> run[i].procs[p].state == Stopped
  {
    RunKeeps(cfg, run, steps, i);
    assert Arranged(cfg, run[i].state, run[i].inside, p, run[i].procs[p]);
  }
}
