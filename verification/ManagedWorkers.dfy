/**
 The manager with the processors themselves inside it: each runs the protocol of Worker, section by
 section, and the manager's loops make their start and stop calls on it. The lemmas show that such a
 run, with each processor seen through its view, is a run of ManagerLifecycle.
 */
module ManagedWorkers {
  import opened ProcessorSections
  import opened ProcessorView
  import opened Wrappers
  import M = ManagerLifecycle
  import Worker

  datatype State = State(state: EState, inside: M.Inside, workers: map<M.Proc, Worker.State>)

  // ---------- steps ----------

  function With(g: State, p: M.Proc, w: Worker.State): State { g.(workers := g.workers[p := w]) }

  function At(g: State, pc: M.Pc): State
    requires g.inside.Caller?
  {
    g.(inside := g.inside.(pc := pc))
  }

  /** What a processor does by itself, whatever the manager does: `after` is its next state. */
  ghost predicate ProcessorMoves(g: State, g': State, p: M.Proc, step: Worker.Step, after: Worker.State) {
    p in g.workers && Internal(step) && Worker.Next(g.workers[p], after, step) && g' == With(g, p, after)
  }

  ghost predicate StartEntry(cfg: M.Config, g: State, g': State, t: ThreadId) {
    g.state == Stopped && cfg.valid && g' == g.(state := Starting, inside := M.Caller(t, M.StartAt(0)))
  }

  /** A stop is asked for by a thread that runs user code, and every processor is asked whether it owns it. */
  ghost predicate StopEntry(cfg: M.Config, g: State, g': State, t: ThreadId) {
    g.state == Running
    && (forall p :: p in g.workers ==> Worker.MayCall(g.workers[p], t) && !Worker.IsCurrentThread(g.workers[p], t))
    && g' == g.(state := Stopping, inside := M.Caller(t, M.StopAt(0, M.Count(cfg))))
  }

  ghost predicate StartNext(cfg: M.Config, g: State, g': State, after: Worker.State) {
    g.inside.Caller? && g.inside.pc.StartAt? && g.inside.pc.k < M.Count(cfg)
    && var k := g.inside.pc.k;
       var p := M.StartOrder(cfg, k);
       p in g.workers && Worker.Next(g.workers[p], after, Worker.StartCall(g.inside.t))
       && g' == if g.workers[p].core.state == Stopped then At(With(g, p, after), M.InStart(k))
                else At(g.(state := Stopping), M.StopAt(0, k))
  }

  predicate InProcessor(cfg: M.Config, g: State) {
    g.inside.Caller?
    && ((g.inside.pc.InStart? && g.inside.pc.k < M.Count(cfg) && M.StartOrder(cfg, g.inside.pc.k) in g.workers)
        || (g.inside.pc.InStop? && g.inside.pc.j < M.Count(cfg) && M.StopOrder(cfg, g.inside.pc.j) in g.workers))
  }

  function Current(cfg: M.Config, g: State): M.Proc
    requires InProcessor(cfg, g)
  {
    if g.inside.pc.InStart? then M.StartOrder(cfg, g.inside.pc.k) else M.StopOrder(cfg, g.inside.pc.j)
  }

  /** The next section of the call on a processor. A thread it launches differs from all others in sight. */
  ghost predicate CallGoesOn(cfg: M.Config, g: State, g': State, fails: bool, spawned: ThreadId, spawns: bool,
                             after: Worker.State) {
    InProcessor(cfg, g) && spawned != g.inside.t && (forall p :: p in g.workers ==> spawned !in Owned(g.workers[p]))
    && Worker.Next(g.workers[Current(cfg, g)], after, Worker.CallStep(g.inside.t, fails, spawned, spawns))
    && g' == With(g, Current(cfg, g), after)
  }

  ghost predicate CallReturns(cfg: M.Config, g: State, g': State) {
    InProcessor(cfg, g) && g.inside.t !in g.workers[Current(cfg, g)].calls
    && g' == match g.inside.pc
             case InStart(k) =>
               if g.workers[Current(cfg, g)].core.state == Running then At(g, M.StartAt(k + 1))
               else At(g.(state := Stopping), M.StopAt(0, k))
             case InStop(j, reached) => At(g, M.StopAt(j + 1, reached))
             case _ => g
  }

  ghost predicate StartDone(cfg: M.Config, g: State, g': State) {
    g.inside.Caller? && g.inside.pc == M.StartAt(M.Count(cfg)) && g' == g.(state := Running, inside := M.Nobody)
  }

  ghost predicate StopNext(cfg: M.Config, g: State, g': State, after: Worker.State) {
    g.inside.Caller? && g.inside.pc.StopAt? && g.inside.pc.j < M.Count(cfg)
    && var j, reached := g.inside.pc.j, g.inside.pc.reached;
       var p := M.StopOrder(cfg, j);
       p in g.workers && Worker.Next(g.workers[p], after, Worker.StopCall(g.inside.t))
       && g' == if g.workers[p].core.state == Running && !Worker.IsCurrentThread(g.workers[p], g.inside.t)
                then At(With(g, p, after), M.InStop(j, reached))
                else At(g, M.StopAt(j + 1, reached))
  }

  ghost predicate StopDone(cfg: M.Config, g: State, g': State) {
    g.inside.Caller? && g.inside.pc.StopAt? && g.inside.pc.j == M.Count(cfg)
    && g' == g.(state := Stopped, inside := M.Nobody)
  }

  datatype Step =
    | DoProcessor(p: M.Proc, step: Worker.Step, after: Worker.State)
    | DoStartEntry(t: ThreadId) | DoStopEntry(t: ThreadId)
    | DoStartNext(after: Worker.State) | DoGoOn(fails: bool, spawned: ThreadId, spawns: bool, after: Worker.State)
    | DoReturn | DoStartDone | DoStopNext(after: Worker.State) | DoStopDone

  ghost predicate Next(cfg: M.Config, g: State, g': State, step: Step) {
    match step
    case DoProcessor(p, s, after) => ProcessorMoves(g, g', p, s, after)
    case DoStartEntry(t) => StartEntry(cfg, g, g', t)
    case DoStopEntry(t) => StopEntry(cfg, g, g', t)
    case DoStartNext(after) => StartNext(cfg, g, g', after)
    case DoGoOn(fails, spawned, spawns, after) => CallGoesOn(cfg, g, g', fails, spawned, spawns, after)
    case DoReturn => CallReturns(cfg, g, g')
    case DoStartDone => StartDone(cfg, g, g')
    case DoStopNext(after) => StopNext(cfg, g, g', after)
    case DoStopDone => StopDone(cfg, g, g')
  }

  ghost predicate Init(cfg: M.Config, g: State) {
    g.state == Stopped && g.inside == M.Nobody
    && (forall p :: p in g.workers <==> M.Registered(cfg, p))
    && (forall p :: p in g.workers ==> Worker.Init(g.workers[p]))
  }

  ghost predicate Run(cfg: M.Config, run: seq<State>, steps: seq<Step>) {
    |run| == |steps| + 1 && Init(cfg, run[0])
    && forall i :: 0 <= i < |steps| ==> Next(cfg, run[i], run[i + 1], steps[i])
  }

  // ---------- the manager's view of it ----------

  /** The view of a processor; the invariant holds in every state of a run, so the other case does not arise. */
  ghost function Shown(w: Worker.State): View {
    if Worker.Inv(w) then ViewOf(w) else M.NEW_PROCESSOR
  }

  ghost function Seen(g: State): (s: M.State)
    ensures s.state == g.state && s.inside == g.inside && s.procs.Keys == g.workers.Keys
    ensures forall p :: p in g.workers ==> s.procs[p] == Shown(g.workers[p])
  {
    M.State(g.state, g.inside, map p | p in g.workers :: Shown(g.workers[p]))
  }

  ghost function SeenStep(step: Step): M.Step {
    match step
    case DoProcessor(p, _, after) => M.DoWork(p, Shown(after))
    case DoStartEntry(t) => M.DoStartEntry(t)
    case DoStopEntry(t) => M.DoStopEntry(t)
    case DoStartNext(after) => M.DoStartNext(Shown(after))
    case DoGoOn(_, spawned, _, after) => M.DoGoOn(Shown(after), {spawned})
    case DoReturn => M.DoReturn
    case DoStartDone => M.DoStartDone
    case DoStopNext(after) => M.DoStopNext(Shown(after))
    case DoStopDone => M.DoStopDone
  }

  ghost predicate AllOk(g: State) {
    forall p :: p in g.workers ==> Worker.Inv(g.workers[p])
  }

  lemma SeenWith(g: State, p: M.Proc, w: Worker.State)
    ensures AllOk(g) && Worker.Inv(w) ==> AllOk(With(g, p, w))
    ensures Seen(With(g, p, w)) == M.WithProc(Seen(g), p, Shown(w))
  {
    assert Seen(With(g, p, w)).procs == Seen(g).procs[p := Shown(w)];
  }

  lemma SameSeen(g: State, g': State)
    requires g'.workers == g.workers
    ensures Seen(g').procs == Seen(g).procs
  {}

  /** A thread that runs user code is owned by a processor exactly when the processor recognises it. */
  lemma OwnedIsCurrent(w: Worker.State, t: ThreadId)
    requires Worker.Inv(w) && Worker.MayCall(w, t)
    ensures t in Owned(w) <==> Worker.IsCurrentThread(w, t)
  {}

  lemma ProcessorSeen(cfg: M.Config, g: State, g': State, p: M.Proc, step: Worker.Step, after: Worker.State)
    requires AllOk(g) && ProcessorMoves(g, g', p, step, after)
    ensures AllOk(g') && M.ProcessorWorks(Seen(g), Seen(g'), p, Shown(after))
  {
    Worker.NextKeeps(g.workers[p], after, step);
    InternalStepsWork(g.workers[p], after, step, Shown(g.workers[p]), Shown(after));
    SeenWith(g, p, after);
  }

  lemma StopEntrySeen(cfg: M.Config, g: State, g': State, t: ThreadId)
    requires AllOk(g) && StopEntry(cfg, g, g', t)
    ensures AllOk(g') && M.StopEntry(cfg, Seen(g), Seen(g'), t)
  {
    forall p | p in g.workers
      ensures t !in Seen(g).procs[p].owned
    {
      OwnedIsCurrent(g.workers[p], t);
    }
    assert Seen(g').procs == Seen(g).procs;
  }

  lemma StartNextSeen(cfg: M.Config, g: State, g': State, after: Worker.State)
    requires AllOk(g) && StartNext(cfg, g, g', after)
    ensures AllOk(g') && M.StartNext(cfg, Seen(g), Seen(g'), Shown(after))
  {
    var p := M.StartOrder(cfg, g.inside.pc.k);
    Worker.NextKeeps(g.workers[p], after, Worker.StartCall(g.inside.t));
    CallsBegin(g.workers[p], after, Worker.StartCall(g.inside.t), Shown(g.workers[p]), Shown(after));
    SeenWith(g, p, after);
    if g.workers[p].core.state == Stopped {
      assert Seen(g').procs == Seen(With(g, p, after)).procs;
    } else {
      assert Seen(g').procs == Seen(g).procs;
    }
  }

  lemma StopBegins(w: Worker.State, t: ThreadId, after: Worker.State)
    requires Worker.Inv(w) && Worker.Next(w, after, Worker.StopCall(t))
    ensures Worker.Inv(after)
    ensures (w.core.state == Running && !Worker.IsCurrentThread(w, t))
       <==> (Shown(w).state == Running && t !in Shown(w).owned)
    ensures w.core.state == Running && !Worker.IsCurrentThread(w, t) ==> BeginsStop(Shown(w), Shown(after), t)
  {
    Worker.NextKeeps(w, after, Worker.StopCall(t));
    CallsBegin(w, after, Worker.StopCall(t), Shown(w), Shown(after));
    OwnedIsCurrent(w, t);
  }

  lemma StopNextSeen(cfg: M.Config, g: State, g': State, after: Worker.State)
    requires AllOk(g) && StopNext(cfg, g, g', after)
    ensures AllOk(g') && M.StopNext(cfg, Seen(g), Seen(g'), Shown(after))
  {
    var p := M.StopOrder(cfg, g.inside.pc.j);
    StopBegins(g.workers[p], g.inside.t, after);
    if g.workers[p].core.state == Running && !Worker.IsCurrentThread(g.workers[p], g.inside.t) {
      SeenWith(g, p, after);
      SameSeen(With(g, p, after), g');
      assert Seen(g') == M.At(M.WithProc(Seen(g), p, Shown(after)), g'.inside.pc);
    } else {
      SameSeen(g, g');
      assert Seen(g') == M.At(Seen(g), g'.inside.pc);
    }
  }

  lemma OwnedNowhere(g: State, u: ThreadId)
    requires AllOk(g) && forall p :: p in g.workers ==> u !in Owned(g.workers[p])
    ensures !M.OwnedSomewhere(Seen(g), u)
  {}

  lemma CurrentSeen(cfg: M.Config, g: State)
    requires InProcessor(cfg, g)
    ensures M.InProcessor(cfg, Seen(g)) && M.Current(cfg, Seen(g)) == Current(cfg, g)
  {}

  lemma CallProgresses(w: Worker.State, t: ThreadId, fails: bool, spawned: ThreadId, spawns: bool, after: Worker.State)
    requires Worker.Inv(w) && Worker.Next(w, after, Worker.CallStep(t, fails, spawned, spawns))
    ensures Worker.Inv(after) && Progresses(Shown(w), Shown(after), t, {spawned})
  {
    Worker.NextKeeps(w, after, Worker.CallStep(t, fails, spawned, spawns));
    CallStepsProgress(w, after, t, fails, spawned, spawns, Shown(w), Shown(after));
  }

  lemma GoOnSeen(cfg: M.Config, g: State, g': State, fails: bool, spawned: ThreadId, spawns: bool, after: Worker.State)
    requires AllOk(g) && CallGoesOn(cfg, g, g', fails, spawned, spawns, after)
    ensures AllOk(g') && M.CallGoesOn(cfg, Seen(g), Seen(g'), Shown(after), {spawned})
  {
    var p := Current(cfg, g);
    CallProgresses(g.workers[p], g.inside.t, fails, spawned, spawns, after);
    CurrentSeen(cfg, g);
    SeenWith(g, p, after);
    assert Progresses(Seen(g).procs[p], Shown(after), g.inside.t, {spawned}) && !M.OwnedSomewhere(Seen(g), spawned) by {
      OwnedNowhere(g, spawned);
    }
  }

  lemma CallerShown(w: Worker.State, t: ThreadId)
    requires Worker.Inv(w)
    ensures Shown(w).caller == Some(t) <==> t in w.calls
  {}

  lemma ReturnSeen(cfg: M.Config, g: State, g': State)
    requires AllOk(g) && CallReturns(cfg, g, g')
    ensures AllOk(g') && M.CallReturns(cfg, Seen(g), Seen(g'))
  {
    CallerShown(g.workers[Current(cfg, g)], g.inside.t);
    CurrentSeen(cfg, g);
    SameSeen(g, g');
  }

  lemma StepSeen(cfg: M.Config, g: State, g': State, step: Step)
    requires AllOk(g) && Next(cfg, g, g', step)
    ensures AllOk(g') && M.Next(cfg, Seen(g), Seen(g'), SeenStep(step))
  {
    match step
    case DoProcessor(p, s, after) => ProcessorSeen(cfg, g, g', p, s, after);
    case DoStopEntry(t) => StopEntrySeen(cfg, g, g', t);
    case DoStartNext(after) => StartNextSeen(cfg, g, g', after);
    case DoGoOn(fails, spawned, spawns, after) => GoOnSeen(cfg, g, g', fails, spawned, spawns, after);
    case DoReturn => ReturnSeen(cfg, g, g');
    case DoStopNext(after) => StopNextSeen(cfg, g, g', after);
    case _ => assert Seen(g').procs == Seen(g).procs;
  }

  lemma InitSeen(cfg: M.Config, g: State)
    requires Init(cfg, g)
    ensures AllOk(g) && M.Init(cfg, Seen(g))
  {
    forall p | p in g.workers
      ensures Worker.Inv(g.workers[p]) && Shown(g.workers[p]) == M.NEW_PROCESSOR
    {
      Worker.InitOk(g.workers[p]);
    }
  }

  lemma {:induction false} RunIsOk(cfg: M.Config, run: seq<State>, steps: seq<Step>, i: nat)
    requires Run(cfg, run, steps) && i < |run|
    ensures AllOk(run[i])
  {
    if i == 0 {
      InitSeen(cfg, run[0]);
    } else {
      RunIsOk(cfg, run, steps, i - 1);
      assert Next(cfg, run[i - 1], run[i - 1 + 1], steps[i - 1]);
      StepSeen(cfg, run[i - 1], run[i], steps[i - 1]);
    }
  }

  ghost function SeenRun(run: seq<State>): (seen: seq<M.State>)
    ensures |seen| == |run| && forall i :: 0 <= i < |run| ==> seen[i] == Seen(run[i])
  {
    seq(|run|, i requires 0 <= i < |run| => Seen(run[i]))
  }

  ghost function SeenSteps(steps: seq<Step>): (seen: seq<M.Step>)
    ensures |seen| == |steps| && forall i :: 0 <= i < |steps| ==> seen[i] == SeenStep(steps[i])
  {
    seq(|steps|, i requires 0 <= i < |steps| => SeenStep(steps[i]))
  }

  /** Refinement: every run of the manager over real processors is a run of the manager over their views. */
  lemma RunIsSeen(cfg: M.Config, run: seq<State>, steps: seq<Step>)
    requires Run(cfg, run, steps)
    ensures M.Run(cfg, SeenRun(run), SeenSteps(steps))
  {
    InitSeen(cfg, run[0]);
    forall i | 0 <= i < |steps|
      ensures M.Next(cfg, SeenRun(run)[i], SeenRun(run)[i + 1], SeenSteps(steps)[i])
    {
      RunIsOk(cfg, run, steps, i);
      StepSeen(cfg, run[i], run[i + 1], steps[i]);
    }
  }

  // ---------- what that gives for the processors ----------

  /** At every moment of every run: while an IO processor is not stopped, every other kind of processor is running. */
  lemma ReceivingIsSupported(cfg: M.Config, run: seq<State>, steps: seq<Step>, i: nat, p: M.Proc, q: M.Proc)
    requires Run(cfg, run, steps) && i < |run| && p in run[i].workers && q in run[i].workers
    requires p.kind == M.IO && run[i].workers[p].core.state != Stopped && q.kind != M.IO
    ensures run[i].workers[q].core.state == Running
  {
    RunIsSeen(cfg, run, steps);
    RunIsOk(cfg, run, steps, i);
    M.ReceivingIsSupported(cfg, SeenRun(run), SeenSteps(steps), i, p, q);
  }

  /** And while a processor of any other kind is not stopped, every Logic processor is running. */
  lemma LogicIsThereForTheRest(cfg: M.Config, run: seq<State>, steps: seq<Step>, i: nat, p: M.Proc, q: M.Proc)
    requires Run(cfg, run, steps) && i < |run| && p in run[i].workers && q in run[i].workers
    requires p.kind != M.Logic && run[i].workers[p].core.state != Stopped && q.kind == M.Logic
    ensures run[i].workers[q].core.state == Running
  {
    RunIsSeen(cfg, run, steps);
    RunIsOk(cfg, run, steps, i);
    M.LogicIsThereForTheRest(cfg, SeenRun(run), SeenSteps(steps), i, p, q);
  }

  /** While stopping, nothing is being stopped before what the stop order has earlier is stopped. */
  lemma StopsInOrder(cfg: M.Config, run: seq<State>, steps: seq<Step>, i: nat, p: M.Proc, q: M.Proc)
    requires Run(cfg, run, steps) && i < |run| && p in run[i].workers && q in run[i].workers
    requires run[i].state == Stopping && run[i].workers[q].core.state == Stopping
    requires (p.kind == M.IO && q.kind != M.IO) || (p.kind == M.Ticker && (q.kind == M.Heartbeat || q.kind == M.Logic))
          || (p.kind == M.Heartbeat && q.kind == M.Logic) || (p.kind == q.kind && p.index < q.index)
    ensures run[i].workers[p].core.state == Stopped
  {
    RunIsSeen(cfg, run, steps);
    RunIsOk(cfg, run, steps, i);
    M.StopsInOrder(cfg, SeenRun(run), SeenSteps(steps), i, p, q);
  }

  /** While starting, nothing is up before what the start order has earlier is running. */
  lemma StartsInOrder(cfg: M.Config, run: seq<State>, steps: seq<Step>, i: nat, p: M.Proc, q: M.Proc)
    requires Run(cfg, run, steps) && i < |run| && p in run[i].workers && q in run[i].workers
    requires run[i].state == Starting && run[i].workers[q].core.state != Stopped
    requires (p.kind == M.Logic && q.kind != M.Logic)
          || (p.kind == M.Ticker && (q.kind == M.Heartbeat || q.kind == M.IO))
          || (p.kind == M.Heartbeat && q.kind == M.IO) || (p.kind == q.kind && p.index < q.index)
    ensures run[i].workers[p].core.state == Running
  {
    RunIsSeen(cfg, run, steps);
    RunIsOk(cfg, run, steps, i);
    M.StartsInOrder(cfg, SeenRun(run), SeenSteps(steps), i, p, q);
  }

  /**
   When a stop, or a start that failed and was undone, is complete, every processor is stopped, with an
   empty queue and no threads; and one that had been fully started has processed every task it accepted.
   */
  lemma StoppedMeansAllProcessed(cfg: M.Config, run: seq<State>, steps: seq<Step>, i: nat, p: M.Proc)
    requires Run(cfg, run, steps) && i < |steps| && steps[i].DoStopDone? && p in run[i + 1].workers
    ensures run[i].inside.Caller? && run[i].inside.pc.StopAt?
    ensures var w := run[i + 1].workers[p];
            w.core.state == Stopped && w.core.queue == [] && !Worker.WorkerLives(w) && !Worker.LoopLives(w)
            && (M.StartPlace(cfg, p) < run[i].inside.pc.reached ==> w.processed == w.accepted)
  {
    RunIsSeen(cfg, run, steps);
    RunIsOk(cfg, run, steps, i + 1);
    assert Next(cfg, run[i], run[i + 1], steps[i]);
    M.StoppedMeansAllDone(cfg, SeenRun(run), SeenSteps(steps), i, p);
  }
}
