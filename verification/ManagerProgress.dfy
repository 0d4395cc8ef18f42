/**
 What the manager can always go on to do, with every processor running its own protocol: a start can
 bring all processors up, and a stop or an unwinding, wherever it is, can be carried to its end.
 */
module ManagerProgress {
  import opened ManagedWorkers
  import opened ProcessorSections
  import opened ProcessorView
  import opened Wrappers
  import M = ManagerLifecycle
  import Worker

  /** Some steps lead from one state to the other. */
  ghost predicate Reaches(cfg: M.Config, g: State, g': State) {
    exists path, steps :: Path(cfg, path, steps) && path[0] == g && path[|steps|] == g'
  }

  ghost predicate Path(cfg: M.Config, path: seq<State>, steps: seq<Step>) {
    |path| == |steps| + 1 && forall i :: 0 <= i < |steps| ==> Next(cfg, path[i], path[i + 1], steps[i])
  }

  lemma ReachesItself(cfg: M.Config, g: State)
    ensures Reaches(cfg, g, g)
  {
    assert Path(cfg, [g], []) && [g][0] == g;
  }

  lemma ReachesOn(cfg: M.Config, g: State, g1: State, g2: State, step: Step)
    requires Reaches(cfg, g, g1) && Next(cfg, g1, g2, step)
    ensures Reaches(cfg, g, g2)
  {
    var path, steps :| Path(cfg, path, steps) && path[0] == g && path[|steps|] == g1;
    var path', steps' := path + [g2], steps + [step];
    forall i | 0 <= i < |steps'|
      ensures Next(cfg, path'[i], path'[i + 1], steps'[i])
    {
      if i < |steps| { assert path'[i] == path[i] && path'[i + 1] == path[i + 1]; }
    }
    assert Path(cfg, path', steps') && path'[0] == g && path'[|steps'|] == g2;
  }

  // ---------- threads to launch ----------

  lemma {:induction false} SomeBound(ids: set<ThreadId>) returns (bound: ThreadId)
    ensures forall t :: t in ids ==> t < bound
    decreases ids
  {
    if ids == {} {
      bound := 0;
    } else {
      var t :| t in ids;
      bound := SomeBound(ids - {t});
      if bound <= t { bound := t + 1; }
      assert ids == ids - {t} + {t};
    }
  }

  /** There is always a thread identity that no processor's thread has, nor the caller. */
  lemma SomeFreshThread(g: State, t: ThreadId) returns (u: ThreadId)
    ensures u != t && forall p :: p in g.workers ==> u !in Owned(g.workers[p])
  {
    var ids := {t} + set p, o | p in g.workers && o in Owned(g.workers[p]) :: o;
    u := SomeBound(ids);
    assert t in ids && u !in ids;
    assert forall p, o :: p in g.workers && o in Owned(g.workers[p]) ==> o in ids;
  }

  // ---------- starting ----------

  ghost predicate AllKnown(cfg: M.Config, g: State) {
    forall p :: p in g.workers <==> M.Registered(cfg, p)
  }

  /** The start has brought up the first k processors. */
  ghost predicate UpTo(cfg: M.Config, g: State, t: ThreadId, k: nat) {
    k <= M.Count(cfg) && AllOk(g) && AllKnown(cfg, g) && g.state == Starting && g.inside == M.Caller(t, M.StartAt(k))
    && forall p :: p in g.workers ==>
         g.workers[p].core.state == if M.StartPlace(cfg, p) < k then Running else Stopped
  }

  /** The sections of one processor's start, none of them failing; `u` is the thread it launches. */
  lemma WorkerStarts(w: Worker.State, t: ThreadId, u: ThreadId)
    returns (begun: Worker.State, ready: Worker.State, launched: Worker.State, running: Worker.State)
    requires Worker.Inv(w) && w.core.state == Stopped && u != t
    ensures Worker.Next(w, begun, Worker.StartCall(t))
    ensures Worker.Next(begun, ready, Worker.CallStep(t, false, u, false)) && Owned(begun) == Owned(ready) == {}
    ensures Worker.Next(ready, launched, Worker.CallStep(t, false, u, false))
    ensures forall v :: Worker.Next(launched, running, Worker.CallStep(t, false, v, false))
    ensures running.core.state == Running && t !in running.calls && Worker.Inv(running)
  {
    begun := Worker.At(w.(core := StartBegun(w.core), accepted := [], processed := []), t, Worker.BeforeImpl);
    ready := Worker.At(begun, t, Worker.BeforeLaunch);
    launched := Worker.At(ready.(worker := Worker.Identifying, workerId := u), t, Worker.BeforeRunning);
    running := Worker.Back(launched.(core := launched.core.(state := Running)), t);
    assert w.calls == map[];
    Worker.NextKeeps(w, begun, Worker.StartCall(t));
    Worker.NextKeeps(begun, ready, Worker.CallStep(t, false, u, false));
    Worker.NextKeeps(ready, launched, Worker.CallStep(t, false, u, false));
    Worker.NextKeeps(launched, running, Worker.CallStep(t, false, u, false));
  }

  /** One section of the call the manager is inside. */
  lemma ReachesSection(cfg: M.Config, g: State, g1: State, p: M.Proc, u: ThreadId, after: Worker.State)
    requires Reaches(cfg, g, g1) && InProcessor(cfg, g1) && Current(cfg, g1) == p
    requires u != g1.inside.t && forall q :: q in g1.workers ==> u !in Owned(g1.workers[q])
    requires Worker.Next(g1.workers[p], after, Worker.CallStep(g1.inside.t, false, u, false))
    ensures Reaches(cfg, g, With(g1, p, after))
  {
    ReachesOn(cfg, g, g1, With(g1, p, after), DoGoOn(false, u, false, after));
  }

  lemma WithTwice(g: State, p: M.Proc, a: Worker.State, b: Worker.State)
    ensures With(With(g, p, a), p, b) == With(g, p, b)
  {
    assert g.workers[p := a][p := b] == g.workers[p := b];
  }

  lemma ReachesRunning(cfg: M.Config, g: State, inside: State, p: M.Proc, u: ThreadId, ready: Worker.State,
                       launched: Worker.State, running: Worker.State)
    requires Reaches(cfg, g, inside) && InProcessor(cfg, inside) && Current(cfg, inside) == p
    requires u != inside.inside.t && forall q :: q in inside.workers ==> u !in Owned(inside.workers[q])
    requires Worker.Next(inside.workers[p], ready, Worker.CallStep(inside.inside.t, false, u, false))
    requires Owned(ready) == {} && Worker.Next(ready, launched, Worker.CallStep(inside.inside.t, false, u, false))
    requires forall v :: Worker.Next(launched, running, Worker.CallStep(inside.inside.t, false, v, false))
    ensures Reaches(cfg, g, With(inside, p, running))
  {
    ReachesSection(cfg, g, inside, p, u, ready);
    ReachesSection(cfg, g, With(inside, p, ready), p, u, launched);
    WithTwice(inside, p, ready, launched);
    var v := SomeFreshThread(With(inside, p, launched), inside.inside.t);
    ReachesSection(cfg, g, With(inside, p, launched), p, v, running);
    WithTwice(inside, p, launched, running);
  }

  lemma ReachesBegun(cfg: M.Config, g: State, g1: State, k: nat, begun: Worker.State)
    requires Reaches(cfg, g, g1) && k < M.Count(cfg) && M.StartOrder(cfg, k) in g1.workers
    requires g1.inside.Caller? && g1.inside.pc == M.StartAt(k)
    requires g1.workers[M.StartOrder(cfg, k)].core.state == Stopped
    requires Worker.Next(g1.workers[M.StartOrder(cfg, k)], begun, Worker.StartCall(g1.inside.t))
    ensures Reaches(cfg, g, At(With(g1, M.StartOrder(cfg, k), begun), M.InStart(k)))
  {
    ReachesOn(cfg, g, g1, At(With(g1, M.StartOrder(cfg, k), begun), M.InStart(k)), DoStartNext(begun));
  }

  lemma ReachesReturned(cfg: M.Config, g: State, g1: State, k: nat)
    requires Reaches(cfg, g, g1) && InProcessor(cfg, g1) && g1.inside.pc == M.InStart(k)
    requires g1.inside.t !in g1.workers[M.StartOrder(cfg, k)].calls
    requires g1.workers[M.StartOrder(cfg, k)].core.state == Running
    ensures Reaches(cfg, g, At(g1, M.StartAt(k + 1)))
  {
    ReachesOn(cfg, g, g1, At(g1, M.StartAt(k + 1)), DoReturn);
  }

  /** The manager starts its k-th processor. */
  lemma ReachesNextUp(cfg: M.Config, g: State, g1: State, t: ThreadId, k: nat) returns (g2: State)
    requires Reaches(cfg, g, g1) && UpTo(cfg, g1, t, k) && k < M.Count(cfg)
    ensures Reaches(cfg, g, g2) && UpTo(cfg, g2, t, k + 1)
  {
    var p := M.StartOrder(cfg, k);
    M.OrdersCover(cfg, p, k);
    var u := SomeFreshThread(g1, t);
    var begun, ready, launched, running := WorkerStarts(g1.workers[p], t, u);
    var inside := At(With(g1, p, begun), M.InStart(k));
    ReachesBegun(cfg, g, g1, k, begun);
    ReachesRunning(cfg, g, inside, p, u, ready, launched, running);
    g2 := At(With(inside, p, running), M.StartAt(k + 1));
    ReachesReturned(cfg, g, With(inside, p, running), k);
    WithTwice(g1, p, begun, running);
    UpOneMore(cfg, g1, g2, t, k, running);
  }

  lemma UpOneMore(cfg: M.Config, g1: State, g2: State, t: ThreadId, k: nat, running: Worker.State)
    requires UpTo(cfg, g1, t, k) && k < M.Count(cfg) && running.core.state == Running && Worker.Inv(running)
    requires M.StartOrder(cfg, k) in g1.workers
    requires g2 == State(Starting, M.Caller(t, M.StartAt(k + 1)), g1.workers[M.StartOrder(cfg, k) := running])
    ensures UpTo(cfg, g2, t, k + 1)
  {
    forall q | q in g2.workers
      ensures g2.workers[q].core.state == if M.StartPlace(cfg, q) < k + 1 then Running else Stopped
    {
      M.OrdersCover(cfg, q, k);
    }
  }

  lemma {:induction false} ReachesAllUp(cfg: M.Config, g: State, g1: State, t: ThreadId, k: nat) returns (g2: State)
    requires Reaches(cfg, g, g1) && UpTo(cfg, g1, t, k)
    ensures Reaches(cfg, g, g2) && UpTo(cfg, g2, t, M.Count(cfg))
    decreases M.Count(cfg) - k
  {
    g2 := g1;
    if k < M.Count(cfg) {
      g2 := ReachesNextUp(cfg, g, g1, t, k);
      g2 := ReachesAllUp(cfg, g, g2, t, k + 1);
    }
  }

  lemma BeginsUp(cfg: M.Config, g: State, t: ThreadId)
    requires AllOk(g) && AllKnown(cfg, g)
    requires forall p :: p in g.workers ==> g.workers[p].core.state == Stopped
    ensures UpTo(cfg, g.(state := Starting, inside := M.Caller(t, M.StartAt(0))), t, 0)
  {}

  /** In a run, what the manager's state says of the processors while no call is inside. */
  lemma Settled(cfg: M.Config, run: seq<State>, steps: seq<Step>, i: nat)
    requires Run(cfg, run, steps) && i < |run|
    ensures AllOk(run[i]) && AllKnown(cfg, run[i])
    ensures run[i].inside == M.Nobody <==> run[i].state == Stopped || run[i].state == Running
    ensures run[i].inside == M.Nobody ==>
      forall p :: p in run[i].workers ==> run[i].workers[p].core.state == run[i].state
  {
    RunIsOk(cfg, run, steps, i);
    RunIsSeen(cfg, run, steps);
    M.RunKeeps(cfg, SeenRun(run), SeenSteps(steps), i);
    SettledSeen(cfg, run[i]);
  }

  lemma SettledSeen(cfg: M.Config, g: State)
    requires AllOk(g) && M.Inv(cfg, Seen(g))
    ensures AllKnown(cfg, g)
    ensures g.inside == M.Nobody <==> g.state == Stopped || g.state == Running
    ensures g.inside == M.Nobody ==> forall p :: p in g.workers ==> g.workers[p].core.state == g.state
  {
    forall p ensures p in g.workers <==> M.Registered(cfg, p) {
      assert p in Seen(g).procs <==> M.Registered(cfg, p);
    }
    if g.inside == M.Nobody {
      forall p | p in g.workers ensures g.workers[p].core.state == g.state {
        assert M.Arranged(cfg, g.state, g.inside, p, Seen(g).procs[p]);
      }
    }
  }

  /** A stopped manager whose configuration was accepted can be started by any thread: every processor comes up. */
  lemma StartCanSucceed(cfg: M.Config, run: seq<State>, before: seq<Step>, t: ThreadId) returns (g: State)
    requires Run(cfg, run, before) && run[|before|].state == Stopped && cfg.valid
    ensures Reaches(cfg, run[|before|], g) && g.state == Running
    ensures forall p :: p in g.workers ==> g.workers[p].core.state == Running
    ensures forall p :: p in g.workers <==>
      (p.kind == M.IO && p.index < cfg.io) || (p.kind == M.Logic && p.index < cfg.logic)
      || ((p.kind == M.Ticker || p.kind == M.Heartbeat) && p.index == 0)
  {
    var s := run[|before|];
    Settled(cfg, run, before, |before|);
    g := ReachesRunningManager(cfg, s, t);
  }

  lemma ReachesRunningManager(cfg: M.Config, s: State, t: ThreadId) returns (g: State)
    requires AllOk(s) && AllKnown(cfg, s) && s.state == Stopped && cfg.valid
    requires forall p :: p in s.workers ==> s.workers[p].core.state == Stopped
    ensures Reaches(cfg, s, g) && g.state == Running && AllKnown(cfg, g)
    ensures forall p :: p in g.workers ==> g.workers[p].core.state == Running
  {
    var entered := s.(state := Starting, inside := M.Caller(t, M.StartAt(0)));
    ReachesItself(cfg, s);
    ReachesOn(cfg, s, s, entered, DoStartEntry(t));
    BeginsUp(cfg, s, t);
    var up := ReachesAllUp(cfg, s, entered, t, 0);
    g := up.(state := Running, inside := M.Nobody);
    ReachesOn(cfg, s, up, g, DoStartDone);
    forall p | p in g.workers ensures g.workers[p].core.state == Running { M.OrdersCover(cfg, p, 0); }
  }

  // ---------- stopping ----------

  /** The call that stops the processors is t's, and t is none of their threads. */
  ghost predicate Stops(cfg: M.Config, g: State, t: ThreadId) {
    AllOk(g) && AllKnown(cfg, g) && g.state == Stopping && g.inside.Caller? && g.inside.t == t
    && forall p :: p in g.workers ==> t !in Owned(g.workers[p])
  }

  ghost predicate Settles(cfg: M.Config, g: State, p: M.Proc, j: nat) {
    p in g.workers
    && (g.workers[p].core.state == Stopped || (g.workers[p].core.state == Running && j <= M.StopPlace(cfg, p)))
  }

  /** The first j processors of the stop order are stopped. */
  ghost predicate DownTo(cfg: M.Config, g: State, t: ThreadId, j: nat) {
    Stops(cfg, g, t) && g.inside.pc.StopAt? && g.inside.pc.j == j <= M.Count(cfg)
    && forall p :: p in g.workers ==> Settles(cfg, g, p, j)
  }

  /** The call is inside the stop of the j-th processor. */
  ghost predicate StopsAt(cfg: M.Config, g: State, t: ThreadId, j: nat) {
    Stops(cfg, g, t) && g.inside.pc.InStop? && g.inside.pc.j == j < M.Count(cfg)
    && M.StopOrder(cfg, j) in g.workers
    && (forall p :: p in g.workers && p != M.StopOrder(cfg, j) ==> Settles(cfg, g, p, j))
    && var w := g.workers[M.StopOrder(cfg, j)];
       w.core.state == Stopped || (w.core.state == Stopping && t in w.calls)
  }

  lemma StaysAt(cfg: M.Config, g: State, t: ThreadId, j: nat, w: Worker.State)
    requires StopsAt(cfg, g, t, j) && Worker.Inv(w) && Owned(w) <= Owned(g.workers[M.StopOrder(cfg, j)])
    requires w.core.state == Stopped || (w.core.state == Stopping && t in w.calls)
    ensures StopsAt(cfg, With(g, M.StopOrder(cfg, j), w), t, j)
  {}

  /** A section that brings one processor closer to its stopped state. */
  lemma WorkerGoesDown(w: Worker.State, t: ThreadId) returns (w': Worker.State, move: Worker.Step)
    requires Worker.Inv(w) && w.core.state == Stopping && t in w.calls
    ensures Worker.Inv(w') && Owned(w') <= Owned(w) && Worker.Next(w, w', move)
    ensures w'.core.state == Stopped
         || (w'.core.state == Stopping && t in w'.calls && Worker.Work(w', t) < Worker.Work(w, t))
    ensures move == Worker.CallStep(t, false, 0, false) || move == Worker.WorkerStep || move == Worker.LoopStep
    ensures move.CallStep? ==> forall u :: Worker.Next(w, w', Worker.CallStep(t, false, u, false))
  {
    w', move := Worker.StoppingIsNeverStuck(w, t);
    Worker.StoppingWorkDecreases(w, w', move, t);
    Worker.NextKeeps(w, w', move);
    StopSpawnsNothing(w, w', t, move);
  }

  /** The same as a step of the manager. */
  lemma ReachesMoved(cfg: M.Config, g: State, g1: State, t: ThreadId, j: nat, w: Worker.State, move: Worker.Step)
    requires Reaches(cfg, g, g1) && InProcessor(cfg, g1) && g1.inside == M.Caller(t, g1.inside.pc)
    requires g1.inside.pc.InStop? && g1.inside.pc.j == j
    requires Worker.Next(g1.workers[M.StopOrder(cfg, j)], w, move)
    requires move == Worker.CallStep(t, false, 0, false) || move == Worker.WorkerStep || move == Worker.LoopStep
    requires move.CallStep? ==>
      forall u :: Worker.Next(g1.workers[M.StopOrder(cfg, j)], w, Worker.CallStep(t, false, u, false))
    ensures Reaches(cfg, g, With(g1, M.StopOrder(cfg, j), w))
  {
    var p := M.StopOrder(cfg, j);
    if move.CallStep? {
      var u := SomeFreshThread(g1, t);
      ReachesSection(cfg, g, g1, p, u, w);
    } else {
      ReachesOn(cfg, g, g1, With(g1, p, w), DoProcessor(p, move, w));
    }
  }

  lemma StopSpawnsNothing(w: Worker.State, w': Worker.State, t: ThreadId, step: Worker.Step)
    requires Worker.Inv(w) && w.core.state == Stopping && t in w.calls && Worker.Next(w, w', step)
    requires step == Worker.CallStep(t, false, 0, false) || step == Worker.WorkerStep || step == Worker.LoopStep
    ensures Owned(w') <= Owned(w)
    ensures step.CallStep? ==> forall u :: Worker.Next(w, w', Worker.CallStep(t, false, u, false))
  {}

  lemma {:induction false} ReachesDown(cfg: M.Config, g: State, g1: State, t: ThreadId, j: nat) returns (g2: State)
    requires Reaches(cfg, g, g1) && StopsAt(cfg, g1, t, j)
    ensures Reaches(cfg, g, g2) && StopsAt(cfg, g2, t, j) && g2.workers[M.StopOrder(cfg, j)].core.state == Stopped
    decreases if t in g1.workers[M.StopOrder(cfg, j)].calls then Worker.Work(g1.workers[M.StopOrder(cfg, j)], t) else 0
  {
    g2 := g1;
    var p := M.StopOrder(cfg, j);
    if g1.workers[p].core.state != Stopped {
      var w, move := WorkerGoesDown(g1.workers[p], t);
      ReachesMoved(cfg, g, g1, t, j, w, move);
      StaysAt(cfg, g1, t, j, w);
      g2 := With(g1, p, w);
      if w.core.state != Stopped { g2 := ReachesDown(cfg, g, g2, t, j); }
    }
  }

  /** Asking a running processor to stop gets in, and asking a stopped one changes nothing. */
  lemma WorkerStops(w: Worker.State, t: ThreadId) returns (after: Worker.State)
    requires Worker.Inv(w) && t !in Owned(w) && (w.core.state == Running || w.core.state == Stopped)
    ensures Worker.Next(w, after, Worker.StopCall(t)) && Worker.Inv(after) && Owned(after) == Owned(w)
    ensures !Worker.IsCurrentThread(w, t) && Worker.MayCall(w, t)
    ensures if w.core.state == Running then after.core.state == Stopping && t in after.calls else after == w
  {
    after := if w.core.state == Running
             then Worker.At(w.(core := StopBegun(w.core)), t, Worker.BeforeStopImpl(false)) else w;
    assert w.calls == map[];
    Worker.NextKeeps(w, after, Worker.StopCall(t));
  }

  lemma ReachesBack(cfg: M.Config, g: State, g1: State, j: nat)
    requires Reaches(cfg, g, g1) && InProcessor(cfg, g1) && g1.inside.pc.InStop? && g1.inside.pc.j == j
    requires g1.inside.t !in g1.workers[M.StopOrder(cfg, j)].calls
    ensures Reaches(cfg, g, At(g1, M.StopAt(j + 1, g1.inside.pc.reached)))
  {
    ReachesOn(cfg, g, g1, At(g1, M.StopAt(j + 1, g1.inside.pc.reached)), DoReturn);
  }

  lemma ReachesReturnedDown(cfg: M.Config, g: State, g1: State, t: ThreadId, j: nat) returns (g2: State)
    requires Reaches(cfg, g, g1) && StopsAt(cfg, g1, t, j)
    ensures Reaches(cfg, g, g2) && DownTo(cfg, g2, t, j + 1)
  {
    var down := ReachesDown(cfg, g, g1, t, j);
    NobodyInside(down.workers[M.StopOrder(cfg, j)]);
    ReachesBack(cfg, g, down, j);
    g2 := At(down, M.StopAt(j + 1, down.inside.pc.reached));
    OneMoreDown(cfg, down, g2, j);
  }

  lemma NobodyInside(w: Worker.State)
    requires Worker.Inv(w) && (w.core.state == Running || w.core.state == Stopped)
    ensures w.calls == map[]
  {}

  lemma OneMoreDown(cfg: M.Config, g1: State, g2: State, j: nat)
    requires j < M.Count(cfg) && M.StopOrder(cfg, j) in g1.workers && AllKnown(cfg, g1)
    requires g2.workers == g1.workers && g1.workers[M.StopOrder(cfg, j)].core.state == Stopped
    requires forall p :: p in g1.workers && p != M.StopOrder(cfg, j) ==> Settles(cfg, g1, p, j)
    ensures forall p :: p in g2.workers ==> Settles(cfg, g2, p, j + 1)
  {
    forall p | p in g2.workers
      ensures Settles(cfg, g2, p, j + 1)
    {
      M.OrdersCover(cfg, p, j);
      if p != M.StopOrder(cfg, j) { assert Settles(cfg, g1, p, j); }
    }
  }

  lemma ReachesStopBegun(cfg: M.Config, g: State, g1: State, t: ThreadId, j: nat, after: Worker.State)
    requires Reaches(cfg, g, g1) && g1.inside.Caller? && g1.inside.t == t && g1.inside.pc.StopAt?
    requires g1.inside.pc.j == j < M.Count(cfg) && M.StopOrder(cfg, j) in g1.workers
    requires var w := g1.workers[M.StopOrder(cfg, j)];
             Worker.Next(w, after, Worker.StopCall(t)) && !Worker.IsCurrentThread(w, t)
    ensures
      var p, reached := M.StopOrder(cfg, j), g1.inside.pc.reached;
      Reaches(cfg, g, if g1.workers[p].core.state == Running then At(With(g1, p, after), M.InStop(j, reached))
                      else At(g1, M.StopAt(j + 1, reached)))
  {
    var p, reached := M.StopOrder(cfg, j), g1.inside.pc.reached;
    ReachesOn(cfg, g, g1, if g1.workers[p].core.state == Running then At(With(g1, p, after), M.InStop(j, reached))
                          else At(g1, M.StopAt(j + 1, reached)), DoStopNext(after));
  }

  lemma ReachesNextDown(cfg: M.Config, g: State, g1: State, t: ThreadId, j: nat) returns (g2: State)
    requires Reaches(cfg, g, g1) && DownTo(cfg, g1, t, j) && j < M.Count(cfg)
    ensures Reaches(cfg, g, g2) && DownTo(cfg, g2, t, j + 1)
  {
    var p := M.StopOrder(cfg, j);
    M.OrdersCover(cfg, p, j);
    assert Settles(cfg, g1, p, j);
    var after := WorkerStops(g1.workers[p], t);
    ReachesStopBegun(cfg, g, g1, t, j, after);
    if g1.workers[p].core.state == Running {
      var inside := At(With(g1, p, after), M.InStop(j, g1.inside.pc.reached));
      InsideStop(cfg, g1, t, j, after);
      g2 := ReachesReturnedDown(cfg, g, inside, t, j);
    } else {
      g2 := At(g1, M.StopAt(j + 1, g1.inside.pc.reached));
      OneMoreDown(cfg, g1, g2, j);
    }
  }

  lemma InsideStop(cfg: M.Config, g: State, t: ThreadId, j: nat, after: Worker.State)
    requires DownTo(cfg, g, t, j) && j < M.Count(cfg) && M.StopOrder(cfg, j) in g.workers
    requires Worker.Inv(after) && Owned(after) == Owned(g.workers[M.StopOrder(cfg, j)])
    requires after.core.state == Stopping && t in after.calls
    ensures StopsAt(cfg, At(With(g, M.StopOrder(cfg, j), after), M.InStop(j, g.inside.pc.reached)), t, j)
  {
    var g' := At(With(g, M.StopOrder(cfg, j), after), M.InStop(j, g.inside.pc.reached));
    forall p | p in g'.workers && p != M.StopOrder(cfg, j)
      ensures Settles(cfg, g', p, j)
    {
      assert Settles(cfg, g, p, j);
    }
  }

  lemma {:induction false} ReachesAllDown(cfg: M.Config, g: State, g1: State, t: ThreadId, j: nat) returns (g2: State)
    requires Reaches(cfg, g, g1) && DownTo(cfg, g1, t, j)
    ensures Reaches(cfg, g, g2) && g2.state == Stopped && AllKnown(cfg, g2)
    ensures forall p :: p in g2.workers ==> g2.workers[p].core.state == Stopped
    decreases M.Count(cfg) - j
  {
    if j < M.Count(cfg) {
      g2 := ReachesNextDown(cfg, g, g1, t, j);
      g2 := ReachesAllDown(cfg, g, g2, t, j + 1);
    } else {
      g2 := g1.(state := Stopped, inside := M.Nobody);
      ReachesOn(cfg, g, g1, g2, DoStopDone);
      forall p | p in g2.workers ensures g2.workers[p].core.state == Stopped {
        M.OrdersCover(cfg, p, 0);
        assert Settles(cfg, g1, p, j);
      }
    }
  }

  lemma ProcessorSeenStopping(cfg: M.Config, g: State, p: M.Proc)
    requires p in g.workers && AllOk(g) && M.Inv(cfg, Seen(g)) && g.state == Stopping
    ensures g.inside.Caller? && (g.inside.pc.StopAt? || g.inside.pc.InStop?) && g.inside.t !in Owned(g.workers[p])
    ensures
      var j := g.inside.pc.j;
      j <= M.Count(cfg) && (g.inside.pc.InStop? ==> j < M.Count(cfg))
      && if g.inside.pc.StopAt? || p != M.StopOrder(cfg, j) then Settles(cfg, g, p, j)
         else g.workers[p].core.state == Stopped
              || (g.workers[p].core.state == Stopping && g.inside.t in g.workers[p].calls)
  {
    assert M.Arranged(cfg, g.state, g.inside, p, Seen(g).procs[p]) && p in Seen(g).procs;
    CallerShown(g.workers[p], g.inside.t);
    if g.inside.pc.InStop? { M.OrdersCover(cfg, p, g.inside.pc.j); }
  }

  /** In a run, a manager that is stopping is where the lemmas above go on from. */
  lemma StoppingSeen(cfg: M.Config, g: State)
    requires AllOk(g) && M.Inv(cfg, Seen(g)) && g.state == Stopping
    ensures g.inside.Caller?
    ensures (g.inside.pc.StopAt? && DownTo(cfg, g, g.inside.t, g.inside.pc.j))
         || (g.inside.pc.InStop? && StopsAt(cfg, g, g.inside.t, g.inside.pc.j))
  {
    SettledSeen(cfg, g);
    var any := M.Proc(M.Ticker, 0);
    ProcessorSeenStopping(cfg, g, any);
    var t, j := g.inside.t, g.inside.pc.j;
    forall p | p in g.workers
      ensures t !in Owned(g.workers[p])
      ensures g.inside.pc.StopAt? || p != M.StopOrder(cfg, j) ==> Settles(cfg, g, p, j)
      ensures g.inside.pc.InStop? && p == M.StopOrder(cfg, j) ==>
        g.workers[p].core.state == Stopped || (g.workers[p].core.state == Stopping && t in g.workers[p].calls)
    {
      ProcessorSeenStopping(cfg, g, p);
    }
    if g.inside.pc.InStop? { M.OrdersCover(cfg, any, j); }
  }

  /** A stop, or the unwinding of a start that failed, can be carried to its end from wherever it is. */
  lemma StopCanComplete(cfg: M.Config, run: seq<State>, before: seq<Step>) returns (g: State)
    requires Run(cfg, run, before) && run[|before|].state == Stopping
    ensures Reaches(cfg, run[|before|], g) && g.state == Stopped && g.workers.Keys == run[|before|].workers.Keys
    ensures forall p :: p in g.workers ==> g.workers[p].core.state == Stopped
  {
    var s := run[|before|];
    RunIsOk(cfg, run, before, |before|);
    RunIsSeen(cfg, run, before);
    M.RunKeeps(cfg, SeenRun(run), SeenSteps(before), |before|);
    StoppingSeen(cfg, s);
    g := ReachesStoppedManager(cfg, s, s.inside.t, s.inside.pc.j);
  }

  lemma ReachesStoppedFrom(cfg: M.Config, s: State, g1: State, t: ThreadId, j: nat) returns (g: State)
    requires Reaches(cfg, s, g1) && DownTo(cfg, g1, t, j) && AllKnown(cfg, s)
    ensures Reaches(cfg, s, g) && g.state == Stopped && g.workers.Keys == s.workers.Keys
    ensures forall p :: p in g.workers ==> g.workers[p].core.state == Stopped
  {
    g := ReachesAllDown(cfg, s, g1, t, j);
    SameProcessors(cfg, s, g);
  }

  lemma SameProcessors(cfg: M.Config, s: State, g: State)
    requires AllKnown(cfg, s) && AllKnown(cfg, g)
    ensures g.workers.Keys == s.workers.Keys
  {}

  lemma ReachesStoppedManager(cfg: M.Config, s: State, t: ThreadId, j: nat) returns (g: State)
    requires DownTo(cfg, s, t, j) || StopsAt(cfg, s, t, j)
    ensures Reaches(cfg, s, g) && g.state == Stopped && g.workers.Keys == s.workers.Keys
    ensures forall p :: p in g.workers ==> g.workers[p].core.state == Stopped
  {
    ReachesItself(cfg, s);
    if DownTo(cfg, s, t, j) {
      g := ReachesStoppedFrom(cfg, s, s, t, j);
    } else {
      g := ReachesReturnedDown(cfg, s, s, t, j);
      g := ReachesStoppedFrom(cfg, s, g, t, j + 1);
    }
  }

  /** A running manager lets any thread begin a stop that none of its processors owns. */
  lemma StopCanBegin(cfg: M.Config, run: seq<State>, before: seq<Step>, t: ThreadId) returns (g: State)
    requires Run(cfg, run, before) && run[|before|].state == Running
    requires forall p :: p in run[|before|].workers ==>
      var w := run[|before|].workers[p];
      (w.worker.NoWorker? || t != w.workerId) && (w.loop.NoLoop? || t != w.loopId)
    ensures Next(cfg, run[|before|], g, DoStopEntry(t)) && g.state == Stopping && g.workers == run[|before|].workers
  {
    var s := run[|before|];
    Settled(cfg, run, before, |before|);
    forall p | p in s.workers
      ensures Worker.MayCall(s.workers[p], t) && !Worker.IsCurrentThread(s.workers[p], t)
    {
      var after := WorkerStops(s.workers[p], t);
    }
    g := s.(state := Stopping, inside := M.Caller(t, M.StopAt(0, M.Count(cfg))));
  }
}
