/**
 One processor as the manager sees it: lifecycle state, who is inside Start or Stop, which threads
 it owns, and the tasks accepted and processed since the last start. The lemmas show that every
 step of the worker protocol is a step of this view.
 */
module ProcessorView {
  import opened ProcessorSections
  import opened Wrappers
  import Worker

  datatype View = View(
    state: EState, caller: Option<ThreadId>, undoing: bool, owned: set<ThreadId>, accepted: seq<Task>,
    processed: seq<Task>)

  ghost predicate Ok(v: View) {
    && (v.caller.Some? <==> v.state == Starting || v.state == Stopping)
    && (v.state == Stopped ==> v.owned == {})
    && v.processed <= v.accepted
  }

  /** Pushes, the worker and the long-running thread: the lifecycle does not move. */
  ghost predicate Works(v: View, v': View) {
    && v' == v.(accepted := v'.accepted, processed := v'.processed)
    && v.accepted <= v'.accepted && v.processed <= v'.processed <= v'.accepted
    && (Closed(v.state) ==> v'.accepted == v.accepted)
    && (v.state == Stopped ==> v' == v)
  }

  ghost predicate BeginsStart(v: View, v': View, t: ThreadId) {
    v.state == Stopped && v' == View(Starting, Some(t), false, {}, [], [])
  }

  ghost predicate BeginsStop(v: View, v': View, t: ThreadId) {
    v.state == Running && t !in v.owned && v' == v.(state := Stopping, caller := Some(t), undoing := false)
  }

  /** A section of the call that is inside; `spawned` are the threads it launches. */
  ghost predicate Progresses(v: View, v': View, t: ThreadId, spawned: set<ThreadId>) {
    && v.caller == Some(t) && v'.accepted == v.accepted && v'.processed == v.processed && v'.owned <= v.owned + spawned
    && (v.state == Starting ==>
          || (v'.state == Starting && v'.caller == v.caller && !v'.undoing)
          || (v'.state == Running && v'.caller == None && !v'.undoing)
          || (v'.state == Stopping && v'.caller == v.caller && v'.undoing))
    && (v.state == Stopping ==>
          || (v'.state == Stopping && v'.caller == v.caller && v'.undoing == v.undoing)
          || (v'.state == Stopped && v'.caller == None && v'.owned == {} && !v'.undoing
              && v'.processed == if v.undoing then [] else v'.accepted))
  }

  // ---------- the worker protocol shows this view ----------

  function Owned(s: Worker.State): set<ThreadId> {
    (if Worker.WorkerLives(s) then {s.workerId} else {}) + (if Worker.LoopLives(s) then {s.loopId} else {})
  }

  ghost predicate Shows(s: Worker.State, v: View) {
    && v.state == s.core.state && v.owned == Owned(s) && v.accepted == s.accepted && v.processed == s.processed
    && (if v.caller == None then s.calls == map[] && !v.undoing
        else s.calls.Keys == {v.caller.value}
             && v.undoing == (Worker.Undoing(s.calls[v.caller.value]) && s.calls[v.caller.value].failed))
  }

  lemma ShownIsOk(s: Worker.State, v: View)
    requires Worker.Inv(s) && Shows(s, v)
    ensures Ok(v)
  {
    if v.caller.Some? { assert v.caller.value in s.calls; }
  }

  predicate Internal(step: Worker.Step) {
    step.Push? || step.NotifyPush? || step.WorkerStep? || step.WakeSpuriously? || step.LoopStep?
  }

  /** The calls stand still while a processor works by itself. */
  lemma WorkingShows(s: Worker.State, s': Worker.State, v: View, v': View)
    requires Shows(s, v) && Shows(s', v') && s'.calls == s.calls && s'.core.state == s.core.state
    requires Owned(s') == Owned(s)
    ensures v' == v.(accepted := s'.accepted, processed := s'.processed)
  {}

  lemma InternalStepsStay(s: Worker.State, s': Worker.State, step: Worker.Step)
    requires Worker.IdentityOk(s) && Worker.Next(s, s', step) && Internal(step)
    ensures s'.calls == s.calls && s'.core.state == s.core.state && Owned(s') == Owned(s)
    ensures s.accepted <= s'.accepted && s.processed <= s'.processed
    ensures Closed(s.core.state) ==> s'.accepted == s.accepted
    ensures !Worker.WorkerLives(s) ==> s'.processed == s.processed
  {}

  lemma InternalStepsWork(s: Worker.State, s': Worker.State, step: Worker.Step, v: View, v': View)
    requires Worker.Inv(s) && Worker.Next(s, s', step) && Internal(step) && Shows(s, v) && Shows(s', v')
    ensures Works(v, v')
  {
    Worker.NextKeeps(s, s', step);
    InternalStepsStay(s, s', step);
    WorkingShows(s, s', v, v');
  }

  lemma CallStepsProgress(s: Worker.State, s': Worker.State, t: ThreadId, fails: bool, spawned: ThreadId, spawns: bool,
                          v: View, v': View)
    requires Worker.Inv(s) && Worker.CallMoves(s, s', t, fails, spawned, spawns) && Shows(s, v) && Shows(s', v')
    ensures Progresses(v, v', t, {spawned})
  {
    assert t in s.calls;
    if t in s'.calls { assert v'.caller == Some(t); }
  }

  /** A start or stop call either begins, as the view says, or changes nothing. */
  lemma CallsBegin(s: Worker.State, s': Worker.State, step: Worker.Step, v: View, v': View)
    requires Worker.Inv(s) && Worker.Next(s, s', step) && Shows(s, v) && Shows(s', v')
    ensures step.StartCall? ==> if v.state == Stopped then BeginsStart(v, v', step.t) else s' == s
    ensures step.StopCall? ==> if v.state == Running && step.t !in v.owned then BeginsStop(v, v', step.t) else s' == s
  {
    if step.StartCall? && s' != s { assert step.t in s'.calls; }
    if step.StopCall? && s' != s { assert step.t in s'.calls; }
  }

  // ---------- whole runs ----------

  /** What the manager sees of a processor in a state its protocol can be in. */
  ghost function ViewOf(s: Worker.State): (v: View)
    requires Worker.Inv(s)
    ensures Shows(s, v)
  {
    if s.calls == map[] then View(s.core.state, None, false, Owned(s), s.accepted, s.processed)
    else
      var t :| t in s.calls;
      assert s.calls.Keys == {t};
      View(s.core.state, Some(t), Worker.Undoing(s.calls[t]) && s.calls[t].failed, Owned(s), s.accepted, s.processed)
  }

  ghost predicate Follows(v: View, v': View, step: Worker.Step) {
    match step
    case StartCall(t) => if v.state == Stopped then BeginsStart(v, v', t) else v' == v
    case StopCall(t) => if v.state == Running && t !in v.owned then BeginsStop(v, v', t) else v' == v
    case CallStep(t, _, spawned, _) => Progresses(v, v', t, {spawned})
    case _ => Works(v, v')
  }

  /** Refinement: along every run of the worker protocol the view makes sense, and every step is one of the view. */
  lemma RunsShowTheView(run: seq<Worker.State>, steps: seq<Worker.Step>, i: nat)
    requires Worker.Run(run, steps) && i < |steps|
    ensures Worker.Inv(run[i]) && Worker.Inv(run[i + 1])
    ensures Ok(ViewOf(run[i])) && Follows(ViewOf(run[i]), ViewOf(run[i + 1]), steps[i])
  {
    Worker.RunKeeps(run, steps, i);
    Worker.RunKeeps(run, steps, i + 1);
    var s, s', step := run[i], run[i + 1], steps[i];
    var v, v' := ViewOf(s), ViewOf(s');
    ShownIsOk(s, v);
    match step
    case StartCall(_) => CallsBegin(s, s', step, v, v');
    case StopCall(_) => CallsBegin(s, s', step, v, v');
    case CallStep(t, fails, spawned, spawns) => CallStepsProgress(s, s', t, fails, spawned, spawns, v, v');
    case _ => InternalStepsWork(s, s', step, v, v');
  }
}
