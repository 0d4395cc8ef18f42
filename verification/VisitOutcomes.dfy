/**
 What the lock sections of the client manager do in every run, field by field, and what user code
 can always go on to do. ClientVisits says what stays true over these sections.
 */
module VisitOutcomes {
  import opened ClientEntries
  import opened ClientVisits
  import opened Wrappers

  // ---------- what a section does ----------

  /**
   A call that has looked a client up is refused only when the client is being removed, waits only
   while somebody else visits it, and otherwise visits it. The guard for the visiting thread decides nothing.
   */
  lemma TryOutcome(run: seq<State>, actors: seq<ThreadId>, actions: seq<Action>, i: nat, c: ClientId)
    requires Run(run, actors, actions) && i < |actions| && actions[i] == DoTry(c)
    ensures c in run[i].entries && actors[i] in run[i].threads && actors[i] in run[i + 1].threads
    ensures run[i].threads[actors[i]].stack.Push? && !run[i].threads[actors[i]].isVisiting
    ensures
      var e, was, now := run[i].entries[c], run[i].threads[actors[i]], run[i + 1].threads[actors[i]];
      if e.removing then now == Thread(was.stack.below, false) && run[i + 1].entries == run[i].entries
      else if e.visitActive then
        now == Thread(Push(Sleeping(c), was.stack.below), false) && run[i + 1].entries == run[i].entries
        && e.visitor != Some(actors[i])
      else now == Thread(Push(Visiting(c), was.stack.below), true) && Visits(run[i + 1], actors[i], c)
           && run[i + 1].entries == run[i].entries[c := Entry(true, true, Some(actors[i]), false, 0)]
  {
    RunKeeps(run, actors, actions, i);
    assert Next(run[i], run[i + 1], actors[i], actions[i]);
    StepTries(run[i], run[i + 1], actors[i], c);
  }

  lemma StepTries(s: State, s': State, t: ThreadId, c: ClientId)
    requires Inv(s) && Try(s, s', t, c)
    ensures c in s.entries && t in s.threads && s.threads[t].stack.Push? && !s.threads[t].isVisiting
    ensures t in s'.threads
    ensures
      var e, was, now := s.entries[c], s.threads[t], s'.threads[t];
      if e.removing then now == Thread(was.stack.below, false) && s'.entries == s.entries
      else if e.visitActive then
        now == Thread(Push(Sleeping(c), was.stack.below), false) && s'.entries == s.entries && e.visitor != Some(t)
      else now == Thread(Push(Visiting(c), was.stack.below), true) && Visits(s', t, c)
           && s'.entries == s.entries[c := Entry(true, true, Some(t), false, 0)]
  {
    GuardNeverHit(s, t, c);
    assert ThreadOk(s.threads[t]) && EntryOk(s.entries[c]);
  }

  /** A mark sets the flag, takes the client exactly when nobody visits it, and wakes everyone waiting on it. */
  lemma MarkOutcome(run: seq<State>, actors: seq<ThreadId>, actions: seq<Action>, i: nat, pending: seq<ClientId>)
    requires Run(run, actors, actions) && i < |actions| && actions[i] == DoMark(pending)
    ensures pending != [] && pending[0] in run[i].entries && actors[i] in run[i].threads
    ensures run[i].threads[actors[i]].stack.Push? && run[i].threads.Keys == run[i + 1].threads.Keys
    ensures
      var e, after := run[i].entries[pending[0]], run[i + 1].entries[pending[0]];
      && run[i + 1].entries == run[i].entries[pending[0] := after]
      && after.removing && (after.hasClient <==> e.visitActive)
      && after.visitActive == e.visitActive && after.visitor == e.visitor
    ensures
      var e, below := run[i].entries[pending[0]], run[i].threads[actors[i]].stack.below;
      run[i + 1].threads[actors[i]].stack ==
        if e.hasClient && !e.visitActive then Push(Destroying(pending[0]), Push(Removing(pending[1..]), below))
        else Push(Removing(pending[1..]), below)
    ensures forall u :: u in run[i].threads && u != actors[i] ==>
      run[i + 1].threads[u] ==
        if WaitsOn(run[i], u, pending[0])
        then Thread(Push(Woken(pending[0]), run[i].threads[u].stack.below), run[i].threads[u].isVisiting)
        else run[i].threads[u]
  {
    RunKeeps(run, actors, actions, i);
    assert Next(run[i], run[i + 1], actors[i], actions[i]);
    assert EntryOk(run[i].entries[pending[0]]);
  }

  predicate WaitsOn(s: State, t: ThreadId, c: ClientId) {
    t in s.threads && s.threads[t].stack.Push? && s.threads[t].stack.top == Sleeping(c)
  }

  /** Ending a visit clears it and takes the client exactly when its removal was asked for meanwhile. */
  lemma FinishOutcome(run: seq<State>, actors: seq<ThreadId>, actions: seq<Action>, i: nat, c: ClientId)
    requires Run(run, actors, actions) && i < |actions| && actions[i].DoFinish? && actions[i].c == c
    ensures c in run[i].entries && actors[i] in run[i].threads && actors[i] in run[i + 1].threads
    ensures run[i].threads[actors[i]].stack.Push? && run[i].entries[c].visitor == Some(actors[i])
    ensures
      var e, below := run[i].entries[c], run[i].threads[actors[i]].stack.below;
      if e.removing then run[i + 1].entries == run[i].entries[c := Entry(false, false, None, true, 1)]
                         && run[i + 1].threads[actors[i]] == Thread(Push(Destroying(c), below), false)
      else run[i + 1].entries == run[i].entries[c := Entry(true, false, None, false, 0)]
           && run[i + 1].threads[actors[i]] == Thread(below, false)
    ensures !Visits(run[i + 1], actors[i], c)
  {
    RunKeeps(run, actors, actions, i);
    assert Next(run[i], run[i + 1], actors[i], actions[i]);
    StepFinishes(run[i], run[i + 1], actors[i], c, actions[i].who);
  }

  lemma StepFinishes(s: State, s': State, t: ThreadId, c: ClientId, who: set<ThreadId>)
    requires Inv(s) && Finish(s, s', t, c, who)
    ensures c in s.entries && t in s.threads && t in s'.threads && s.threads[t].stack.Push?
    ensures s.entries[c].visitor == Some(t) && !Visits(s', t, c)
    ensures
      var e, below := s.entries[c], s.threads[t].stack.below;
      if e.removing then s'.entries == s.entries[c := Entry(false, false, None, true, 1)]
                         && s'.threads[t] == Thread(Push(Destroying(c), below), false)
      else s'.entries == s.entries[c := Entry(true, false, None, false, 0)] && s'.threads[t] == Thread(below, false)
  {
    assert Held(s.threads[t].stack) == Some(c);
    assert ThreadOk(s.threads[t]) && EntryOk(s.entries[c]);
    IdleHoldsNothing(s.threads[t].stack.below);
  }

  /** Ending a visit wakes a thread that waits on the entry, whenever there is one. */
  lemma FinishWakes(run: seq<State>, actors: seq<ThreadId>, actions: seq<Action>, i: nat, c: ClientId, u: ThreadId)
    returns (v: ThreadId)
    requires Run(run, actors, actions) && i < |actions| && actions[i].DoFinish? && actions[i].c == c
    requires WaitsOn(run[i], u, c)
    ensures WaitsOn(run[i], v, c) && v in run[i + 1].threads
    ensures run[i + 1].threads[v] == Thread(Push(Woken(c), run[i].threads[v].stack.below), run[i].threads[v].isVisiting)
  {
    assert Next(run[i], run[i + 1], actors[i], actions[i]);
    assert SleepsOn(run[i], u, c);
    v :| SleepsOn(run[i], v, c) && actions[i].who == {v};
  }

  // ---------- what user code can go on to do ----------

  /** At top level, in a created or destroyed callback, or in a visitor. */
  predicate RunsUserCode(s: State, t: ThreadId) {
    t in s.threads
    && (s.threads[t].stack.Push? ==>
          s.threads[t].stack.top.Creating? || s.threads[t].stack.top.Destroying? || s.threads[t].stack.top.Visiting?)
  }

  /** A client of the map that nobody visits can be visited by any thread that is not inside a visit. */
  lemma VisitCanBegin(run: seq<State>, actors: seq<ThreadId>, actions: seq<Action>, t: ThreadId, c: ClientId)
    returns (looked: State, entered: State)
    requires Run(run, actors, actions) && RunsUserCode(run[|actors|], t) && !run[|actors|].threads[t].isVisiting
    requires c in run[|actors|].clients && (c in run[|actors|].entries ==> !run[|actors|].entries[c].visitActive)
    ensures Next(run[|actors|], looked, t, DoLookUp(c)) && Next(looked, entered, t, DoTry(c))
    ensures entered.threads ==
      run[|actors|].threads[t := Thread(Push(Visiting(c), run[|actors|].threads[t].stack), true)]
    ensures entered.entries == run[|actors|].entries[c := Entry(true, true, Some(t), false, 0)]
  {
    RunKeeps(run, actors, actions, |actors|);
    looked, entered := LookUpAndEnter(run[|actors|], t, c);
  }

  lemma LookUpAndEnter(s: State, t: ThreadId, c: ClientId) returns (looked: State, entered: State)
    requires RunsUserCode(s, t) && !s.threads[t].isVisiting && IdsOk(s) && EntriesOk(s) && HoldersOk(s)
    requires c in s.clients && (c in s.entries ==> !s.entries[c].visitActive)
    ensures Next(s, looked, t, DoLookUp(c)) && Next(looked, entered, t, DoTry(c))
    ensures entered.threads == s.threads[t := Thread(Push(Visiting(c), s.threads[t].stack), true)]
    ensures entered.entries == s.entries[c := Entry(true, true, Some(t), false, 0)]
  {
    assert EntryOk(s.entries[c]);
    looked := SetThread(s, t, Thread(Push(LookedUp(c), s.threads[t].stack), false));
    entered := SetThread(WithEntry(looked, c, Visited(s.entries[c], t)), t,
                         Thread(Push(Visiting(c), s.threads[t].stack), true));
  }

  /** While ids are left, user code can add a client: it gets the next id and an idle entry of its own. */
  lemma CreationCanFinish(run: seq<State>, actors: seq<ThreadId>, actions: seq<Action>, t: ThreadId)
    returns (created: State, inserted: State)
    requires Run(run, actors, actions) && RunsUserCode(run[|actors|], t) && run[|actors|].nextId != 0
    ensures Next(run[|actors|], created, t, DoCreate)
    ensures Next(created, inserted, t, DoInsert(run[|actors|].nextId))
    ensures run[|actors|].nextId !in run[|actors|].entries && inserted.threads == run[|actors|].threads
    ensures inserted.clients == run[|actors|].clients + {run[|actors|].nextId}
    ensures inserted.entries == run[|actors|].entries[run[|actors|].nextId := Entry(true, false, None, false, 0)]
    ensures inserted.nextId ==
      if run[|actors|].nextId == 0xFFFF_FFFF_FFFF_FFFF then 0 else run[|actors|].nextId + 1
  {
    var s := run[|actors|];
    RunKeeps(run, actors, actions, |actors|);
    created := Stacked(s, t, Push(Creating(s.nextId), s.threads[t].stack)).(nextId := IdAfter(s.nextId));
    inserted := Stacked(WithEntry(created, s.nextId, NEW_ENTRY).(clients := s.clients + {s.nextId}), t,
                        s.threads[t].stack);
    assert inserted.threads == s.threads;
  }

  /** User code can remove any client of the map; without a visit under way the destruction comes next. */
  lemma RemovalCanFinish(run: seq<State>, actors: seq<ThreadId>, actions: seq<Action>, t: ThreadId, c: ClientId)
    returns (detached: State, marked: State)
    requires Run(run, actors, actions) && RunsUserCode(run[|actors|], t) && c in run[|actors|].clients
    ensures c in run[|actors|].entries
    ensures Next(run[|actors|], detached, t, DoRemove(c)) && Next(detached, marked, t, DoMark([c]))
    ensures detached.clients == marked.clients == run[|actors|].clients - {c}
    ensures t in marked.threads
    ensures
      var e, k := run[|actors|].entries[c], run[|actors|].threads[t].stack;
      if e.visitActive then marked.entries == run[|actors|].entries[c := Entry(true, true, e.visitor, true, 0)]
                            && marked.threads[t].stack == Push(Removing([]), k)
      else marked.entries == run[|actors|].entries[c := Entry(false, false, None, true, 1)]
           && marked.threads[t].stack == Push(Destroying(c), Push(Removing([]), k))
  {
    RunKeeps(run, actors, actions, |actors|);
    detached, marked := DetachAndMark(run[|actors|], t, c);
  }

  lemma DetachAndMark(s: State, t: ThreadId, c: ClientId) returns (detached: State, marked: State)
    requires RunsUserCode(s, t) && IdsOk(s) && EntriesOk(s) && c in s.clients
    ensures c in s.entries && Next(s, detached, t, DoRemove(c)) && Next(detached, marked, t, DoMark([c]))
    ensures detached.clients == marked.clients == s.clients - {c} && t in marked.threads
    ensures
      var e, k := s.entries[c], s.threads[t].stack;
      if e.visitActive then marked.entries == s.entries[c := Entry(true, true, e.visitor, true, 0)]
                            && marked.threads[t].stack == Push(Removing([]), k)
      else marked.entries == s.entries[c := Entry(false, false, e.visitor, true, 1)]
           && marked.threads[t].stack == Push(Destroying(c), Push(Removing([]), k))
  {
    assert EntryOk(s.entries[c]);
    detached := Stacked(s, t, Push(Removing([c]), s.threads[t].stack)).(clients := s.clients - {c});
    assert [c][1..] == [];
    marked := MarkCore(Awaken(detached, detached.threads.Keys, c), t, [c]);
  }

  /** User code can remove every client at once, in any order. */
  lemma RemovalOfAllCanBegin(run: seq<State>, actors: seq<ThreadId>, actions: seq<Action>, t: ThreadId,
                             order: seq<ClientId>)
    returns (detached: State)
    requires Run(run, actors, actions) && RunsUserCode(run[|actors|], t)
    requires forall c :: c in order <==> c in run[|actors|].clients
    ensures Next(run[|actors|], detached, t, DoRemoveAll(order)) && detached.clients == {} && t in detached.threads
    ensures detached.threads[t].stack == Push(Removing(order), run[|actors|].threads[t].stack)
    ensures detached.entries == run[|actors|].entries
  {
    var s := run[|actors|];
    detached := Stacked(s, t, Push(Removing(order), s.threads[t].stack)).(clients := {});
  }
}
