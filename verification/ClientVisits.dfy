/**
 The visit and removal protocol of the client manager, for any number of threads and every
 interleaving of their lock sections.

 A thread is a stack of the client-manager calls it is inside, because visitors and the created
 and destroyed callbacks may call the manager again. Only the innermost call of a thread moves.
 */
module ClientVisits {
  import opened ClientEntries
  import opened Words
  import opened Wrappers

  type ClientId = uint64

  /** Where a call stands between two lock sections. */
  datatype Frame =
    | Creating(id: ClientId)              // id issued, created callback running
    | LookedUp(id: ClientId)              // found the entry, about to lock it
    | Sleeping(id: ClientId)              // waiting on the entry's condition
    | Woken(id: ClientId)                 // awake again, about to test the condition
    | Visiting(id: ClientId)              // visitor running
    | Finishing(id: ClientId)             // visitor returned or threw
    | Removing(pending: seq<ClientId>)    // entries taken out of the map, still to be marked
    | Destroying(id: ClientId)            // owns the client, destroyed callback running

  datatype Stack = Empty | Push(top: Frame, below: Stack)

  /** `isVisiting` is the thread-local flag. */
  datatype Thread = Thread(stack: Stack, isVisiting: bool)

  datatype State = State(
    nextId: ClientId, clients: set<ClientId>, entries: map<ClientId, Entry>, threads: map<ThreadId, Thread>)

  // ---------- steps ----------

  /** User code is running: at top level, in a visitor, or in a callback. */
  predicate MayCall(k: Stack) {
    k.Empty? || k.top.Visiting? || k.top.Destroying? || k.top.Creating?
  }

  function SetThread(s: State, t: ThreadId, th: Thread): State {
    s.(threads := s.threads[t := th])
  }

  /** The thread with another stack. */
  function Stacked(s: State, t: ThreadId, k: Stack): State
    requires t in s.threads
  {
    SetThread(s, t, Thread(k, s.threads[t].isVisiting))
  }

  function WithEntry(s: State, c: ClientId, e: Entry): State {
    s.(entries := s.entries[c := e])
  }

  predicate TopIs(s: State, t: ThreadId, f: Frame) {
    t in s.threads && s.threads[t].stack.Push? && s.threads[t].stack.top == f
  }

  predicate SleepsOn(s: State, t: ThreadId, c: ClientId) { TopIs(s, t, Sleeping(c)) }

  predicate WokenOn(s: State, t: ThreadId, c: ClientId) { TopIs(s, t, Woken(c)) }

  function Awake(th: Thread, c: ClientId): Thread {
    if th.stack.Push? && th.stack.top == Sleeping(c) then th.(stack := Push(Woken(c), th.stack.below)) else th
  }

  /** Some of the threads asleep on c wake up. */
  function Awaken(s: State, who: set<ThreadId>, c: ClientId): State {
    s.(threads := map t | t in s.threads :: if t in who then Awake(s.threads[t], c) else s.threads[t])
  }

  /** The stack to go on with: the destruction comes first when the client was just taken. */
  function AfterTaking(e: Entry, after: Entry, c: ClientId, k: Stack): Stack {
    if after.destroyed > e.destroyed then Push(Destroying(c), k) else k
  }

  ghost predicate Create(s: State, s': State, t: ThreadId) {
    t in s.threads && MayCall(s.threads[t].stack) && s.nextId != INVALID_CLIENT_ID
    && s' == Stacked(s, t, Push(Creating(s.nextId), s.threads[t].stack)).(nextId := IdAfter(s.nextId))
  }

  ghost predicate Insert(s: State, s': State, t: ThreadId, c: ClientId) {
    TopIs(s, t, Creating(c))
    && var inserted := if c in s.clients then s else WithEntry(s, c, NEW_ENTRY).(clients := s.clients + {c});
       s' == Stacked(inserted, t, s.threads[t].stack.below)
  }

  ghost predicate Remove(s: State, s': State, t: ThreadId, c: ClientId) {
    t in s.threads && MayCall(s.threads[t].stack) && c in s.clients
    && s' == Stacked(s, t, Push(Removing([c]), s.threads[t].stack)).(clients := s.clients - {c})
  }

  ghost predicate RemoveAll(s: State, s': State, t: ThreadId, order: seq<ClientId>) {
    t in s.threads && MayCall(s.threads[t].stack) && (forall c :: c in order <==> c in s.clients)
    && s' == Stacked(s, t, Push(Removing(order), s.threads[t].stack)).(clients := {})
  }

  /** Marks the next entry of a removal and wakes everyone waiting on it. */
  ghost predicate Mark(s: State, s': State, t: ThreadId, pending: seq<ClientId>) {
    TopIs(s, t, Removing(pending)) && pending != [] && pending[0] in s.entries
    && var awake := Awaken(s, s.threads.Keys, pending[0]);
       s' == MarkCore(awake, t, pending)
  }

  function MarkCore(s: State, t: ThreadId, pending: seq<ClientId>): State
    requires TopIs(s, t, Removing(pending)) && pending != [] && pending[0] in s.entries
  {
    var c := pending[0];
    var after := Marked(s.entries[c]);
    Stacked(WithEntry(s, c, after), t,
            AfterTaking(s.entries[c], after, c, Push(Removing(pending[1..]), s.threads[t].stack.below)))
  }

  ghost predicate Return(s: State, s': State, t: ThreadId) {
    t in s.threads && s.threads[t].stack.Push?
    && (s.threads[t].stack.top.Destroying? || s.threads[t].stack.top == Removing([]))
    && s' == Stacked(s, t, s.threads[t].stack.below)
  }

  ghost predicate LookUp(s: State, s': State, t: ThreadId, c: ClientId) {
    t in s.threads && MayCall(s.threads[t].stack) && !s.threads[t].isVisiting && c in s.clients
    && s' == Stacked(s, t, Push(LookedUp(c), s.threads[t].stack))
  }

  /** The first-pass guard: the calling thread is the one visiting. */
  predicate GuardHit(s: State, t: ThreadId, c: ClientId)
    requires c in s.entries
  {
    s.entries[c].visitActive && s.entries[c].visitor == Some(t)
  }

  ghost predicate Try(s: State, s': State, t: ThreadId, c: ClientId) {
    (TopIs(s, t, LookedUp(c)) || TopIs(s, t, Woken(c))) && c in s.entries
    && var below := s.threads[t].stack.below;
       if TopIs(s, t, LookedUp(c)) && GuardHit(s, t, c) then s' == Stacked(s, t, below)
       else match TryEnter(s.entries[c])
         case Refused => s' == Stacked(s, t, below)
         case MustWait => s' == Stacked(s, t, Push(Sleeping(c), below))
         case Entered => s' == SetThread(WithEntry(s, c, Visited(s.entries[c], t)), t,
                                         Thread(Push(Visiting(c), below), true))
  }

  ghost predicate WakeSpuriously(s: State, s': State, t: ThreadId, c: ClientId) {
    SleepsOn(s, t, c) && s' == Awaken(s, {t}, c)
  }

  /** The visitor returns or throws; both ways clear the flag first. */
  ghost predicate EndVisitor(s: State, s': State, t: ThreadId, c: ClientId) {
    TopIs(s, t, Visiting(c))
    && s' == SetThread(s, t, Thread(Push(Finishing(c), s.threads[t].stack.below), false))
  }

  /** One notification: it wakes one sleeper, whichever, when there is any. */
  ghost predicate NotifiesOne(s: State, who: set<ThreadId>, c: ClientId) {
    if exists u: ThreadId :: SleepsOn(s, u, c) then exists u: ThreadId :: SleepsOn(s, u, c) && who == {u} else who == {}
  }

  ghost predicate Finish(s: State, s': State, t: ThreadId, c: ClientId, who: set<ThreadId>) {
    TopIs(s, t, Finishing(c)) && c in s.entries && NotifiesOne(s, who, c)
    && s' == FinishCore(Awaken(s, who, c), t, c)
  }

  function FinishCore(s: State, t: ThreadId, c: ClientId): State
    requires TopIs(s, t, Finishing(c)) && c in s.entries
  {
    var after := Finished(s.entries[c]);
    Stacked(WithEntry(s, c, after), t, AfterTaking(s.entries[c], after, c, s.threads[t].stack.below))
  }

  datatype Action =
    | DoCreate | DoInsert(c: ClientId) | DoRemove(c: ClientId) | DoRemoveAll(order: seq<ClientId>)
    | DoMark(pending: seq<ClientId>) | DoReturn | DoLookUp(c: ClientId) | DoTry(c: ClientId)
    | DoWakeSpuriously(c: ClientId) | DoEndVisitor(c: ClientId) | DoFinish(c: ClientId, who: set<ThreadId>)

  ghost predicate Next(s: State, s': State, t: ThreadId, a: Action) {
    match a
    case DoCreate => Create(s, s', t)
    case DoInsert(c) => Insert(s, s', t, c)
    case DoRemove(c) => Remove(s, s', t, c)
    case DoRemoveAll(order) => RemoveAll(s, s', t, order)
    case DoMark(pending) => Mark(s, s', t, pending)
    case DoReturn => Return(s, s', t)
    case DoLookUp(c) => LookUp(s, s', t, c)
    case DoTry(c) => Try(s, s', t, c)
    case DoWakeSpuriously(c) => WakeSpuriously(s, s', t, c)
    case DoEndVisitor(c) => EndVisitor(s, s', t, c)
    case DoFinish(c, who) => Finish(s, s', t, c, who)
  }

  ghost predicate Init(s: State) {
    s.nextId == 1 && s.clients == {} && s.entries == map[]
    && forall t :: t in s.threads ==> s.threads[t] == Thread(Empty, false)
  }

  /** A run is a sequence of states, each reached from the one before by one step of one thread. */
  ghost predicate Run(run: seq<State>, actors: seq<ThreadId>, actions: seq<Action>) {
    |run| == |actors| + 1 == |actions| + 1 && Init(run[0])
    && forall i :: 0 <= i < |actors| ==> Next(run[i], run[i + 1], actors[i], actions[i])
  }

  // ---------- what a stack says ----------

  /** The client this thread is visiting: the visitor runs, or has ended without the entry being told. */
  function Held(k: Stack): Option<ClientId> {
    if k.Empty? then None
    else if k.top.Visiting? || k.top.Finishing? then Some(k.top.id)
    else Held(k.below)
  }

  function Visitors(k: Stack): nat {
    if k.Empty? then 0 else (if k.top.Visiting? then 1 else 0) + Visitors(k.below)
  }

  function IdsToMark(f: Frame): set<ClientId> {
    if f.Removing? then set c | c in f.pending else {}
  }

  /** The clients some removal of this thread has still to mark. */
  function ToMark(k: Stack): set<ClientId> {
    if k.Empty? then {} else IdsToMark(k.top) + ToMark(k.below)
  }

  /** The clients this thread is creating, outermost call first. */
  function BeingCreated(k: Stack): seq<ClientId> {
    if k.Empty? then [] else BeingCreated(k.below) + if k.top.Creating? then [k.top.id] else []
  }

  /** The clients whose entries this thread refers to. */
  function Used(k: Stack): set<ClientId> {
    if k.Empty? then {}
    else (if k.top.Creating? then {} else if k.top.Removing? then IdsToMark(k.top) else {k.top.id}) + Used(k.below)
  }

  /** Below the innermost call there are only calls that run user code, or a removal waiting on a destruction. */
  predicate Nested(k: Stack) {
    k.Push? ==> Nested(k.below) && (MayCall(k.below) || (k.below.top.Removing? && k.top.Destroying?))
  }

  // ---------- the invariant ----------

  ghost predicate ThreadOk(th: Thread) {
    && Nested(th.stack)
    && Visitors(th.stack) == (if th.isVisiting then 1 else 0)
    && (th.stack.Push?
        && (th.stack.top.LookedUp? || th.stack.top.Sleeping? || th.stack.top.Woken? || th.stack.top.Finishing?)
        ==> !th.isVisiting)
  }

  ghost predicate ThreadsOk(s: State) {
    forall t :: t in s.threads ==> ThreadOk(s.threads[t]) && Used(s.threads[t].stack) <= s.entries.Keys
  }

  predicate Issued(s: State, c: ClientId) { IsIssued(s.nextId, c) }

  ghost predicate Creates(s: State, t: ThreadId, c: ClientId) {
    t in s.threads && c in BeingCreated(s.threads[t].stack)
  }

  /** Every id is in one place: being created by one call, or given to one entry. */
  ghost predicate IdsOk(s: State) {
    && s.clients <= s.entries.Keys
    && (forall c :: c in s.entries ==> Issued(s, c))
    && (forall t, c :: Creates(s, t, c) ==> Issued(s, c) && c !in s.entries)
    && (forall t, u, c :: Creates(s, t, c) && Creates(s, u, c) ==> t == u)
    && (forall t :: t in s.threads ==> Distinct(BeingCreated(s.threads[t].stack)))
  }

  /** The entry names exactly the thread that is visiting it. */
  ghost predicate HoldersOk(s: State) {
    && (forall c :: c in s.entries ==> (s.entries[c].visitActive <==> s.entries[c].visitor.Some?))
    && (forall c :: c in s.entries && s.entries[c].visitor.Some? ==> s.entries[c].visitor.value in s.threads)
    && (forall t, c :: t in s.threads && c in s.entries ==>
         (Held(s.threads[t].stack) == Some(c) <==> s.entries[c].visitor == Some(t)))
  }

  /** The life of one client: its pointer is gone exactly once it was taken for destruction. */
  ghost predicate EntryOk(e: Entry) {
    && e.destroyed == (if e.hasClient then 0 else 1)
    && (e.removing && !e.visitActive <==> !e.hasClient)
  }

  ghost predicate SomeMarks(s: State, c: ClientId) {
    exists t :: t in s.threads && c in ToMark(s.threads[t].stack)
  }

  /** An entry outside the map has been marked, or some removal is about to mark it. */
  ghost predicate EntriesOk(s: State) {
    && (forall c :: c in s.entries ==> EntryOk(s.entries[c]))
    && (forall c :: c in s.entries && s.entries[c].removing ==> c !in s.clients)
    && (forall c :: c in s.entries && c !in s.clients && !s.entries[c].removing ==> SomeMarks(s, c))
    && (forall t, c :: t in s.threads && c in ToMark(s.threads[t].stack) ==> c !in s.clients)
  }

  ghost predicate SomeWoken(s: State, c: ClientId) {
    exists u :: WokenOn(s, u, c)
  }

  /** Sleepers of an idle entry have a waking thread beside them; nobody sleeps once removal is asked for. */
  ghost predicate SleepersOk(s: State) {
    forall t, c :: SleepsOn(s, t, c) && c in s.entries ==>
      !s.entries[c].removing && (s.entries[c].visitActive || SomeWoken(s, c))
  }

  ghost predicate Inv(s: State) {
    ThreadsOk(s) && IdsOk(s) && HoldersOk(s) && EntriesOk(s) && SleepersOk(s)
  }

  lemma InitOk(s: State)
    requires Init(s)
    ensures Inv(s)
  {}

  // ---------- one thread moves ----------

  lemma MoveKeepsThreads(s: State, t: ThreadId, th: Thread)
    requires ThreadsOk(s) && ThreadOk(th) && Used(th.stack) <= s.entries.Keys
    ensures ThreadsOk(SetThread(s, t, th))
  {}

  lemma MoveKeepsIds(s: State, t: ThreadId, th: Thread)
    requires IdsOk(s) && t in s.threads && BeingCreated(th.stack) == BeingCreated(s.threads[t].stack)
    ensures IdsOk(SetThread(s, t, th))
  {
    forall u, c | Creates(SetThread(s, t, th), u, c) ensures Creates(s, u, c) {}
  }

  lemma MoveKeepsHolders(s: State, t: ThreadId, th: Thread)
    requires HoldersOk(s) && t in s.threads && Held(th.stack) == Held(s.threads[t].stack)
    ensures HoldersOk(SetThread(s, t, th))
  {}

  /** A removal may drop clients from its list once they are marked. */
  lemma MoveKeepsEntries(s: State, t: ThreadId, th: Thread)
    requires EntriesOk(s) && t in s.threads && ToMark(th.stack) <= ToMark(s.threads[t].stack)
    requires forall c :: c in ToMark(s.threads[t].stack) && c !in ToMark(th.stack) ==>
      c in s.entries && s.entries[c].removing
    ensures EntriesOk(SetThread(s, t, th))
  {
    var s' := SetThread(s, t, th);
    forall c | c in s.entries && SomeMarks(s, c) && !s.entries[c].removing ensures SomeMarks(s', c) {
      var u :| u in s.threads && c in ToMark(s.threads[u].stack);
      assert u in s'.threads && c in ToMark(s'.threads[u].stack);
    }
  }

  predicate Dozes(th: Thread) { th.stack.Push? && th.stack.top.Sleeping? }

  predicate Wakes(th: Thread) { th.stack.Push? && th.stack.top.Woken? }

  /** A thread that goes to sleep finds the entry visited, and one that stops waking leaves it visited or removed. */
  lemma MoveKeepsSleepers(s: State, t: ThreadId, th: Thread)
    requires SleepersOk(s) && t in s.threads
    requires Dozes(th) ==>
      th.stack.top.id in s.entries && s.entries[th.stack.top.id].visitActive && !s.entries[th.stack.top.id].removing
    requires Wakes(s.threads[t]) ==>
      s.threads[t].stack.top.id in s.entries
      && (s.entries[s.threads[t].stack.top.id].visitActive || s.entries[s.threads[t].stack.top.id].removing)
    ensures SleepersOk(SetThread(s, t, th))
  {
    var s' := SetThread(s, t, th);
    forall u, c | SleepsOn(s', u, c) && c in s'.entries
      ensures !s'.entries[c].removing && (s'.entries[c].visitActive || SomeWoken(s', c))
    {
      if u != t {
        assert SleepsOn(s, u, c);
        if !s.entries[c].visitActive {
          var w :| WokenOn(s, w, c);
          assert WokenOn(s', w, c);
        }
      }
    }
  }

  // ---------- one entry changes ----------

  lemma EntryKeepsOthers(s: State, c: ClientId, e: Entry)
    requires c in s.entries
    ensures ThreadsOk(s) ==> ThreadsOk(WithEntry(s, c, e))
    ensures IdsOk(s) ==> IdsOk(WithEntry(s, c, e))
  {
    var s' := WithEntry(s, c, e);
    assert s'.entries.Keys == s.entries.Keys;
    forall u, d ensures Creates(s', u, d) <==> Creates(s, u, d) {}
  }

  lemma EntryKeepsHolders(s: State, c: ClientId, e: Entry)
    requires HoldersOk(s) && c in s.entries && e.visitActive == s.entries[c].visitActive
    requires e.visitor == s.entries[c].visitor
    ensures HoldersOk(WithEntry(s, c, e))
  {}

  lemma EntryKeepsEntries(s: State, c: ClientId, e: Entry)
    requires EntriesOk(s) && c in s.entries && EntryOk(e)
    requires e.removing == s.entries[c].removing || (e.removing && c !in s.clients)
    ensures EntriesOk(WithEntry(s, c, e))
  {
    forall d | SomeMarks(s, d) ensures SomeMarks(WithEntry(s, c, e), d) {
      var u :| u in s.threads && d in ToMark(s.threads[u].stack);
      assert u in WithEntry(s, c, e).threads && d in ToMark(WithEntry(s, c, e).threads[u].stack);
    }
  }

  lemma EntryKeepsSleepers(s: State, c: ClientId, e: Entry)
    requires SleepersOk(s)
    requires (exists u :: SleepsOn(s, u, c)) ==> !e.removing && (e.visitActive || SomeWoken(s, c))
    ensures SleepersOk(WithEntry(s, c, e))
  {
    var s' := WithEntry(s, c, e);
    forall u, d | SleepsOn(s', u, d) && d in s'.entries
      ensures !s'.entries[d].removing && (s'.entries[d].visitActive || SomeWoken(s', d))
    {
      assert SleepsOn(s, u, d);
      if SomeWoken(s, d) {
        var w :| WokenOn(s, w, d);
        assert WokenOn(s', w, d);
      }
    }
  }

  // ---------- waking ----------

  /** Waking sleepers, any of them, keeps the whole invariant. */
  lemma AwakenKeeps(s: State, who: set<ThreadId>, c: ClientId)
    requires Inv(s)
    ensures Inv(Awaken(s, who, c))
  {
    AwakenKeepsThreads(s, who, c);
    AwakenKeepsIds(s, who, c);
    AwakenKeepsEntries(s, who, c);
    AwakenKeepsSleepers(s, who, c);
    AwakenKeepsHolders(s, who, c);
  }

  lemma AwakenKeepsHolders(s: State, who: set<ThreadId>, c: ClientId)
    requires HoldersOk(s)
    ensures HoldersOk(Awaken(s, who, c))
  {}

  lemma AwakenKeepsThreads(s: State, who: set<ThreadId>, c: ClientId)
    requires ThreadsOk(s)
    ensures ThreadsOk(Awaken(s, who, c))
  {}

  lemma AwakenKeepsIds(s: State, who: set<ThreadId>, c: ClientId)
    requires IdsOk(s)
    ensures IdsOk(Awaken(s, who, c))
  {
    forall u, d ensures Creates(Awaken(s, who, c), u, d) <==> Creates(s, u, d) {}
  }

  lemma AwakenKeepsEntries(s: State, who: set<ThreadId>, c: ClientId)
    requires EntriesOk(s)
    ensures EntriesOk(Awaken(s, who, c))
  {
    var s' := Awaken(s, who, c);
    forall d | SomeMarks(s, d) ensures SomeMarks(s', d) {
      var u :| u in s.threads && d in ToMark(s.threads[u].stack);
      assert u in s'.threads && d in ToMark(s'.threads[u].stack);
    }
  }

  lemma AwakenKeepsSleepers(s: State, who: set<ThreadId>, c: ClientId)
    requires SleepersOk(s)
    ensures SleepersOk(Awaken(s, who, c))
  {
    var s' := Awaken(s, who, c);
    forall t, d | SleepsOn(s', t, d) && d in s'.entries
      ensures !s'.entries[d].removing && (s'.entries[d].visitActive || SomeWoken(s', d))
    {
      assert SleepsOn(s, t, d);
      if SomeWoken(s, d) {
        var u :| WokenOn(s, u, d);
        assert WokenOn(s', u, d);
      }
    }
  }

  // ---------- steps that change no role ----------

  /** A move of t that leaves its visits, removals and creations alone. */
  ghost predicate SameRoles(s: State, t: ThreadId, th: Thread) {
    && t in s.threads && ThreadOk(th) && Used(th.stack) <= s.entries.Keys
    && Held(th.stack) == Held(s.threads[t].stack)
    && ToMark(th.stack) == ToMark(s.threads[t].stack)
    && BeingCreated(th.stack) == BeingCreated(s.threads[t].stack)
  }

  lemma SameRolesKeep(s: State, t: ThreadId, th: Thread)
    requires Inv(s) && SameRoles(s, t, th)
    requires Dozes(th) ==>
      th.stack.top.id in s.entries && s.entries[th.stack.top.id].visitActive && !s.entries[th.stack.top.id].removing
    requires Wakes(s.threads[t]) ==>
      s.threads[t].stack.top.id in s.entries
      && (s.entries[s.threads[t].stack.top.id].visitActive || s.entries[s.threads[t].stack.top.id].removing)
    ensures Inv(SetThread(s, t, th))
  {
    MoveKeepsThreads(s, t, th);
    MoveKeepsIds(s, t, th);
    MoveKeepsHolders(s, t, th);
    MoveKeepsEntries(s, t, th);
    MoveKeepsSleepers(s, t, th);
  }

  lemma ReturnKeeps(s: State, s': State, t: ThreadId)
    requires Inv(s) && Return(s, s', t)
    ensures Inv(s')
  {
    SameRolesKeep(s, t, s'.threads[t]);
  }

  lemma LookUpKeeps(s: State, s': State, t: ThreadId, c: ClientId)
    requires Inv(s) && LookUp(s, s', t, c)
    ensures Inv(s')
  {
    SameRolesKeep(s, t, s'.threads[t]);
  }

  lemma EndVisitorKeeps(s: State, s': State, t: ThreadId, c: ClientId)
    requires Inv(s) && EndVisitor(s, s', t, c)
    ensures Inv(s')
  {
    SameRolesKeep(s, t, s'.threads[t]);
  }

  // ---------- creation ----------

  lemma CreateKeeps(s: State, s': State, t: ThreadId)
    requires Inv(s) && Create(s, s', t)
    ensures Inv(s')
  {
    var th := s'.threads[t];
    MoveKeepsThreads(s, t, th);
    CreateKeepsIds(s, s', t);
    MoveKeepsHolders(s, t, th);
    MoveKeepsEntries(s, t, th);
    MoveKeepsSleepers(s, t, th);
    OnlyIdsDiffer(SetThread(s, t, th), s');
  }

  lemma OnlyIdsDiffer(s: State, s': State)
    requires s' == s.(nextId := s'.nextId) && ThreadsOk(s) && HoldersOk(s) && EntriesOk(s) && SleepersOk(s)
    ensures ThreadsOk(s') && HoldersOk(s') && EntriesOk(s') && SleepersOk(s')
  {
    forall c | SomeMarks(s, c) ensures SomeMarks(s', c) {
      var u :| u in s.threads && c in ToMark(s.threads[u].stack);
      assert u in s'.threads && c in ToMark(s'.threads[u].stack);
    }
    forall u, c ensures SleepsOn(s, u, c) <==> SleepsOn(s', u, c) {}
    forall c | SomeWoken(s, c) ensures SomeWoken(s', c) {
      var u :| WokenOn(s, u, c);
      assert WokenOn(s', u, c);
    }
  }

  lemma CreateKeepsIds(s: State, s': State, t: ThreadId)
    requires IdsOk(s) && Create(s, s', t)
    ensures IdsOk(s')
  {
    assert BeingCreated(s'.threads[t].stack) == BeingCreated(s.threads[t].stack) + [s.nextId];
    assert forall c :: Issued(s, c) ==> Issued(s', c) && c != s.nextId;
    forall u, c | Creates(s', u, c) ensures Creates(s, u, c) || (u == t && c == s.nextId) {}
    forall u | u in s'.threads ensures Distinct(BeingCreated(s'.threads[u].stack)) {
      if u == t {
        forall i | 0 <= i < |BeingCreated(s.threads[t].stack)| ensures BeingCreated(s.threads[t].stack)[i] != s.nextId {
          assert Creates(s, t, BeingCreated(s.threads[t].stack)[i]);
        }
      }
    }
  }

  lemma InsertKeeps(s: State, s': State, t: ThreadId, c: ClientId)
    requires Inv(s) && Insert(s, s', t, c)
    ensures Inv(s')
  {
    assert Creates(s, t, c);
    assert c !in s.entries && c !in s.clients;
    assert s'.entries.Keys == s.entries.Keys + {c};
    InsertKeepsIds(s, s', t, c);
    InsertKeepsHolders(s, s', t, c);
    InsertKeepsEntries(s, s', t, c);
    InsertKeepsSleepers(s, s', t, c);
  }

  lemma {:induction false} HeldIsUsed(k: Stack)
    ensures Held(k).Some? ==> Held(k).value in Used(k)
  {
    if k.Push? { HeldIsUsed(k.below); }
  }

  lemma {:induction false} MarkedAreUsed(k: Stack)
    ensures ToMark(k) <= Used(k)
  {
    if k.Push? { MarkedAreUsed(k.below); }
  }

  lemma InsertKeepsIds(s: State, s': State, t: ThreadId, c: ClientId)
    requires IdsOk(s) && Insert(s, s', t, c) && Creates(s, t, c)
    ensures IdsOk(s')
  {
    var ids, fewer := BeingCreated(s.threads[t].stack), BeingCreated(s'.threads[t].stack);
    assert ids == fewer + [c];
    assert ids[|fewer|] == c;
    forall i | 0 <= i < |fewer| ensures fewer[i] == ids[i] != c {}
    forall u, d | Creates(s', u, d)
      ensures Creates(s, u, d) && d != c
    {
      if u == t {
        var i :| 0 <= i < |fewer| && fewer[i] == d;
        assert ids[i] == d;
      }
      assert Creates(s, u, d);
    }
  }

  lemma InsertKeepsHolders(s: State, s': State, t: ThreadId, c: ClientId)
    requires HoldersOk(s) && ThreadsOk(s) && Insert(s, s', t, c) && c !in s.entries && c !in s.clients
    ensures HoldersOk(s') && ThreadsOk(s')
  {
    forall u | u in s.threads ensures Held(s.threads[u].stack) != Some(c) { HeldIsUsed(s.threads[u].stack); }
  }

  lemma InsertKeepsEntries(s: State, s': State, t: ThreadId, c: ClientId)
    requires EntriesOk(s) && ThreadsOk(s) && Insert(s, s', t, c) && c !in s.entries && c !in s.clients
    ensures EntriesOk(s')
  {
    forall u | u in s.threads ensures c !in ToMark(s.threads[u].stack) { MarkedAreUsed(s.threads[u].stack); }
    forall d | SomeMarks(s, d) ensures SomeMarks(s', d) {
      var u :| u in s.threads && d in ToMark(s.threads[u].stack);
      assert u in s'.threads && d in ToMark(s'.threads[u].stack);
    }
  }

  lemma InsertKeepsSleepers(s: State, s': State, t: ThreadId, c: ClientId)
    requires SleepersOk(s) && ThreadsOk(s) && Insert(s, s', t, c) && c !in s.entries && c !in s.clients
    ensures SleepersOk(s')
  {
    forall u, d | SleepsOn(s', u, d) && d in s'.entries
      ensures !s'.entries[d].removing && (s'.entries[d].visitActive || SomeWoken(s', d))
    {
      assert ThreadOk(s.threads[t]);
      assert SleepsOn(s, u, d);
      assert d in Used(s.threads[u].stack);
      if SomeWoken(s, d) {
        var w :| WokenOn(s, w, d);
        assert WokenOn(s', w, d);
      }
    }
  }

  // ---------- removal ----------

  /** Both removals take some clients out of the map and remember to mark them. */
  lemma DetachKeeps(s: State, s': State, t: ThreadId, order: seq<ClientId>)
    requires Inv(s) && t in s.threads && MayCall(s.threads[t].stack) && (forall c :: c in order ==> c in s.clients)
    requires s' == Stacked(s, t, Push(Removing(order), s.threads[t].stack)).(clients := s'.clients)
    requires forall c :: c in s'.clients <==> (c in s.clients && c !in order)
    ensures Inv(s')
  {
    var th := s'.threads[t];
    MoveKeepsThreads(s, t, th);
    MoveKeepsIds(s, t, th);
    MoveKeepsHolders(s, t, th);
    MoveKeepsSleepers(s, t, th);
    DetachKeepsEntries(s, s', t, order);
    FewerClients(SetThread(s, t, th), s');
  }

  lemma FewerClients(s: State, s': State)
    requires s' == s.(clients := s'.clients) && s'.clients <= s.clients && ThreadsOk(s) && IdsOk(s) && HoldersOk(s)
    requires SleepersOk(s)
    ensures ThreadsOk(s') && IdsOk(s') && HoldersOk(s') && SleepersOk(s')
  {
    forall u, c ensures Creates(s, u, c) <==> Creates(s', u, c) {}
    forall u, c ensures SleepsOn(s, u, c) <==> SleepsOn(s', u, c) {}
    forall c | SomeWoken(s, c) ensures SomeWoken(s', c) {
      var u :| WokenOn(s, u, c);
      assert WokenOn(s', u, c);
    }
  }

  lemma DetachKeepsEntries(s: State, s': State, t: ThreadId, order: seq<ClientId>)
    requires EntriesOk(s) && t in s.threads
    requires s' == Stacked(s, t, Push(Removing(order), s.threads[t].stack)).(clients := s'.clients)
    requires forall c :: c in s'.clients <==> (c in s.clients && c !in order)
    ensures EntriesOk(s')
  {
    assert ToMark(s'.threads[t].stack) == (set c | c in order) + ToMark(s.threads[t].stack);
    forall d | SomeMarks(s, d) || d in order ensures SomeMarks(s', d) {
      if d in order {
        assert t in s'.threads && d in ToMark(s'.threads[t].stack);
      } else {
        var u :| u in s.threads && d in ToMark(s.threads[u].stack);
        assert u in s'.threads && d in ToMark(s'.threads[u].stack);
      }
    }
  }

  /** Marking the entry, with nobody asleep on it. */
  lemma MarkEntryKeeps(s: State, c: ClientId)
    requires Inv(s) && c in s.entries && c !in s.clients && forall u :: !SleepsOn(s, u, c)
    ensures Inv(WithEntry(s, c, Marked(s.entries[c])))
  {
    var e := Marked(s.entries[c]);
    assert EntryOk(s.entries[c]);
    EntryKeepsOthers(s, c, e);
    EntryKeepsHolders(s, c, e);
    EntryKeepsEntries(s, c, e);
    EntryKeepsSleepers(s, c, e);
  }

  /** Going on with a removal whose next entry has been marked. */
  lemma MarkMoveKeeps(s: State, t: ThreadId, pending: seq<ClientId>, k: Stack)
    requires Inv(s) && TopIs(s, t, Removing(pending)) && pending != [] && pending[0] in s.entries
    requires s.entries[pending[0]].removing
    requires k == Push(Removing(pending[1..]), s.threads[t].stack.below)
          || k == Push(Destroying(pending[0]), Push(Removing(pending[1..]), s.threads[t].stack.below))
    ensures Inv(Stacked(s, t, k))
  {
    var th := Thread(k, s.threads[t].isVisiting);
    assert forall d :: d in pending <==> d == pending[0] || d in pending[1..];
    MoveKeepsThreads(s, t, th);
    MoveKeepsIds(s, t, th);
    MoveKeepsHolders(s, t, th);
    MoveKeepsEntries(s, t, th);
    MoveKeepsSleepers(s, t, th);
  }

  lemma MarkKeeps(s: State, s': State, t: ThreadId, pending: seq<ClientId>)
    requires Inv(s) && Mark(s, s', t, pending)
    ensures Inv(s')
  {
    var c := pending[0];
    var awake := Awaken(s, s.threads.Keys, c);
    AwakenKeeps(s, s.threads.Keys, c);
    assert c in ToMark(awake.threads[t].stack);
    assert forall u :: !SleepsOn(awake, u, c);
    MarkEntryKeeps(awake, c);
    MarkMoveKeeps(WithEntry(awake, c, Marked(awake.entries[c])), t, pending, s'.threads[t].stack);
  }

  // ---------- visits ----------

  lemma TryKeeps(s: State, s': State, t: ThreadId, c: ClientId)
    requires Inv(s) && Try(s, s', t, c)
    ensures Inv(s')
  {
    GuardNeverHit(s, t, c);
    match TryEnter(s.entries[c])
    case Refused => LeaveKeeps(s, t, c);
    case MustWait => SleepKeeps(s, t, c);
    case Entered => EnterKeeps(s, t, c);
  }

  lemma LeaveKeeps(s: State, t: ThreadId, c: ClientId)
    requires Inv(s) && (TopIs(s, t, LookedUp(c)) || TopIs(s, t, Woken(c))) && c in s.entries
    requires TryEnter(s.entries[c]) == Refused
    ensures Inv(Stacked(s, t, s.threads[t].stack.below))
  {
    assert EntryOk(s.entries[c]);
    SameRolesKeep(s, t, Thread(s.threads[t].stack.below, s.threads[t].isVisiting));
  }

  lemma SleepKeeps(s: State, t: ThreadId, c: ClientId)
    requires Inv(s) && (TopIs(s, t, LookedUp(c)) || TopIs(s, t, Woken(c))) && c in s.entries
    requires TryEnter(s.entries[c]) == MustWait
    ensures Inv(Stacked(s, t, Push(Sleeping(c), s.threads[t].stack.below)))
  {
    SameRolesKeep(s, t, Thread(Push(Sleeping(c), s.threads[t].stack.below), s.threads[t].isVisiting));
  }

  /**
   The guard against visiting an entry from the thread that is visiting it cannot fire: such a
   thread has its flag set and does not get as far as looking an entry up.
   */
  lemma GuardNeverHit(s: State, t: ThreadId, c: ClientId)
    requires Inv(s) && c in s.entries && (TopIs(s, t, LookedUp(c)) || TopIs(s, t, Woken(c)))
    ensures !GuardHit(s, t, c) && Held(s.threads[t].stack) == None
  {
    IdleHoldsNothing(s.threads[t].stack);
  }

  lemma {:induction false} IdleHoldsNothing(k: Stack)
    requires Visitors(k) == 0 && Nested(k) && !(k.Push? && k.top.Finishing?)
    ensures Held(k) == None
  {
    if k.Push? { IdleHoldsNothing(k.below); }
  }

  lemma EnterKeeps(s: State, t: ThreadId, c: ClientId)
    requires Inv(s) && (TopIs(s, t, LookedUp(c)) || TopIs(s, t, Woken(c))) && c in s.entries
    requires TryEnter(s.entries[c]) == Entered
    ensures Inv(SetThread(WithEntry(s, c, Visited(s.entries[c], t)), t,
                          Thread(Push(Visiting(c), s.threads[t].stack.below), true)))
  {
    var e := Visited(s.entries[c], t);
    var th := Thread(Push(Visiting(c), s.threads[t].stack.below), true);
    var entered := WithEntry(s, c, e);
    assert EntryOk(s.entries[c]);
    EntryKeepsOthers(s, c, e);
    EntryKeepsEntries(s, c, e);
    EntryKeepsSleepers(s, c, e);
    MoveKeepsThreads(entered, t, th);
    MoveKeepsIds(entered, t, th);
    MoveKeepsEntries(entered, t, th);
    MoveKeepsSleepers(entered, t, th);
    GuardNeverHit(s, t, c);
    EnterKeepsHolders(s, t, c, th);
  }

  lemma EnterKeepsHolders(s: State, t: ThreadId, c: ClientId, th: Thread)
    requires HoldersOk(s) && t in s.threads && c in s.entries && !s.entries[c].visitActive
    requires Held(s.threads[t].stack) == None && Held(th.stack) == Some(c)
    ensures HoldersOk(SetThread(WithEntry(s, c, Visited(s.entries[c], t)), t, th))
  {}

  lemma FinishCoreKeeps(s: State, t: ThreadId, c: ClientId)
    requires Inv(s) && TopIs(s, t, Finishing(c)) && c in s.entries
    requires (exists u :: SleepsOn(s, u, c)) ==> SomeWoken(s, c)
    ensures Inv(FinishCore(s, t, c))
  {
    var e := Finished(s.entries[c]);
    var th := FinishCore(s, t, c).threads[t];
    var finished := WithEntry(s, c, e);
    assert Held(s.threads[t].stack) == Some(c);
    assert EntryOk(s.entries[c]) && s.entries[c].visitActive;
    FinishStack(s, t, c, th);
    EntryKeepsOthers(s, c, e);
    EntryKeepsEntries(s, c, e);
    EntryKeepsSleepers(s, c, e);
    MoveKeepsThreads(finished, t, th);
    MoveKeepsIds(finished, t, th);
    MoveKeepsEntries(finished, t, th);
    MoveKeepsSleepers(finished, t, th);
    FinishKeepsHolders(s, t, c, th);
  }

  lemma FinishStack(s: State, t: ThreadId, c: ClientId, th: Thread)
    requires ThreadsOk(s) && TopIs(s, t, Finishing(c)) && c in s.entries
    requires th == Thread(s.threads[t].stack.below, s.threads[t].isVisiting)
          || th == Thread(Push(Destroying(c), s.threads[t].stack.below), s.threads[t].isVisiting)
    ensures ThreadOk(th) && Used(th.stack) <= s.entries.Keys && Held(th.stack) == None && !Dozes(th)
    ensures ToMark(th.stack) == ToMark(s.threads[t].stack) && BeingCreated(th.stack) == BeingCreated(s.threads[t].stack)
  {
    assert ThreadOk(s.threads[t]);
    IdleHoldsNothing(s.threads[t].stack.below);
  }

  lemma FinishKeepsHolders(s: State, t: ThreadId, c: ClientId, th: Thread)
    requires HoldersOk(s) && t in s.threads && c in s.entries
    requires Held(s.threads[t].stack) == Some(c) && Held(th.stack) == None
    ensures HoldersOk(SetThread(WithEntry(s, c, Finished(s.entries[c])), t, th))
  {}

  lemma FinishKeeps(s: State, s': State, t: ThreadId, c: ClientId, who: set<ThreadId>)
    requires Inv(s) && Finish(s, s', t, c, who)
    ensures Inv(s')
  {
    var awake := Awaken(s, who, c);
    AwakenKeeps(s, who, c);
    if exists u: ThreadId :: SleepsOn(s, u, c) {
      var u: ThreadId :| SleepsOn(s, u, c) && who == {u};
      assert WokenOn(awake, u, c);
    } else {
      forall u | SleepsOn(awake, u, c) ensures SleepsOn(s, u, c) {}
    }
    FinishCoreKeeps(awake, t, c);
  }

  // ---------- every run ----------

  lemma NextKeeps(s: State, s': State, t: ThreadId, a: Action)
    requires Inv(s) && Next(s, s', t, a)
    ensures Inv(s')
  {
    match a
    case DoCreate => CreateKeeps(s, s', t);
    case DoInsert(c) => InsertKeeps(s, s', t, c);
    case DoRemove(c) => DetachKeeps(s, s', t, [c]);
    case DoRemoveAll(order) => DetachKeeps(s, s', t, order);
    case DoMark(pending) => MarkKeeps(s, s', t, pending);
    case DoReturn => ReturnKeeps(s, s', t);
    case DoLookUp(c) => LookUpKeeps(s, s', t, c);
    case DoTry(c) => TryKeeps(s, s', t, c);
    case DoWakeSpuriously(c) => AwakenKeeps(s, {t}, c);
    case DoEndVisitor(c) => EndVisitorKeeps(s, s', t, c);
    case DoFinish(c, who) => FinishKeeps(s, s', t, c, who);
  }

  /** Every state of every run satisfies the invariant. */
  lemma {:induction false} RunKeeps(run: seq<State>, actors: seq<ThreadId>, actions: seq<Action>, i: nat)
    requires Run(run, actors, actions) && i < |run|
    ensures Inv(run[i])
  {
    if i == 0 {
      InitOk(run[0]);
    } else {
      RunKeeps(run, actors, actions, i - 1);
      NextKeeps(run[i - 1], run[i], actors[i - 1], actions[i - 1]);
    }
  }

  // ---------- what the invariant means ----------

  ghost predicate Visits(s: State, t: ThreadId, c: ClientId) {
    t in s.threads && Held(s.threads[t].stack) == Some(c)
  }

  /**
   Visits of a client are serialized and the client outlives them: two threads visiting it are the
   same thread, and the pointer is still in place.
   */
  lemma VisitsAreSafe(run: seq<State>, actors: seq<ThreadId>, actions: seq<Action>, i: nat, c: ClientId, t: ThreadId,
                      u: ThreadId)
    requires Run(run, actors, actions) && i < |run| && c in run[i].entries && Visits(run[i], t, c)
    requires Visits(run[i], u, c)
    ensures t == u && run[i].entries[c].hasClient && run[i].entries[c].destroyed == 0
  {
    RunKeeps(run, actors, actions, i);
    HeldMeansAlive(run[i], c, t, u);
  }

  lemma HeldMeansAlive(s: State, c: ClientId, t: ThreadId, u: ThreadId)
    requires HoldersOk(s) && EntriesOk(s) && c in s.entries && Visits(s, t, c) && Visits(s, u, c)
    ensures t == u && s.entries[c].hasClient && s.entries[c].destroyed == 0
  {
    assert EntryOk(s.entries[c]);
  }

  /**
   A client is handed out for destruction at most once; and once it is out of the map, with neither
   a removal nor a visit of it under way, that has happened.
   */
  lemma DestroyedExactlyOnce(run: seq<State>, actors: seq<ThreadId>, actions: seq<Action>, i: nat, c: ClientId)
    requires Run(run, actors, actions) && i < |run| && c in run[i].entries
    ensures run[i].entries[c].destroyed == (if run[i].entries[c].hasClient then 0 else 1)
    ensures !run[i].entries[c].hasClient <==> run[i].entries[c].removing && (forall t :: !Visits(run[i], t, c))
    ensures c !in run[i].clients && !SomeMarks(run[i], c) && (forall t :: !Visits(run[i], t, c)) ==>
      run[i].entries[c].destroyed == 1
    ensures run[i].entries[c].destroyed == 1 ==> c !in run[i].clients && (forall t :: !Visits(run[i], t, c))
  {
    RunKeeps(run, actors, actions, i);
    SettledMeansDestroyed(run[i], c);
  }

  lemma SettledMeansDestroyed(s: State, c: ClientId)
    requires HoldersOk(s) && EntriesOk(s) && c in s.entries
    ensures s.entries[c].destroyed == (if s.entries[c].hasClient then 0 else 1)
    ensures !s.entries[c].hasClient <==> s.entries[c].removing && (forall t :: !Visits(s, t, c))
    ensures c !in s.clients && !SomeMarks(s, c) && (forall t :: !Visits(s, t, c)) ==> s.entries[c].destroyed == 1
    ensures s.entries[c].destroyed == 1 ==> c !in s.clients && (forall t :: !Visits(s, t, c))
  {
    assert EntryOk(s.entries[c]);
    if s.entries[c].visitActive { assert Visits(s, s.entries[c].visitor.value, c); }
  }

  /** Only four sections touch an entry: its insertion, an entering visit, a mark and a finishing visit. */
  lemma EntryChanges(s: State, s': State, t: ThreadId, a: Action, c: ClientId)
    requires IdsOk(s) && Next(s, s', t, a) && c in s.entries
    ensures c in s'.entries
    ensures s'.entries[c] != s.entries[c] ==>
      (a == DoTry(c) && TryEnter(s.entries[c]) == Entered && s'.entries[c] == Visited(s.entries[c], t))
      || (a.DoMark? && a.pending != [] && a.pending[0] == c && s'.entries[c] == Marked(s.entries[c]))
      || (a.DoFinish? && a.c == c && s'.entries[c] == Finished(s.entries[c]))
  {
    if a.DoInsert? { assert Creates(s, t, a.c); }
  }

  lemma StepDestroys(s: State, s': State, t: ThreadId, a: Action, c: ClientId)
    requires IdsOk(s) && HoldersOk(s) && EntriesOk(s) && Next(s, s', t, a) && c in s.entries && c in s'.entries
    requires s'.entries[c].destroyed != s.entries[c].destroyed
    ensures (a.DoMark? && a.pending != [] && a.pending[0] == c && !s.entries[c].visitActive)
         || (a.DoFinish? && a.c == c && s.entries[c].removing && Visits(s, t, c))
    ensures TopIs(s', t, Destroying(c)) && s'.entries[c].destroyed == 1 && !s'.entries[c].visitActive
  {
    EntryChanges(s, s', t, a, c);
    assert EntryOk(s.entries[c]);
  }

  /** Whoever comes last destroys: the remover when nobody visits, else the visitor that finishes. */
  lemma WhoDestroys(run: seq<State>, actors: seq<ThreadId>, actions: seq<Action>, i: nat, c: ClientId)
    requires Run(run, actors, actions) && i < |actions| && c in run[i].entries
    ensures c in run[i + 1].entries
    ensures run[i + 1].entries[c].destroyed != run[i].entries[c].destroyed ==>
      ((actions[i].DoMark? && actions[i].pending != [] && actions[i].pending[0] == c && !run[i].entries[c].visitActive)
       || (actions[i].DoFinish? && actions[i].c == c && run[i].entries[c].removing && Visits(run[i], actors[i], c)))
      && TopIs(run[i + 1], actors[i], Destroying(c)) && run[i + 1].entries[c].destroyed == 1
      && !run[i + 1].entries[c].visitActive
  {
    RunKeeps(run, actors, actions, i);
    EntryChanges(run[i], run[i + 1], actors[i], actions[i], c);
    if run[i + 1].entries[c].destroyed != run[i].entries[c].destroyed {
      StepDestroys(run[i], run[i + 1], actors[i], actions[i], c);
    }
  }

  lemma StepBeginsVisit(s: State, s': State, t: ThreadId, a: Action, c: ClientId)
    requires ThreadsOk(s) && EntriesOk(s) && Next(s, s', t, a) && c in s.entries && t in s.threads
    requires !Visits(s, t, c) && Visits(s', t, c)
    ensures a == DoTry(c) && !s.entries[c].removing && s.entries[c].hasClient && !s.entries[c].visitActive
  {
    if a.DoReturn? || a.DoInsert? || a.DoMark? || a.DoFinish? {
      NoHandBack(s, s', t, a, c);
    }
  }

  /** No visit begins on an entry that is being removed, or visited, or whose client is gone. */
  lemma NoVisitOnceRemoving(run: seq<State>, actors: seq<ThreadId>, actions: seq<Action>, i: nat, c: ClientId)
    requires Run(run, actors, actions) && i < |actions| && c in run[i].entries
    requires actors[i] in run[i].threads && !Visits(run[i], actors[i], c) && Visits(run[i + 1], actors[i], c)
    ensures actions[i] == DoTry(c) && !run[i].entries[c].removing && run[i].entries[c].hasClient
    ensures !run[i].entries[c].visitActive
  {
    RunKeeps(run, actors, actions, i);
    StepBeginsVisit(run[i], run[i + 1], actors[i], actions[i], c);
  }

  lemma NoHandBack(s: State, s': State, t: ThreadId, a: Action, c: ClientId)
    requires ThreadsOk(s) && Next(s, s', t, a) && t in s.threads
    requires a.DoReturn? || a.DoInsert? || a.DoMark? || a.DoFinish?
    ensures Held(s'.threads[t].stack) == Held(s.threads[t].stack) || Held(s'.threads[t].stack) == None
  {
    if a.DoFinish? {
      assert ThreadOk(s.threads[t]);
      IdleHoldsNothing(s.threads[t].stack.below);
    }
  }

  /** Removal is final: a client that was in an entry and is out of the map never comes back. */
  lemma RemovalIsFinal(s: State, s': State, t: ThreadId, a: Action, c: ClientId)
    requires IdsOk(s) && Next(s, s', t, a) && c in s.entries && c !in s.clients
    ensures c in s'.entries && c !in s'.clients && (s.entries[c].removing ==> s'.entries[c].removing)
  {
    EntryChanges(s, s', t, a, c);
    if a.DoInsert? { assert Creates(s, t, a.c); }
  }

  ghost predicate StaysGone(s: State, s': State, c: ClientId) {
    c in s.entries && c !in s.clients ==>
      c in s'.entries && c !in s'.clients && (s.entries[c].removing ==> s'.entries[c].removing)
  }

  lemma {:induction false} GoneOnPath(run: seq<State>, i: nat, j: nat, c: ClientId)
    requires i <= j < |run| && c in run[i].entries && c !in run[i].clients
    requires forall n :: i <= n < j ==> StaysGone(run[n], run[n + 1], c)
    ensures c in run[j].entries && c !in run[j].clients && (run[i].entries[c].removing ==> run[j].entries[c].removing)
    decreases j
  {
    if i < j {
      GoneOnPath(run, i, j - 1, c);
      assert StaysGone(run[j - 1], run[j - 1 + 1], c);
    }
  }

  lemma RemovedStaysRemoved(run: seq<State>, actors: seq<ThreadId>, actions: seq<Action>, i: nat, j: nat, c: ClientId)
    requires Run(run, actors, actions) && i <= j < |run| && c in run[i].entries && c !in run[i].clients
    ensures c in run[j].entries && c !in run[j].clients && (run[i].entries[c].removing ==> run[j].entries[c].removing)
  {
    forall n | i <= n < j
      ensures StaysGone(run[n], run[n + 1], c)
    {
      RunKeeps(run, actors, actions, n);
      if c in run[n].entries && c !in run[n].clients {
        RemovalIsFinal(run[n], run[n + 1], actors[n], actions[n], c);
      }
    }
    GoneOnPath(run, i, j, c);
  }

  /** A thread that is visiting never waits for an entry, so waiting chains have length one. */
  lemma VisitorNeverWaits(s: State, t: ThreadId)
    requires Inv(s) && t in s.threads && Held(s.threads[t].stack).Some?
    ensures !Dozes(s.threads[t]) && !Wakes(s.threads[t])
  {
    assert ThreadOk(s.threads[t]);
    if Dozes(s.threads[t]) || Wakes(s.threads[t]) { IdleHoldsNothing(s.threads[t].stack); }
  }

  /** A thread inside a call that is not asleep can take a step. */
  lemma NotStuck(s: State, t: ThreadId) returns (s': State, a: Action)
    requires Inv(s) && t in s.threads && s.threads[t].stack.Push? && !Dozes(s.threads[t])
    ensures Next(s, s', t, a) && !a.DoWakeSpuriously?
  {
    var top, below := s.threads[t].stack.top, s.threads[t].stack.below;
    assert Used(s.threads[t].stack) <= s.entries.Keys;
    match top {
      case Creating(c) =>
        a := DoInsert(c);
        s' := Stacked(if c in s.clients then s else WithEntry(s, c, NEW_ENTRY).(clients := s.clients + {c}), t, below);
      case LookedUp(c) => s', a := TryStep(s, t, c);
      case Woken(c) => s', a := TryStep(s, t, c);
      case Visiting(c) =>
        a := DoEndVisitor(c);
        s' := SetThread(s, t, Thread(Push(Finishing(c), below), false));
      case Finishing(c) => s', a := FinishStep(s, t, c);
      case Removing(pending) =>
        if pending == [] {
          s', a := Stacked(s, t, below), DoReturn;
        } else {
          assert pending[0] in IdsToMark(top);
          s', a := MarkCore(Awaken(s, s.threads.Keys, pending[0]), t, pending), DoMark(pending);
        }
      case Destroying(c) => s', a := Stacked(s, t, below), DoReturn;
    }
  }

  lemma TryStep(s: State, t: ThreadId, c: ClientId) returns (s': State, a: Action)
    requires (TopIs(s, t, LookedUp(c)) || TopIs(s, t, Woken(c))) && c in s.entries
    ensures Next(s, s', t, a) && a == DoTry(c)
  {
    a := DoTry(c);
    var below := s.threads[t].stack.below;
    if TopIs(s, t, LookedUp(c)) && GuardHit(s, t, c) {
      s' := Stacked(s, t, below);
    } else {
      match TryEnter(s.entries[c])
      case Refused => s' := Stacked(s, t, below);
      case MustWait => s' := Stacked(s, t, Push(Sleeping(c), below));
      case Entered => s' := SetThread(WithEntry(s, c, Visited(s.entries[c], t)), t,
                                      Thread(Push(Visiting(c), below), true));
    }
  }

  lemma FinishStep(s: State, t: ThreadId, c: ClientId) returns (s': State, a: Action)
    requires TopIs(s, t, Finishing(c)) && c in s.entries
    ensures Next(s, s', t, a) && a.DoFinish?
  {
    var who: set<ThreadId> := {};
    if exists u: ThreadId :: SleepsOn(s, u, c) {
      var u: ThreadId :| SleepsOn(s, u, c);
      who := {u};
    }
    a := DoFinish(c, who);
    s' := FinishCore(Awaken(s, who, c), t, c);
  }

  /**
   No lost wakeup and no deadlock: for every sleeper, some other thread that is visiting that entry
   or waking up on it is not asleep itself and can step.
   */
  lemma SleeperIsWaitedFor(run: seq<State>, actors: seq<ThreadId>, actions: seq<Action>, i: nat, t: ThreadId,
                           c: ClientId)
    returns (u: ThreadId, next: State, a: Action)
    requires Run(run, actors, actions) && i < |run|
    requires t in run[i].threads && run[i].threads[t].stack.Push? && run[i].threads[t].stack.top == Sleeping(c)
    ensures u in run[i].threads && u != t && run[i].threads[u].stack.Push? && !run[i].threads[u].stack.top.Sleeping?
    ensures c in run[i].entries && !run[i].entries[c].removing
    ensures run[i].threads[u].stack.top == Woken(c)
         || (Visits(run[i], u, c) && run[i].entries[c].visitor == Some(u))
    ensures Next(run[i], next, u, a) && !a.DoWakeSpuriously?
  {
    var s := run[i];
    RunKeeps(run, actors, actions, i);
    assert SleepsOn(s, t, c);
    assert c in Used(s.threads[t].stack);
    if s.entries[c].visitActive {
      u := s.entries[c].visitor.value;
      VisitorNeverWaits(s, u);
    } else {
      u :| WokenOn(s, u, c);
    }
    next, a := NotStuck(s, u);
  }

  /** Nobody sleeps on an entry whose removal has been asked for. */
  lemma NobodySleepsOnRemoved(run: seq<State>, actors: seq<ThreadId>, actions: seq<Action>, i: nat, c: ClientId)
    requires Run(run, actors, actions) && i < |run| && c in run[i].entries && run[i].entries[c].removing
    ensures forall t :: t in run[i].threads && run[i].threads[t].stack.Push? ==>
      run[i].threads[t].stack.top != Sleeping(c)
  {
    RunKeeps(run, actors, actions, i);
    forall t | t in run[i].threads && run[i].threads[t].stack.Push? && run[i].threads[t].stack.top == Sleeping(c)
      ensures false
    {
      assert SleepsOn(run[i], t, c);
    }
  }
}
