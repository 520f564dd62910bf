/**
  The folder-sync lifecycle (`AndroidFolderSyncLifecycle`, `start_folder_sync_run` and the
  worker thread it spawns; apps/android-app/src/lib.rs) as a labelled transition system.

  Any number of calls run concurrently, each with a program counter. Every statement that
  takes the manager or the status mutex is one atomic step, since the guard lives for that
  statement only; taking or releasing the operation gate or a profile lock, dropping a lock
  handle, signalling, joining and spawning are steps of their own. Locks are never poisoned.
  */
module FolderSyncModel {
  import opened Wrappers
  import opened ServiceStatus
  import opened SyncManager

  type OpId = nat

  datatype Call =
    | Start(profile: ProfileId, title: string)
    | Stop(profile: ProfileId)
    | StopAll

  datatype Pc =
    | Entering          // waiting for the operation gate
    | Resolving         // asking the manager for the profile's operation lock
    | Locking           // waiting for that lock
    | Taking            // taking the run (or all runs) out of the manager
    | Signalling        // clearing the running flag of every taken run
    | Joining           // waiting for the taken runs to end
    | Marking           // start: marking the profile as being replaced
    | Publishing        // start: writing the "starting" status
    | Announcing        // start: refreshing the summary
    | Spawning          // start: spawning the worker
    | Registering       // start: handing the run to the manager
    | Evicting          // start: signalling a displaced run
    | JoiningEvicted    // start: waiting for a displaced run
    | Unmarking         // removing the stopping mark (or all of them)
    | Clearing          // stop: dropping the status entry; stop all: resetting the store
    | Refreshing        // stop: refreshing the summary
    | Unlocking         // releasing the profile lock
    | Dropping          // dropping the lock handle
    | Leaving           // releasing the operation gate
    | Finished

  /** A call in progress: `owned` are the runs it has taken out of, or not yet put into, the manager. */
  datatype Op = Op(
    call: Call,
    pc: Pc,
    handle: Option<LockId>,
    owned: map<ProfileId, RunId>,
    pending: set<ProfileId>)       // owned runs whose flag is still to be cleared

  datatype Phase =
    | Working
    | Failed                       // the agent returned an error
    | NeedsFallback                // the status did not show the error
    | Closing                      // the error is on show, the final refresh is owed
    | Exited(failed: bool)

  /**
    A worker thread together with the helper threads of its agent, which report through the same
    callback. A report writes a status and owes a refresh. An agent that returns normally has
    ended its helpers; one that leaks leaves a helper running, which may go on reporting until it
    ends by itself.
    */
  datatype Worker = Worker(
    profile: ProfileId, title: string, running: bool, phase: Phase, owed: nat, helper: bool)

  datatype State = State(
    manager: Manager,
    readers: set<OpId>,
    writer: Option<OpId>,
    held: map<LockId, OpId>,
    nextLock: LockId,
    ops: map<OpId, Op>,
    workers: map<RunId, Worker>,
    store: Store)

  datatype Action =
    | Invoke(op: OpId, call: Call)
    | Enter(op: OpId)
    | Resolve(op: OpId, seen: set<LockId>)
    | Lock(op: OpId)
    | Take(op: OpId)
    | Signal(op: OpId, target: ProfileId)
    | Join(op: OpId, target: ProfileId)
    | Mark(op: OpId)
    | Publish(op: OpId)
    | Refresh(op: OpId)
    | Spawn(op: OpId, run: RunId)
    | SpawnFails(op: OpId)
    | Register(op: OpId)
    | Unmark(op: OpId)
    | Clear(op: OpId)
    | Unlock(op: OpId)
    | DropHandle(op: OpId)
    | Leave(op: OpId)
    | Report(run: RunId, entry: Entry)
    | WorkerRefresh(run: RunId)
    | Return(run: RunId, failed: bool, leaks: bool)
    | Check(run: RunId)
    | Fallback(run: RunId, error: string)
    | Close(run: RunId)
    | HelperEnds(run: RunId)

  const INIT := State(NEW_MANAGER, {}, None, map[], 0, map[], map[], Store([], IDLE))

  predicate Live(w: Worker) {
    !w.phase.Exited?
  }

  /** Locks some operation still holds a strong reference to. */
  function AliveLocks(s: State): set<LockId> {
    set o | o in s.ops && s.ops[o].handle.Some? :: s.ops[o].handle.value
  }

  predicate IsOpStep(a: Action) {
    !a.Invoke? && !IsWorkerStep(a)
  }

  predicate IsWorkerStep(a: Action) {
    a.Report? || a.WorkerRefresh? || a.Return? || a.Check? || a.Fallback? || a.Close? || a.HelperEnds?
  }

  // ---------------------------------------------------------------------------
  // Steps of a call: when each can happen, what becomes of the call's own record,
  // and what it does to the shared state
  // ---------------------------------------------------------------------------

  function DoInvoke(s: State, o: OpId, call: Call): State {
    s.(ops := s.ops[o := Op(call, Entering, None, map[], {})])
  }

  predicate CanEnter(s: State, o: OpId) {
    o in s.ops && s.ops[o].pc.Entering? && s.writer.None? && (s.ops[o].call.StopAll? ==> s.readers == {})
  }

  function DoEnter(s: State, o: OpId): State
    requires CanEnter(s, o)
  {
    var all := s.ops[o].call.StopAll?;
    s.(ops := s.ops[o := s.ops[o].(pc := if all then Taking else Resolving)],
       readers := if all then s.readers else s.readers + {o},
       writer := if all then Some(o) else s.writer)
  }

  predicate CanResolve(s: State, o: OpId, seen: set<LockId>) {
    o in s.ops && s.ops[o].pc.Resolving? && !s.ops[o].call.StopAll? && AliveLocks(s) <= seen
  }

  function DoResolve(s: State, o: OpId, seen: set<LockId>): State
    requires CanResolve(s, o, seen)
  {
    var (operations, l) :=
      OperationLock(s.manager.operations, s.ops[o].call.profile, seen, AliveLocks(s), s.nextLock);
    s.(ops := s.ops[o := s.ops[o].(pc := Locking, handle := Some(l))],
       manager := s.manager.(operations := operations), nextLock := s.nextLock + 1)
  }

  predicate CanLock(s: State, o: OpId) {
    o in s.ops && s.ops[o].pc.Locking? && s.ops[o].handle.Some? && s.ops[o].handle.value !in s.held
  }

  function DoLock(s: State, o: OpId): State
    requires CanLock(s, o)
  {
    s.(ops := s.ops[o := s.ops[o].(pc := Taking)], held := s.held[s.ops[o].handle.value := o])
  }

  predicate CanTake(s: State, o: OpId) {
    o in s.ops && s.ops[o].pc.Taking?
  }

  function AfterTake(op: Op, runs: map<ProfileId, RunId>): Op {
    if op.call.StopAll? then
      op.(pc := if runs == map[] then Unmarking else Signalling, owned := runs, pending := runs.Keys)
    else if op.call.profile in runs then
      op.(pc := Signalling, owned := map[op.call.profile := runs[op.call.profile]], pending := {op.call.profile})
    else
      op.(pc := if op.call.Start? then Marking else Clearing)
  }

  function TakeFor(m: Manager, call: Call): Manager {
    if call.StopAll? then TakeAllRuns(m) else TakeRun(m, call.profile)
  }

  function DoTake(s: State, o: OpId): State
    requires CanTake(s, o)
  {
    s.(ops := s.ops[o := AfterTake(s.ops[o], s.manager.runs)], manager := TakeFor(s.manager, s.ops[o].call))
  }

  predicate CanSignal(s: State, o: OpId, target: ProfileId) {
    && o in s.ops && (s.ops[o].pc.Signalling? || s.ops[o].pc.Evicting?)
    && target in s.ops[o].pending && target in s.ops[o].owned
    && s.ops[o].owned[target] in s.workers
  }

  function AfterSignal(op: Op, target: ProfileId): Op {
    var pending := op.pending - {target};
    op.(pc := if pending != {} then op.pc else if op.pc.Evicting? then JoiningEvicted else Joining,
        pending := pending)
  }

  function DoSignal(s: State, o: OpId, target: ProfileId): State
    requires CanSignal(s, o, target)
  {
    var run := s.ops[o].owned[target];
    s.(ops := s.ops[o := AfterSignal(s.ops[o], target)],
       workers := s.workers[run := s.workers[run].(running := false)])
  }

  predicate CanJoin(s: State, o: OpId, target: ProfileId) {
    && o in s.ops && (s.ops[o].pc.Joining? || s.ops[o].pc.JoiningEvicted?)
    && target in s.ops[o].owned
    && s.ops[o].owned[target] in s.workers && !Live(s.workers[s.ops[o].owned[target]])
  }

  function AfterJoin(op: Op, target: ProfileId): Op {
    var owned := op.owned - {target};
    op.(pc := if owned != map[] then op.pc
              else if op.pc.JoiningEvicted? || !op.call.Start? then Unmarking
              else Marking,
        owned := owned)
  }

  function DoJoin(s: State, o: OpId, target: ProfileId): State
    requires CanJoin(s, o, target)
  {
    s.(ops := s.ops[o := AfterJoin(s.ops[o], target)])
  }

  predicate CanMark(s: State, o: OpId) {
    o in s.ops && s.ops[o].pc.Marking? && s.ops[o].call.Start?
  }

  function DoMark(s: State, o: OpId): State
    requires CanMark(s, o)
  {
    s.(ops := s.ops[o := s.ops[o].(pc := Publishing)],
       manager := MarkStopping(s.manager, s.ops[o].call.profile))
  }

  function StartingEntry(call: Call): Entry
    requires call.Start?
  {
    Entry(call.profile, call.title, STARTING, "Starting continuous sync", "initializing", None)
  }

  function Written(store: Store, e: Entry): Store {
    store.(profiles := Upsert(store.profiles, e))
  }

  function Refreshed(store: Store): Store {
    store.(summary := Summarise(store.profiles))
  }

  predicate CanPublish(s: State, o: OpId) {
    o in s.ops && s.ops[o].pc.Publishing? && s.ops[o].call.Start?
  }

  function DoPublish(s: State, o: OpId): State
    requires CanPublish(s, o)
  {
    s.(ops := s.ops[o := s.ops[o].(pc := Announcing)], store := Written(s.store, StartingEntry(s.ops[o].call)))
  }

  predicate CanRefresh(s: State, o: OpId) {
    o in s.ops && (s.ops[o].pc.Announcing? || s.ops[o].pc.Refreshing?)
  }

  function AfterRefresh(op: Op): Op {
    op.(pc := if op.pc.Announcing? then Spawning else Unlocking)
  }

  function DoRefresh(s: State, o: OpId): State
    requires CanRefresh(s, o)
  {
    s.(ops := s.ops[o := AfterRefresh(s.ops[o])], store := Refreshed(s.store))
  }

  predicate CanSpawn(s: State, o: OpId, run: RunId) {
    o in s.ops && s.ops[o].pc.Spawning? && s.ops[o].call.Start? && run !in s.workers
  }

  function AfterSpawn(op: Op, run: RunId): Op
    requires op.call.Start?
  {
    op.(pc := Registering, owned := map[op.call.profile := run])
  }

  function NewWorker(call: Call): Worker
    requires call.Start?
  {
    Worker(call.profile, call.title, true, Working, 0, false)
  }

  function DoSpawn(s: State, o: OpId, run: RunId): State
    requires CanSpawn(s, o, run)
  {
    s.(ops := s.ops[o := AfterSpawn(s.ops[o], run)], workers := s.workers[run := NewWorker(s.ops[o].call)])
  }

  predicate CanFailSpawn(s: State, o: OpId) {
    o in s.ops && s.ops[o].pc.Spawning? && s.ops[o].call.Start?
  }

  /** A failed spawn leaves the published status behind. */
  function DoSpawnFails(s: State, o: OpId): State
    requires CanFailSpawn(s, o)
  {
    s.(ops := s.ops[o := s.ops[o].(pc := Unmarking)])
  }

  predicate CanRegister(s: State, o: OpId) {
    o in s.ops && s.ops[o].pc.Registering? && s.ops[o].call.Start? && s.ops[o].call.profile in s.ops[o].owned
  }

  /** A displaced run, if there is one, becomes the caller's to stop. */
  function AfterRegister(op: Op, runs: map<ProfileId, RunId>): Op
    requires op.call.Start?
  {
    var p := op.call.profile;
    if p in runs then op.(pc := Evicting, owned := map[p := runs[p]], pending := {p})
    else op.(pc := Unmarking, owned := map[])
  }

  function DoRegister(s: State, o: OpId): State
    requires CanRegister(s, o)
  {
    var p := s.ops[o].call.profile;
    s.(ops := s.ops[o := AfterRegister(s.ops[o], s.manager.runs)],
       manager := RegisterRun(s.manager, p, s.ops[o].owned[p]))
  }

  predicate CanUnmark(s: State, o: OpId) {
    o in s.ops && s.ops[o].pc.Unmarking?
  }

  function AfterUnmark(op: Op): Op {
    op.(pc := if op.call.Start? then Unlocking else Clearing)
  }

  function UnmarkFor(m: Manager, call: Call): Manager {
    if call.StopAll? then m.(stopping := {}) else FinishStopping(m, call.profile)
  }

  function DoUnmark(s: State, o: OpId): State
    requires CanUnmark(s, o)
  {
    s.(ops := s.ops[o := AfterUnmark(s.ops[o])], manager := UnmarkFor(s.manager, s.ops[o].call))
  }

  predicate CanClear(s: State, o: OpId) {
    o in s.ops && s.ops[o].pc.Clearing? && !s.ops[o].call.Start?
  }

  function AfterClear(op: Op): Op {
    op.(pc := if op.call.StopAll? then Leaving else Refreshing)
  }

  function ClearFor(store: Store, call: Call): Store
    requires !call.Start?
  {
    if call.StopAll? then Store([], IDLE) else store.(profiles := Remove(store.profiles, call.profile))
  }

  function DoClear(s: State, o: OpId): State
    requires CanClear(s, o)
  {
    s.(ops := s.ops[o := AfterClear(s.ops[o])], store := ClearFor(s.store, s.ops[o].call))
  }

  predicate CanUnlock(s: State, o: OpId) {
    o in s.ops && s.ops[o].pc.Unlocking? && s.ops[o].handle.Some?
  }

  function DoUnlock(s: State, o: OpId): State
    requires CanUnlock(s, o)
  {
    s.(ops := s.ops[o := s.ops[o].(pc := Dropping)], held := s.held - {s.ops[o].handle.value})
  }

  predicate CanDropHandle(s: State, o: OpId) {
    o in s.ops && s.ops[o].pc.Dropping?
  }

  function DoDropHandle(s: State, o: OpId): State
    requires CanDropHandle(s, o)
  {
    s.(ops := s.ops[o := s.ops[o].(pc := Leaving, handle := None)])
  }

  predicate CanLeave(s: State, o: OpId) {
    o in s.ops && s.ops[o].pc.Leaving?
  }

  function DoLeave(s: State, o: OpId): State
    requires CanLeave(s, o)
  {
    var all := s.ops[o].call.StopAll?;
    s.(ops := s.ops[o := s.ops[o].(pc := Finished)],
       readers := if all then s.readers else s.readers - {o},
       writer := if all then None else s.writer)
  }

  // ---------------------------------------------------------------------------
  // Steps of a worker
  // ---------------------------------------------------------------------------

  predicate ShowsError(store: Store, profile: ProfileId) {
    var e := Lookup(store.profiles, profile);
    e.Some? && e.value.state == ERROR
  }

  function ErrorEntry(w: Worker, error: string): Entry {
    Entry(w.profile, w.title, ERROR, error, "failed", None)
  }

  /** The agent is still at work, or a helper thread it has left behind still runs. */
  predicate Reports(w: Worker) {
    w.phase.Working? || w.helper
  }

  predicate CanReport(s: State, run: RunId, entry: Entry) {
    && run in s.workers && Reports(s.workers[run])
    && entry.profile == s.workers[run].profile && entry.title == s.workers[run].title
  }

  /** The status callback writes; several threads of one agent may be between write and refresh. */
  function DoReport(s: State, run: RunId, entry: Entry): State
    requires CanReport(s, run, entry)
  {
    s.(workers := s.workers[run := s.workers[run].(owed := s.workers[run].owed + 1)], store := Written(s.store, entry))
  }

  predicate CanWorkerRefresh(s: State, run: RunId) {
    run in s.workers && Reports(s.workers[run]) && s.workers[run].owed > 0
  }

  function AfterWorkerRefresh(w: Worker): Worker
    requires w.owed > 0
  {
    w.(owed := w.owed - 1)
  }

  function DoWorkerRefresh(s: State, run: RunId): State
    requires CanWorkerRefresh(s, run)
  {
    s.(workers := s.workers[run := AfterWorkerRefresh(s.workers[run])], store := Refreshed(s.store))
  }

  predicate CanReturn(s: State, run: RunId, failed: bool, leaks: bool) {
    && run in s.workers && s.workers[run].phase.Working?
    && if leaks then failed else s.workers[run].owed == 0
  }

  function AfterReturn(w: Worker, failed: bool, leaks: bool): Worker {
    w.(phase := if failed then Failed else Exited(false), helper := leaks)
  }

  /** The agent returns, with or without an error; only an error can leave a helper behind. */
  function DoReturn(s: State, run: RunId, failed: bool, leaks: bool): State
    requires CanReturn(s, run, failed, leaks)
  {
    s.(workers := s.workers[run := AfterReturn(s.workers[run], failed, leaks)])
  }

  predicate CanCheck(s: State, run: RunId) {
    run in s.workers && s.workers[run].phase.Failed?
  }

  function AfterCheck(w: Worker, shown: bool): Worker {
    w.(phase := if shown then Closing else NeedsFallback)
  }

  function DoCheck(s: State, run: RunId): State
    requires CanCheck(s, run)
  {
    s.(workers := s.workers[run := AfterCheck(s.workers[run], ShowsError(s.store, s.workers[run].profile))])
  }

  predicate CanFallback(s: State, run: RunId) {
    run in s.workers && s.workers[run].phase.NeedsFallback?
  }

  function DoFallback(s: State, run: RunId, error: string): State
    requires CanFallback(s, run)
  {
    s.(workers := s.workers[run := s.workers[run].(phase := Closing)],
       store := Written(s.store, ErrorEntry(s.workers[run], error)))
  }

  predicate CanClose(s: State, run: RunId) {
    run in s.workers && s.workers[run].phase.Closing?
  }

  function DoClose(s: State, run: RunId): State
    requires CanClose(s, run)
  {
    s.(workers := s.workers[run := s.workers[run].(phase := Exited(true))], store := Refreshed(s.store))
  }

  predicate CanHelperEnd(s: State, run: RunId) {
    run in s.workers && s.workers[run].helper && !s.workers[run].phase.Working? && s.workers[run].owed == 0
  }

  /** A helper left behind ends, once its flag is cleared by a call or by itself. */
  function DoHelperEnds(s: State, run: RunId): State
    requires CanHelperEnd(s, run)
  {
    s.(workers := s.workers[run := s.workers[run].(helper := false)])
  }

  // ---------------------------------------------------------------------------
  // The transition system
  // ---------------------------------------------------------------------------

  /** One step of the system, by one call or one worker. */
  predicate Step(s: State, a: Action, s': State) {
    match a
    case Invoke(o, call) => o !in s.ops && s' == DoInvoke(s, o, call)
    case Enter(o) => CanEnter(s, o) && s' == DoEnter(s, o)
    case Resolve(o, seen) => CanResolve(s, o, seen) && s' == DoResolve(s, o, seen)
    case Lock(o) => CanLock(s, o) && s' == DoLock(s, o)
    case Take(o) => CanTake(s, o) && s' == DoTake(s, o)
    case Signal(o, target) => CanSignal(s, o, target) && s' == DoSignal(s, o, target)
    case Join(o, target) => CanJoin(s, o, target) && s' == DoJoin(s, o, target)
    case Mark(o) => CanMark(s, o) && s' == DoMark(s, o)
    case Publish(o) => CanPublish(s, o) && s' == DoPublish(s, o)
    case Refresh(o) => CanRefresh(s, o) && s' == DoRefresh(s, o)
    case Spawn(o, run) => CanSpawn(s, o, run) && s' == DoSpawn(s, o, run)
    case SpawnFails(o) => CanFailSpawn(s, o) && s' == DoSpawnFails(s, o)
    case Register(o) => CanRegister(s, o) && s' == DoRegister(s, o)
    case Unmark(o) => CanUnmark(s, o) && s' == DoUnmark(s, o)
    case Clear(o) => CanClear(s, o) && s' == DoClear(s, o)
    case Unlock(o) => CanUnlock(s, o) && s' == DoUnlock(s, o)
    case DropHandle(o) => CanDropHandle(s, o) && s' == DoDropHandle(s, o)
    case Leave(o) => CanLeave(s, o) && s' == DoLeave(s, o)
    case Report(run, entry) => CanReport(s, run, entry) && s' == DoReport(s, run, entry)
    case WorkerRefresh(run) => CanWorkerRefresh(s, run) && s' == DoWorkerRefresh(s, run)
    case Return(run, failed, leaks) => CanReturn(s, run, failed, leaks) && s' == DoReturn(s, run, failed, leaks)
    case Check(run) => CanCheck(s, run) && s' == DoCheck(s, run)
    case Fallback(run, error) => CanFallback(s, run) && s' == DoFallback(s, run, error)
    case Close(run) => CanClose(s, run) && s' == DoClose(s, run)
    case HelperEnds(run) => CanHelperEnd(s, run) && s' == DoHelperEnds(s, run)
  }

  /** What becomes of a worker when it takes a step. */
  predicate Advances(w: Worker, w': Worker) {
    && w'.profile == w.profile && w'.title == w.title && w'.running == w.running
    && (w'.helper ==> w.helper || w.phase.Working?)
    && (!Live(w) ==> w.helper && w'.phase == w.phase)
  }

  /** A worker's step concerns that worker and the status store only. */
  lemma WorkerStepFrame(s: State, a: Action, s': State)
    requires Step(s, a, s') && IsWorkerStep(a)
    ensures s'.(workers := s.workers, store := s.store) == s
    ensures a.run in s.workers && a.run in s'.workers && s'.workers == s.workers[a.run := s'.workers[a.run]]
    ensures Advances(s.workers[a.run], s'.workers[a.run])
  {
    hide Upsert, Summarise, Lookup;
  }

  /** A call's step leaves workers alone, but for clearing a flag or spawning one. */
  lemma CallStepFrame(s: State, a: Action, s': State)
    requires Step(s, a, s') && !IsWorkerStep(a)
    ensures forall x :: x in s.workers ==>
              x in s'.workers && s'.workers[x] == s.workers[x].(running := s'.workers[x].running)
    ensures forall x :: x in s'.workers && x !in s.workers ==>
              a.Spawn? && a.op in s.ops && s.ops[a.op].pc.Spawning? && s.ops[a.op].call.Start?
              && s'.workers[x] == NewWorker(s.ops[a.op].call)
    ensures forall o :: o != a.op ==> (o in s'.ops <==> o in s.ops) && (o in s.ops ==> s'.ops[o] == s.ops[o])
  {
    hide Upsert, Remove, Summarise, OperationLock, AliveLocks, TakeFor, UnmarkFor, AfterTake, AfterRegister;
  }

  /** A call stays the call it was made as. */
  lemma CallStays(s: State, a: Action, s': State)
    requires Step(s, a, s') && !IsWorkerStep(a)
    ensures a.op in s'.ops
    ensures if a.Invoke? then s'.ops[a.op].call == a.call else a.op in s.ops && s'.ops[a.op].call == s.ops[a.op].call
  {
    hide Upsert, Remove, Summarise, OperationLock, AliveLocks, TakeFor, UnmarkFor;
  }

  /** What a step writes into the list, if anything. */
  function Writes(s: State, a: Action): Option<Entry> {
    match a
    case Publish(o) => if o in s.ops && s.ops[o].call.Start? then Some(StartingEntry(s.ops[o].call)) else None
    case Report(_, entry) => Some(entry)
    case Fallback(run, error) => if run in s.workers then Some(ErrorEntry(s.workers[run], error)) else None
    case _ => None
  }

  lemma StoreEffect(s: State, a: Action, s': State)
    requires Step(s, a, s')
    ensures Writes(s, a).Some? ==> s'.store.profiles == Upsert(s.store.profiles, Writes(s, a).value)
    ensures a.Clear? ==> s'.store.profiles == [] ||
                         (!s.ops[a.op].call.StopAll? && s'.store.profiles == Remove(s.store.profiles, s.ops[a.op].call.profile))
    ensures Writes(s, a).None? && !a.Clear? ==> s'.store.profiles == s.store.profiles
  {
    hide Upsert, Remove, Summarise;
  }

  // ---------------------------------------------------------------------------
  // Runs
  // ---------------------------------------------------------------------------

  /** A finite run: states visited and the actions between them. */
  datatype Run = Run(states: seq<State>, actions: seq<Action>)

  ghost predicate IsRun(r: Run) {
    && |r.states| == |r.actions| + 1
    && r.states[0] == INIT
    && forall i :: 0 <= i < |r.actions| ==> Step(r.states[i], r.actions[i], r.states[i + 1])
  }
}
