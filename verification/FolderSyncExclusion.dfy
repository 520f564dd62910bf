/**
  Mutual exclusion in the folder-sync lifecycle: the read/write gate separates `stop_all`
  from everything else, and the self-pruning registry of weak lock references never lets
  two calls on one profile into their critical sections together.
  */
module FolderSyncExclusion {
  import opened Wrappers
  import opened ServiceStatus
  import opened SyncManager
  import opened FolderSyncModel

  predicate InGate(op: Op) {
    !op.pc.Entering? && !op.pc.Finished?
  }

  predicate HoldsHandle(op: Op) {
    !op.call.StopAll? && InGate(op) && !op.pc.Resolving? && !op.pc.Leaving?
  }

  /** The call holds its profile lock. */
  predicate InCritical(op: Op) {
    HoldsHandle(op) && !op.pc.Locking? && !op.pc.Dropping?
  }

  predicate StartOnly(pc: Pc) {
    || pc.Marking? || pc.Publishing? || pc.Announcing? || pc.Spawning?
    || pc.Registering? || pc.Evicting? || pc.JoiningEvicted?
  }

  predicate OwningPc(pc: Pc) {
    pc.Signalling? || pc.Joining? || pc.Registering? || pc.Evicting? || pc.JoiningEvicted?
  }

  /** Which program counters each call passes through, and what it carries there. */
  predicate Shape(op: Op) {
    && (op.call.StopAll? ==>
          || op.pc.Entering? || op.pc.Taking? || op.pc.Signalling? || op.pc.Joining?
          || op.pc.Unmarking? || op.pc.Clearing? || op.pc.Leaving? || op.pc.Finished?)
    && (StartOnly(op.pc) ==> op.call.Start?)
    && (op.pc.Clearing? || op.pc.Refreshing? ==> !op.call.Start?)
    && (op.handle.Some? <==> HoldsHandle(op))
    && (op.owned != map[] <==> OwningPc(op.pc))
    && (!op.call.StopAll? ==> op.owned.Keys <= {op.call.profile})
    && op.pending <= op.owned.Keys
    && (op.pending != {} <==> op.pc.Signalling? || op.pc.Evicting?)
  }

  ghost predicate Shapes(s: State) {
    forall o :: o in s.ops ==> Shape(s.ops[o])
  }

  ghost predicate Gate(s: State) {
    && s.readers <= s.ops.Keys
    && (s.writer.Some? ==> s.writer.value in s.ops && s.readers == {})
    && (forall o :: o in s.ops ==> (o in s.readers <==> !s.ops[o].call.StopAll? && InGate(s.ops[o])))
    && (forall o :: o in s.ops ==> (s.writer == Some(o) <==> s.ops[o].call.StopAll? && InGate(s.ops[o])))
  }

  predicate HandleRegistered(op: Op, operations: map<ProfileId, LockId>) {
    op.handle.Some? && !op.call.StopAll? ==>
      op.call.profile in operations && operations[op.call.profile] == op.handle.value
  }

  /** Every handle in use is the registered one, and profiles never share a lock. */
  ghost predicate Registry(s: State) {
    var operations := s.manager.operations;
    && (forall o :: o in s.ops ==> HandleRegistered(s.ops[o], operations))
    && (forall p :: p in operations ==> operations[p] < s.nextLock)
    && (forall p, q :: p in operations && q in operations && operations[p] == operations[q] ==> p == q)
  }

  predicate HoldsLock(s: State, o: OpId)
    requires o in s.ops
  {
    s.ops[o].handle.Some? && s.ops[o].handle.value in s.held && s.held[s.ops[o].handle.value] == o
  }

  ghost predicate Mutex(s: State) {
    && (forall l :: l in s.held ==> s.held[l] in s.ops && InCritical(s.ops[s.held[l]]))
    && (forall l :: l in s.held ==> s.held[l] in s.ops && s.ops[s.held[l]].handle == Some(l))
    && (forall o :: o in s.ops && InCritical(s.ops[o]) ==> HoldsLock(s, o))
  }

  ghost predicate Exclusion(s: State) {
    Shapes(s) && Gate(s) && Registry(s) && Mutex(s)
  }

  // ---------------------------------------------------------------------------
  // Preservation: a step replaces the record of one call, or adds one
  // ---------------------------------------------------------------------------

  ghost predicate Replaces(s: State, s': State, o: OpId) {
    o in s.ops && o in s'.ops && s'.ops == s.ops[o := s'.ops[o]] && s'.ops[o].call == s.ops[o].call
  }

  lemma ShapesMove(s: State, s': State, o: OpId)
    requires Shapes(s) && Replaces(s, s', o) && Shape(s'.ops[o])
    ensures Shapes(s')
  {
  }

  lemma GateMove(s: State, s': State, o: OpId)
    requires Gate(s) && Replaces(s, s', o) && s'.readers == s.readers && s'.writer == s.writer
    requires InGate(s.ops[o]) <==> InGate(s'.ops[o])
    ensures Gate(s')
  {
  }

  lemma RegistryMove(s: State, s': State, o: OpId)
    requires Registry(s) && Replaces(s, s', o)
    requires s'.nextLock == s.nextLock && s'.manager.operations == s.manager.operations
    requires s'.ops[o].handle == s.ops[o].handle || s'.ops[o].handle == None
    ensures Registry(s')
  {
  }

  lemma MutexMove(s: State, s': State, o: OpId)
    requires Mutex(s) && Replaces(s, s', o) && s'.held == s.held
    requires InCritical(s.ops[o]) <==> InCritical(s'.ops[o])
    requires InCritical(s.ops[o]) ==> s'.ops[o].handle == s.ops[o].handle
    ensures Mutex(s')
  {
  }

  /** Everything the exclusion argument reads apart from the calls themselves. */
  predicate SameLocks(s: State, s': State) {
    && s'.readers == s.readers && s'.writer == s.writer && s'.held == s.held
    && s'.nextLock == s.nextLock && s'.manager.operations == s.manager.operations
  }

  /** How a step inside a critical section changes its own call. */
  predicate Inner(op: Op, op': Op) {
    && op'.call == op.call && op'.handle == op.handle && Shape(op')
    && (InGate(op) <==> InGate(op')) && (InCritical(op) <==> InCritical(op'))
  }

  /** A call that moves on while keeping its gate, lock and handle. */
  lemma InnerKeepsExclusion(s: State, s': State, o: OpId)
    requires Exclusion(s) && SameLocks(s, s') && Replaces(s, s', o) && Inner(s.ops[o], s'.ops[o])
    ensures Exclusion(s')
  {
    ShapesMove(s, s', o);
    GateMove(s, s', o);
    RegistryMove(s, s', o);
    MutexMove(s, s', o);
  }

  lemma SameOpsKeepExclusion(s: State, s': State)
    requires Exclusion(s) && SameLocks(s, s') && s'.ops == s.ops
    ensures Exclusion(s')
  {
  }

  ghost predicate Adds(s: State, s': State, o: OpId) {
    && o !in s.ops && o in s'.ops && s'.ops == s.ops[o := s'.ops[o]]
    && s'.ops[o].handle == None && s'.ops[o].pc.Entering?
  }

  lemma AddKeepsGate(s: State, s': State, o: OpId)
    requires Gate(s) && Adds(s, s', o) && SameLocks(s, s')
    ensures Gate(s')
  {
  }

  lemma AddKeepsLocks(s: State, s': State, o: OpId)
    requires Registry(s) && Mutex(s) && Adds(s, s', o) && SameLocks(s, s')
    ensures Registry(s') && Mutex(s')
  {
  }

  lemma InvokeKeepsExclusion(s: State, o: OpId, call: Call)
    requires Exclusion(s) && o !in s.ops
    ensures Exclusion(DoInvoke(s, o, call))
  {
    var s' := DoInvoke(s, o, call);
    AddKeepsGate(s, s', o);
    AddKeepsLocks(s, s', o);
  }

  // Taking and leaving the gate, the lock and the handle

  lemma EnterGate(s: State, s': State, o: OpId)
    requires Gate(s) && Replaces(s, s', o) && s.writer.None?
    requires !InGate(s.ops[o]) && InGate(s'.ops[o])
    requires if s.ops[o].call.StopAll? then s.readers == {} && s'.readers == {} && s'.writer == Some(o)
             else s'.readers == s.readers + {o} && s'.writer == None
    ensures Gate(s')
  {
  }

  lemma EnterShape(op: Op)
    requires Shape(op) && op.pc.Entering?
    ensures Shape(op.(pc := if op.call.StopAll? then Taking else Resolving))
  {
  }

  lemma EnterKeepsExclusion(s: State, o: OpId)
    requires Exclusion(s) && CanEnter(s, o)
    ensures Exclusion(DoEnter(s, o))
  {
    var s' := DoEnter(s, o);
    EnterShape(s.ops[o]);
    ShapesMove(s, s', o);
    EnterGate(s, s', o);
    RegistryMove(s, s', o);
    MutexMove(s, s', o);
  }

  /** The pruned registry still knows every lock in use, and hands out that lock. */
  lemma ResolveKeepsRegistry(s: State, o: OpId, seen: set<LockId>)
    requires Shapes(s) && Registry(s) && CanResolve(s, o, seen)
    ensures Registry(DoResolve(s, o, seen))
  {
    var operations := s.manager.operations;
    var alive := AliveLocks(s);
    assert forall q :: q in s.ops && s.ops[q].handle.Some? ==> s.ops[q].handle.value in alive;
    forall l | l in alive ensures l < s.nextLock {
      var q :| q in s.ops && s.ops[q].handle == Some(l);
      assert Shape(s.ops[q]) && HandleRegistered(s.ops[q], operations);
    }
    OperationLockKeepsLive(operations, s.ops[o].call.profile, seen, alive, s.nextLock);
  }

  lemma ResolveKeepsExclusion(s: State, o: OpId, seen: set<LockId>)
    requires Exclusion(s) && CanResolve(s, o, seen)
    ensures Exclusion(DoResolve(s, o, seen))
  {
    var s' := DoResolve(s, o, seen);
    assert Shape(s.ops[o]) && Shape(s'.ops[o]);
    ShapesMove(s, s', o);
    GateMove(s, s', o);
    ResolveKeepsRegistry(s, o, seen);
    MutexMove(s, s', o);
  }

  lemma LockMutex(s: State, s': State, o: OpId)
    requires Mutex(s) && Replaces(s, s', o) && s'.ops[o].handle == s.ops[o].handle && s.ops[o].handle.Some?
    requires s.ops[o].handle.value !in s.held && s'.held == s.held[s.ops[o].handle.value := o]
    requires InCritical(s'.ops[o])
    ensures Mutex(s')
  {
  }

  lemma LockKeepsExclusion(s: State, o: OpId)
    requires Exclusion(s) && CanLock(s, o)
    ensures Exclusion(DoLock(s, o))
  {
    var s' := DoLock(s, o);
    assert Shape(s.ops[o]) && Shape(s'.ops[o]);
    ShapesMove(s, s', o);
    GateMove(s, s', o);
    RegistryMove(s, s', o);
    LockMutex(s, s', o);
  }

  lemma UnlockMutex(s: State, s': State, o: OpId)
    requires Mutex(s) && Replaces(s, s', o) && s'.ops[o].handle == s.ops[o].handle && s.ops[o].handle.Some?
    requires s'.held == s.held - {s.ops[o].handle.value}
    requires InCritical(s.ops[o]) && !InCritical(s'.ops[o])
    ensures Mutex(s')
  {
  }

  lemma UnlockKeepsExclusion(s: State, o: OpId)
    requires Exclusion(s) && CanUnlock(s, o)
    ensures Exclusion(DoUnlock(s, o))
  {
    var s' := DoUnlock(s, o);
    assert Shape(s.ops[o]) && Shape(s'.ops[o]);
    ShapesMove(s, s', o);
    GateMove(s, s', o);
    RegistryMove(s, s', o);
    UnlockMutex(s, s', o);
  }

  lemma DropHandleKeepsExclusion(s: State, o: OpId)
    requires Exclusion(s) && CanDropHandle(s, o)
    ensures Exclusion(DoDropHandle(s, o))
  {
    var s' := DoDropHandle(s, o);
    assert Shape(s.ops[o]) && Shape(s'.ops[o]);
    ShapesMove(s, s', o);
    GateMove(s, s', o);
    RegistryMove(s, s', o);
    MutexMove(s, s', o);
  }

  lemma LeaveGate(s: State, s': State, o: OpId)
    requires Gate(s) && Replaces(s, s', o) && InGate(s.ops[o]) && !InGate(s'.ops[o])
    requires if s.ops[o].call.StopAll? then s'.readers == s.readers && s'.writer == None
             else s'.readers == s.readers - {o} && s'.writer == s.writer
    ensures Gate(s')
  {
  }

  lemma LeaveKeepsExclusion(s: State, o: OpId)
    requires Exclusion(s) && CanLeave(s, o)
    ensures Exclusion(DoLeave(s, o))
  {
    var s' := DoLeave(s, o);
    assert Shape(s.ops[o]) && Shape(s'.ops[o]);
    ShapesMove(s, s', o);
    LeaveGate(s, s', o);
    RegistryMove(s, s', o);
    MutexMove(s, s', o);
  }

  // The steps inside the critical sections leave all locks alone

  lemma TakeInner(op: Op, runs: map<ProfileId, RunId>)
    requires Shape(op) && op.pc.Taking?
    ensures Inner(op, AfterTake(op, runs))
  {
    if op.call.StopAll? {
      if runs != map[] {
        var p :| p in runs;
        assert p in AfterTake(op, runs).pending;
      }
    } else if op.call.profile in runs {
      assert op.call.profile in AfterTake(op, runs).owned;
    }
  }

  lemma SignalInner(op: Op, target: ProfileId)
    requires Shape(op) && (op.pc.Signalling? || op.pc.Evicting?) && target in op.pending
    ensures Inner(op, AfterSignal(op, target))
  {
  }

  lemma JoinInner(op: Op, target: ProfileId)
    requires Shape(op) && (op.pc.Joining? || op.pc.JoiningEvicted?) && target in op.owned
    ensures Inner(op, AfterJoin(op, target))
  {
  }

  lemma RegisterInner(op: Op, runs: map<ProfileId, RunId>)
    requires Shape(op) && op.pc.Registering? && op.call.Start?
    ensures Inner(op, AfterRegister(op, runs))
  {
  }

  lemma SpawnInner(op: Op, run: RunId)
    requires Shape(op) && op.pc.Spawning? && op.call.Start?
    ensures Inner(op, AfterSpawn(op, run))
  {
    assert op.call.profile in AfterSpawn(op, run).owned;
  }

  lemma PlainInner(op: Op)
    requires Shape(op)
    ensures op.pc.Marking? ==> Inner(op, op.(pc := Publishing))
    ensures op.pc.Publishing? ==> Inner(op, op.(pc := Announcing))
    ensures op.pc.Announcing? || op.pc.Refreshing? ==> Inner(op, AfterRefresh(op))
    ensures op.pc.Spawning? ==> Inner(op, op.(pc := Unmarking))
    ensures op.pc.Unmarking? ==> Inner(op, AfterUnmark(op))
    ensures op.pc.Clearing? ==> Inner(op, AfterClear(op))
  {
  }

  lemma TakeKeepsExclusion(s: State, o: OpId)
    requires Exclusion(s) && CanTake(s, o)
    ensures Exclusion(DoTake(s, o))
  {
    TakeInner(s.ops[o], s.manager.runs);
    InnerKeepsExclusion(s, DoTake(s, o), o);
  }

  lemma SignalKeepsExclusion(s: State, o: OpId, target: ProfileId)
    requires Exclusion(s) && CanSignal(s, o, target)
    ensures Exclusion(DoSignal(s, o, target))
  {
    SignalInner(s.ops[o], target);
    InnerKeepsExclusion(s, DoSignal(s, o, target), o);
  }

  lemma JoinKeepsExclusion(s: State, o: OpId, target: ProfileId)
    requires Exclusion(s) && CanJoin(s, o, target)
    ensures Exclusion(DoJoin(s, o, target))
  {
    JoinInner(s.ops[o], target);
    InnerKeepsExclusion(s, DoJoin(s, o, target), o);
  }

  lemma MarkKeepsExclusion(s: State, o: OpId)
    requires Exclusion(s) && CanMark(s, o)
    ensures Exclusion(DoMark(s, o))
  {
    PlainInner(s.ops[o]);
    InnerKeepsExclusion(s, DoMark(s, o), o);
  }

  lemma PublishKeepsExclusion(s: State, o: OpId)
    requires Exclusion(s) && CanPublish(s, o)
    ensures Exclusion(DoPublish(s, o))
  {
    PlainInner(s.ops[o]);
    InnerKeepsExclusion(s, DoPublish(s, o), o);
  }

  lemma RefreshKeepsExclusion(s: State, o: OpId)
    requires Exclusion(s) && CanRefresh(s, o)
    ensures Exclusion(DoRefresh(s, o))
  {
    PlainInner(s.ops[o]);
    InnerKeepsExclusion(s, DoRefresh(s, o), o);
  }

  lemma SpawnKeepsExclusion(s: State, o: OpId, run: RunId)
    requires Exclusion(s) && CanSpawn(s, o, run)
    ensures Exclusion(DoSpawn(s, o, run))
  {
    SpawnInner(s.ops[o], run);
    InnerKeepsExclusion(s, DoSpawn(s, o, run), o);
  }

  lemma SpawnFailsKeepsExclusion(s: State, o: OpId)
    requires Exclusion(s) && CanFailSpawn(s, o)
    ensures Exclusion(DoSpawnFails(s, o))
  {
    PlainInner(s.ops[o]);
    InnerKeepsExclusion(s, DoSpawnFails(s, o), o);
  }

  lemma RegisterKeepsExclusion(s: State, o: OpId)
    requires Exclusion(s) && CanRegister(s, o)
    ensures Exclusion(DoRegister(s, o))
  {
    RegisterInner(s.ops[o], s.manager.runs);
    InnerKeepsExclusion(s, DoRegister(s, o), o);
  }

  lemma UnmarkKeepsExclusion(s: State, o: OpId)
    requires Exclusion(s) && CanUnmark(s, o)
    ensures Exclusion(DoUnmark(s, o))
  {
    PlainInner(s.ops[o]);
    InnerKeepsExclusion(s, DoUnmark(s, o), o);
  }

  lemma ClearKeepsExclusion(s: State, o: OpId)
    requires Exclusion(s) && CanClear(s, o)
    ensures Exclusion(DoClear(s, o))
  {
    PlainInner(s.ops[o]);
    InnerKeepsExclusion(s, DoClear(s, o), o);
  }

  lemma WorkerStepKeepsExclusion(s: State, a: Action, s': State)
    requires Exclusion(s) && Step(s, a, s') && IsWorkerStep(a)
    ensures Exclusion(s')
  {
    hide Exclusion, Step;
    WorkerStepFrame(s, a, s');
    SameOpsKeepExclusion(s, s');
  }

  /** Exclusion is inductive. */
  lemma ExclusionStep(s: State, a: Action, s': State)
    requires Exclusion(s) && Step(s, a, s')
    ensures Exclusion(s')
  {
    hide Exclusion, CanEnter, DoEnter, CanResolve, DoResolve, CanLock, DoLock, CanTake, DoTake, CanSignal, DoSignal,
         CanJoin, DoJoin, CanMark, DoMark, CanPublish, DoPublish, CanRefresh, DoRefresh, CanSpawn, DoSpawn,
         CanFailSpawn, DoSpawnFails, CanRegister, DoRegister, CanUnmark, DoUnmark, CanClear, DoClear,
         CanUnlock, DoUnlock, CanDropHandle, DoDropHandle, CanLeave, DoLeave;
    match a
    case Invoke(o, call) => InvokeKeepsExclusion(s, o, call);
    case Enter(o) => EnterKeepsExclusion(s, o);
    case Resolve(o, seen) => ResolveKeepsExclusion(s, o, seen);
    case Lock(o) => LockKeepsExclusion(s, o);
    case Take(o) => TakeKeepsExclusion(s, o);
    case Signal(o, target) => SignalKeepsExclusion(s, o, target);
    case Join(o, target) => JoinKeepsExclusion(s, o, target);
    case Mark(o) => MarkKeepsExclusion(s, o);
    case Publish(o) => PublishKeepsExclusion(s, o);
    case Refresh(o) => RefreshKeepsExclusion(s, o);
    case Spawn(o, run) => SpawnKeepsExclusion(s, o, run);
    case SpawnFails(o) => SpawnFailsKeepsExclusion(s, o);
    case Register(o) => RegisterKeepsExclusion(s, o);
    case Unmark(o) => UnmarkKeepsExclusion(s, o);
    case Clear(o) => ClearKeepsExclusion(s, o);
    case Unlock(o) => UnlockKeepsExclusion(s, o);
    case DropHandle(o) => DropHandleKeepsExclusion(s, o);
    case Leave(o) => LeaveKeepsExclusion(s, o);
    case _ => WorkerStepKeepsExclusion(s, a, s');
  }
}
