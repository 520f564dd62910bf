/**
  Deadlock freedom and termination of the folder-sync lifecycle. A call is never stuck: some
  call can step, or a call waits for a worker that has been told to stop and can step itself.
  Every step of a call lowers the work left, so without new calls only finitely many happen,
  whatever the workers report. A worker that has been told to stop takes a bounded number of
  steps besides its reports and their refreshes.
  */
module FolderSyncProgress {
  import opened Wrappers
  import opened ServiceStatus
  import opened SyncManager
  import opened FolderSyncModel
  import opened FolderSyncExclusion
  import opened FolderSyncCustody
  import opened FolderSyncStatus
  import opened FolderSyncTheorems

  // ---------------------------------------------------------------------------
  // Progress
  // ---------------------------------------------------------------------------

  predicate Cancelled(s: State, x: RunId) {
    x in s.workers && !s.workers[x].running
  }

  /** Steps of calls, and steps of workers that have been told to stop. */
  predicate Counted(s: State, a: Action) {
    IsOpStep(a) || (IsWorkerStep(a) && Cancelled(s, a.run))
  }

  /** A live worker can always take a step towards its end. */
  lemma WorkerCanStep(s: State, x: RunId) returns (a: Action, s': State)
    requires LiveIn(s, x)
    ensures IsWorkerStep(a) && a.run == x && !a.Report? && Step(s, a, s')
  {
    var w := s.workers[x];
    if w.phase.Working? && w.owed > 0 {
      a, s' := WorkerRefresh(x), DoWorkerRefresh(s, x);
    } else if w.phase.Working? {
      a, s' := Return(x, false, false), DoReturn(s, x, false, false);
    } else if w.phase.Closing? {
      a, s' := Close(x), DoClose(s, x);
    } else if w.phase.Failed? {
      a, s' := Check(x), DoCheck(s, x);
    } else {
      a, s' := Fallback(x, ""), DoFallback(s, x, "");
    }
  }

  /** A call that waits for runs to end waits for one that has ended or been told to. */
  lemma JoinerCanStep(s: State, o: OpId) returns (a: Action, s': State)
    requires Inv(s) && o in s.ops && s.ops[o].pc.Joining?
    ensures Step(s, a, s') && Counted(s, a) && !a.Report? && !a.Enter?
  {
    assert Shape(s.ops[o]);
    var p :| p in s.ops[o].owned;
    assert OwnedOk(s.ops[o], s.workers, p);
    var x := s.ops[o].owned[p];
    if Live(s.workers[x]) {
      a, s' := WorkerCanStep(s, x);
    } else {
      a, s' := Join(o, p), DoJoin(s, o, p);
    }
  }

  lemma SignallerCanStep(s: State, o: OpId) returns (a: Action, s': State)
    requires Inv(s) && o in s.ops && s.ops[o].pc.Signalling?
    ensures Step(s, a, s') && Counted(s, a) && !a.Report? && !a.Enter?
  {
    assert Shape(s.ops[o]);
    var p :| p in s.ops[o].pending;
    assert OwnedOk(s.ops[o], s.workers, p);
    a, s' := Signal(o, p), DoSignal(s, o, p);
  }

  lemma SpawnerCanStep(s: State, o: OpId) returns (a: Action, s': State)
    requires CanFailSpawn(s, o)
    ensures Step(s, a, s') && Counted(s, a) && !a.Report? && !a.Enter?
  {
    a, s' := SpawnFails(o), DoSpawnFails(s, o);
  }

  lemma ResolverCanStep(s: State, o: OpId) returns (a: Action, s': State)
    requires o in s.ops && s.ops[o].pc.Resolving? && !s.ops[o].call.StopAll?
    ensures Step(s, a, s') && Counted(s, a) && !a.Report? && !a.Enter?
  {
    var seen := AliveLocks(s);
    a, s' := Resolve(o, seen), DoResolve(s, o, seen);
  }

  lemma FrontCanStep(s: State, o: OpId) returns (a: Action, s': State)
    requires o in s.ops && Shape(s.ops[o])
    requires s.ops[o].pc.Taking? || s.ops[o].pc.Marking? || s.ops[o].pc.Publishing? || s.ops[o].pc.Announcing?
    ensures Step(s, a, s') && Counted(s, a) && !a.Report? && !a.Enter?
  {
    hide Upsert, Summarise;
    if s.ops[o].pc.Taking? {
      a, s' := Take(o), DoTake(s, o);
    } else if s.ops[o].pc.Marking? {
      a, s' := Mark(o), DoMark(s, o);
    } else if s.ops[o].pc.Publishing? {
      a, s' := Publish(o), DoPublish(s, o);
    } else {
      a, s' := Refresh(o), DoRefresh(s, o);
    }
  }

  lemma MiddleCanStep(s: State, o: OpId) returns (a: Action, s': State)
    requires o in s.ops && Shape(s.ops[o])
    requires s.ops[o].pc.Registering? || s.ops[o].pc.Unmarking? || s.ops[o].pc.Clearing? || s.ops[o].pc.Refreshing?
    ensures Step(s, a, s') && Counted(s, a) && !a.Report? && !a.Enter?
  {
    hide Remove, Summarise;
    if s.ops[o].pc.Registering? {
      var p :| p in s.ops[o].owned;
      a, s' := Register(o), DoRegister(s, o);
    } else if s.ops[o].pc.Unmarking? {
      a, s' := Unmark(o), DoUnmark(s, o);
    } else if s.ops[o].pc.Clearing? {
      a, s' := Clear(o), DoClear(s, o);
    } else {
      a, s' := Refresh(o), DoRefresh(s, o);
    }
  }

  lemma BackCanStep(s: State, o: OpId) returns (a: Action, s': State)
    requires o in s.ops && Shape(s.ops[o])
    requires s.ops[o].pc.Unlocking? || s.ops[o].pc.Dropping? || s.ops[o].pc.Leaving?
    ensures Step(s, a, s') && Counted(s, a) && !a.Report? && !a.Enter?
  {
    if s.ops[o].pc.Unlocking? {
      a, s' := Unlock(o), DoUnlock(s, o);
    } else if s.ops[o].pc.Dropping? {
      a, s' := DropHandle(o), DoDropHandle(s, o);
    } else {
      a, s' := Leave(o), DoLeave(s, o);
    }
  }

  /** A call past the gate that is not waiting for a profile lock can step, or its worker can. */
  lemma HolderCanStep(s: State, o: OpId) returns (a: Action, s': State)
    requires Inv(s) && o in s.ops && InGate(s.ops[o]) && !s.ops[o].pc.Locking?
    ensures Step(s, a, s') && Counted(s, a) && !a.Report? && !a.Enter?
  {
    var pc := s.ops[o].pc;
    assert Shape(s.ops[o]) && !pc.Evicting? && !pc.JoiningEvicted?;
    hide Inv, Step, Counted;
    if pc.Resolving? {
      a, s' := ResolverCanStep(s, o);
    } else if pc.Signalling? {
      a, s' := SignallerCanStep(s, o);
    } else if pc.Joining? {
      a, s' := JoinerCanStep(s, o);
    } else if pc.Spawning? {
      a, s' := SpawnerCanStep(s, o);
    } else if pc.Taking? || pc.Marking? || pc.Publishing? || pc.Announcing? {
      a, s' := FrontCanStep(s, o);
    } else if pc.Registering? || pc.Unmarking? || pc.Clearing? || pc.Refreshing? {
      a, s' := MiddleCanStep(s, o);
    } else {
      a, s' := BackCanStep(s, o);
    }
  }

  lemma LockerCanStep(s: State, o: OpId) returns (a: Action, s': State)
    requires CanLock(s, o)
    ensures Step(s, a, s') && Counted(s, a) && !a.Report? && !a.Enter?
  {
    a, s' := Lock(o), DoLock(s, o);
  }

  lemma EntererCanStep(s: State, o: OpId) returns (a: Action, s': State)
    requires CanEnter(s, o)
    ensures Step(s, a, s') && Counted(s, a) && !a.Report?
  {
    a, s' := Enter(o), DoEnter(s, o);
  }

  /** Whoever is past the gate leads to a step: itself, or the call holding the lock it waits for. */
  lemma GateHolderCanStep(s: State, o: OpId) returns (a: Action, s': State)
    requires Inv(s) && o in s.ops && InGate(s.ops[o])
    ensures Step(s, a, s') && Counted(s, a) && !a.Report? && !a.Enter?
  {
    assert Shape(s.ops[o]);
    if !s.ops[o].pc.Locking? {
      hide Inv, Step, Counted;
      a, s' := HolderCanStep(s, o);
    } else if s.ops[o].handle.value !in s.held {
      hide Inv, Step, Counted;
      a, s' := LockerCanStep(s, o);
    } else {
      var q := s.held[s.ops[o].handle.value];
      assert q in s.ops && InCritical(s.ops[q]);
      hide Inv, Step, Counted;
      a, s' := HolderCanStep(s, q);
    }
  }

  /**
    No deadlock: while a call is unfinished, a call or a cancelled worker can step. If anyone is
    past the gate the step does not depend on who the gate would admit next.
    */
  lemma NoDeadlock(s: State, o: OpId) returns (a: Action, s': State)
    requires Reachable(s) && o in s.ops && !s.ops[o].pc.Finished?
    ensures Step(s, a, s') && Counted(s, a) && !a.Report?
    ensures (exists q :: q in s.ops && InGate(s.ops[q])) ==> !a.Enter?
  {
    ReachableInv(s);
    hide Reachable;
    assert s.writer.Some? ==> s.writer.value in s.ops && InGate(s.ops[s.writer.value]);
    assert forall q :: q in s.readers ==> q in s.ops && InGate(s.ops[q]);
    if q :| q in s.ops && InGate(s.ops[q]) {
      hide Inv, Step;
      a, s' := GateHolderCanStep(s, q);
    } else {
      hide Inv, Step;
      a, s' := EntererCanStep(s, o);
    }
  }

  // ---------------------------------------------------------------------------
  // Sums over finite maps
  // ---------------------------------------------------------------------------

  ghost function Sum(m: map<nat, nat>): nat
    decreases |m.Keys|
  {
    if m == map[] then 0
    else
      var k :| k in m;
      assert m.Keys == (m - {k}).Keys + {k};
      m[k] + Sum(m - {k})
  }

  lemma {:induction false} SumPick(m: map<nat, nat>, k: nat)
    requires k in m
    ensures Sum(m) == m[k] + Sum(m - {k})
    decreases |m.Keys|
  {
    var j: nat :| j in m && Sum(m) == m[j] + Sum(m - {j});
    if j != k {
      assert m.Keys == (m - {j}).Keys + {j};
      SumPick(m - {j}, k);
      assert m.Keys == (m - {k}).Keys + {k};
      SumPick(m - {k}, j);
      assert m - {j} - {k} == m - {k} - {j};
    }
  }

  lemma {:induction false} SumMonotone(m: map<nat, nat>, n: map<nat, nat>)
    requires forall k :: k in m ==> k in n && m[k] <= n[k]
    ensures Sum(m) <= Sum(n)
    decreases |m.Keys|
  {
    if m != map[] {
      var k: nat :| k in m;
      SumPick(m, k);
      SumPick(n, k);
      assert m.Keys == (m - {k}).Keys + {k};
      SumMonotone(m - {k}, n - {k});
    }
  }

  function At(m: map<nat, nat>, k: nat): nat {
    if k in m then m[k] else 0
  }

  lemma SumWithout(m: map<nat, nat>, k: nat)
    ensures Sum(m) == At(m, k) + Sum(m - {k})
  {
    if k in m {
      SumPick(m, k);
    } else {
      assert m - {k} == m;
    }
  }

  /** If only the entry at `k` grows, the sum grows by no more than that entry does. */
  lemma SumChange(m: map<nat, nat>, m': map<nat, nat>, k: nat, c: int)
    requires forall j :: j in m' && j != k ==> j in m && m'[j] <= m[j]
    requires At(m', k) <= At(m, k) + c
    ensures Sum(m') <= Sum(m) + c
  {
    SumWithout(m, k);
    SumWithout(m', k);
    SumMonotone(m' - {k}, m - {k});
  }

  // ---------------------------------------------------------------------------
  // The measure
  // ---------------------------------------------------------------------------

  function Stage(pc: Pc): nat {
    match pc
    case Entering => 23
    case Resolving => 22
    case Locking => 21
    case Taking => 20
    case Signalling => 17
    case Joining => 16
    case Marking => 15
    case Publishing => 14
    case Announcing => 13
    case Spawning => 12
    case Registering => 10
    case Evicting => 8
    case JoiningEvicted => 7
    case Unmarking => 6
    case Clearing => 5
    case Refreshing => 4
    case Unlocking => 3
    case Dropping => 2
    case Leaving => 1
    case Finished => 0
  }

  /** A start that may still put a run into the manager. */
  predicate MayRegister(op: Op) {
    op.call.Start? && Stage(op.pc) >= 10
  }

  ghost function Registrants(s: State): set<OpId> {
    set o | o in s.ops && MayRegister(s.ops[o])
  }

  /** How many runs `stop_all` could find: those registered and those still to come. */
  ghost function Supply(s: State): nat {
    |s.manager.runs.Keys| + |Registrants(s)|
  }

  ghost function Work(op: Op, supply: nat): nat {
    Stage(op.pc) + |op.owned.Keys| + |op.pending|
    + if op.call.StopAll? && Stage(op.pc) >= 20 then 2 * supply else 0
  }

  ghost function Works(s: State): map<OpId, nat> {
    map o | o in s.ops :: Work(s.ops[o], Supply(s))
  }

  function PhaseRank(phase: Phase): nat {
    match phase
    case Working => 6
    case Failed => 4
    case NeedsFallback => 3
    case Closing => 2
    case Exited(_) => 0
  }

  /** Refreshes owed, and the way to the end for a worker that has been told to stop. */
  function Rest(w: Worker): nat {
    w.owed + if w.running then 0 else PhaseRank(w.phase) + if w.helper then 1 else 0
  }

  /** What a report adds: itself if it counts, and a refresh that may come to count. */
  function Bonus(s: State, a: Action): nat {
    if !a.Report? then 0 else if Cancelled(s, a.run) then 2 else 1
  }

  ghost function Rests(s: State): map<RunId, nat> {
    map x | x in s.workers :: Rest(s.workers[x])
  }

  ghost function Measure(s: State): nat {
    8 * Sum(Works(s)) + Sum(Rests(s))
  }

  // ---------------------------------------------------------------------------
  // Every counted step lowers the measure
  // ---------------------------------------------------------------------------

  lemma SubsetSize<T>(a: set<T>, b: set<T>)
    requires a <= b
    ensures |a| <= |b|
  {
    if a != {} {
      var x :| x in a;
      SubsetSize(a - {x}, b - {x});
    }
  }

  lemma SupplyShrinks(s: State, s': State, o: OpId)
    requires Replaces(s, s', o) && s'.manager.runs.Keys <= s.manager.runs.Keys
    requires MayRegister(s'.ops[o]) ==> MayRegister(s.ops[o])
    ensures Supply(s') <= Supply(s)
  {
    SubsetSize(s'.manager.runs.Keys, s.manager.runs.Keys);
    SubsetSize(Registrants(s'), Registrants(s));
  }

  lemma SupplyRegisters(s: State, s': State, o: OpId, p: ProfileId)
    requires Replaces(s, s', o) && s'.manager.runs.Keys == s.manager.runs.Keys + {p}
    requires MayRegister(s.ops[o]) && !MayRegister(s'.ops[o])
    ensures Supply(s') <= Supply(s)
  {
    assert Registrants(s) == Registrants(s') + {o} && o !in Registrants(s');
    assert |s'.manager.runs.Keys| <= |s.manager.runs.Keys| + 1;
  }

  lemma PlainWork(op: Op, op': Op, n: nat, n': nat)
    requires op'.call == op.call && op'.owned == op.owned && op'.pending == op.pending
    requires Stage(op'.pc) < Stage(op.pc) && n' <= n
    ensures Work(op', n') < Work(op, n)
  {
  }

  lemma TakeWork(op: Op, runs: map<ProfileId, RunId>, n: nat, n': nat)
    requires Shape(op) && op.pc.Taking? && |runs.Keys| <= n
    ensures Work(AfterTake(op, runs), n') < Work(op, n)
  {
    var op' := AfterTake(op, runs);
    assert op.owned.Keys == {} && op.pending == {};
    if op.call.StopAll? {
      assert op'.owned.Keys == runs.Keys && op'.pending == runs.Keys;
    } else if op.call.profile in runs {
      assert op'.owned.Keys == {op.call.profile} && |op'.owned.Keys| == 1;
    }
  }

  lemma SignalWork(op: Op, target: ProfileId, n: nat, n': nat)
    requires Shape(op) && op.pc.Signalling? && target in op.pending
    ensures Work(AfterSignal(op, target), n') < Work(op, n)
  {
    assert op.pending == (op.pending - {target}) + {target};
  }

  lemma JoinStage(op: Op, target: ProfileId)
    requires op.pc.Joining?
    ensures Stage(AfterJoin(op, target).pc) <= Stage(op.pc)
    ensures Stage(AfterJoin(op, target).pc) < 20 && Stage(op.pc) < 20
    ensures AfterJoin(op, target).owned == op.owned - {target} && AfterJoin(op, target).pending == op.pending
  {
  }

  lemma JoinWork(op: Op, target: ProfileId, n: nat, n': nat)
    requires op.pc.Joining? && target in op.owned
    ensures Work(AfterJoin(op, target), n') < Work(op, n)
  {
    JoinStage(op, target);
    hide Stage, AfterJoin;
    assert op.owned.Keys == (op.owned - {target}).Keys + {target};
  }

  lemma SpawnWork(op: Op, run: RunId, n: nat, n': nat)
    requires Shape(op) && op.pc.Spawning? && op.call.Start?
    ensures Work(AfterSpawn(op, run), n') < Work(op, n)
  {
    assert op.owned.Keys == {} && AfterSpawn(op, run).owned.Keys == {op.call.profile};
  }

  lemma RegisterWork(op: Op, runs: map<ProfileId, RunId>, n: nat, n': nat)
    requires Shape(op) && op.pc.Registering? && op.call.Start? && op.call.profile !in runs
    ensures Work(AfterRegister(op, runs), n') < Work(op, n)
  {
    assert AfterRegister(op, runs).owned.Keys == {};
  }

  /** The call that steps has less to do, and leaves no more for `stop_all`. */
  ghost predicate Drops(s: State, s': State, o: OpId) {
    && Replaces(s, s', o) && Supply(s') <= Supply(s)
    && Work(s'.ops[o], Supply(s')) < Work(s.ops[o], Supply(s))
  }

  lemma TakeDrops(s: State, o: OpId)
    requires Shapes(s) && CanTake(s, o)
    ensures Drops(s, DoTake(s, o), o)
  {
    var s' := DoTake(s, o);
    TakeManager(s.manager, s.ops[o].call);
    SupplyShrinks(s, s', o);
    TakeWork(s.ops[o], s.manager.runs, Supply(s), Supply(s'));
  }

  lemma SignalDrops(s: State, o: OpId, target: ProfileId)
    requires Shapes(s) && NoneEvicted(s) && CanSignal(s, o, target)
    ensures Drops(s, DoSignal(s, o, target), o)
  {
    var s' := DoSignal(s, o, target);
    SupplyShrinks(s, s', o);
    SignalWork(s.ops[o], target, Supply(s), Supply(s'));
  }

  lemma JoinDrops(s: State, o: OpId, target: ProfileId)
    requires Shapes(s) && NoneEvicted(s) && CanJoin(s, o, target)
    ensures Drops(s, DoJoin(s, o, target), o)
  {
    var s' := DoJoin(s, o, target);
    SupplyShrinks(s, s', o);
    JoinWork(s.ops[o], target, Supply(s), Supply(s'));
  }

  lemma SpawnDrops(s: State, o: OpId, run: RunId)
    requires Shapes(s) && CanSpawn(s, o, run)
    ensures Drops(s, DoSpawn(s, o, run), o)
  {
    var s' := DoSpawn(s, o, run);
    SupplyShrinks(s, s', o);
    SpawnWork(s.ops[o], run, Supply(s), Supply(s'));
  }

  lemma RegisterDrops(s: State, o: OpId)
    requires Shapes(s) && Custodial(s) && CanRegister(s, o)
    ensures Drops(s, DoRegister(s, o), o)
  {
    var s' := DoRegister(s, o);
    RegisterFindsVacancy(s, o);
    SupplyRegisters(s, s', o, s.ops[o].call.profile);
    RegisterWork(s.ops[o], s.manager.runs, Supply(s), Supply(s'));
  }

  /** The call moves on with the runs it has. */
  predicate MovesOn(op: Op, op': Op) {
    op'.call == op.call && op'.owned == op.owned && op'.pending == op.pending && Stage(op'.pc) < Stage(op.pc)
  }

  lemma MoveRecords(op: Op)
    ensures op.pc.Entering? ==> MovesOn(op, op.(pc := if op.call.StopAll? then Taking else Resolving))
    ensures op.pc.Resolving? ==> forall l :: MovesOn(op, op.(pc := Locking, handle := l))
    ensures op.pc.Locking? ==> MovesOn(op, op.(pc := Taking))
    ensures op.pc.Marking? ==> MovesOn(op, op.(pc := Publishing))
    ensures op.pc.Publishing? ==> MovesOn(op, op.(pc := Announcing))
    ensures op.pc.Announcing? || op.pc.Refreshing? ==> MovesOn(op, AfterRefresh(op))
    ensures op.pc.Spawning? ==> MovesOn(op, op.(pc := Unmarking))
    ensures op.pc.Unmarking? ==> MovesOn(op, AfterUnmark(op))
    ensures op.pc.Clearing? ==> MovesOn(op, AfterClear(op))
    ensures op.pc.Unlocking? ==> MovesOn(op, op.(pc := Dropping))
    ensures op.pc.Dropping? ==> MovesOn(op, op.(pc := Leaving, handle := None))
    ensures op.pc.Leaving? ==> MovesOn(op, op.(pc := Finished))
  {
  }

  lemma MoveDrops(s: State, s': State, o: OpId)
    requires Replaces(s, s', o) && s'.manager.runs == s.manager.runs && MovesOn(s.ops[o], s'.ops[o])
    ensures Drops(s, s', o)
  {
    SupplyShrinks(s, s', o);
    PlainWork(s.ops[o], s'.ops[o], Supply(s), Supply(s'));
  }

  predicate MovesRuns(a: Action) {
    a.Take? || a.Signal? || a.Join? || a.Spawn? || a.Register?
  }

  lemma PlainStepDrops(s: State, a: Action, s': State)
    requires Step(s, a, s') && IsOpStep(a) && !MovesRuns(a)
    ensures Drops(s, s', a.op)
  {
    MoveRecords(s.ops[a.op]);
    hide MovesOn, Drops, Upsert, Remove, Summarise;
    MoveDrops(s, s', a.op);
  }

  lemma RunStepDrops(s: State, a: Action, s': State)
    requires Shapes(s) && Custodial(s) && NoneEvicted(s) && Step(s, a, s') && MovesRuns(a)
    ensures Drops(s, s', a.op)
  {
    hide Drops, Shapes, Custodial, NoneEvicted;
    match a
    case Take(o) => TakeDrops(s, o);
    case Signal(o, target) => SignalDrops(s, o, target);
    case Join(o, target) => JoinDrops(s, o, target);
    case Spawn(o, run) => SpawnDrops(s, o, run);
    case Register(o) => RegisterDrops(s, o);
  }

  lemma OpStepDrops(s: State, a: Action, s': State)
    requires Inv(s) && Step(s, a, s') && IsOpStep(a)
    ensures Drops(s, s', a.op)
  {
    hide Drops, Step, Shapes, Gate, Registry, Mutex;
    if MovesRuns(a) {
      RunStepDrops(s, a, s');
    } else {
      PlainStepDrops(s, a, s');
    }
  }

  lemma OpStepRests(s: State, a: Action, s': State)
    requires Step(s, a, s') && IsOpStep(a)
    ensures Sum(Rests(s')) <= Sum(Rests(s)) + 7
  {
    hide Upsert, Remove, Summarise, Sum;
    if a.Signal? {
      SumChange(Rests(s), Rests(s'), s.ops[a.op].owned[a.target], 7);
    } else if a.Spawn? {
      SumChange(Rests(s), Rests(s'), a.run, 7);
    } else {
      assert s'.workers == s.workers;
    }
  }

  lemma WorksDrop(s: State, s': State, o: OpId)
    requires Drops(s, s', o)
    ensures Sum(Works(s')) + 1 <= Sum(Works(s))
  {
    hide Supply, Sum;
    SumChange(Works(s), Works(s'), o, -1);
  }

  lemma OpStepMeasure(s: State, a: Action, s': State)
    requires Inv(s) && Step(s, a, s') && IsOpStep(a)
    ensures Measure(s') < Measure(s)
  {
    hide Inv, Step, Drops;
    OpStepDrops(s, a, s');
    OpStepRests(s, a, s');
    WorksDrop(s, s', a.op);
  }

  lemma WorkerStepRecord(s: State, a: Action, s': State)
    requires Step(s, a, s') && IsWorkerStep(a)
    ensures s'.ops == s.ops && s'.manager == s.manager
    ensures a.run in s.workers && a.run in s'.workers && s'.workers == s.workers[a.run := s'.workers[a.run]]
    ensures Rest(s'.workers[a.run]) + (if Cancelled(s, a.run) then 1 else 0) <= Rest(s.workers[a.run]) + Bonus(s, a)
  {
    hide Upsert, Remove, Summarise;
  }

  lemma WorkerStepMeasure(s: State, a: Action, s': State)
    requires Step(s, a, s') && IsWorkerStep(a)
    ensures Measure(s') + (if Cancelled(s, a.run) then 1 else 0) <= Measure(s) + Bonus(s, a)
  {
    WorkerStepRecord(s, a, s');
    WorkerStepWorks(s, a, s');
    hide Step, Sum, Works, Rest, Bonus;
    SumChange(Rests(s), Rests(s'), a.run, Bonus(s, a) - if Cancelled(s, a.run) then 1 else 0);
  }

  lemma SameSupply(s: State, s': State)
    requires s'.ops == s.ops && s'.manager == s.manager
    ensures Supply(s') == Supply(s)
  {
    assert Registrants(s') == Registrants(s);
  }

  /** A worker's step leaves the calls' work as it is. */
  lemma WorkerStepWorks(s: State, a: Action, s': State)
    requires Step(s, a, s') && IsWorkerStep(a)
    ensures Works(s') == Works(s)
  {
    WorkerStepRecord(s, a, s');
    SameSupply(s, s');
  }

  // ---------------------------------------------------------------------------
  // Termination
  // ---------------------------------------------------------------------------

  ghost predicate NoCalls(r: Run, i: nat, j: nat)
    requires i <= j <= |r.actions|
  {
    forall k :: i <= k < j ==> !r.actions[k].Invoke?
  }

  /** The steps of calls between two states of a run. */
  ghost function OpSteps(r: Run, i: nat, j: nat): nat
    requires i <= j <= |r.actions|
    decreases j
  {
    if i == j then 0 else OpSteps(r, i, j - 1) + if IsOpStep(r.actions[j - 1]) then 1 else 0
  }

  /**
    Termination of the calls: as long as no new call is made, the steps the calls can still take
    are bounded by the work left in the present state, whatever the workers do meanwhile.
    */
  lemma {:induction false} OpStepsBounded(r: Run, i: nat, j: nat)
    requires IsRun(r) && i <= j < |r.states| && NoCalls(r, i, j)
    ensures OpSteps(r, i, j) + Sum(Works(r.states[j])) <= Sum(Works(r.states[i]))
  {
    hide Inv, Step, Works, Sum, Drops;
    if i < j {
      OpStepsBounded(r, i, j - 1);
      RunInv(r, j - 1);
      var s, a, s' := r.states[j - 1], r.actions[j - 1], r.states[j];
      assert !a.Invoke?;
      if IsOpStep(a) {
        OpStepDrops(s, a, s');
        WorksDrop(s, s', a.op);
      } else {
        WorkerStepWorks(s, a, s');
      }
    }
  }

  /** The counted steps between two states of a run. */
  ghost function CountedSteps(r: Run, i: nat, j: nat): nat
    requires i <= j < |r.states| && |r.states| == |r.actions| + 1
    decreases j
  {
    if i == j then 0
    else CountedSteps(r, i, j - 1) + if Counted(r.states[j - 1], r.actions[j - 1]) then 1 else 0
  }

  /** What the reports between two states may cost: two steps if cancelled, else a later refresh. */
  ghost function ReportCost(r: Run, i: nat, j: nat): nat
    requires i <= j < |r.states| && |r.states| == |r.actions| + 1
    decreases j
  {
    if i == j then 0 else ReportCost(r, i, j - 1) + Bonus(r.states[j - 1], r.actions[j - 1])
  }

  lemma CountedStep(s: State, a: Action, s': State)
    requires Inv(s) && Step(s, a, s') && !a.Invoke?
    ensures Measure(s') + (if Counted(s, a) then 1 else 0) <= Measure(s) + Bonus(s, a)
  {
    hide Inv, Step, Measure;
    if IsOpStep(a) {
      OpStepMeasure(s, a, s');
    } else {
      WorkerStepMeasure(s, a, s');
    }
  }

  /**
    Termination of the workers told to stop: without new calls, their steps and those of the calls
    are bounded by the measure of the present state and by the reports still made.
    */
  lemma {:induction false} CountedStepsBounded(r: Run, i: nat, j: nat)
    requires IsRun(r) && i <= j < |r.states| && NoCalls(r, i, j)
    ensures CountedSteps(r, i, j) + Measure(r.states[j]) <= Measure(r.states[i]) + ReportCost(r, i, j)
  {
    hide Inv, Step, Measure, Counted, Bonus;
    if i < j {
      CountedStepsBounded(r, i, j - 1);
      RunInv(r, j - 1);
      CountedStep(r.states[j - 1], r.actions[j - 1], r.states[j]);
    }
  }
}
