/**
  `AndroidFolderSyncManager` (apps/android-app/src/lib.rs): the registered runs, the
  profiles being stopped or replaced, and the registry of per-profile operation locks.
  The registry holds weak references; `alive` is the set of locks some operation still
  holds a strong reference to.
  */
module SyncManager {
  import opened Wrappers
  import opened ServiceStatus

  type RunId = nat
  type LockId = nat

  datatype Manager = Manager(
    runs: map<ProfileId, RunId>,
    stopping: set<ProfileId>,
    operations: map<ProfileId, LockId>)

  const NEW_MANAGER := Manager(map[], {}, map[])

  function TakeRun(m: Manager, profile: ProfileId): Manager {
    if profile in m.runs
    then m.(runs := m.runs - {profile}, stopping := m.stopping + {profile})
    else m
  }

  function TakeAllRuns(m: Manager): Manager {
    m.(runs := map[], stopping := m.stopping + m.runs.Keys)
  }

  function MarkStopping(m: Manager, profile: ProfileId): Manager {
    m.(stopping := m.stopping + {profile})
  }

  function FinishStopping(m: Manager, profile: ProfileId): Manager {
    m.(stopping := m.stopping - {profile})
  }

  function RegisterRun(m: Manager, profile: ProfileId, run: RunId): Manager {
    m.(runs := m.runs[profile := run])
  }

  /** The weak entries that survive a pruning pass. */
  function Prune(operations: map<ProfileId, LockId>, alive: set<LockId>): map<ProfileId, LockId> {
    map p | p in operations && operations[p] in alive :: operations[p]
  }

  /**
    The lock `profile_operation_lock` hands out, and the registry it leaves. Handles are
    dropped without the manager lock, so a lock may die between the pruning pass, which
    saw `seen` alive, and the upgrade, which sees `alive`.
    */
  function OperationLock(
    operations: map<ProfileId, LockId>, profile: ProfileId,
    seen: set<LockId>, alive: set<LockId>, newLock: LockId): (map<ProfileId, LockId>, LockId)
  {
    var kept := Prune(operations, seen);
    if profile in kept && kept[profile] in alive then (kept, kept[profile])
    else (kept[profile := newLock], newLock)
  }

  function HasActive(m: Manager): bool {
    m.runs != map[] || m.stopping != {}
  }

  /**
    Every profile whose lock is still held keeps its entry, and the lock handed out is the
    registered one whenever that one is alive.
    */
  lemma OperationLockKeepsLive(
    operations: map<ProfileId, LockId>, profile: ProfileId,
    seen: set<LockId>, alive: set<LockId>, newLock: LockId)
    requires alive <= seen && newLock !in operations.Values && newLock !in alive
    ensures var (operations', l) := OperationLock(operations, profile, seen, alive, newLock);
            && (forall q :: q in operations && operations[q] in alive ==>
                  q in operations' && operations'[q] == operations[q])
            && profile in operations' && operations'[profile] == l
            && (l in alive <==> profile in operations && operations[profile] in alive)
            && (forall q :: q in operations' && q != profile ==>
                  q in operations && operations'[q] == operations[q] && operations[q] in seen)
  {
    var (operations', l) := OperationLock(operations, profile, seen, alive, newLock);
    if profile in operations && operations[profile] in alive {
      assert operations[profile] in seen;
    }
  }

  /** The profile counts for `has_active_profiles`. */
  predicate ActiveProfile(m: Manager, profile: ProfileId) {
    profile in m.runs || profile in m.stopping
  }

  lemma HasActiveIff(m: Manager)
    ensures HasActive(m) <==> exists p :: ActiveProfile(m, p)
  {
    if m.runs != map[] {
      assert (forall p :: p !in m.runs) ==> m.runs == map[];
      var p :| p in m.runs;
      assert ActiveProfile(m, p);
    } else if m.stopping != {} {
      var p :| p in m.stopping;
      assert ActiveProfile(m, p);
    }
  }

  /** Taking a run and finishing its stop together remove that profile and nothing else; nothing blinks in between. */
  lemma TakeThenFinish(m: Manager, profile: ProfileId)
    ensures forall q :: ActiveProfile(TakeRun(m, profile), q) <==> ActiveProfile(m, q)
    ensures var done := FinishStopping(TakeRun(m, profile), profile);
            && !ActiveProfile(done, profile)
            && (forall q :: q != profile ==>
                  && (q in done.runs <==> q in m.runs) && (q in done.runs ==> done.runs[q] == m.runs[q])
                  && (q in done.stopping <==> q in m.stopping))
            && done.operations == m.operations
  {
  }

  class FolderSyncManager {
    var runs: map<ProfileId, RunId>
    var stopping: set<ProfileId>
    var operations: map<ProfileId, LockId>

    ghost function View(): Manager
      reads this
    {
      Manager(runs, stopping, operations)
    }

    constructor ()
      ensures View() == NEW_MANAGER
    {
      runs, stopping, operations := map[], {}, map[];
    }

    /** `take_run_for_stop` */
    method TakeRunForStop(profile: ProfileId) returns (run: Option<RunId>)
      modifies this
      ensures View() == TakeRun(old(View()), profile)
      ensures run == if profile in old(runs) then Some(old(runs)[profile]) else None
      ensures profile !in runs && (run.Some? ==> profile in stopping)
    {
      run := if profile in runs then Some(runs[profile]) else None;
      runs := runs - {profile};
      if run.Some? {
        stopping := stopping + {profile};
      }
    }

    /** `finished_stopping` */
    method FinishedStopping(profile: ProfileId)
      modifies this
      ensures View() == FinishStopping(old(View()), profile)
      ensures forall q :: ActiveProfile(View(), q) <==>
                if q == profile then profile in runs else ActiveProfile(old(View()), q)
    {
      stopping := stopping - {profile};
    }

    /** `profile_operation_lock`, with the strong counts read by the pass and by the upgrade. */
    method ProfileOperationLock(profile: ProfileId, seen: set<LockId>, alive: set<LockId>, newLock: LockId)
      returns (operation: LockId)
      modifies this
      ensures View() == old(View()).(
                operations := OperationLock(old(operations), profile, seen, alive, newLock).0)
      ensures operation == OperationLock(old(operations), profile, seen, alive, newLock).1
    {
      operations := Prune(operations, seen);
      if profile in operations && operations[profile] in alive {
        return operations[profile];
      }
      operation := newLock;
      operations := operations[profile := operation];
    }

    /** The insertion of `register_folder_sync_run`; returns the run it displaces. */
    method Register(profile: ProfileId, run: RunId) returns (displaced: Option<RunId>)
      modifies this
      ensures View() == RegisterRun(old(View()), profile, run)
      ensures displaced.Some? <==> profile in old(runs)
      ensures displaced.Some? ==> displaced.value == old(runs)[profile]
    {
      displaced := if profile in runs then Some(runs[profile]) else None;
      runs := runs[profile := run];
    }

    /** The first critical section of `stop_all`. */
    method TakeAll() returns (taken: map<ProfileId, RunId>)
      modifies this
      ensures taken == old(runs)
      ensures View() == TakeAllRuns(old(View()))
      ensures forall q :: ActiveProfile(View(), q) <==> ActiveProfile(old(View()), q)
      ensures forall q :: q in taken ==> q in stopping && q !in runs
    {
      taken := runs;
      runs := map[];
      stopping := stopping + taken.Keys;
    }
  }
}
