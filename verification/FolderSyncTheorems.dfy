/**
  What holds of every run of the folder-sync lifecycle: at every state it reaches, and
  between the states of one run.
  */
module FolderSyncTheorems {
  import opened Wrappers
  import opened ServiceStatus
  import opened SyncManager
  import opened FolderSyncModel
  import opened FolderSyncExclusion
  import opened FolderSyncCustody
  import opened FolderSyncStatus

  ghost predicate Inv(s: State) {
    Exclusion(s) && Custodial(s) && UniqueIds(s.store.profiles)
  }

  lemma InitInv()
    ensures Inv(INIT)
  {
  }

  lemma InvStep(s: State, a: Action, s': State)
    requires Inv(s) && Step(s, a, s')
    ensures Inv(s')
  {
    hide Step, Exclusion, Custodial, UniqueIds;
    ExclusionStep(s, a, s');
    CustodyStep(s, a, s');
    StatusStep(s, a, s');
  }

  /** Every state of every run satisfies the invariant. */
  lemma {:induction false} RunInv(r: Run, i: nat)
    requires IsRun(r) && i < |r.states|
    ensures Inv(r.states[i])
  {
    if i == 0 {
      InitInv();
    } else {
      RunInv(r, i - 1);
      assert Step(r.states[i - 1], r.actions[i - 1], r.states[i]);
      hide Step, Inv;
      InvStep(r.states[i - 1], r.actions[i - 1], r.states[i]);
    }
  }

  ghost predicate Reachable(s: State) {
    exists r: Run, i: nat :: IsRun(r) && i < |r.states| && r.states[i] == s
  }

  lemma ReachableInv(s: State)
    requires Reachable(s)
    ensures Inv(s)
  {
    hide Inv;
    var r: Run, i: nat :| IsRun(r) && i < |r.states| && r.states[i] == s;
    RunInv(r, i);
  }

  // ---------------------------------------------------------------------------
  // Workers
  // ---------------------------------------------------------------------------

  /** Each profile has at most one live worker. */
  lemma AtMostOneWorker(s: State, x: RunId, y: RunId)
    requires Reachable(s) && LiveIn(s, x) && LiveIn(s, y) && s.workers[x].profile == s.workers[y].profile
    ensures x == y
  {
    ReachableInv(s);
    hide Reachable;
    HeldUnique(s, s.workers[x].profile, x, y);
  }

  /** Every live worker is registered or owned by exactly one call, never both. */
  lemma ExactlyOneHolder(s: State, x: RunId)
    requires Reachable(s) && LiveIn(s, x)
    ensures var p := s.workers[x].profile;
            && (Registered(s, p, x) <==> !exists o :: o in s.ops && Owns(s.ops[o], p, x))
            && (forall o, q :: o in s.ops && q in s.ops && Owns(s.ops[o], p, x) && Owns(s.ops[q], p, x) ==> o == q)
  {
    var p := s.workers[x].profile;
    ReachableInv(s);
    hide Reachable;
    assert Held(s, p, x);
    forall o | o in s.ops && Owns(s.ops[o], p, x)
      ensures !Registered(s, p, x) && forall q :: q in s.ops && Owns(s.ops[q], p, x) ==> o == q
    {
      OwnerInvolved(s, o, p);
      forall q | q in s.ops && Owns(s.ops[q], p, x) ensures o == q {
        OwnerInvolved(s, q, p);
        SoleInvolvement(s, o, q, p);
      }
    }
  }

  /** Registration never displaces a run, so the eviction path is never taken. */
  lemma NeverDisplaces(s: State, o: OpId)
    requires Reachable(s) && CanRegister(s, o)
    ensures s.ops[o].call.profile !in s.manager.runs && DoRegister(s, o).ops[o].pc.Unmarking?
  {
    ReachableInv(s);
    hide Reachable;
    RegisterFindsVacancy(s, o);
  }

  // ---------------------------------------------------------------------------
  // has_active_profiles
  // ---------------------------------------------------------------------------

  /** A live worker's profile is registered or marked at every moment, replacement included. */
  lemma LiveProfilesAreActive(s: State, x: RunId)
    requires Reachable(s) && LiveIn(s, x)
    ensures s.workers[x].profile in s.manager.runs || s.workers[x].profile in s.manager.stopping
    ensures HasActive(s.manager)
  {
    var p := s.workers[x].profile;
    ReachableInv(s);
    hide Reachable;
    assert Held(s, p, x);
    if !Registered(s, p, x) {
      var o :| o in s.ops && Owns(s.ops[o], p, x);
      assert MustMark(s.ops[o], p);
    }
  }

  /** Marks never outlive the calls that set them. */
  lemma QuiescentMeansUnmarked(s: State)
    requires Reachable(s) && forall o :: o in s.ops ==> s.ops[o].pc.Finished?
    ensures s.manager.stopping == {}
  {
    ReachableInv(s);
    hide Reachable;
    forall p ensures p !in s.manager.stopping {
      assert forall o :: o in s.ops ==> !MayMark(s.ops[o], p);
    }
  }

  /** When `stop_all` is done, nothing is registered, marked or alive. */
  lemma StopAllStopsAll(s: State, o: OpId)
    requires Reachable(s) && CanLeave(s, o) && s.ops[o].call.StopAll?
    ensures var s' := DoLeave(s, o);
            && s'.manager.runs == map[] && s'.manager.stopping == {} && !HasActive(s'.manager)
            && (forall x :: x in s'.workers ==> !Live(s'.workers[x]))
  {
    ReachableInv(s);
    hide Reachable;
    assert Shape(s.ops[o]) && s.ops[o].owned == map[];
    forall p ensures p !in s.manager.runs && p !in s.manager.stopping {
      assert Vacated(s.ops[o], p);
      if p in s.manager.stopping {
        var q :| q in s.ops && MayMark(s.ops[q], p);
        SoleInvolvement(s, o, q, p);
      }
    }
    assert s.manager.runs == map[] && s.manager.stopping == {};
    forall x | x in s.workers ensures !Live(s.workers[x]) {
      NobodyHolds(s, o, s.workers[x].profile, x);
    }
  }

  /** A call has signalled every run it took before it waits for the first one. */
  lemma SignalsBeforeJoins(s: State, o: OpId, p: ProfileId)
    requires Reachable(s) && o in s.ops && s.ops[o].pc.Joining? && p in s.ops[o].owned
    ensures s.ops[o].owned[p] in s.workers && !s.workers[s.ops[o].owned[p]].running
  {
    ReachableInv(s);
    hide Reachable;
    assert OwnedOk(s.ops[o], s.workers, p);
  }

  // ---------------------------------------------------------------------------
  // Operation locks
  // ---------------------------------------------------------------------------

  /** Two calls in flight on one profile always hold the same mutex; on two profiles, different ones. */
  lemma OneLockPerProfile(s: State, o: OpId, q: OpId)
    requires Reachable(s) && o in s.ops && q in s.ops && s.ops[o].handle.Some? && s.ops[q].handle.Some?
    ensures !s.ops[o].call.StopAll? && !s.ops[q].call.StopAll?
    ensures s.ops[o].handle == s.ops[q].handle <==> s.ops[o].call.profile == s.ops[q].call.profile
  {
    ReachableInv(s);
    hide Reachable;
    assert Shape(s.ops[o]) && Shape(s.ops[q]);
    assert HandleRegistered(s.ops[o], s.manager.operations);
    assert HandleRegistered(s.ops[q], s.manager.operations);
  }

  /** Critical sections on one profile exclude each other, and `stop_all` excludes every other call. */
  lemma CriticalSectionsExclude(s: State, o: OpId, q: OpId)
    requires Reachable(s) && o in s.ops && q in s.ops && InGate(s.ops[o]) && InGate(s.ops[q])
    requires s.ops[o].call.StopAll? ||
             (InCritical(s.ops[o]) && InCritical(s.ops[q]) && s.ops[o].call.profile == s.ops[q].call.profile)
    ensures o == q
  {
    ReachableInv(s);
    hide Reachable;
    if s.ops[o].call.StopAll? {
      assert s.writer == Some(o);
      assert q in s.readers || s.writer == Some(q);
    } else {
      UniqueCustody(s, o, q, s.ops[o].call.profile);
    }
  }

  // ---------------------------------------------------------------------------
  // Status
  // ---------------------------------------------------------------------------

  /** The step that disposes of a run: its owner has waited for it and lets go. */
  predicate JoinsRun(s: State, a: Action, x: RunId) {
    a.Join? && a.op in s.ops && Owns(s.ops[a.op], a.target, x)
  }

  lemma HoldersKept(s: State, s': State, o: OpId, p: ProfileId, x: RunId)
    requires Held(s, p, x) && o in s'.ops && s'.ops == s.ops[o := s'.ops[o]]
    requires Registered(s, p, x) || (o in s.ops && Owns(s.ops[o], p, x)) ==>
               Registered(s', p, x) || Owns(s'.ops[o], p, x)
    ensures Held(s', p, x)
  {
    if Registered(s, p, x) || (o in s.ops && Owns(s.ops[o], p, x)) {
      assert Registered(s', p, x) || Owns(s'.ops[o], p, x);
    } else {
      var q :| q in s.ops && Owns(s.ops[q], p, x);
      assert q in s'.ops && Owns(s'.ops[q], p, x);
    }
  }

  lemma TakeKeepsHolder(s: State, o: OpId, p: ProfileId, x: RunId)
    requires Shapes(s) && CanTake(s, o) && Held(s, p, x)
    ensures Held(DoTake(s, o), p, x)
  {
    TakeRecord(s.ops[o], s.manager.runs);
    TakeManager(s.manager, s.ops[o].call);
    HoldersKept(s, DoTake(s, o), o, p, x);
  }

  lemma RegisterKeepsHolder(s: State, o: OpId, p: ProfileId, x: RunId)
    requires Exclusion(s) && Custodial(s) && CanRegister(s, o) && Held(s, p, x)
    ensures Held(DoRegister(s, o), p, x)
  {
    RegisterFindsVacancy(s, o);
    assert Shape(s.ops[o]);
    HoldersKept(s, DoRegister(s, o), o, p, x);
  }

  lemma JoinKeepsHolder(s: State, o: OpId, target: ProfileId, p: ProfileId, x: RunId)
    requires CanJoin(s, o, target) && Held(s, p, x) && !Owns(s.ops[o], target, x)
    ensures Held(DoJoin(s, o, target), p, x)
  {
    HoldersKept(s, DoJoin(s, o, target), o, p, x);
  }

  lemma SpawnKeepsHolder(s: State, o: OpId, run: RunId, p: ProfileId, x: RunId)
    requires Shapes(s) && CanSpawn(s, o, run) && Held(s, p, x)
    ensures Held(DoSpawn(s, o, run), p, x)
  {
    assert Shape(s.ops[o]) && s.ops[o].owned == map[];
    HoldersKept(s, DoSpawn(s, o, run), o, p, x);
  }

  lemma PlainKeepsHolder(s: State, a: Action, s': State, p: ProfileId, x: RunId)
    requires Step(s, a, s') && Held(s, p, x)
    requires !IsWorkerStep(a) && !a.Take? && !a.Join? && !a.Spawn? && !a.Register?
    ensures Held(s', p, x)
  {
    hide Held, Upsert, Remove, Summarise, OperationLock, AliveLocks;
    assert s'.manager.runs == s.manager.runs;
    HoldersKept(s, s', a.op, p, x);
  }

  /** A held run stays held until its owner has joined it. */
  lemma HeldStays(s: State, a: Action, s': State, p: ProfileId, x: RunId)
    requires Inv(s) && Step(s, a, s') && Held(s, p, x) && !JoinsRun(s, a, x)
    ensures Held(s', p, x)
  {
    hide Custodial, Held, UniqueIds, CanTake, DoTake, DoJoin, CanSpawn, DoSpawn, CanRegister, DoRegister;
    if IsWorkerStep(a) {
      WorkersKeepHolder(s, a, s', p, x);
    } else if a.Take? {
      TakeKeepsHolder(s, a.op, p, x);
    } else if a.Join? {
      JoinKeepsHolder(s, a.op, a.target, p, x);
    } else if a.Spawn? {
      SpawnKeepsHolder(s, a.op, a.run, p, x);
    } else if a.Register? {
      RegisterKeepsHolder(s, a.op, p, x);
    } else {
      hide Step, Exclusion;
      PlainKeepsHolder(s, a, s', p, x);
    }
  }

  lemma WorkersKeepHolder(s: State, a: Action, s': State, p: ProfileId, x: RunId)
    requires Step(s, a, s') && IsWorkerStep(a) && Held(s, p, x)
    ensures Held(s', p, x)
  {
    hide Step;
    WorkerStepFrame(s, a, s');
    assert Registered(s', p, x) <==> Registered(s, p, x);
  }

  /** Only a start or a stop of the profile, or a stop of all, disposes of a run. */
  lemma DisposedByItsCalls(s: State, a: Action, s': State, x: RunId)
    requires Reachable(s) && Step(s, a, s') && JoinsRun(s, a, x)
    ensures x in s.workers && a.target == s.workers[x].profile && Covers(s.ops[a.op], s.workers[x].profile)
  {
    ReachableInv(s);
    hide Reachable;
    assert OwnedOk(s.ops[a.op], s.workers, a.target);
    OwnerInvolved(s, a.op, a.target);
  }

  lemma WorkerKept(s: State, a: Action, s': State, x: RunId)
    requires Step(s, a, s') && x in s.workers
    ensures x in s'.workers && s'.workers[x].profile == s.workers[x].profile
  {
    hide Step;
    if IsWorkerStep(a) {
      WorkerStepFrame(s, a, s');
    } else {
      CallStepFrame(s, a, s');
    }
  }

  lemma {:induction false} HeldUntilJoined(r: Run, i: nat, j: nat, x: RunId)
    requires IsRun(r) && i <= j < |r.states|
    requires x in r.states[i].workers && Held(r.states[i], r.states[i].workers[x].profile, x)
    requires forall k :: i <= k < j ==> !JoinsRun(r.states[k], r.actions[k], x)
    ensures x in r.states[j].workers && r.states[j].workers[x].profile == r.states[i].workers[x].profile
    ensures Held(r.states[j], r.states[i].workers[x].profile, x)
  {
    hide Step, Inv, JoinsRun, Held;
    if i < j {
      HeldUntilJoined(r, i, j - 1, x);
      RunInv(r, j - 1);
      WorkerKept(r.states[j - 1], r.actions[j - 1], r.states[j], x);
      HeldStays(r.states[j - 1], r.actions[j - 1], r.states[j], r.states[i].workers[x].profile, x);
    }
  }

  lemma LiveIsHeld(s: State, x: RunId)
    requires Inv(s) && LiveIn(s, x)
    ensures Held(s, s.workers[x].profile, x)
  {
  }

  /** An error on show stays on show until its run is disposed of, while no helper of the profile runs. */
  lemma {:induction false} ShownErrorStays(r: Run, i: nat, j: nat, x: RunId)
    requires IsRun(r) && i <= j < |r.states| && ErrorShown(r.states[i], x)
    requires Held(r.states[i], r.states[i].workers[x].profile, x)
    requires forall k :: i <= k < j ==> !JoinsRun(r.states[k], r.actions[k], x)
    requires forall k :: i <= k < j ==> !HelperRuns(r.states[k].workers, r.states[i].workers[x].profile)
    ensures ErrorShown(r.states[j], x)
  {
    hide Step, Exclusion, Custodial, UniqueIds, JoinsRun, Held, HelperRuns, ErrorDue, ShowsError;
    if i < j {
      ShownErrorStays(r, i, j - 1, x);
      HeldUntilJoined(r, i, j - 1, x);
      RunInv(r, j - 1);
      StatusStep(r.states[j - 1], r.actions[j - 1], r.states[j]);
    }
  }

  /**
    A worker that ends in error shows it in every state until a start or a stop has disposed of
    its run, if no helper thread left behind by an agent of the profile runs meanwhile.
    */
  lemma ErrorVisibleUntilJoined(r: Run, i: nat, j: nat, x: RunId)
    requires IsRun(r) && i <= j < |r.states| && LiveIn(r.states[i], x) && !ErrorDue(r.states[i].workers[x])
    requires forall k :: i <= k < j ==> !JoinsRun(r.states[k], r.actions[k], x)
    requires forall k :: i <= k < j ==> !HelperRuns(r.states[k].workers, r.states[i].workers[x].profile)
    requires x in r.states[j].workers && r.states[j].workers[x].phase == Exited(true)
    ensures ShowsError(r.states[j].store, r.states[i].workers[x].profile)
  {
    hide IsRun, Inv, JoinsRun, Held, HelperRuns, ShowsError;
    RunInv(r, i);
    LiveIsHeld(r.states[i], x);
    HeldUntilJoined(r, i, j, x);
    ShownErrorStays(r, i, j, x);
  }

  /** A helper thread that still runs can show the profile again, and not as failed. */
  lemma StragglerReports(s: State, p: ProfileId) returns (a: Action, s': State)
    requires UniqueIds(s.store.profiles) && HelperRuns(s.workers, p)
    ensures Step(s, a, s') && IsWorkerStep(a)
    ensures Lookup(s'.store.profiles, p).Some? && !ShowsError(s'.store, p)
  {
    var y :| y in s.workers && s.workers[y].helper && s.workers[y].profile == p;
    var e := Entry(p, s.workers[y].title, RUNNING, "", "", None);
    UpsertLookup(s.store.profiles, e);
    a, s' := Report(y, e), DoReport(s, y, e);
  }

  lemma ShownAfterStep(s: State, a: Action, s': State, x: RunId)
    requires Inv(s) && x in s.workers && s.workers[x].phase == Exited(true) && Held(s, s.workers[x].profile, x)
    requires ShowsError(s.store, s.workers[x].profile) && !HelperRuns(s.workers, s.workers[x].profile)
    requires Step(s, a, s')
    ensures ShowsError(s'.store, s.workers[x].profile)
  {
    hide Step, Exclusion, Custodial, UniqueIds, Held, HelperRuns, ShowsError;
    assert Guarded(s, x);
    StatusStep(s, a, s');
    ExitedStep(s, a, s', x);
  }

  /** No step can hide the shown error of a held run exactly when no helper of the profile runs. */
  lemma ErrorSafeIff(s: State, x: RunId)
    requires Reachable(s) && x in s.workers && s.workers[x].phase == Exited(true)
    requires Held(s, s.workers[x].profile, x) && ShowsError(s.store, s.workers[x].profile)
    ensures (forall a, s' :: Step(s, a, s') ==> ShowsError(s'.store, s.workers[x].profile))
       <==> !HelperRuns(s.workers, s.workers[x].profile)
  {
    ReachableInv(s);
    hide Reachable, Step, Held, ShowsError;
    if HelperRuns(s.workers, s.workers[x].profile) {
      var a, s' := StragglerReports(s, s.workers[x].profile);
    } else {
      hide Inv, HelperRuns;
      forall a, s' | Step(s, a, s') ensures ShowsError(s'.store, s.workers[x].profile) {
        ShownAfterStep(s, a, s', x);
      }
    }
  }

  /** Profile ids are unique in every status list. */
  lemma ProfileIdsUnique(s: State)
    requires Reachable(s)
    ensures UniqueIds(s.store.profiles)
  {
    ReachableInv(s);
  }

  lemma ExitedStep(s: State, a: Action, s': State, x: RunId)
    requires Step(s, a, s') && x in s.workers && !Live(s.workers[x])
    ensures x in s'.workers && s'.workers[x].phase == s.workers[x].phase && s'.workers[x].profile == s.workers[x].profile
    ensures s'.workers[x].helper ==> s.workers[x].helper
    ensures IsWorkerStep(a) && a.run == x ==> s.workers[x].helper
  {
    hide Step;
    if IsWorkerStep(a) {
      WorkerStepFrame(s, a, s');
    } else {
      CallStepFrame(s, a, s');
    }
  }

  lemma {:induction false} ExitedStays(r: Run, i: nat, j: nat, x: RunId)
    requires IsRun(r) && i <= j < |r.states| && x in r.states[i].workers && !Live(r.states[i].workers[x])
    ensures x in r.states[j].workers && !Live(r.states[j].workers[x])
    ensures r.states[j].workers[x].helper ==> r.states[i].workers[x].helper
  {
    if i < j {
      ExitedStays(r, i, j - 1, x);
      assert Step(r.states[j - 1], r.actions[j - 1], r.states[j]);
      ExitedStep(r.states[j - 1], r.actions[j - 1], r.states[j], x);
    }
  }

  /** The profile a step of a call belongs to. */
  predicate PublishesFor(s: State, a: Action, p: ProfileId) {
    a.Publish? && a.op in s.ops && Covers(s.ops[a.op], p)
  }

  predicate ClearsFor(s: State, a: Action, p: ProfileId) {
    a.Clear? && a.op in s.ops && Covers(s.ops[a.op], p)
  }

  /** Once a start publishes, earlier runs of the profile take no step but those of a helper that still runs. */
  lemma NoStaleWriter(r: Run, i: nat, j: nat, p: ProfileId)
    requires IsRun(r) && i < j < |r.actions|
    requires PublishesFor(r.states[i], r.actions[i], p)
    requires IsWorkerStep(r.actions[j])
    ensures var x := r.actions[j].run;
            x in r.states[i].workers && r.states[i].workers[x].profile == p ==>
              x in r.states[j].workers && !Live(r.states[j].workers[x]) && r.states[j].workers[x].helper
  {
    var s := r.states[i];
    var o := r.actions[i].op;
    var x := r.actions[j].run;
    RunInv(r, i);
    assert Step(s, r.actions[i], r.states[i + 1]) && Step(r.states[j], r.actions[j], r.states[j + 1]);
    if x in s.workers && s.workers[x].profile == p {
      assert Shape(s.ops[o]) && Vacated(s.ops[o], p);
      NobodyHolds(s, o, p, x);
      assert !Live(s.workers[x]);
      ExitedStays(r, i, j, x);
      ExitedStep(r.states[j], r.actions[j], r.states[j + 1], x);
    }
  }

  /** Nothing is shown for the profile and nothing is on its way to be shown. */
  ghost predicate Silent(s: State, p: ProfileId) {
    && Lookup(s.store.profiles, p) == None
    && (forall x :: x in s.workers && s.workers[x].profile == p ==> !Live(s.workers[x]) && !s.workers[x].helper)
    && (forall o :: o in s.ops && s.ops[o].call.Start? && s.ops[o].call.profile == p ==>
          !s.ops[o].pc.Announcing? && !s.ops[o].pc.Spawning?)
  }

  lemma ClearSilences(s: State, o: OpId, p: ProfileId)
    requires Inv(s) && CanClear(s, o) && Covers(s.ops[o], p) && !HelperRuns(s.workers, p)
    ensures Silent(DoClear(s, o), p)
  {
    var s' := DoClear(s, o);
    assert Shape(s.ops[o]) && Vacated(s.ops[o], p);
    if !s.ops[o].call.StopAll? {
      RemoveLookup(s.store.profiles, p);
    }
    forall x | x in s'.workers && s'.workers[x].profile == p ensures !Live(s'.workers[x]) {
      NobodyHolds(s, o, p, x);
    }
    forall q | q in s'.ops && s'.ops[q].call.Start? && s'.ops[q].call.profile == p
      ensures !s'.ops[q].pc.Announcing? && !s'.ops[q].pc.Spawning?
    {
      if s'.ops[q].pc.Announcing? || s'.ops[q].pc.Spawning? {
        assert q != o && Vacated(s.ops[q], p);
        SoleInvolvement(s, o, q, p);
      }
    }
  }

  lemma ClearStepSilences(s: State, a: Action, s': State, p: ProfileId)
    requires Inv(s) && Step(s, a, s') && ClearsFor(s, a, p) && !HelperRuns(s.workers, p)
    ensures Silent(s', p)
  {
    hide Inv, Silent, DoClear, CanClear, Covers, HelperRuns;
    ClearSilences(s, a.op, p);
  }

  lemma SilentLookup(s: State, a: Action, s': State, p: ProfileId)
    requires UniqueIds(s.store.profiles) && Silent(s, p) && Step(s, a, s') && !PublishesFor(s, a, p)
    ensures Lookup(s'.store.profiles, p) == None
  {
    if a.Publish? {
      UpsertLookup(s.store.profiles, StartingEntry(s.ops[a.op].call));
    } else if a.Report? {
      UpsertLookup(s.store.profiles, a.entry);
    } else if a.Fallback? {
      UpsertLookup(s.store.profiles, ErrorEntry(s.workers[a.run], a.error));
    } else if a.Clear? {
      if !s.ops[a.op].call.StopAll? {
        RemoveLookup(s.store.profiles, s.ops[a.op].call.profile);
      }
    } else {
      assert s'.store.profiles == s.store.profiles;
    }
  }

  /** Only a publishing step leads a start towards spawning. */
  lemma TowardsSpawning(s: State, a: Action, s': State)
    requires Step(s, a, s') && !IsWorkerStep(a) && a.op in s'.ops
    requires s'.ops[a.op].pc.Announcing? || s'.ops[a.op].pc.Spawning?
    ensures a.op in s.ops && s'.ops[a.op].call == s.ops[a.op].call
    ensures a.Publish? || s.ops[a.op].pc.Announcing?
  {
    hide Upsert, Remove, Summarise, OperationLock, AliveLocks, TakeFor, UnmarkFor;
  }

  lemma SilentOps(s: State, a: Action, s': State, p: ProfileId)
    requires Silent(s, p) && Step(s, a, s') && !IsWorkerStep(a) && !PublishesFor(s, a, p)
    ensures forall o :: o in s'.ops && s'.ops[o].call.Start? && s'.ops[o].call.profile == p ==>
              !s'.ops[o].pc.Announcing? && !s'.ops[o].pc.Spawning?
    ensures forall x :: x in s'.workers && s'.workers[x].profile == p ==> !Live(s'.workers[x]) && !s'.workers[x].helper
  {
    hide Step, Lookup;
    CallStepFrame(s, a, s');
    if a.op in s'.ops && (s'.ops[a.op].pc.Announcing? || s'.ops[a.op].pc.Spawning?) {
      TowardsSpawning(s, a, s');
    }
  }

  lemma SilentWorkers(s: State, a: Action, s': State, p: ProfileId)
    requires Silent(s, p) && Step(s, a, s') && IsWorkerStep(a)
    ensures s'.ops == s.ops
    ensures forall x :: x in s'.workers && s'.workers[x].profile == p ==> !Live(s'.workers[x]) && !s'.workers[x].helper
  {
    hide Step, Lookup;
    WorkerStepFrame(s, a, s');
  }

  lemma SilentStep(s: State, a: Action, s': State, p: ProfileId)
    requires Inv(s) && Silent(s, p) && Step(s, a, s') && !PublishesFor(s, a, p)
    ensures Silent(s', p)
  {
    hide Exclusion, Custodial, Lookup, Step;
    SilentLookup(s, a, s', p);
    if IsWorkerStep(a) {
      SilentWorkers(s, a, s', p);
    } else {
      SilentOps(s, a, s', p);
    }
  }

  lemma {:induction false} SilentUntil(r: Run, i: nat, j: nat, p: ProfileId)
    requires IsRun(r) && i < j < |r.states|
    requires ClearsFor(r.states[i], r.actions[i], p) && !HelperRuns(r.states[i].workers, p)
    requires forall k :: i < k < j ==> !PublishesFor(r.states[k], r.actions[k], p)
    ensures Silent(r.states[j], p)
  {
    hide Inv, Silent, Step, ClearsFor, PublishesFor, HelperRuns;
    RunInv(r, j - 1);
    if i == j - 1 {
      ClearStepSilences(r.states[i], r.actions[i], r.states[j], p);
    } else {
      SilentUntil(r, i, j - 1, p);
      SilentStep(r.states[j - 1], r.actions[j - 1], r.states[j], p);
    }
  }

  /**
    After a stop the profile stays out of the status list until its next start publishes, if
    no helper left behind by an agent of the profile runs when it is cleared.
    */
  lemma StoppedStaysAbsent(r: Run, i: nat, j: nat, p: ProfileId)
    requires IsRun(r) && i < j < |r.states|
    requires ClearsFor(r.states[i], r.actions[i], p) && !HelperRuns(r.states[i].workers, p)
    requires forall k :: i < k < j ==> !PublishesFor(r.states[k], r.actions[k], p)
    ensures Lookup(r.states[j].store.profiles, p) == None
  {
    SilentUntil(r, i, j, p);
  }
}
