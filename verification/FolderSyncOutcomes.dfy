/**
  What calls and workers have done by the time they end, over every run of the lifecycle and in
  terms of the actions taken: how an agent's return shows, and what a finished start or stop has
  brought about.
  */
module FolderSyncOutcomes {
  import opened Wrappers
  import opened ServiceStatus
  import opened SyncManager
  import opened FolderSyncModel
  import opened FolderSyncExclusion
  import opened FolderSyncCustody
  import opened FolderSyncStatus
  import opened FolderSyncTheorems

  // ---------------------------------------------------------------------------
  // How an agent's return shows
  // ---------------------------------------------------------------------------

  /** The agent has returned an error. */
  predicate OnFailedPath(phase: Phase) {
    phase.Failed? || phase.NeedsFallback? || phase.Closing? || phase == Exited(true)
  }

  lemma FailedPathStep(s: State, a: Action, s': State, x: RunId)
    requires Step(s, a, s') && x in s.workers && OnFailedPath(s.workers[x].phase)
    ensures x in s'.workers && OnFailedPath(s'.workers[x].phase)
    ensures s.workers[x].phase.Closing? || s.workers[x].phase.Exited? ==>
              s'.workers[x].phase.Closing? || s'.workers[x].phase.Exited?
  {
    hide Upsert, Remove, Summarise, Lookup, OperationLock, AliveLocks, TakeFor, UnmarkFor;
  }

  lemma ReturnStep(s: State, a: Action, s': State)
    requires Step(s, a, s') && a.Return?
    ensures a.run in s.workers && a.run in s'.workers && s'.workers[a.run].profile == s.workers[a.run].profile
    ensures if a.failed then s'.workers[a.run].phase == Failed else s'.workers[a.run].phase == Exited(false)
    ensures s'.workers[a.run].helper <==> a.leaks
    ensures s'.store == s.store
  {
  }

  /** An agent that returned an error makes its worker end as failed, if it ends, and never otherwise. */
  lemma {:induction false} FailedReturnStays(r: Run, k: nat, j: nat, x: RunId)
    requires IsRun(r) && k < j < |r.states| && r.actions[k].Return? && r.actions[k].run == x && r.actions[k].failed
    ensures x in r.states[j].workers && OnFailedPath(r.states[j].workers[x].phase)
  {
    assert Step(r.states[j - 1], r.actions[j - 1], r.states[j]);
    hide Step;
    if k == j - 1 {
      ReturnStep(r.states[k], r.actions[k], r.states[j]);
    } else {
      FailedReturnStays(r, k, j - 1, x);
      FailedPathStep(r.states[j - 1], r.actions[j - 1], r.states[j], x);
    }
  }

  /** An agent that returned without an error makes its worker end at once, and not as failed. */
  lemma {:induction false} CleanReturnEnds(r: Run, k: nat, j: nat, x: RunId)
    requires IsRun(r) && k < j < |r.states| && r.actions[k].Return? && r.actions[k].run == x && !r.actions[k].failed
    ensures x in r.states[j].workers && r.states[j].workers[x].phase == Exited(false)
  {
    assert Step(r.states[j - 1], r.actions[j - 1], r.states[j]);
    hide Step;
    if k == j - 1 {
      ReturnStep(r.states[k], r.actions[k], r.states[j]);
    } else {
      CleanReturnEnds(r, k, j - 1, x);
      ExitedStep(r.states[j - 1], r.actions[j - 1], r.states[j], x);
    }
  }

  /**
    Whenever an agent returns an error, its profile shows state "error" from the end of the worker
    until a start or stop has joined it, if no helper thread of the profile runs meanwhile.
    */
  lemma FailureIsShown(r: Run, k: nat, j: nat, x: RunId)
    requires IsRun(r) && k < j < |r.states| && r.actions[k].Return? && r.actions[k].run == x && r.actions[k].failed
    requires x in r.states[j].workers && !Live(r.states[j].workers[x])
    requires forall l :: k < l < j ==> !JoinsRun(r.states[l], r.actions[l], x)
    requires forall l :: k < l < j && x in r.states[l].workers ==>
               !HelperRuns(r.states[l].workers, r.states[l].workers[x].profile)
    ensures r.states[j].workers[x].phase == Exited(true)
    ensures var e := Lookup(r.states[j].store.profiles, r.states[j].workers[x].profile);
            e.Some? && e.value.state == "error"
  {
    assert Step(r.states[k], r.actions[k], r.states[k + 1]);
    hide Step, HelperRuns, JoinsRun, Lookup, Inv;
    ReturnStep(r.states[k], r.actions[k], r.states[k + 1]);
    FailedReturnStays(r, k, j, x);
    assert LiveIn(r.states[k + 1], x) && !ErrorDue(r.states[k + 1].workers[x]);
    forall l | k + 1 <= l < j
      ensures !HelperRuns(r.states[l].workers, r.states[k + 1].workers[x].profile)
    {
      WorkerProfileStays(r, k + 1, l, x);
    }
    WorkerProfileStays(r, k + 1, j, x);
    ErrorVisibleUntilJoined(r, k + 1, j, x);
  }

  lemma {:induction false} WorkerProfileStays(r: Run, i: nat, j: nat, x: RunId)
    requires IsRun(r) && i <= j < |r.states| && x in r.states[i].workers
    ensures x in r.states[j].workers && r.states[j].workers[x].profile == r.states[i].workers[x].profile
  {
    hide Step;
    if i < j {
      WorkerProfileStays(r, i, j - 1, x);
      WorkerKept(r.states[j - 1], r.actions[j - 1], r.states[j], x);
    }
  }

  lemma CheckStep(s: State, a: Action, s': State)
    requires Step(s, a, s') && a.Check? && a.run in s.workers
    ensures a.run in s'.workers && OnFailedPath(s'.workers[a.run].phase) && s'.store == s.store
    ensures s'.workers[a.run].phase.Closing? <==> ShowsError(s.store, s.workers[a.run].profile)
  {
  }

  lemma {:induction false} ClosingStays(r: Run, k: nat, j: nat, x: RunId)
    requires IsRun(r) && k < j < |r.states| && r.actions[k] == Check(x) && x in r.states[k].workers
    requires ShowsError(r.states[k].store, r.states[k].workers[x].profile)
    ensures x in r.states[j].workers && OnFailedPath(r.states[j].workers[x].phase)
    ensures r.states[j].workers[x].phase.Closing? || r.states[j].workers[x].phase.Exited?
  {
    assert Step(r.states[j - 1], r.actions[j - 1], r.states[j]);
    hide Step;
    if k == j - 1 {
      CheckStep(r.states[k], r.actions[k], r.states[j]);
    } else {
      ClosingStays(r, k, j - 1, x);
      FailedPathStep(r.states[j - 1], r.actions[j - 1], r.states[j], x);
    }
  }

  /** An error the agent has already reported is left as reported: the worker does not write its own over it. */
  lemma ReportedErrorKept(r: Run, k: nat, j: nat, x: RunId)
    requires IsRun(r) && k < j < |r.actions| && r.actions[k] == Check(x) && x in r.states[k].workers
    requires ShowsError(r.states[k].store, r.states[k].workers[x].profile)
    ensures !(r.actions[j].Fallback? && r.actions[j].run == x)
  {
    ClosingStays(r, k, j, x);
    assert Step(r.states[j], r.actions[j], r.states[j + 1]);
  }

  /** The error a worker writes itself names the profile, its label and what went wrong. */
  lemma FallbackShows(s: State, a: Action, s': State)
    requires UniqueIds(s.store.profiles) && Step(s, a, s') && a.Fallback?
    ensures a.run in s.workers
    ensures var e := Lookup(s'.store.profiles, s.workers[a.run].profile);
            e.Some? && e.value.state == "error" && e.value.message == a.error && e.value.title == s.workers[a.run].title
  {
    hide Upsert, Summarise, Lookup, UniqueIds;
    UpsertLookup(s.store.profiles, ErrorEntry(s.workers[a.run], a.error));
  }

  /** A start shows its profile as starting, under its label. */
  lemma PublishShows(s: State, a: Action, s': State)
    requires UniqueIds(s.store.profiles) && Step(s, a, s') && a.Publish?
    ensures a.op in s.ops && s.ops[a.op].call.Start?
    ensures var (call, e) := (s.ops[a.op].call, Lookup(s'.store.profiles, s.ops[a.op].call.profile));
            e.Some? && e.value.state == "starting" && e.value.title == call.title && e.value.lastSuccess.None?
  {
    hide Upsert, Summarise, Lookup, UniqueIds;
    UpsertLookup(s.store.profiles, StartingEntry(s.ops[a.op].call));
  }

  /** A report shows exactly what was reported. */
  lemma ReportShows(s: State, a: Action, s': State)
    requires UniqueIds(s.store.profiles) && Step(s, a, s') && a.Report?
    ensures a.run in s.workers && Lookup(s'.store.profiles, s.workers[a.run].profile) == Some(a.entry)
  {
    hide Upsert, Summarise, Lookup, UniqueIds;
    UpsertLookup(s.store.profiles, a.entry);
  }

  // ---------------------------------------------------------------------------
  // What may happen
  // ---------------------------------------------------------------------------

  /** Spawning may succeed or fail. */
  lemma SpawnEitherWay(s: State, o: OpId, run: RunId)
    requires o in s.ops && s.ops[o].pc.Spawning? && s.ops[o].call.Start? && run !in s.workers
    ensures Step(s, Spawn(o, run), DoSpawn(s, o, run)) && Step(s, SpawnFails(o), DoSpawnFails(s, o))
  {
  }

  /** An agent without reports under way may return with or without an error; with one it may leave a helper behind. */
  lemma ReturnEitherWay(s: State, x: RunId, failed: bool, leaks: bool)
    requires x in s.workers && s.workers[x].phase.Working? && s.workers[x].owed == 0 && (leaks ==> failed)
    ensures Step(s, Return(x, failed, leaks), DoReturn(s, x, failed, leaks))
  {
  }

  // ---------------------------------------------------------------------------
  // What a finished call has done
  // ---------------------------------------------------------------------------

  predicate PastTaking(op: Op) {
    !op.pc.Entering? && !op.pc.Resolving? && !op.pc.Locking? && !op.pc.Taking?
  }

  predicate AtTheEnd(pc: Pc) {
    pc.Unlocking? || pc.Dropping? || pc.Leaving? || pc.Finished?
  }

  predicate PastClearing(op: Op) {
    !op.call.Start? && (op.pc.Refreshing? || AtTheEnd(op.pc))
  }

  predicate PastSpawning(op: Op) {
    && op.call.Start?
    && (op.pc.Evicting? || op.pc.JoiningEvicted? || op.pc.Unmarking? || op.pc.Clearing? || op.pc.Refreshing? || AtTheEnd(op.pc))
  }

  predicate PastPublishing(op: Op) {
    op.call.Start? && (PastSpawning(op) || op.pc.Announcing? || op.pc.Spawning? || op.pc.Registering?)
  }

  /** A call passes each of its stages by the step that belongs to it. */
  lemma StagesInOrder(s: State, a: Action, s': State)
    requires Step(s, a, s') && !IsWorkerStep(a)
    ensures a.op in s'.ops && PastTaking(s'.ops[a.op]) ==> a.Take? || (a.op in s.ops && PastTaking(s.ops[a.op]))
    ensures a.op in s'.ops && PastClearing(s'.ops[a.op]) ==> a.Clear? || (a.op in s.ops && PastClearing(s.ops[a.op]))
  {
    hide Upsert, Remove, Summarise, OperationLock, AliveLocks, TakeFor, UnmarkFor;
  }

  lemma StartStagesInOrder(s: State, a: Action, s': State)
    requires Step(s, a, s') && !IsWorkerStep(a)
    ensures a.op in s'.ops && PastPublishing(s'.ops[a.op]) ==> a.Publish? || (a.op in s.ops && PastPublishing(s.ops[a.op]))
    ensures a.op in s'.ops && PastSpawning(s'.ops[a.op]) ==>
              a.Register? || a.SpawnFails? || (a.op in s.ops && PastSpawning(s.ops[a.op]))
  {
    hide Upsert, Remove, Summarise, OperationLock, AliveLocks, TakeFor, UnmarkFor;
  }

  ghost predicate Happened(r: Run, j: nat, a: Action) {
    exists k :: 0 <= k < j && k < |r.actions| && r.actions[k] == a
  }

  /** What the call must have done to be where it is. */
  ghost predicate TraceOk(r: Run, j: nat, o: OpId, op: Op) {
    && (PastTaking(op) ==> Happened(r, j, Take(o)))
    && (PastClearing(op) ==> Happened(r, j, Clear(o)))
    && (PastPublishing(op) ==> Happened(r, j, Publish(o)))
    && (PastSpawning(op) ==> Happened(r, j, Register(o)) || Happened(r, j, SpawnFails(o)))
  }

  lemma TraceGrows(r: Run, j: nat, o: OpId, op: Op)
    requires TraceOk(r, j, o, op)
    ensures TraceOk(r, j + 1, o, op)
  {
    forall a | Happened(r, j, a) ensures Happened(r, j + 1, a) {
      var k :| 0 <= k < j && k < |r.actions| && r.actions[k] == a;
    }
  }

  lemma {:induction false} Trace(r: Run, j: nat, o: OpId)
    requires IsRun(r) && j < |r.states| && o in r.states[j].ops
    ensures TraceOk(r, j, o, r.states[j].ops[o])
  {
    if j > 0 {
      var s, a, s' := r.states[j - 1], r.actions[j - 1], r.states[j];
      assert Step(s, a, s');
      if o in s.ops {
        Trace(r, j - 1, o);
        TraceGrows(r, j - 1, o, s.ops[o]);
      }
      hide Step, PastTaking, PastClearing, PastPublishing, PastSpawning;
      if IsWorkerStep(a) {
        WorkerStepFrame(s, a, s');
      } else {
        CallStepFrame(s, a, s');
        StagesInOrder(s, a, s');
        StartStagesInOrder(s, a, s');
        assert Happened(r, j, a);
      }
    }
  }

  /**
    A stop that has finished has cleared the profile at some point: then it was out of the list,
    unregistered and without a live worker.
    */
  lemma StopHasStopped(r: Run, j: nat, o: OpId) returns (k: nat)
    requires IsRun(r) && j < |r.states| && o in r.states[j].ops
    requires r.states[j].ops[o].call.Stop? && r.states[j].ops[o].pc.Finished?
    ensures k < j && r.actions[k] == Clear(o)
    ensures var (s, p) := (r.states[k + 1], r.states[j].ops[o].call.profile);
            && Lookup(s.store.profiles, p) == None && p !in s.manager.runs
            && forall x :: x in s.workers && s.workers[x].profile == p ==> !Live(s.workers[x])
  {
    Trace(r, j, o);
    k :| 0 <= k < j && k < |r.actions| && r.actions[k] == Clear(o);
    var s := r.states[k];
    assert Step(s, r.actions[k], r.states[k + 1]);
    hide Step, Inv;
    ClearerKnown(s, r.actions[k], r.states[k + 1]);
    CallOfStays(r, k, j, o);
    RunInv(r, k);
    ClearVacates(s, o, s.ops[o].call.profile);
  }

  lemma ClearVacates(s: State, o: OpId, p: ProfileId)
    requires Inv(s) && CanClear(s, o) && Covers(s.ops[o], p)
    ensures var s' := DoClear(s, o);
            && Lookup(s'.store.profiles, p) == None && p !in s'.manager.runs
            && forall x :: x in s'.workers && s'.workers[x].profile == p ==> !Live(s'.workers[x])
  {
    assert Shape(s.ops[o]) && Vacated(s.ops[o], p);
    if !s.ops[o].call.StopAll? {
      RemoveLookup(s.store.profiles, p);
    }
    forall x | x in s.workers && s.workers[x].profile == p ensures !Live(s.workers[x]) {
      NobodyHolds(s, o, p, x);
    }
  }

  lemma {:induction false} CallOfStays(r: Run, i: nat, j: nat, o: OpId)
    requires IsRun(r) && i <= j < |r.states| && o in r.states[i].ops
    ensures o in r.states[j].ops && r.states[j].ops[o].call == r.states[i].ops[o].call
  {
    hide Step;
    if i < j {
      CallOfStays(r, i, j - 1, o);
      var s, a, s' := r.states[j - 1], r.actions[j - 1], r.states[j];
      if IsWorkerStep(a) {
        WorkerStepFrame(s, a, s');
      } else {
        CallStepFrame(s, a, s');
        if a.Invoke? {
          NotInvokedTwice(s, a, s');
        }
        CallStays(s, a, s');
      }
    }
  }

  lemma NotInvokedTwice(s: State, a: Action, s': State)
    requires Step(s, a, s') && a.Invoke?
    ensures a.op !in s.ops
  {
  }

  /**
    A start that has finished has shown the profile as starting, and then either failed to spawn or
    registered a worker of the profile.
    */
  lemma StartHasStarted(r: Run, j: nat, o: OpId) returns (k: nat, l: nat)
    requires IsRun(r) && j < |r.states| && o in r.states[j].ops
    requires r.states[j].ops[o].call.Start? && r.states[j].ops[o].pc.Finished?
    ensures k < j && r.actions[k] == Publish(o)
    ensures var e := Lookup(r.states[k + 1].store.profiles, r.states[j].ops[o].call.profile);
            e.Some? && e.value.state == "starting" && e.value.title == r.states[j].ops[o].call.title
    ensures l < j && (r.actions[l] == Register(o) || r.actions[l] == SpawnFails(o))
    ensures var (s, p) := (r.states[l + 1], r.states[j].ops[o].call.profile);
            r.actions[l] == Register(o) ==>
              p in s.manager.runs && s.manager.runs[p] in s.workers && s.workers[s.manager.runs[p]].profile == p
  {
    Trace(r, j, o);
    k :| 0 <= k < j && k < |r.actions| && r.actions[k] == Publish(o);
    l :| 0 <= l < j && l < |r.actions| && (r.actions[l] == Register(o) || r.actions[l] == SpawnFails(o));
    assert Step(r.states[k], r.actions[k], r.states[k + 1]) && Step(r.states[l], r.actions[l], r.states[l + 1]);
    hide Step, Inv, Lookup;
    RunInv(r, k);
    PublishShowsInv(r.states[k], r.actions[k], r.states[k + 1]);
    CallOfStays(r, k, j, o);
    if r.actions[l] == Register(o) {
      RunInv(r, l + 1);
      RegisterStep(r.states[l], r.actions[l], r.states[l + 1]);
      CallOfStays(r, l, j, o);
    }
  }

  lemma PublishShowsInv(s: State, a: Action, s': State)
    requires Inv(s) && Step(s, a, s') && a.Publish?
    ensures a.op in s.ops && s.ops[a.op].call.Start?
    ensures var (call, e) := (s.ops[a.op].call, Lookup(s'.store.profiles, s.ops[a.op].call.profile));
            e.Some? && e.value.state == "starting" && e.value.title == call.title
  {
    hide Step, Exclusion, Custodial, Lookup, UniqueIds;
    PublishShows(s, a, s');
  }

  lemma RegisterStep(s: State, a: Action, s': State)
    requires Inv(s') && Step(s, a, s') && a.Register?
    ensures a.op in s.ops && s.ops[a.op].call.Start?
    ensures var p := s.ops[a.op].call.profile;
            p in s'.manager.runs && s'.manager.runs[p] in s'.workers && s'.workers[s'.manager.runs[p]].profile == p
  {
    assert RunsKnown(s');
  }
}
