/**
  What the status store shows while calls and workers interleave: profile ids stay unique, and
  the error of a held run stays on show while no helper thread of its profile runs.
  */
module FolderSyncStatus {
  import opened Wrappers
  import opened ServiceStatus
  import opened SyncManager
  import opened FolderSyncModel
  import opened FolderSyncExclusion
  import opened FolderSyncCustody

  // ---------------------------------------------------------------------------
  // Holders
  // ---------------------------------------------------------------------------

  lemma OwnerInvolved(s: State, o: OpId, p: ProfileId)
    requires Shapes(s) && Custodial(s) && o in s.ops && p in s.ops[o].owned
    ensures Vacated(s.ops[o], p) && p !in s.manager.runs
  {
    assert Shape(s.ops[o]);
  }

  /** A profile has at most one held run: registered, or owned by one call. */
  lemma HeldUnique(s: State, p: ProfileId, r: RunId, x: RunId)
    requires Exclusion(s) && Custodial(s) && Held(s, p, r) && Held(s, p, x)
    ensures r == x
  {
    if Registered(s, p, r) {
      if !Registered(s, p, x) {
        var o :| o in s.ops && Owns(s.ops[o], p, x);
        OwnerInvolved(s, o, p);
      }
    } else {
      var o :| o in s.ops && Owns(s.ops[o], p, r);
      OwnerInvolved(s, o, p);
      var q :| q in s.ops && Owns(s.ops[q], p, x);
      SoleInvolvement(s, o, q, p);
    }
  }

  /** A call that has vacated a profile and owns no run of it leaves nobody holding one. */
  lemma NobodyHolds(s: State, o: OpId, p: ProfileId, r: RunId)
    requires Exclusion(s) && Custodial(s) && o in s.ops
    requires Vacated(s.ops[o], p) && p !in s.ops[o].owned
    ensures !Held(s, p, r)
  {
    if Held(s, p, r) {
      var q :| q in s.ops && Owns(s.ops[q], p, r);
      SoleInvolvement(s, o, q, p);
    }
  }

  // ---------------------------------------------------------------------------
  // What a step does to the list
  // ---------------------------------------------------------------------------

  lemma UniqueStep(s: State, a: Action, s': State)
    requires UniqueIds(s.store.profiles) && Step(s, a, s')
    ensures UniqueIds(s'.store.profiles)
  {
    hide Step, Upsert, Remove;
    StoreEffect(s, a, s');
    if Writes(s, a).Some? {
      UpsertLookup(s.store.profiles, Writes(s, a).value);
    } else if a.Clear? && s'.store.profiles != [] {
      ClearerKnown(s, a, s');
      RemoveLookup(s.store.profiles, s.ops[a.op].call.profile);
    }
  }

  /** A profile that is neither written nor cleared shows what it showed. */
  lemma ProfileKept(s: State, a: Action, s': State, p: ProfileId)
    requires UniqueIds(s.store.profiles) && Step(s, a, s')
    requires Writes(s, a).Some? ==> Writes(s, a).value.profile != p
    requires a.Clear? && a.op in s.ops ==> !Covers(s.ops[a.op], p)
    ensures Lookup(s'.store.profiles, p) == Lookup(s.store.profiles, p)
  {
    hide Step, Upsert, Remove, Lookup;
    StoreEffect(s, a, s');
    if Writes(s, a).Some? {
      UpsertLookup(s.store.profiles, Writes(s, a).value);
    } else if a.Clear? {
      ClearerKnown(s, a, s');
      RemoveLookup(s.store.profiles, s.ops[a.op].call.profile);
    }
  }

  lemma ClearerKnown(s: State, a: Action, s': State)
    requires Step(s, a, s') && a.Clear?
    ensures CanClear(s, a.op) && s' == DoClear(s, a.op)
  {
  }

  /** A worker writes for its own profile. */
  lemma WorkerWritesOwn(s: State, a: Action, s': State)
    requires Step(s, a, s') && IsWorkerStep(a) && Writes(s, a).Some?
    ensures a.run in s.workers && Writes(s, a).value.profile == s.workers[a.run].profile
  {
    hide Upsert, Summarise;
  }

  // ---------------------------------------------------------------------------
  // Errors stay visible
  // ---------------------------------------------------------------------------

  /** The worker has made sure that its error is on show. */
  predicate ErrorDue(w: Worker) {
    w.phase.Closing? || (w.phase.Exited? && w.phase.failed)
  }

  /** A helper thread that an agent of the profile has left behind still runs. */
  ghost predicate HelperRuns(workers: map<RunId, Worker>, p: ProfileId) {
    exists x :: x in workers && workers[x].helper && workers[x].profile == p
  }

  /** If the worker's error is due, the profile shows it. */
  predicate ErrorShown(s: State, x: RunId) {
    x in s.workers && (ErrorDue(s.workers[x]) ==> ShowsError(s.store, s.workers[x].profile))
  }

  /** A held run whose error, if due, is on show, and no helper of its profile to hide it. */
  ghost predicate Guarded(s: State, x: RunId) {
    && ErrorShown(s, x) && Held(s, s.workers[x].profile, x)
    && !HelperRuns(s.workers, s.workers[x].profile)
  }

  /** The worker's own steps: its error becomes due only when it is on show. */
  lemma OwnErrorStep(s: State, a: Action, s': State, x: RunId)
    requires UniqueIds(s.store.profiles) && Step(s, a, s') && IsWorkerStep(a) && a.run == x
    requires ErrorShown(s, x) && !s.workers[x].helper
    ensures ErrorShown(s', x)
  {
    hide Upsert, Summarise, UniqueIds;
    if a.Fallback? {
      UpsertLookup(s.store.profiles, ErrorEntry(s.workers[x], a.error));
    }
  }

  /** The steps of other workers: none of them writes for the profile of a held run. */
  lemma OtherErrorStep(s: State, a: Action, s': State, x: RunId)
    requires Exclusion(s) && Custodial(s) && UniqueIds(s.store.profiles)
    requires Step(s, a, s') && IsWorkerStep(a) && a.run != x && Guarded(s, x)
    ensures ErrorShown(s', x)
  {
    hide Step, Exclusion, UniqueIds, Lookup;
    WorkerStepFrame(s, a, s');
    var p := s.workers[x].profile;
    assert s.workers[a.run].profile == p ==> !s.workers[a.run].helper;
    if s.workers[a.run].profile == p {
      assert Held(s, p, a.run);
      HeldUnique(s, p, a.run, x);
    } else {
      if Writes(s, a).Some? {
        WorkerWritesOwn(s, a, s');
      }
      ProfileKept(s, a, s', p);
    }
  }

  /** A call that publishes or clears a profile leaves nobody holding a run of it. */
  lemma WritersHoldNothing(s: State, a: Action, s': State, p: ProfileId, x: RunId)
    requires Exclusion(s) && Custodial(s) && Step(s, a, s') && (a.Publish? || a.Clear?)
    requires a.op in s.ops && Covers(s.ops[a.op], p)
    ensures !Held(s, p, x)
  {
    assert Shape(s.ops[a.op]) && Vacated(s.ops[a.op], p);
    hide Custodial, Held;
    NobodyHolds(s, a.op, p, x);
  }

  lemma PublisherKnown(s: State, a: Action, s': State)
    requires Step(s, a, s') && !IsWorkerStep(a) && Writes(s, a).Some?
    ensures a.Publish? && a.op in s.ops && Covers(s.ops[a.op], Writes(s, a).value.profile)
  {
    hide Upsert, Remove, Summarise;
  }

  lemma CallErrorStep(s: State, a: Action, s': State, x: RunId)
    requires Exclusion(s) && Custodial(s) && UniqueIds(s.store.profiles)
    requires Step(s, a, s') && !IsWorkerStep(a)
    requires ErrorShown(s, x) && Held(s, s.workers[x].profile, x)
    ensures ErrorShown(s', x)
  {
    hide Step, Exclusion, Custodial, Held, UniqueIds, Lookup, Writes, Covers;
    var p := s.workers[x].profile;
    CallStepFrame(s, a, s');
    if Writes(s, a).Some? {
      PublisherKnown(s, a, s');
    }
    assert Writes(s, a).Some? && Writes(s, a).value.profile == p ==> false by {
      if Writes(s, a).Some? && Writes(s, a).value.profile == p {
        WritersHoldNothing(s, a, s', p, x);
      }
    }
    assert a.Clear? && a.op in s.ops && Covers(s.ops[a.op], p) ==> false by {
      if a.Clear? && a.op in s.ops && Covers(s.ops[a.op], p) {
        WritersHoldNothing(s, a, s', p, x);
      }
    }
    ProfileKept(s, a, s', p);
  }

  /**
    Every step keeps ids unique. It keeps the error of a held run on show, once due, if no helper
    of the profile runs.
    */
  lemma StatusStep(s: State, a: Action, s': State)
    requires Exclusion(s) && Custodial(s) && UniqueIds(s.store.profiles) && Step(s, a, s')
    ensures UniqueIds(s'.store.profiles)
    ensures forall x :: Guarded(s, x) ==> ErrorShown(s', x)
  {
    hide Step, Exclusion, Custodial, Held, UniqueIds, HelperRuns, ShowsError, ErrorDue;
    UniqueStep(s, a, s');
    forall x | Guarded(s, x) ensures ErrorShown(s', x) {
      if !IsWorkerStep(a) {
        CallErrorStep(s, a, s', x);
      } else if a.run == x {
        NoHelper(s.workers, x);
        OwnErrorStep(s, a, s', x);
      } else {
        OtherErrorStep(s, a, s', x);
      }
    }
  }

  lemma NoHelper(workers: map<RunId, Worker>, x: RunId)
    requires x in workers && !HelperRuns(workers, workers[x].profile)
    ensures !workers[x].helper
  {
  }
}
