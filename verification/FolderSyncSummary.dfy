/**
  The service summary and the order of the status list, over every run of the lifecycle.
  */
module FolderSyncSummary {
  import opened Wrappers
  import opened ServiceStatus
  import opened SyncManager
  import opened FolderSyncModel
  import opened FolderSyncExclusion
  import opened FolderSyncCustody
  import opened FolderSyncStatus
  import opened FolderSyncTheorems

  // ---------------------------------------------------------------------------
  // Freshness
  // ---------------------------------------------------------------------------

  predicate OpOwes(op: Op) {
    op.pc.Announcing? || op.pc.Refreshing?
  }

  predicate WorkerOwes(w: Worker) {
    w.phase.Closing? || (Reports(w) && w.owed > 0)
  }

  /** Some call or worker is going to refresh the summary. */
  ghost predicate RefreshOwed(s: State) {
    (exists o :: o in s.ops && OpOwes(s.ops[o])) || (exists x :: x in s.workers && WorkerOwes(s.workers[x]))
  }

  ghost predicate Current(s: State) {
    s.store.summary == Summarise(s.store.profiles)
  }

  lemma OwedStays(s: State, s': State)
    requires RefreshOwed(s)
    requires forall o :: o in s.ops && OpOwes(s.ops[o]) ==> o in s'.ops && OpOwes(s'.ops[o])
    requires forall x :: x in s.workers && WorkerOwes(s.workers[x]) ==> x in s'.workers && WorkerOwes(s'.workers[x])
    ensures RefreshOwed(s')
  {
    if o :| o in s.ops && OpOwes(s.ops[o]) {
      assert o in s'.ops && OpOwes(s'.ops[o]);
    } else {
      var x :| x in s.workers && WorkerOwes(s.workers[x]);
      assert x in s'.workers && WorkerOwes(s'.workers[x]);
    }
  }

  lemma SilentStepFresh(s: State, a: Action, s': State)
    requires (Current(s) || RefreshOwed(s)) && Step(s, a, s')
    requires !IsWorkerStep(a) && !a.Publish? && !a.Clear? && !a.Refresh?
    ensures Current(s') || RefreshOwed(s')
  {
    hide Summarise, Upsert, Remove;
    assert s'.store == s.store;
    if RefreshOwed(s) {
      OwedStays(s, s');
    }
  }

  /** A call's step either leaves the store alone or leaves a debt or a current summary. */
  lemma OpStepFresh(s: State, a: Action, s': State)
    requires (Current(s) || RefreshOwed(s)) && Step(s, a, s') && !IsWorkerStep(a)
    ensures Current(s') || RefreshOwed(s')
  {
    if a.Publish? {
      assert a.op in s'.ops && OpOwes(s'.ops[a.op]);
    } else if a.Clear? {
      EmptySummary();
      assert !s.ops[a.op].call.StopAll? ==> a.op in s'.ops && OpOwes(s'.ops[a.op]);
    } else if !a.Refresh? {
      hide Summarise, Upsert, Remove;
      SilentStepFresh(s, a, s');
    }
  }

  lemma WorkerStepFresh(s: State, a: Action, s': State)
    requires (Current(s) || RefreshOwed(s)) && Step(s, a, s') && IsWorkerStep(a)
    ensures Current(s') || RefreshOwed(s')
  {
    hide Summarise, Upsert, Remove;
    if a.Report? || a.Fallback? {
      assert a.run in s'.workers && WorkerOwes(s'.workers[a.run]);
    } else if a.Return? || a.Check? || a.HelperEnds? {
      assert s'.store == s.store;
      if RefreshOwed(s) {
        OwedStays(s, s');
      }
    }
  }

  lemma InitCurrent()
    ensures Current(INIT)
  {
    EmptySummary();
  }

  /** At every state of every run the summary is current or some thread still owes its refresh. */
  lemma {:induction false} SummaryCurrentOrOwed(r: Run, i: nat)
    requires IsRun(r) && i < |r.states|
    ensures Current(r.states[i]) || RefreshOwed(r.states[i])
  {
    hide Current, RefreshOwed, Step;
    if i == 0 {
      InitCurrent();
    } else {
      SummaryCurrentOrOwed(r, i - 1);
      var s, a, s' := r.states[i - 1], r.actions[i - 1], r.states[i];
      if IsWorkerStep(a) {
        WorkerStepFresh(s, a, s');
      } else {
        OpStepFresh(s, a, s');
      }
    }
  }

  // ---------------------------------------------------------------------------
  // Order of the list
  // ---------------------------------------------------------------------------

  ghost predicate FollowsTitles(call: Call, titles: ProfileId -> string) {
    call.Start? ==> call.title == titles(call.profile)
  }

  ghost predicate Titled(list: seq<Entry>, titles: ProfileId -> string) {
    forall e :: e in list ==> e.title == titles(e.profile)
  }

  ghost predicate OrderedUnder(s: State, titles: ProfileId -> string) {
    && (forall o :: o in s.ops ==> FollowsTitles(s.ops[o].call, titles))
    && (forall x :: x in s.workers ==> s.workers[x].title == titles(s.workers[x].profile))
    && Titled(s.store.profiles, titles)
    && SortedList(s.store.profiles)
  }

  lemma UpsertTitled(list: seq<Entry>, e: Entry, titles: ProfileId -> string)
    requires UniqueIds(list) && Titled(list, titles) && SortedList(list) && e.title == titles(e.profile)
    ensures Titled(Upsert(list, e), titles) && SortedList(Upsert(list, e))
  {
    UpsertLookup(list, e);
    var k := IndexOf(list, e.profile);
    if k < |list| {
      assert list[k] in list;
    }
    SameLabelFits(list, e);
  }

  lemma OrderedStore(s: State, a: Action, s': State, titles: ProfileId -> string)
    requires UniqueIds(s.store.profiles) && OrderedUnder(s, titles) && Step(s, a, s')
    ensures Titled(s'.store.profiles, titles) && SortedList(s'.store.profiles)
  {
    StoreEffect(s, a, s');
    if Writes(s, a).Some? {
      UpsertTitled(s.store.profiles, Writes(s, a).value, titles);
    } else if a.Clear? && s'.store.profiles != [] {
      RemoveSorted(s.store.profiles, s.ops[a.op].call.profile);
    }
  }

  lemma OrderedCalls(s: State, a: Action, s': State, titles: ProfileId -> string)
    requires OrderedUnder(s, titles) && Step(s, a, s') && !IsWorkerStep(a)
    requires a.Invoke? ==> FollowsTitles(a.call, titles)
    ensures forall o :: o in s'.ops ==> FollowsTitles(s'.ops[o].call, titles)
    ensures forall x :: x in s'.workers ==> s'.workers[x].title == titles(s'.workers[x].profile)
  {
    hide Step, SortedList, Titled;
    CallStepFrame(s, a, s');
    CallStays(s, a, s');
    forall o | o in s'.ops ensures FollowsTitles(s'.ops[o].call, titles) {
      if o != a.op {
        assert s'.ops[o] == s.ops[o];
      }
    }
    forall x | x in s'.workers ensures s'.workers[x].title == titles(s'.workers[x].profile) {
      if x !in s.workers {
        assert FollowsTitles(s.ops[a.op].call, titles);
      }
    }
  }

  lemma OrderedThreads(s: State, a: Action, s': State, titles: ProfileId -> string)
    requires OrderedUnder(s, titles) && Step(s, a, s') && (a.Invoke? ==> FollowsTitles(a.call, titles))
    ensures forall o :: o in s'.ops ==> FollowsTitles(s'.ops[o].call, titles)
    ensures forall x :: x in s'.workers ==> s'.workers[x].title == titles(s'.workers[x].profile)
  {
    hide Step, SortedList, Titled, FollowsTitles;
    if IsWorkerStep(a) {
      WorkerStepFrame(s, a, s');
    } else {
      OrderedCalls(s, a, s', titles);
    }
  }

  lemma ProfileIdsUniqueAt(r: Run, i: nat)
    requires IsRun(r) && i < |r.states|
    ensures UniqueIds(r.states[i].store.profiles)
  {
    hide IsRun, Exclusion, Custodial, UniqueIds;
    RunInv(r, i);
  }

  /** With one label per profile, the list is sorted by label and id at every state of every run. */
  lemma {:induction false} ListStaysSorted(r: Run, i: nat, titles: ProfileId -> string)
    requires IsRun(r) && i < |r.states|
    requires forall k :: 0 <= k < |r.actions| && r.actions[k].Invoke? ==> FollowsTitles(r.actions[k].call, titles)
    ensures OrderedUnder(r.states[i], titles)
  {
    if i > 0 {
      ListStaysSorted(r, i - 1, titles);
      ProfileIdsUniqueAt(r, i - 1);
      var s, a, s' := r.states[i - 1], r.actions[i - 1], r.states[i];
      assert Step(s, a, s') && (a.Invoke? ==> FollowsTitles(a.call, titles));
      hide Step, SortedList, Titled, UniqueIds;
      OrderedStore(s, a, s', titles);
      OrderedThreads(s, a, s', titles);
    }
  }
}
