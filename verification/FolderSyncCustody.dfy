/**
  Custody of runs in the folder-sync lifecycle: every live worker is either registered with
  the manager or owned by exactly one call, its profile is always in `runs` or
  `stopping_profiles`, and a registration never finds another run in its place.
  */
module FolderSyncCustody {
  import opened Wrappers
  import opened ServiceStatus
  import opened SyncManager
  import opened FolderSyncModel
  import opened FolderSyncExclusion

  predicate Covers(op: Op, p: ProfileId) {
    op.call.StopAll? || op.call.profile == p
  }

  /** The call has the profile to itself: it is in the critical section, or it is `stop_all`. */
  predicate Custody(op: Op, p: ProfileId) {
    Covers(op, p) && if op.call.StopAll? then InGate(op) else InCritical(op)
  }

  lemma UniqueCustody(s: State, o: OpId, q: OpId, p: ProfileId)
    requires Exclusion(s) && o in s.ops && q in s.ops
    requires Custody(s.ops[o], p) && Custody(s.ops[q], p)
    ensures o == q
  {
    assert Shape(s.ops[o]) && Shape(s.ops[q]);
    if !s.ops[o].call.StopAll? && !s.ops[q].call.StopAll? {
      assert HandleRegistered(s.ops[o], s.manager.operations);
      assert HandleRegistered(s.ops[q], s.manager.operations);
      assert HoldsLock(s, o) && HoldsLock(s, q);
    } else {
      assert o in s.readers || s.writer == Some(o);
      assert q in s.readers || s.writer == Some(q);
    }
  }

  // ---------------------------------------------------------------------------
  // What a call's position says about its profile
  // ---------------------------------------------------------------------------

  /** The run has been taken out of the manager and not been replaced yet. */
  predicate VacatedPc(op: Op) {
    || op.pc.Signalling? || op.pc.Joining?
    || (op.call.Start? && (op.pc.Marking? || op.pc.Publishing? || op.pc.Announcing? || op.pc.Spawning? || op.pc.Registering?))
    || (!op.call.Start? && (op.pc.Unmarking? || op.pc.Clearing? || op.pc.Refreshing?))
    || (op.call.StopAll? && op.pc.Leaving?)
  }

  predicate Vacated(op: Op, p: ProfileId) {
    Covers(op, p) && VacatedPc(op)
  }

  predicate ReplacingPc(op: Op) {
    op.call.Start? && (op.pc.Publishing? || op.pc.Announcing? || op.pc.Spawning? || op.pc.Registering? || op.pc.Unmarking?)
  }

  /** The profile must be marked as stopping. */
  predicate MustMark(op: Op, p: ProfileId) {
    p in op.owned || (Covers(op, p) && ReplacingPc(op))
  }

  predicate MarkingPc(pc: Pc) {
    || pc.Signalling? || pc.Joining? || pc.Marking? || pc.Publishing? || pc.Announcing?
    || pc.Spawning? || pc.Registering? || pc.Unmarking?
  }

  /** The profile may be marked as stopping on behalf of this call. */
  predicate MayMark(op: Op, p: ProfileId) {
    Covers(op, p) && MarkingPc(op.pc)
  }

  predicate Involved(op: Op, p: ProfileId) {
    Vacated(op, p) || MayMark(op, p) || MustMark(op, p)
  }

  lemma PositionsAreCustody(op: Op, p: ProfileId)
    requires Shape(op) && Involved(op, p)
    ensures Custody(op, p)
  {
  }

  /** At most one call is involved with a profile. */
  lemma SoleInvolvement(s: State, o: OpId, q: OpId, p: ProfileId)
    requires Exclusion(s) && o in s.ops && q in s.ops
    requires Involved(s.ops[o], p) && Involved(s.ops[q], p)
    ensures o == q
  {
    assert Shape(s.ops[o]) && Shape(s.ops[q]);
    PositionsAreCustody(s.ops[o], p);
    PositionsAreCustody(s.ops[q], p);
    UniqueCustody(s, o, q, p);
  }

  // ---------------------------------------------------------------------------
  // The invariant
  // ---------------------------------------------------------------------------

  predicate Known(workers: map<RunId, Worker>, p: ProfileId, r: RunId) {
    r in workers && workers[r].profile == p
  }

  /** Registered runs are known, and none has been told to stop. */
  ghost predicate RunsKnown(s: State) {
    forall p :: p in s.manager.runs ==>
      Known(s.workers, p, s.manager.runs[p]) && s.workers[s.manager.runs[p]].running
  }

  predicate OwnedOk(op: Op, workers: map<RunId, Worker>, p: ProfileId)
    requires p in op.owned
  {
    && Known(workers, p, op.owned[p])
    && (op.pc.Joining? || (op.pc.Signalling? && p !in op.pending) ==> !workers[op.owned[p]].running)
    && (op.pc.Registering? ==> workers[op.owned[p]].running)
  }

  /** Owned runs are known; once a call joins, every one of them has been told to stop. */
  ghost predicate OwnedKnown(s: State) {
    forall o, p :: o in s.ops && p in s.ops[o].owned ==> OwnedOk(s.ops[o], s.workers, p)
  }

  ghost predicate Vacancy(s: State) {
    forall o, p :: o in s.ops && p in s.manager.runs ==> !Vacated(s.ops[o], p)
  }

  predicate Owns(op: Op, p: ProfileId, r: RunId) {
    p in op.owned && op.owned[p] == r
  }

  predicate Registered(s: State, p: ProfileId, r: RunId) {
    p in s.manager.runs && s.manager.runs[p] == r
  }

  ghost predicate Held(s: State, p: ProfileId, r: RunId) {
    Registered(s, p, r) || exists o :: o in s.ops && Owns(s.ops[o], p, r)
  }

  ghost predicate LiveHeld(s: State) {
    forall r :: r in s.workers && Live(s.workers[r]) ==> Held(s, s.workers[r].profile, r)
  }

  ghost predicate Marked(s: State) {
    forall o, p :: o in s.ops && MustMark(s.ops[o], p) ==> p in s.manager.stopping
  }

  ghost predicate MarksOwned(s: State) {
    forall p :: p in s.manager.stopping ==> exists o :: o in s.ops && MayMark(s.ops[o], p)
  }

  ghost predicate NoneEvicted(s: State) {
    forall o :: o in s.ops ==> !s.ops[o].pc.Evicting? && !s.ops[o].pc.JoiningEvicted?
  }

  ghost predicate Custodial(s: State) {
    && RunsKnown(s) && OwnedKnown(s) && Vacancy(s) && LiveHeld(s)
    && Marked(s) && MarksOwned(s) && NoneEvicted(s)
  }

  // ---------------------------------------------------------------------------
  // Preservation: steps that leave runs, marks and owners alone
  // ---------------------------------------------------------------------------

  predicate SameRuns(s: State, s': State) {
    s'.manager.runs == s.manager.runs && s'.manager.stopping == s.manager.stopping
  }

  predicate LiveIn(s: State, r: RunId) {
    r in s.workers && Live(s.workers[r])
  }

  /** If no owner lets go of a live run, live runs stay held. */
  lemma OwnersKept(s: State, s': State)
    requires LiveHeld(s) && s'.manager.runs == s.manager.runs
    requires forall r :: LiveIn(s', r) ==> LiveIn(s, r) && s.workers[r].profile == s'.workers[r].profile
    requires forall q, p :: q in s.ops && p in s.ops[q].owned && LiveIn(s, s.ops[q].owned[p]) ==>
               q in s'.ops && Owns(s'.ops[q], p, s.ops[q].owned[p])
    ensures LiveHeld(s')
  {
    forall r | LiveIn(s', r) ensures Held(s', s'.workers[r].profile, r) {
      var p := s.workers[r].profile;
      assert LiveIn(s, r) && Held(s, p, r);
      if !Registered(s, p, r) {
        var q :| q in s.ops && Owns(s.ops[q], p, r);
        assert p in s.ops[q].owned && q in s'.ops && Owns(s'.ops[q], p, r);
      }
    }
    assert forall r :: r in s'.workers && Live(s'.workers[r]) ==> LiveIn(s', r);
  }

  /** The call needs no new mark and can still answer for the old ones. */
  ghost predicate KeepsMarks(op: Op, op': Op) {
    forall p :: (MustMark(op', p) ==> MustMark(op, p)) && (MayMark(op, p) ==> MayMark(op', p))
  }

  lemma MarksKept(s: State, s': State, o: OpId)
    requires Marked(s) && MarksOwned(s) && s'.manager.stopping == s.manager.stopping
    requires Replaces(s, s', o) && KeepsMarks(s.ops[o], s'.ops[o])
    ensures Marked(s') && MarksOwned(s')
  {
    forall q, p | q in s'.ops && MustMark(s'.ops[q], p) ensures p in s'.manager.stopping {
      assert MustMark(s.ops[q], p);
    }
    forall p | p in s'.manager.stopping ensures exists q :: q in s'.ops && MayMark(s'.ops[q], p) {
      var q :| q in s.ops && MayMark(s.ops[q], p);
      assert q in s'.ops && MayMark(s'.ops[q], p);
    }
  }

  predicate Quiet(op: Op, op': Op) {
    && op'.call == op.call && op.owned == map[] && op'.owned == map[]
    && (VacatedPc(op') ==> VacatedPc(op)) && (ReplacingPc(op') ==> ReplacingPc(op))
    && (MarkingPc(op.pc) ==> MarkingPc(op'.pc))
    && !op'.pc.Evicting? && !op'.pc.JoiningEvicted?
  }

  lemma QuietRuns(s: State, s': State, o: OpId)
    requires Custodial(s) && SameRuns(s, s') && s'.workers == s.workers
    requires Replaces(s, s', o) && Quiet(s.ops[o], s'.ops[o])
    ensures RunsKnown(s') && OwnedKnown(s') && Vacancy(s') && NoneEvicted(s')
  {
  }

  lemma QuietKeepsCustody(s: State, s': State, o: OpId)
    requires Custodial(s) && SameRuns(s, s') && s'.workers == s.workers
    requires Replaces(s, s', o) && Quiet(s.ops[o], s'.ops[o])
    ensures Custodial(s')
  {
    QuietRuns(s, s', o);
    OwnersKept(s, s');
    MarksKept(s, s', o);
  }

  lemma InvokeKeepsCustody(s: State, o: OpId, call: Call)
    requires Custodial(s) && o !in s.ops
    ensures Custodial(DoInvoke(s, o, call))
  {
    var s' := DoInvoke(s, o, call);
    assert s'.ops[o].owned == map[] && s'.ops[o].pc.Entering?;
    assert forall q :: q in s.ops ==> q in s'.ops && s'.ops[q] == s.ops[q];
    OwnersKept(s, s');
    forall p | p in s'.manager.stopping ensures exists q :: q in s'.ops && MayMark(s'.ops[q], p) {
      var q :| q in s.ops && MayMark(s.ops[q], p);
      assert q in s'.ops && MayMark(s'.ops[q], p);
    }
  }

  /** A worker that moves on keeps its profile and flag, and never comes back to life. */
  lemma WorkerKeepsCustody(s: State, s': State, r: RunId)
    requires Custodial(s) && s'.manager == s.manager && s'.ops == s.ops
    requires r in s.workers && r in s'.workers && s'.workers == s.workers[r := s'.workers[r]]
    requires s'.workers[r].profile == s.workers[r].profile && s'.workers[r].running == s.workers[r].running
    requires Live(s'.workers[r]) ==> Live(s.workers[r])
    ensures Custodial(s')
  {
    forall x | x in s'.workers && Live(s'.workers[x]) ensures Held(s', s'.workers[x].profile, x) {
      assert Held(s, s.workers[x].profile, x);
      assert Registered(s, s.workers[x].profile, x) == Registered(s', s.workers[x].profile, x);
    }
  }

  // ---------------------------------------------------------------------------
  // Preservation: taking runs out of the manager
  // ---------------------------------------------------------------------------

  lemma TakeRecord(op: Op, runs: map<ProfileId, RunId>)
    requires Shape(op) && op.pc.Taking?
    ensures var op' := AfterTake(op, runs);
            && op.owned == map[] && !MarkingPc(op.pc) && !ReplacingPc(op')
            && !op'.pc.Evicting? && !op'.pc.JoiningEvicted?
            && (op'.pc.Signalling? || op'.owned == map[])
            && op'.pending == op'.owned.Keys
            && (forall p :: p in runs && Covers(op, p) ==> p in op'.owned && op'.owned[p] == runs[p] && MayMark(op', p))
            && (forall p :: p in op'.owned ==> p in runs && op'.owned[p] == runs[p] && Covers(op, p))
  {
  }

  lemma TakeManager(m: Manager, call: Call)
    ensures var m' := TakeFor(m, call);
            && (forall p :: p in m'.runs <==> p in m.runs && !(call.StopAll? || call.profile == p))
            && (forall p :: p in m'.runs ==> m'.runs[p] == m.runs[p])
            && (forall p :: p in m'.stopping <==> p in m.stopping || (p in m.runs && (call.StopAll? || call.profile == p)))
  {
  }

  lemma TakeKeepsRuns(s: State, o: OpId)
    requires Shapes(s) && Custodial(s) && CanTake(s, o)
    ensures var s' := DoTake(s, o); RunsKnown(s') && OwnedKnown(s') && Vacancy(s') && NoneEvicted(s')
  {
    TakeRecord(s.ops[o], s.manager.runs);
    TakeManager(s.manager, s.ops[o].call);
  }

  lemma TakeKeepsHeld(s: State, o: OpId)
    requires Shapes(s) && Custodial(s) && CanTake(s, o)
    ensures LiveHeld(DoTake(s, o))
  {
    var s' := DoTake(s, o);
    TakeRecord(s.ops[o], s.manager.runs);
    TakeManager(s.manager, s.ops[o].call);
    forall r | r in s'.workers && Live(s'.workers[r]) ensures Held(s', s'.workers[r].profile, r) {
      var p := s.workers[r].profile;
      assert Held(s, p, r);
      if Registered(s, p, r) {
        if Covers(s.ops[o], p) {
          assert o in s'.ops && Owns(s'.ops[o], p, r);
        } else {
          assert Registered(s', p, r);
        }
      } else {
        var q :| q in s.ops && Owns(s.ops[q], p, r);
        assert q != o && q in s'.ops && Owns(s'.ops[q], p, r);
      }
    }
  }

  lemma TakeKeepsMarks(s: State, o: OpId)
    requires Shapes(s) && Custodial(s) && CanTake(s, o)
    ensures Marked(DoTake(s, o)) && MarksOwned(DoTake(s, o))
  {
    var s' := DoTake(s, o);
    TakeRecord(s.ops[o], s.manager.runs);
    TakeManager(s.manager, s.ops[o].call);
    forall p | p in s'.manager.stopping ensures exists q :: q in s'.ops && MayMark(s'.ops[q], p) {
      if p in s.manager.stopping {
        var q :| q in s.ops && MayMark(s.ops[q], p);
        assert q != o && q in s'.ops && MayMark(s'.ops[q], p);
      } else {
        assert o in s'.ops && MayMark(s'.ops[o], p);
      }
    }
  }

  lemma TakeKeepsCustody(s: State, o: OpId)
    requires Exclusion(s) && Custodial(s) && CanTake(s, o)
    ensures Custodial(DoTake(s, o))
  {
    TakeKeepsRuns(s, o);
    TakeKeepsHeld(s, o);
    TakeKeepsMarks(s, o);
  }

  // ---------------------------------------------------------------------------
  // Preservation: steps that keep the marks of the call they belong to
  // ---------------------------------------------------------------------------

  lemma SignalRecord(op: Op, target: ProfileId)
    requires Shape(op) && op.pc.Signalling? && target in op.pending
    ensures var op' := AfterSignal(op, target);
            && op'.owned == op.owned && KeepsMarks(op, op') && VacatedPc(op) && VacatedPc(op')
            && op'.pending == op.pending - {target}
            && (op'.pc.Signalling? || (op'.pc.Joining? && op'.pending == {}))
            && (forall p :: p in op.owned ==> Vacated(op, p))
  {
  }

  lemma SignalKeepsKnown(s: State, o: OpId, target: ProfileId)
    requires Exclusion(s) && Custodial(s) && CanSignal(s, o, target)
    ensures RunsKnown(DoSignal(s, o, target)) && OwnedKnown(DoSignal(s, o, target))
  {
    var s' := DoSignal(s, o, target);
    var op := s.ops[o];
    SignalRecord(op, target);
    var run := op.owned[target];
    assert OwnedOk(op, s.workers, target);
    forall p | p in s'.manager.runs ensures s'.manager.runs[p] != run {
      assert !Vacated(op, p);
    }
    forall q, p | q in s'.ops && p in s'.ops[q].owned ensures OwnedOk(s'.ops[q], s'.workers, p) {
      assert OwnedOk(s.ops[q], s.workers, p);
      if q != o && s.ops[q].owned[p] == run {
        SoleInvolvement(s, o, q, target);
      }
    }
  }

  lemma SignalKeepsCustody(s: State, o: OpId, target: ProfileId)
    requires Exclusion(s) && Custodial(s) && CanSignal(s, o, target)
    ensures Custodial(DoSignal(s, o, target))
  {
    var s' := DoSignal(s, o, target);
    SignalRecord(s.ops[o], target);
    SignalKeepsKnown(s, o, target);
    MarksKept(s, s', o);
    OwnersKept(s, s');
  }

  lemma JoinRecord(op: Op, target: ProfileId)
    requires Shape(op) && op.pc.Joining? && target in op.owned
    ensures var op' := AfterJoin(op, target);
            && KeepsMarks(op, op') && VacatedPc(op) && VacatedPc(op')
            && op'.owned == op.owned - {target}
            && (op'.pc.Joining? || op'.owned == map[])
            && !op'.pc.Evicting? && !op'.pc.JoiningEvicted?
  {
  }

  lemma JoinKeepsCustody(s: State, o: OpId, target: ProfileId)
    requires Exclusion(s) && Custodial(s) && CanJoin(s, o, target)
    ensures Custodial(DoJoin(s, o, target))
  {
    var s' := DoJoin(s, o, target);
    JoinRecord(s.ops[o], target);
    MarksKept(s, s', o);
    forall q, p | q in s'.ops && p in s'.ops[q].owned ensures OwnedOk(s'.ops[q], s'.workers, p) {
      assert OwnedOk(s.ops[q], s.workers, p);
    }
    OwnersKept(s, s');
  }

  lemma MarkKeepsMarks(s: State, o: OpId)
    requires Shapes(s) && Marked(s) && MarksOwned(s) && CanMark(s, o)
    ensures Marked(DoMark(s, o)) && MarksOwned(DoMark(s, o))
  {
    var s' := DoMark(s, o);
    assert Shape(s.ops[o]);
    forall q, p | q in s'.ops && MustMark(s'.ops[q], p) ensures p in s'.manager.stopping {
      assert q == o || MustMark(s.ops[q], p);
    }
    forall p | p in s'.manager.stopping ensures exists q :: q in s'.ops && MayMark(s'.ops[q], p) {
      if p in s.manager.stopping {
        var q :| q in s.ops && MayMark(s.ops[q], p);
        assert q in s'.ops && MayMark(s'.ops[q], p);
      } else {
        assert o in s'.ops && MayMark(s'.ops[o], p);
      }
    }
  }

  lemma MarkKeepsCustody(s: State, o: OpId)
    requires Exclusion(s) && Custodial(s) && CanMark(s, o)
    ensures Custodial(DoMark(s, o))
  {
    var s' := DoMark(s, o);
    assert Shape(s.ops[o]);
    MarkKeepsMarks(s, o);
    OwnersKept(s, s');
    forall q, p | q in s'.ops && p in s'.manager.runs ensures !Vacated(s'.ops[q], p) {
      assert !Vacated(s.ops[q], p);
    }
  }

  // ---------------------------------------------------------------------------
  // Preservation: the replacement run
  // ---------------------------------------------------------------------------

  lemma SpawnRecord(op: Op, run: RunId)
    requires Shape(op) && op.pc.Spawning? && op.call.Start?
    ensures KeepsMarks(op, AfterSpawn(op, run)) && VacatedPc(op) && VacatedPc(AfterSpawn(op, run))
  {
    assert forall p :: p in AfterSpawn(op, run).owned ==> MustMark(op, p);
  }

  lemma SpawnKeepsRuns(s: State, o: OpId, run: RunId)
    requires Shapes(s) && Custodial(s) && CanSpawn(s, o, run)
    ensures var s' := DoSpawn(s, o, run); RunsKnown(s') && OwnedKnown(s') && Vacancy(s') && NoneEvicted(s')
  {
    var s' := DoSpawn(s, o, run);
    SpawnRecord(s.ops[o], run);
    forall q, p | q in s'.ops && p in s'.ops[q].owned ensures OwnedOk(s'.ops[q], s'.workers, p) {
      assert q != o ==> OwnedOk(s.ops[q], s.workers, p);
    }
  }

  lemma SpawnKeepsHeld(s: State, o: OpId, run: RunId)
    requires Shapes(s) && LiveHeld(s) && CanSpawn(s, o, run)
    ensures LiveHeld(DoSpawn(s, o, run))
  {
    var s' := DoSpawn(s, o, run);
    assert Shape(s.ops[o]);
    forall r | r in s'.workers && Live(s'.workers[r]) ensures Held(s', s'.workers[r].profile, r) {
      if r == run {
        assert o in s'.ops && Owns(s'.ops[o], s.ops[o].call.profile, run);
      } else {
        var p := s.workers[r].profile;
        assert Held(s, p, r);
        if !Registered(s, p, r) {
          var q :| q in s.ops && Owns(s.ops[q], p, r);
          assert q != o && q in s'.ops && Owns(s'.ops[q], p, r);
        }
      }
    }
  }

  lemma SpawnKeepsCustody(s: State, o: OpId, run: RunId)
    requires Exclusion(s) && Custodial(s) && CanSpawn(s, o, run)
    ensures Custodial(DoSpawn(s, o, run))
  {
    SpawnRecord(s.ops[o], run);
    SpawnKeepsRuns(s, o, run);
    SpawnKeepsHeld(s, o, run);
    MarksKept(s, DoSpawn(s, o, run), o);
  }

  /** The place a run is registered in is empty: registration displaces nothing. */
  lemma RegisterFindsVacancy(s: State, o: OpId)
    requires Custodial(s) && CanRegister(s, o)
    ensures s.ops[o].call.profile !in s.manager.runs
  {
    assert Vacated(s.ops[o], s.ops[o].call.profile);
  }

  lemma RegisterKeepsRuns(s: State, o: OpId)
    requires Exclusion(s) && Custodial(s) && CanRegister(s, o)
    ensures var s' := DoRegister(s, o); RunsKnown(s') && OwnedKnown(s') && Vacancy(s') && NoneEvicted(s')
  {
    var s' := DoRegister(s, o);
    var p0 := s.ops[o].call.profile;
    RegisterFindsVacancy(s, o);
    assert OwnedOk(s.ops[o], s.workers, p0) && Vacated(s.ops[o], p0);
    forall q, p | q in s'.ops && p in s'.manager.runs ensures !Vacated(s'.ops[q], p) {
      if q != o && p == p0 && Vacated(s.ops[q], p0) {
        SoleInvolvement(s, o, q, p0);
      }
    }
    forall q, p | q in s'.ops && p in s'.ops[q].owned ensures OwnedOk(s'.ops[q], s'.workers, p) {
      assert OwnedOk(s.ops[q], s.workers, p);
    }
  }

  lemma RegisterKeepsHeld(s: State, o: OpId)
    requires Shapes(s) && Custodial(s) && CanRegister(s, o)
    ensures LiveHeld(DoRegister(s, o))
  {
    var s' := DoRegister(s, o);
    RegisterFindsVacancy(s, o);
    assert Shape(s.ops[o]);
    forall r | r in s'.workers && Live(s'.workers[r]) ensures Held(s', s'.workers[r].profile, r) {
      var p := s.workers[r].profile;
      assert Held(s, p, r);
      if Registered(s, p, r) {
        assert Registered(s', p, r);
      } else {
        var q :| q in s.ops && Owns(s.ops[q], p, r);
        if q == o {
          assert Registered(s', p, r);
        } else {
          assert q in s'.ops && Owns(s'.ops[q], p, r);
        }
      }
    }
  }

  lemma RegisterKeepsCustody(s: State, o: OpId)
    requires Exclusion(s) && Custodial(s) && CanRegister(s, o)
    ensures Custodial(DoRegister(s, o))
  {
    assert Shape(s.ops[o]);
    RegisterFindsVacancy(s, o);
    RegisterKeepsRuns(s, o);
    RegisterKeepsHeld(s, o);
    MarksKept(s, DoRegister(s, o), o);
  }

  // ---------------------------------------------------------------------------
  // Preservation: removing the marks
  // ---------------------------------------------------------------------------

  lemma UnmarkKeepsMarks(s: State, o: OpId)
    requires Exclusion(s) && Custodial(s) && CanUnmark(s, o)
    ensures Marked(DoUnmark(s, o)) && MarksOwned(DoUnmark(s, o))
  {
    var s' := DoUnmark(s, o);
    var op := s.ops[o];
    assert Shape(op);
    forall q, p | q in s'.ops && MustMark(s'.ops[q], p) ensures p in s'.manager.stopping {
      assert q != o && MustMark(s.ops[q], p);
      if Covers(op, p) {
        assert MayMark(op, p);
        SoleInvolvement(s, o, q, p);
      }
    }
    forall p | p in s'.manager.stopping ensures exists q :: q in s'.ops && MayMark(s'.ops[q], p) {
      var q :| q in s.ops && MayMark(s.ops[q], p);
      assert q != o && q in s'.ops && MayMark(s'.ops[q], p);
    }
  }

  lemma UnmarkKeepsCustody(s: State, o: OpId)
    requires Exclusion(s) && Custodial(s) && CanUnmark(s, o)
    ensures Custodial(DoUnmark(s, o))
  {
    var s' := DoUnmark(s, o);
    assert Shape(s.ops[o]);
    UnmarkKeepsMarks(s, o);
    OwnersKept(s, s');
    forall q, p | q in s'.ops && p in s'.ops[q].owned ensures OwnedOk(s'.ops[q], s'.workers, p) {
      assert OwnedOk(s.ops[q], s.workers, p);
    }
    forall q, p | q in s'.ops && p in s'.manager.runs ensures !Vacated(s'.ops[q], p) {
      assert !Vacated(s.ops[q], p);
    }
  }

  // ---------------------------------------------------------------------------
  // Custody is inductive
  // ---------------------------------------------------------------------------

  lemma QuietRecords(op: Op)
    requires Shape(op) && op.owned == map[]
    ensures op.pc.Entering? ==> Quiet(op, op.(pc := if op.call.StopAll? then Taking else Resolving))
    ensures op.pc.Resolving? ==> forall l :: Quiet(op, op.(pc := Locking, handle := l))
    ensures op.pc.Locking? ==> Quiet(op, op.(pc := Taking))
    ensures op.pc.Publishing? ==> Quiet(op, op.(pc := Announcing))
    ensures op.pc.Announcing? || op.pc.Refreshing? ==> Quiet(op, AfterRefresh(op))
    ensures op.pc.Spawning? ==> Quiet(op, op.(pc := Unmarking))
    ensures op.pc.Clearing? ==> Quiet(op, AfterClear(op))
    ensures op.pc.Unlocking? ==> Quiet(op, op.(pc := Dropping))
    ensures op.pc.Dropping? ==> Quiet(op, op.(pc := Leaving, handle := None))
    ensures op.pc.Leaving? ==> Quiet(op, op.(pc := Finished))
  {
  }

  predicate IsQuiet(a: Action) {
    || a.Enter? || a.Resolve? || a.Lock? || a.Publish? || a.Refresh? || a.SpawnFails?
    || a.Clear? || a.Unlock? || a.DropHandle? || a.Leave?
  }

  predicate IsFront(a: Action) {
    a.Enter? || a.Resolve? || a.Lock? || a.Publish? || a.Refresh?
  }

  lemma QuietFront(s: State, a: Action, s': State)
    requires Shapes(s) && IsFront(a) && Step(s, a, s')
    ensures SameRuns(s, s') && s'.workers == s.workers
    ensures Replaces(s, s', a.op) && Quiet(s.ops[a.op], s'.ops[a.op])
  {
    hide Upsert, Summarise, OperationLock, AliveLocks, Quiet;
    assert Shape(s.ops[a.op]) && s.ops[a.op].owned == map[];
    QuietRecords(s.ops[a.op]);
  }

  lemma QuietBack(s: State, a: Action, s': State)
    requires Shapes(s) && IsQuiet(a) && !IsFront(a) && Step(s, a, s')
    ensures SameRuns(s, s') && s'.workers == s.workers
    ensures Replaces(s, s', a.op) && Quiet(s.ops[a.op], s'.ops[a.op])
  {
    hide Remove, Quiet;
    assert Shape(s.ops[a.op]) && s.ops[a.op].owned == map[];
    QuietRecords(s.ops[a.op]);
  }

  lemma QuietStepKeepsCustody(s: State, a: Action, s': State)
    requires Shapes(s) && Custodial(s) && IsQuiet(a) && Step(s, a, s')
    ensures Custodial(s')
  {
    hide Custodial, Shapes, Quiet, Step;
    if IsFront(a) {
      QuietFront(s, a, s');
    } else {
      QuietBack(s, a, s');
    }
    QuietKeepsCustody(s, s', a.op);
  }

  lemma WorkerStepKeepsCustody(s: State, a: Action, s': State)
    requires Custodial(s) && IsWorkerStep(a) && Step(s, a, s')
    ensures Custodial(s')
  {
    hide Custodial, Step;
    WorkerStepFrame(s, a, s');
    WorkerKeepsCustody(s, s', a.run);
  }

  lemma ShapesOf(s: State)
    requires Exclusion(s)
    ensures Shapes(s)
  {
    hide Shapes, Gate, Registry, Mutex;
  }

  lemma NotEvicting(s: State, a: Action, s': State)
    requires Custodial(s) && Step(s, a, s') && (a.Signal? || a.Join?)
    ensures a.op in s.ops && !s.ops[a.op].pc.Evicting? && !s.ops[a.op].pc.JoiningEvicted?
  {
  }

  lemma CustodyStep(s: State, a: Action, s': State)
    requires Exclusion(s) && Custodial(s) && Step(s, a, s')
    ensures Custodial(s')
  {
    hide Exclusion, Custodial, CanTake, DoTake, CanSignal, DoSignal, CanJoin, DoJoin, CanMark, DoMark, CanSpawn, DoSpawn,
         CanRegister, DoRegister, CanUnmark, DoUnmark;
    ShapesOf(s);
    if a.Signal? || a.Join? {
      NotEvicting(s, a, s');
    }
    if IsQuiet(a) {
      QuietStepKeepsCustody(s, a, s');
    } else if IsWorkerStep(a) {
      WorkerStepKeepsCustody(s, a, s');
    } else {
      match a
      case Invoke(o, call) => InvokeKeepsCustody(s, o, call);
      case Take(o) => TakeKeepsCustody(s, o);
      case Signal(o, target) => SignalKeepsCustody(s, o, target);
      case Join(o, target) => JoinKeepsCustody(s, o, target);
      case Mark(o) => MarkKeepsCustody(s, o);
      case Spawn(o, run) => SpawnKeepsCustody(s, o, run);
      case Register(o) => RegisterKeepsCustody(s, o);
      case Unmark(o) => UnmarkKeepsCustody(s, o);
    }
  }
}
