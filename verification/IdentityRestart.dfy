/**
  Restarting dependent services after an identity was renewed (apps/config-app/src/main.rs,
  `reconcile_managed_identity_targets_blocking` and `restart_running_services_for_identity`,
  with the launch report of crates/desktop-client-config/src/lib.rs). Processes, the report file
  and the renewal itself are an environment that answers anew at every tick of a clock.
  */
module IdentityRestart {
  import opened Wrappers
  import opened StableSort
  import opened ManagedIdentities

  datatype Outcome = Outcome(service: Service, pid: Option<nat>)

  /** The launch report, as far as restarting reads it. */
  type Report = seq<Outcome>

  datatype Environment = Environment(
    renewed: string -> Result<bool>,           // renewing an identity: changed, unchanged or failed
    load: nat -> Result<Option<Report>>,       // by tick
    alive: (nat, nat) -> bool,                 // by tick and process id
    terminates: (nat, nat) -> bool,            // signalled and gone within the timeout
    launch: (nat, Service) -> Option<nat>)     // process id, or none when spawning failed

  // ---------------------------------------------------------------------------
  // Launch report
  // ---------------------------------------------------------------------------

  /** `last_launch_outcome` */
  function LastOutcome(report: Report, service: Service): (r: Option<Outcome>)
    ensures r.None? ==> forall i :: 0 <= i < |report| ==> report[i].service != service
    ensures r.Some? ==> exists k :: 0 <= k < |report| && report[k] == r.value && report[k].service == service
                                    && forall i :: k < i < |report| ==> report[i].service != service
  {
    if report == [] then None
    else if report[|report| - 1].service == service then Some(report[|report| - 1])
    else LastOutcome(report[..|report| - 1], service)
  }

  function Recorded(report: Option<Report>, service: Service): Option<Outcome> {
    if report.Some? then LastOutcome(report.value, service) else None
  }

  function Without(report: Report, service: Service): Report {
    if report == [] then []
    else
      var rest := Without(report[..|report| - 1], service);
      if report[|report| - 1].service == service then rest else rest + [report[|report| - 1]]
  }

  /** `launch_report_with_updated_outcome` */
  function WithOutcome(report: Option<Report>, outcome: Outcome): Report {
    Without(report.GetOr([]), outcome.service) + [outcome]
  }

  lemma {:induction false} WithoutKeepsOthers(report: Report, gone: Service, service: Service)
    ensures LastOutcome(Without(report, gone), service) ==
            if service == gone then None else LastOutcome(report, service)
  {
    if report != [] {
      var init, last := report[..|report| - 1], report[|report| - 1];
      WithoutKeepsOthers(init, gone, service);
      if last.service != gone {
        assert (Without(init, gone) + [last])[..|Without(init, gone)|] == Without(init, gone);
      }
    }
  }

  lemma {:induction false} WithoutIsFilter(report: Report, service: Service)
    ensures Without(report, service) == Filter((o: Outcome) => o.service != service, report)
  {
    if report != [] {
      var init, last := report[..|report| - 1], report[|report| - 1];
      WithoutIsFilter(init, service);
      assert report == init + [last];
      FilterSnoc((o: Outcome) => o.service != service, init, last);
    }
  }

  /** The updated report holds the other services' outcomes as before, and the new one once, at the end. */
  lemma WithOutcomeIs(report: Option<Report>, outcome: Outcome)
    ensures var r := WithOutcome(report, outcome);
            && r == Filter((o: Outcome) => o.service != outcome.service, report.GetOr([])) + [outcome]
            && forall i :: 0 <= i < |r| ==> (r[i].service == outcome.service <==> i == |r| - 1)
  {
    WithoutIsFilter(report.GetOr([]), outcome.service);
    var others := Filter((o: Outcome) => o.service != outcome.service, report.GetOr([]));
    assert forall i :: 0 <= i < |others| ==> others[i] in others;
  }

  /** The updated report answers for the relaunched service with the new outcome, for others as before. */
  lemma WithOutcomeUpdates(report: Option<Report>, outcome: Outcome, service: Service)
    ensures LastOutcome(WithOutcome(report, outcome), service) ==
            if service == outcome.service then Some(outcome) else Recorded(report, service)
  {
    var rest := Without(report.GetOr([]), outcome.service);
    assert (rest + [outcome])[..|rest|] == rest;
    WithoutKeepsOthers(report.GetOr([]), outcome.service, service);
  }

  // ---------------------------------------------------------------------------
  // One pass
  // ---------------------------------------------------------------------------

  /** A stop attempt and what followed it. */
  datatype Restart = Restart(
    service: Service,
    pid: nat,                   // the process found running when the restart was planned
    plannedAt: nat,
    stoppedAt: nat,
    wasRunning: bool,
    stopped: bool,
    launch: Option<Outcome>)

  predicate Configured(store: Store, service: Service) {
    exists i :: i in InstancesOf(store, service.kind) && i.id == service.id
  }

  /** `service_runtime_statuses`, asked about one service. */
  predicate RunningAt(env: Environment, store: Store, report: Option<Report>, tick: nat, service: Service) {
    && Configured(store, service)
    && Recorded(report, service).Some? && Recorded(report, service).value.pid.Some?
    && env.alive(tick, Recorded(report, service).value.pid.value)
  }

  predicate Touched(log: seq<Restart>, service: Service) {
    exists k :: 0 <= k < |log| && log[k].service == service
  }

  ghost predicate LogDistinct(log: seq<Restart>) {
    forall i, j :: 0 <= i < j < |log| ==> log[i].service != log[j].service
  }

  /**
    A restart is justified by the report as it was loaded: its process was alive when the restart
    was planned. What the log says of the stop is what happened to that process, and the service
    was launched again exactly if the process was gone by then or went away.
    */
  ghost predicate Justified(env: Environment, loaded: Option<Report>, r: Restart) {
    && Recorded(loaded, r.service) == Some(Outcome(r.service, Some(r.pid)))
    && r.plannedAt < r.stoppedAt && env.alive(r.plannedAt, r.pid)
    && (r.wasRunning <==> env.alive(r.stoppedAt, r.pid))
    && (r.stopped <==> env.alive(r.stoppedAt, r.pid) && env.terminates(r.stoppedAt, r.pid))
    && (r.launch.Some? <==> !env.alive(r.stoppedAt, r.pid) || env.terminates(r.stoppedAt, r.pid))
    && (r.launch.Some? ==> r.launch.value == Outcome(r.service, env.launch(r.stoppedAt, r.service)))
  }

  /** Stops follow each other in time. */
  ghost predicate InSequence(log: seq<Restart>) {
    forall i, j :: 0 <= i < j < |log| ==> log[i].stoppedAt < log[j].stoppedAt
  }

  ghost predicate AllJustified(
    env: Environment, loaded: Option<Report>, excluded: Option<Service>, log: seq<Restart>)
  {
    forall k :: 0 <= k < |log| ==> Justified(env, loaded, log[k]) && excluded != Some(log[k].service)
  }

  /** The report in memory: relaunched services carry their new outcome, all others the loaded one. */
  ghost predicate ReportTracks(loaded: Option<Report>, report: Option<Report>, log: seq<Restart>) {
    && (forall k :: 0 <= k < |log| && log[k].launch.Some? ==> Recorded(report, log[k].service) == log[k].launch)
    && (forall s :: (forall k :: 0 <= k < |log| && log[k].service == s ==> log[k].launch.None?)
         ==> Recorded(report, s) == Recorded(loaded, s))
  }

  predicate Relaunched(log: seq<Restart>) {
    exists k :: 0 <= k < |log| && log[k].launch.Some?
  }

  /** What a pass carries along; `initial` remembers the report as it was loaded. */
  datatype Pass = Pass(
    report: Option<Report>, initial: Option<Report>, loaded: bool, dirty: bool, tick: nat, log: seq<Restart>)

  const START := Pass(None, None, false, false, 0, [])

  predicate Planned(
    env: Environment, store: Store, excluded: Option<Service>, plan: Option<Report>, planTick: nat, s: Service)
  {
    excluded != Some(s) && RunningAt(env, store, plan, planTick, s)
  }

  /** `stop_service_from_report`: whether the recorded process runs and whether it went away. */
  function Stop(env: Environment, report: Option<Report>, tick: nat, s: Service): (bool, bool) {
    var known := Recorded(report, s);
    if known.Some? && known.value.pid.Some? && env.alive(tick, known.value.pid.value)
    then (true, env.terminates(tick, known.value.pid.value)) else (false, false)
  }

  /** Stop and relaunch one planned service; a configured service always has something to launch. */
  function RestartOne(env: Environment, p: Pass, planTick: nat, s: Service, pid: nat): Pass {
    var (wasRunning, stopped) := Stop(env, p.report, p.tick, s);
    if wasRunning && !stopped then
      p.(tick := p.tick + 1, log := p.log + [Restart(s, pid, planTick, p.tick, wasRunning, stopped, None)])
    else
      var outcome := Outcome(s, env.launch(p.tick, s));
      p.(report := Some(WithOutcome(p.report, outcome)), dirty := true, tick := p.tick + 1,
         log := p.log + [Restart(s, pid, planTick, p.tick, wasRunning, stopped, Some(outcome))])
  }

  function RestartEach(
    env: Environment, store: Store, excluded: Option<Service>, plan: Option<Report>, planTick: nat, p: Pass,
    services: seq<Service>): Pass
  {
    if services == [] then p
    else
      var s := services[|services| - 1];
      var q := RestartEach(env, store, excluded, plan, planTick, p, services[..|services| - 1]);
      if Planned(env, store, excluded, plan, planTick, s)
      then RestartOne(env, q, planTick, s, Recorded(plan, s).value.pid.value) else q
  }

  /** The report is loaded once, on the first renewal that needs it; a failed load is tried again next time. */
  function Loaded(env: Environment, p: Pass): Pass {
    var found := env.load(p.tick);
    if p.loaded then p
    else if found.Err? then p.(tick := p.tick + 1)
    else p.(report := found.value, initial := found.value, loaded := true, tick := p.tick + 1)
  }

  function RestartDependents(
    env: Environment, store: Store, excluded: Option<Service>, p: Pass, services: seq<Service>): Pass
  {
    var q := Loaded(env, p);
    if q.loaded then RestartEach(env, store, excluded, q.report, q.tick, q.(tick := q.tick + 1), services) else q
  }

  function ReconcileAll(env: Environment, store: Store, excluded: Option<Service>, targets: seq<Target>): Pass {
    if targets == [] then START
    else
      var t := targets[|targets| - 1];
      var p := ReconcileAll(env, store, excluded, targets[..|targets| - 1]);
      if env.renewed(t.identity.id) == Ok(true) then RestartDependents(env, store, excluded, p, t.dependents) else p
  }

  function Saved(p: Pass): Option<Report> {
    if p.dirty then p.report else None
  }

  /** One round of the loop over a target's services. */
  method RestartService(
    env: Environment, store: Store, excluded: Option<Service>, plan: Option<Report>, planTick: nat, before: Pass, s: Service)
    returns (pass: Pass)
    ensures pass == if Planned(env, store, excluded, plan, planTick, s)
                    then RestartOne(env, before, planTick, s, Recorded(plan, s).value.pid.value) else before
  {
    pass := before;
    if excluded == Some(s) || !RunningAt(env, store, plan, planTick, s) {
      return;
    }
    var pid := Recorded(plan, s).value.pid.value;
    var (wasRunning, stopped) := Stop(env, pass.report, pass.tick, s);
    if wasRunning && !stopped {
      pass := pass.(tick := pass.tick + 1,
                    log := pass.log + [Restart(s, pid, planTick, pass.tick, wasRunning, stopped, None)]);
      return;
    }
    var outcome := Outcome(s, env.launch(pass.tick, s));
    pass := pass.(report := Some(WithOutcome(pass.report, outcome)), dirty := true, tick := pass.tick + 1,
                  log := pass.log + [Restart(s, pid, planTick, pass.tick, wasRunning, stopped, Some(outcome))]);
  }

  /** `restart_running_services_for_identity` */
  method RestartRunningServices(
    env: Environment, store: Store, services: seq<Service>, excluded: Option<Service>, before: Pass)
    returns (pass: Pass)
    ensures pass == RestartDependents(env, store, excluded, before, services)
  {
    pass := before;
    if !pass.loaded {
      var found := env.load(pass.tick);
      pass := pass.(tick := pass.tick + 1);
      if found.Err? {
        return;
      }
      pass := pass.(report := found.value, initial := found.value, loaded := true);
    }
    var plan, planTick := pass.report, pass.tick;
    pass := pass.(tick := pass.tick + 1);
    ghost var first := pass;
    for i := 0 to |services|
      invariant pass == RestartEach(env, store, excluded, plan, planTick, first, services[..i])
    {
      assert services[..i + 1][..i] == services[..i];
      pass := RestartService(env, store, excluded, plan, planTick, pass, services[i]);
    }
    assert services[..|services|] == services;
  }

  /** `reconcile_managed_identity_targets_blocking` */
  method Reconcile(env: Environment, store: Store, targets: seq<Target>, excluded: Option<Service>)
    returns (log: seq<Restart>, saved: Option<Report>)
    ensures log == ReconcileAll(env, store, excluded, targets).log
    ensures saved == Saved(ReconcileAll(env, store, excluded, targets))
  {
    var pass := START;
    for i := 0 to |targets|
      invariant pass == ReconcileAll(env, store, excluded, targets[..i])
    {
      assert targets[..i + 1][..i] == targets[..i];
      var renewed := env.renewed(targets[i].identity.id);
      if renewed == Ok(true) {
        pass := RestartRunningServices(env, store, targets[i].dependents, excluded, pass);
      }
    }
    assert targets[..|targets|] == targets;
    log := pass.log;
    saved := if pass.dirty then pass.report else None;
  }

  // ---------------------------------------------------------------------------
  // What a pass keeps
  // ---------------------------------------------------------------------------

  ghost predicate Inv(env: Environment, excluded: Option<Service>, p: Pass) {
    && LogDistinct(p.log)
    && AllJustified(env, p.initial, excluded, p.log)
    && ReportTracks(p.initial, p.report, p.log)
    && InSequence(p.log) && (forall k :: 0 <= k < |p.log| ==> p.log[k].stoppedAt < p.tick)
    && (p.dirty <==> Relaunched(p.log))
    && (!p.loaded ==> p.log == [])
  }

  /** Adding a restart to the log touches that service and no other. */
  lemma TouchedAppend(log: seq<Restart>, r: Restart, s: Service)
    ensures Touched(log + [r], s) <==> Touched(log, s) || s == r.service
  {
    if Touched(log, s) {
      var k :| 0 <= k < |log| && log[k].service == s;
      assert (log + [r])[k].service == s;
    }
    if s == r.service {
      assert (log + [r])[|log|].service == s;
    }
  }

  /** The report keeps tracking the log when an untouched service is stopped and relaunched, or only stopped. */
  lemma TracksAppend(initial: Option<Report>, report: Option<Report>, log: seq<Restart>, r: Restart)
    requires ReportTracks(initial, report, log) && !Touched(log, r.service)
    requires r.launch.Some? ==> r.launch.value.service == r.service
    ensures var report' := if r.launch.Some? then Some(WithOutcome(report, r.launch.value)) else report;
            ReportTracks(initial, report', log + [r])
  {
    var log' := log + [r];
    var report' := if r.launch.Some? then Some(WithOutcome(report, r.launch.value)) else report;
    forall s ensures Recorded(report', s) ==
                     if r.launch.Some? && s == r.service then r.launch else Recorded(report, s)
    {
      if r.launch.Some? {
        WithOutcomeUpdates(report, r.launch.value, s);
      }
    }
    forall s | forall k :: 0 <= k < |log'| && log'[k].service == s ==> log'[k].launch.None?
      ensures Recorded(report', s) == Recorded(initial, s)
    {
      assert log'[|log|] == r;
      forall k | 0 <= k < |log| && log[k].service == s ensures log[k].launch.None? {
        assert log'[k] == log[k];
      }
    }
  }

  lemma RelaunchedAppend(log: seq<Restart>, r: Restart)
    ensures Relaunched(log + [r]) <==> Relaunched(log) || r.launch.Some?
  {
    if Relaunched(log) {
      var k :| 0 <= k < |log| && log[k].launch.Some?;
      assert (log + [r])[k].launch.Some?;
    }
    if r.launch.Some? {
      assert (log + [r])[|log|].launch.Some?;
    }
  }

  /** The plan made from `p` for services no earlier target touched relies on the loaded report only. */
  lemma PlanFromInitial(env: Environment, excluded: Option<Service>, p: Pass, s: Service)
    requires Inv(env, excluded, p) && !Touched(p.log, s)
    ensures Recorded(p.report, s) == Recorded(p.initial, s)
  {
  }

  lemma RestartOneInv(env: Environment, excluded: Option<Service>, p: Pass, planTick: nat, s: Service, pid: nat)
    requires Inv(env, excluded, p) && p.loaded && !Touched(p.log, s) && excluded != Some(s)
    requires Recorded(p.initial, s) == Some(Outcome(s, Some(pid))) && planTick < p.tick && env.alive(planTick, pid)
    ensures var q := RestartOne(env, p, planTick, s, pid);
            && Inv(env, excluded, q) && q.loaded && q.initial == p.initial && q.tick > p.tick
            && forall x :: Touched(q.log, x) <==> Touched(p.log, x) || x == s
  {
    var q := RestartOne(env, p, planTick, s, pid);
    var r := q.log[|p.log|];
    assert q.log == p.log + [r] && r.service == s;
    PlanFromInitial(env, excluded, p, s);
    assert Justified(env, p.initial, r);
    hide Touched, ReportTracks, Relaunched, Stop, WithOutcome, Justified;
    TracksAppend(p.initial, p.report, p.log, r);
    RelaunchedAppend(p.log, r);
    forall x ensures Touched(q.log, x) <==> Touched(p.log, x) || x == s {
      TouchedAppend(p.log, r, x);
    }
    forall k | 0 <= k < |p.log| ensures p.log[k].service != s {
      UntouchedAt(p.log, s, k);
    }
  }

  lemma UntouchedAt(log: seq<Restart>, s: Service, k: nat)
    requires !Touched(log, s) && k < |log|
    ensures log[k].service != s
  {
  }

  /** A target's loop restarts exactly the planned services, each once. */
  lemma {:induction false} RestartEachInv(
    env: Environment, store: Store, excluded: Option<Service>, plan: Option<Report>, planTick: nat, p: Pass,
    services: seq<Service>)
    requires Inv(env, excluded, p) && p.loaded && planTick < p.tick && NoDuplicates(services)
    requires forall s :: s in services ==> !Touched(p.log, s) && Recorded(plan, s) == Recorded(p.initial, s)
    ensures var q := RestartEach(env, store, excluded, plan, planTick, p, services);
            && Inv(env, excluded, q) && q.loaded && q.initial == p.initial && q.tick >= p.tick
            && forall x :: Touched(q.log, x) <==>
                           Touched(p.log, x) || (x in services && Planned(env, store, excluded, plan, planTick, x))
  {
    hide Inv, Touched, RestartOne, NoDuplicates, Recorded;
    if services != [] {
      var n := |services| - 1;
      var s, init := services[n], services[..n];
      assert services == init + [s];
      InitDistinct(services);
      RestartEachInv(env, store, excluded, plan, planTick, p, init);
      var q := RestartEach(env, store, excluded, plan, planTick, p, init);
      if Planned(env, store, excluded, plan, planTick, s) {
        PlannedOutcome(env, store, excluded, plan, planTick, s);
        RestartOneInv(env, excluded, q, planTick, s, Recorded(plan, s).value.pid.value);
      }
    }
  }

  lemma InitDistinct(services: seq<Service>)
    requires services != [] && NoDuplicates(services)
    ensures var n := |services| - 1;
            NoDuplicates(services[..n]) && services[n] !in services[..n]
  {
  }

  lemma PlannedOutcome(
    env: Environment, store: Store, excluded: Option<Service>, plan: Option<Report>, planTick: nat, s: Service)
    requires Planned(env, store, excluded, plan, planTick, s)
    ensures excluded != Some(s) && Recorded(plan, s).Some? && Recorded(plan, s).value.pid.Some?
    ensures Recorded(plan, s) == Some(Outcome(s, Some(Recorded(plan, s).value.pid.value)))
    ensures env.alive(planTick, Recorded(plan, s).value.pid.value)
  {
  }

  lemma LoadedInv(env: Environment, excluded: Option<Service>, p: Pass)
    requires Inv(env, excluded, p)
    ensures Inv(env, excluded, Loaded(env, p)) && Loaded(env, p).log == p.log
  {
  }

  /** Planning from the report in memory and from the report as loaded is the same for an untouched service. */
  lemma PlannedFromInitial(env: Environment, store: Store, excluded: Option<Service>, q: Pass, s: Service)
    requires Inv(env, excluded, q) && !Touched(q.log, s)
    ensures Planned(env, store, excluded, q.report, q.tick, s) <==> Planned(env, store, excluded, q.initial, q.tick, s)
  {
    hide Inv, Recorded, Configured;
    PlanFromInitial(env, excluded, q, s);
  }

  /** A renewed target restarts exactly its running dependents, if there is a report to go by. */
  lemma RestartDependentsInv(
    env: Environment, store: Store, excluded: Option<Service>, p: Pass, services: seq<Service>)
    requires Inv(env, excluded, p) && NoDuplicates(services)
    requires forall s :: s in services ==> !Touched(p.log, s)
    ensures var (q, r) := (Loaded(env, p), RestartDependents(env, store, excluded, p, services));
            && Inv(env, excluded, r) && r.loaded == q.loaded && r.initial == q.initial
            && forall x :: Touched(r.log, x) <==>
                 (Touched(p.log, x) ||
                  (q.loaded && x in services && Planned(env, store, excluded, q.initial, q.tick, x)))
  {
    LoadedInv(env, excluded, p);
    var q := Loaded(env, p);
    hide Inv, Touched, Recorded, Planned, Loaded, RestartEach, NoDuplicates;
    forall s | s in services ensures Recorded(q.report, s) == Recorded(q.initial, s) {
      PlanFromInitial(env, excluded, q, s);
    }
    forall s | s in services
      ensures Planned(env, store, excluded, q.report, q.tick, s) <==> Planned(env, store, excluded, q.initial, q.tick, s)
    {
      PlannedFromInitial(env, store, excluded, q, s);
    }
    if q.loaded {
      TickKeepsInv(env, excluded, q);
      RestartEachInv(env, store, excluded, q.report, q.tick, q.(tick := q.tick + 1), services);
    }
  }

  lemma TickKeepsInv(env: Environment, excluded: Option<Service>, q: Pass)
    requires Inv(env, excluded, q)
    ensures Inv(env, excluded, q.(tick := q.tick + 1))
  {
  }

  /** No two targets share a dependent, and no target lists one twice. */
  ghost predicate Disjoint(targets: seq<Target>) {
    && (forall i :: 0 <= i < |targets| ==> NoDuplicates(targets[i].dependents))
    && (forall i, j, s :: 0 <= i < j < |targets| && s in targets[i].dependents ==> s !in targets[j].dependents)
  }

  lemma TargetsAreDisjoint(trim: string -> string, store: Store, targets: seq<Target>)
    requires OneIdentityPerService(trim, store)
    requires forall t :: t in targets ==> TargetOk(trim, store, t)
    requires forall i, j :: 0 <= i < j < |targets| ==> targets[i].identity.id != targets[j].identity.id
    ensures Disjoint(targets)
  {
    DependentsDisjointIff(trim, store);
    hide OneIdentityPerService, DependsOn;
    forall i | 0 <= i < |targets| ensures NoDuplicates(targets[i].dependents) {
      assert TargetOk(trim, store, targets[i]);
    }
    forall i, j, s | 0 <= i < j < |targets| && s in targets[i].dependents ensures s !in targets[j].dependents {
      assert TargetOk(trim, store, targets[i]) && TargetOk(trim, store, targets[j]);
    }
  }

  /** The pass as it stands when target `n` is taken up. */
  ghost function Before(
    env: Environment, store: Store, excluded: Option<Service>, targets: seq<Target>, n: nat): Pass
    requires n <= |targets|
  {
    ReconcileAll(env, store, excluded, targets[..n])
  }

  /** There is a report to go by: one loaded before, or one that can be loaded now, which takes a tick. */
  predicate HasReport(env: Environment, p: Pass) {
    p.loaded || env.load(p.tick).Ok?
  }

  function PlanningTick(p: Pass): nat {
    if p.loaded then p.tick else p.tick + 1
  }

  /** The service is configured and its last recorded process is alive. */
  ghost predicate Runs(env: Environment, store: Store, report: Option<Report>, tick: nat, s: Service) {
    && (exists i :: i in InstancesOf(store, s.kind) && i.id == s.id)
    && exists pid :: Recorded(report, s) == Some(Outcome(s, Some(pid))) && env.alive(tick, pid)
  }

  lemma PlannedIff(
    env: Environment, store: Store, excluded: Option<Service>, report: Option<Report>, tick: nat, s: Service)
    ensures Planned(env, store, excluded, report, tick, s) <==> excluded != Some(s) && Runs(env, store, report, tick, s)
  {
    if Planned(env, store, excluded, report, tick, s) {
      PlannedOutcome(env, store, excluded, report, tick, s);
    }
  }

  lemma LoadedIff(env: Environment, p: Pass)
    ensures Loaded(env, p).loaded <==> HasReport(env, p)
    ensures HasReport(env, p) ==> Loaded(env, p).tick == PlanningTick(p)
    ensures Loaded(env, p).initial == if !p.loaded && env.load(p.tick).Ok? then env.load(p.tick).value else p.initial
    ensures Loaded(env, p).report == if !p.loaded && env.load(p.tick).Ok? then env.load(p.tick).value else p.report
  {
  }

  /**
    Target `n` is renewed with a report at hand, and the service is a dependent of it, not
    excluded, whose process runs at that moment according to the report as loaded.
    */
  ghost predicate Due(
    env: Environment, store: Store, excluded: Option<Service>, targets: seq<Target>, initial: Option<Report>,
    n: nat, s: Service)
    requires n < |targets|
  {
    var p := Before(env, store, excluded, targets, n);
    && env.renewed(targets[n].identity.id) == Ok(true) && s in targets[n].dependents && HasReport(env, p)
    && excluded != Some(s) && Runs(env, store, initial, PlanningTick(p), s)
  }

  ghost predicate DueSomewhere(
    env: Environment, store: Store, excluded: Option<Service>, targets: seq<Target>, initial: Option<Report>, s: Service)
  {
    exists n :: 0 <= n < |targets| && Due(env, store, excluded, targets, initial, n, s)
  }

  /** What is due is decided by the targets up to there. */
  lemma DuePrefix(
    env: Environment, store: Store, excluded: Option<Service>, targets: seq<Target>, initial: Option<Report>, s: Service)
    requires targets != []
    ensures var m := |targets| - 1;
            DueSomewhere(env, store, excluded, targets, initial, s) <==>
              (DueSomewhere(env, store, excluded, targets[..m], initial, s) ||
               Due(env, store, excluded, targets, initial, m, s))
  {
    var m := |targets| - 1;
    var init := targets[..m];
    hide Runs, ReconcileAll;
    forall n | 0 <= n < m
      ensures Due(env, store, excluded, init, initial, n, s) <==> Due(env, store, excluded, targets, initial, n, s)
    {
      assert init[..n] == targets[..n];
    }
  }

  lemma {:induction false} RestartEachKeepsReport(
    env: Environment, store: Store, excluded: Option<Service>, plan: Option<Report>, planTick: nat, p: Pass,
    services: seq<Service>)
    ensures var q := RestartEach(env, store, excluded, plan, planTick, p, services);
            q.loaded == p.loaded && q.initial == p.initial
  {
    if services != [] {
      RestartEachKeepsReport(env, store, excluded, plan, planTick, p, services[..|services| - 1]);
    }
  }

  /** A report once loaded stays the one decisions rely on, and the first one loaded is what the file held. */
  lemma ReportStays(env: Environment, store: Store, excluded: Option<Service>, targets: seq<Target>)
    requires targets != []
    ensures var m := |targets| - 1;
            var (p, r) := (Before(env, store, excluded, targets, m), ReconcileAll(env, store, excluded, targets));
            var renewed := env.renewed(targets[m].identity.id) == Ok(true);
            && (r.loaded <==> p.loaded || (renewed && env.load(p.tick).Ok?))
            && (p.loaded ==> r.initial == p.initial)
            && (!p.loaded && r.loaded ==> env.load(p.tick) == Ok(r.initial))
            && (!renewed ==> r == p)
  {
    var m := |targets| - 1;
    hide RestartEach;
    var p := Before(env, store, excluded, targets, m);
    LoadedIff(env, p);
    var q := Loaded(env, p);
    RestartEachKeepsReport(
      env, store, excluded, q.report, q.tick, q.(tick := q.tick + 1), targets[m].dependents);
  }

  lemma {:induction false} LoadedBefore(
    env: Environment, store: Store, excluded: Option<Service>, targets: seq<Target>, n: nat)
    requires n < |targets| && env.renewed(targets[n].identity.id) == Ok(true)
    requires HasReport(env, Before(env, store, excluded, targets, n))
    ensures ReconcileAll(env, store, excluded, targets).loaded
  {
    var init := targets[..|targets| - 1];
    ReportStays(env, store, excluded, targets);
    if n < |init| {
      assert init[..n] == targets[..n];
      LoadedBefore(env, store, excluded, init, n);
    }
  }

  /** The report a pass relies on is one that was read from the file during the pass. */
  lemma {:induction false} InitialWasRead(env: Environment, store: Store, excluded: Option<Service>, targets: seq<Target>)
    ensures var r := ReconcileAll(env, store, excluded, targets);
            r.loaded ==> exists t :: env.load(t) == Ok(r.initial)
  {
    if targets != [] {
      var m := |targets| - 1;
      InitialWasRead(env, store, excluded, targets[..m]);
      ReportStays(env, store, excluded, targets);
      var (p, r) := (Before(env, store, excluded, targets, m), ReconcileAll(env, store, excluded, targets));
      if r.loaded && !p.loaded {
        assert env.load(p.tick) == Ok(r.initial);
      }
    }
  }

  lemma InitDisjoint(targets: seq<Target>)
    requires targets != [] && Disjoint(targets)
    ensures Disjoint(targets[..|targets| - 1])
  {
  }

  /** The last target, given the invariant for those before it. */
  lemma ReconcileLast(env: Environment, store: Store, excluded: Option<Service>, targets: seq<Target>)
    requires targets != [] && Disjoint(targets)
    requires var p := ReconcileAll(env, store, excluded, targets[..|targets| - 1]);
             && Inv(env, excluded, p)
             && forall s :: Touched(p.log, s) ==> DueSomewhere(env, store, excluded, targets[..|targets| - 1], p.initial, s)
    ensures var m := |targets| - 1;
            var (p, r) := (ReconcileAll(env, store, excluded, targets[..m]), ReconcileAll(env, store, excluded, targets));
            && Inv(env, excluded, r)
            && forall s :: Touched(r.log, s) <==> Touched(p.log, s) || Due(env, store, excluded, targets, r.initial, m, s)
  {
    var m := |targets| - 1;
    var init := targets[..m];
    var p := ReconcileAll(env, store, excluded, init);
    forall s | DueSomewhere(env, store, excluded, init, p.initial, s) ensures s !in targets[m].dependents {
      var n :| 0 <= n < m && Due(env, store, excluded, init, p.initial, n, s);
      assert s in targets[n].dependents;
    }
    hide Inv, Touched, RestartDependents, Planned, DueSomewhere, Runs, Loaded;
    if env.renewed(targets[m].identity.id) == Ok(true) {
      RestartDependentsInv(env, store, excluded, p, targets[m].dependents);
      LoadedIff(env, p);
      var q := Loaded(env, p);
      forall s ensures Planned(env, store, excluded, q.initial, q.tick, s) <==>
                       excluded != Some(s) && Runs(env, store, q.initial, q.tick, s)
      {
        PlannedIff(env, store, excluded, q.initial, q.tick, s);
      }
    }
  }

  /** The log of a pass holds exactly the services that were due. */
  lemma {:induction false} ReconcileInv(
    env: Environment, store: Store, excluded: Option<Service>, targets: seq<Target>)
    requires Disjoint(targets)
    ensures var p := ReconcileAll(env, store, excluded, targets);
            && Inv(env, excluded, p)
            && forall s :: Touched(p.log, s) <==> DueSomewhere(env, store, excluded, targets, p.initial, s)
  {
    if targets != [] {
      var m := |targets| - 1;
      var init := targets[..m];
      InitDisjoint(targets);
      ReconcileInv(env, store, excluded, init);
      ReconcileLast(env, store, excluded, targets);
      ReportStays(env, store, excluded, targets);
      var r := ReconcileAll(env, store, excluded, targets);
      hide Inv, Touched, ReconcileAll, DueSomewhere, Due;
      forall s ensures Touched(r.log, s) <==> DueSomewhere(env, store, excluded, targets, r.initial, s) {
        DuePrefix(env, store, excluded, targets, r.initial, s);
        SameInitial(env, store, excluded, init, r, s);
      }
    }
  }

  /** Services due under an earlier target are due by the same report. */
  lemma SameInitial(
    env: Environment, store: Store, excluded: Option<Service>, init: seq<Target>, r: Pass, s: Service)
    requires var p := ReconcileAll(env, store, excluded, init); p.loaded ==> r.initial == p.initial
    ensures var p := ReconcileAll(env, store, excluded, init);
            DueSomewhere(env, store, excluded, init, r.initial, s) <==> DueSomewhere(env, store, excluded, init, p.initial, s)
  {
    hide ReconcileAll, Runs;
    forall n | 0 <= n < |init| && env.renewed(init[n].identity.id) == Ok(true)
               && HasReport(env, Before(env, store, excluded, init, n))
      ensures ReconcileAll(env, store, excluded, init).loaded
    {
      LoadedBefore(env, store, excluded, init, n);
    }
  }

  /** What a pass over the targets has done, given the report as it was loaded. */
  ghost predicate PassOk(
    env: Environment, store: Store, excluded: Option<Service>, targets: seq<Target>, initial: Option<Report>,
    log: seq<Restart>, saved: Option<Report>)
  {
    && LogDistinct(log) && InSequence(log)
    && (log != [] ==> exists t :: env.load(t) == Ok(initial))
    && (forall k :: 0 <= k < |log| ==> Justified(env, initial, log[k]) && excluded != Some(log[k].service))
    && (forall s :: Touched(log, s) <==> DueSomewhere(env, store, excluded, targets, initial, s))
    && (saved.Some? <==> Relaunched(log))
    && (saved.Some? ==> ReportTracks(initial, saved, log))
  }

  /**
    One pass over the targets of a store without conflicting ids. The services stopped are exactly
    the running, not excluded dependents of renewed identities, each once; each is relaunched
    exactly if its stop did not fail. The report is saved exactly when something was relaunched,
    and it then names the new processes.
    */
  lemma PassIsSafe(
    env: Environment, trim: string -> string, store: Store, excluded: Option<Service>, targets: seq<Target>)
    requires OneIdentityPerService(trim, store)
    requires forall t :: t in targets ==> TargetOk(trim, store, t)
    requires forall i, j :: 0 <= i < j < |targets| ==> targets[i].identity.id != targets[j].identity.id
    ensures var p := ReconcileAll(env, store, excluded, targets);
            PassOk(env, store, excluded, targets, p.initial, p.log, Saved(p))
  {
    TargetsAreDisjoint(trim, store, targets);
    ReconcileInv(env, store, excluded, targets);
    InitialWasRead(env, store, excluded, targets);
    var p := ReconcileAll(env, store, excluded, targets);
    hide ReconcileAll, OneIdentityPerService, TargetOk, DueSomewhere;
    if p.dirty {
      var k :| 0 <= k < |p.log| && p.log[k].launch.Some?;
      assert Recorded(p.report, p.log[k].service).Some?;
    }
  }

  /**
    `reconcile_managed_identities_for_selection`: select, then reconcile. A service that is about to
    be started or restarted itself is left out of the pass for it.
    */
  method ReconcileSelection(env: Environment, trim: string -> string, store: Store, selection: Selection)
    returns (targets: seq<Target>, log: seq<Restart>, saved: Option<Report>, ghost initial: Option<Report>)
    ensures forall id :: Selected(trim, store, selection, id) <==> exists t :: t in targets && t.identity.id == id
    ensures forall t :: t in targets ==> TargetOk(trim, store, t)
    ensures OneIdentityPerService(trim, store) ==>
              PassOk(env, store, if selection.OneService? then Some(selection.service) else None,
                     targets, initial, log, saved)
  {
    targets := RenewalTargets(trim, store, selection);
    hide PassOk, TargetOk, Selected, OneIdentityPerService;
    var excluded := match selection case OneService(service) => Some(service) case _ => None;
    log, saved := [], None;
    initial := ReconcileAll(env, store, excluded, targets).initial;
    if OneIdentityPerService(trim, store) {
      PassIsSafe(env, trim, store, excluded, targets);
    }
    if targets != [] {
      log, saved := Reconcile(env, store, targets, excluded);
    }
  }
}
