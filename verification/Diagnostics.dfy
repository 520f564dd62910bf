/**
  The connection-diagnostics summariser of the Android app (apps/android-app/src/lib.rs,
  `summarize_android_connection_diagnostics` and `retain_android_failed_attempts_by_impact`).
  */
module Diagnostics {
  import opened Wrappers
  import opened StableSort
  import opened Text

  datatype Impact = UserFacing | BackgroundMaintenance

  datatype Attempt = Attempt(
    impact: Impact,
    outcome: string,
    started: nat,
    finished: Option<nat>,
    verb: string,
    url: string,
    timeout: Option<nat>,
    error: Option<string>)
  {
    /** When the attempt ended, or began if its end is unknown. */
    function When(): nat {
      finished.GetOr(started)
    }
  }

  datatype Endpoint = Endpoint(
    locator: string,
    pathKind: string,
    lastSuccess: Option<nat>,        // last user-facing success
    lastSuccessUrl: Option<string>,
    attempts: seq<Attempt>)

  datatype Completed = Completed(locator: string, pathKind: string, attempt: Attempt)

  datatype Event = Event(completed: Option<Completed>, endpoints: seq<Endpoint>)

  datatype FailedAttempt = FailedAttempt(terminal: bool, locator: string, pathKind: string, attempt: Attempt)

  datatype Success = Success(at: nat, url: string)

  datatype Update = Update(connection: Option<Success>, functional: Option<Success>, failures: seq<FailedAttempt>)

  const SUCCESS := "success"
  const FAILURE := "failure"
  const MAX_USER_FACING := 8
  const MAX_BACKGROUND := 8

  // ---------------------------------------------------------------------------
  // Retention of failed attempts
  // ---------------------------------------------------------------------------

  /** The attempt ended at `t`, or began then if its end is unknown. */
  predicate IsTime(a: Attempt, t: nat) {
    a.finished == Some(t) || (a.finished.None? && a.started == t)
  }

  predicate NewerFirst(a: FailedAttempt, b: FailedAttempt) {
    a.attempt.When() >= b.attempt.When()
  }

  predicate IsTerminal(f: FailedAttempt) {
    f.attempt.impact.UserFacing? && f.terminal
  }

  predicate IsNonTerminal(f: FailedAttempt) {
    f.attempt.impact.UserFacing? && !f.terminal
  }

  predicate IsUserFacing(f: FailedAttempt) {
    f.attempt.impact.UserFacing?
  }

  predicate IsBackground(f: FailedAttempt) {
    !f.attempt.impact.UserFacing?
  }

  function Truncate(s: seq<FailedAttempt>, limit: nat): seq<FailedAttempt> {
    if |s| <= limit then s else s[..limit]
  }

  /** `retain_recent_android_failed_attempts` */
  function Recent(s: seq<FailedAttempt>, limit: nat): seq<FailedAttempt> {
    Truncate(Sort(NewerFirst, s), limit)
  }

  function Kept(list: seq<FailedAttempt>): (seq<FailedAttempt>, seq<FailedAttempt>, seq<FailedAttempt>) {
    var terminal := Recent(Filter(IsTerminal, list), MAX_USER_FACING);
    var room := if |terminal| < MAX_USER_FACING then MAX_USER_FACING - |terminal| else 0;
    (terminal, Recent(Filter(IsNonTerminal, list), room), Recent(Filter(IsBackground, list), MAX_BACKGROUND))
  }

  /** `retain_android_failed_attempts_by_impact` */
  function Retained(list: seq<FailedAttempt>): seq<FailedAttempt> {
    var (terminal, nonTerminal, background) := Kept(list);
    Sort(NewerFirst, terminal + nonTerminal + background)
  }

  lemma NewerFirstIsTotalPreorder()
    ensures TotalPreorder(NewerFirst)
  {
  }

  lemma {:induction false} FilterAppend(keep: FailedAttempt -> bool, a: seq<FailedAttempt>, b: seq<FailedAttempt>)
    ensures Filter(keep, a + b) == Filter(keep, a) + Filter(keep, b)
  {
    if a == [] {
      assert a + b == b;
    } else {
      assert (a + b)[1..] == a[1..] + b;
      FilterAppend(keep, a[1..], b);
    }
  }

  lemma {:induction false} FilterAll(keep: FailedAttempt -> bool, s: seq<FailedAttempt>)
    requires forall x :: x in s ==> keep(x)
    ensures Filter(keep, s) == s
  {
    if s != [] {
      FilterAll(keep, s[1..]);
    }
  }

  lemma {:induction false} FilterCount(keep: FailedAttempt -> bool, s: seq<FailedAttempt>, x: FailedAttempt)
    ensures multiset(Filter(keep, s))[x] == if keep(x) then multiset(s)[x] else 0
  {
    if s != [] {
      FilterCount(keep, s[1..], x);
      assert s == [s[0]] + s[1..];
    }
  }

  lemma RecentMembers(s: seq<FailedAttempt>, limit: nat)
    ensures forall x :: x in Recent(s, limit) ==> x in s
    ensures |Recent(s, limit)| == if |s| <= limit then |s| else limit
    ensures Ordered(NewerFirst, Recent(s, limit))
  {
    NewerFirstIsTotalPreorder();
    SortMultiset(NewerFirst, s);
    SortOrdered(NewerFirst, s);
    InMultiset(Sort(NewerFirst, s), s);
  }

  lemma {:induction false} FilterNone(keep: FailedAttempt -> bool, s: seq<FailedAttempt>)
    requires forall x :: x in s ==> !keep(x)
    ensures Filter(keep, s) == []
  {
    if s != [] {
      FilterNone(keep, s[1..]);
    }
  }

  lemma KeptMembers(list: seq<FailedAttempt>)
    ensures var (terminal, nonTerminal, background) := Kept(list);
            && (forall x :: x in terminal ==> IsTerminal(x) && x in list)
            && (forall x :: x in nonTerminal ==> IsNonTerminal(x) && x in list)
            && (forall x :: x in background ==> IsBackground(x) && x in list)
            && Ordered(NewerFirst, terminal) && Ordered(NewerFirst, nonTerminal) && Ordered(NewerFirst, background)
            && |terminal| <= MAX_USER_FACING && |nonTerminal| <= MAX_USER_FACING - |terminal|
            && |background| <= MAX_BACKGROUND
  {
    var (terminal, nonTerminal, background) := Kept(list);
    RecentMembers(Filter(IsTerminal, list), MAX_USER_FACING);
    RecentMembers(Filter(IsNonTerminal, list), MAX_USER_FACING - |terminal|);
    RecentMembers(Filter(IsBackground, list), MAX_BACKGROUND);
  }

  /** A class merged with others and sorted is read back by filtering, if it was in order. */
  lemma MergeReadsBack(
    keep: FailedAttempt -> bool, before: seq<FailedAttempt>, own: seq<FailedAttempt>, after: seq<FailedAttempt>)
    requires forall x :: x in before || x in after ==> !keep(x)
    requires forall x :: x in own ==> keep(x)
    requires Ordered(NewerFirst, own)
    ensures Filter(keep, Sort(NewerFirst, before + own + after)) == own
  {
    NewerFirstIsTotalPreorder();
    FilterSort(NewerFirst, keep, before + own + after);
    FilterAppend(keep, before + own, after);
    FilterAppend(keep, before, own);
    FilterNone(keep, before);
    FilterAll(keep, own);
    FilterNone(keep, after);
    assert [] + own + [] == own;
    SortOfOrdered(NewerFirst, own);
  }

  /** Each class is read back from the retained list exactly as it was kept. */
  lemma RetainedClasses(list: seq<FailedAttempt>)
    ensures var (terminal, nonTerminal, background) := Kept(list);
            && Filter(IsTerminal, Retained(list)) == terminal
            && Filter(IsNonTerminal, Retained(list)) == nonTerminal
            && Filter(IsBackground, Retained(list)) == background
  {
    hide Filter, Sort, Kept, Ordered;
    var (terminal, nonTerminal, background) := Kept(list);
    KeptMembers(list);
    MergeReadsBack(IsTerminal, [], terminal, nonTerminal + background);
    MergeReadsBack(IsNonTerminal, terminal, nonTerminal, background);
    MergeReadsBack(IsBackground, terminal + nonTerminal, background, []);
    var all := terminal + nonTerminal + background;
    assert [] + terminal + (nonTerminal + background) == all;
    assert terminal + nonTerminal + background + [] == all;
  }

  /** Retaining twice is retaining once: the sort is stable and nothing is over its limit. */
  lemma RetainedIdempotent(list: seq<FailedAttempt>)
    ensures Retained(Retained(list)) == Retained(list)
  {
    var (terminal, nonTerminal, background) := Kept(list);
    KeptMembers(list);
    RetainedClasses(list);
    NewerFirstIsTotalPreorder();
    SortOfOrdered(NewerFirst, terminal);
    SortOfOrdered(NewerFirst, nonTerminal);
    SortOfOrdered(NewerFirst, background);
    assert Kept(Retained(list)) == (terminal, nonTerminal, background);
  }

  /** The retained list is ordered newest first and holds nothing the input does not. */
  lemma RetainedOrdered(list: seq<FailedAttempt>)
    ensures Ordered(NewerFirst, Retained(list))
    ensures var kept := Retained(list);
            forall i, j, t, u ::
              0 <= i < j < |kept| && IsTime(kept[i].attempt, t) && IsTime(kept[j].attempt, u) ==> t >= u
    ensures multiset(Retained(list)) <= multiset(list)
  {
    var (terminal, nonTerminal, background) := Kept(list);
    NewerFirstIsTotalPreorder();
    SortOrdered(NewerFirst, terminal + nonTerminal + background);
    forall x ensures multiset(Retained(list))[x] <= multiset(list)[x] {
      RetainedCount(list, x);
    }
  }

  function Class(x: FailedAttempt): FailedAttempt -> bool {
    if IsTerminal(x) then IsTerminal else if IsNonTerminal(x) then IsNonTerminal else IsBackground
  }

  function KeptOf(list: seq<FailedAttempt>, x: FailedAttempt): seq<FailedAttempt> {
    var (terminal, nonTerminal, background) := Kept(list);
    if IsTerminal(x) then terminal else if IsNonTerminal(x) then nonTerminal else background
  }

  function LimitOf(list: seq<FailedAttempt>, x: FailedAttempt): nat {
    if IsTerminal(x) then MAX_USER_FACING
    else if IsNonTerminal(x) then
      (if |Kept(list).0| < MAX_USER_FACING then MAX_USER_FACING - |Kept(list).0| else 0)
    else MAX_BACKGROUND
  }

  lemma RecentCount(s: seq<FailedAttempt>, limit: nat, x: FailedAttempt)
    ensures multiset(Recent(s, limit))[x] <= multiset(s)[x]
    ensures multiset(Recent(s, limit))[x] < multiset(s)[x] ==>
              |Recent(s, limit)| == limit && forall k :: k in Recent(s, limit) ==> NewerFirst(k, x)
  {
    NewerFirstIsTotalPreorder();
    var sorted := Sort(NewerFirst, s);
    SortMultiset(NewerFirst, s);
    SortOrdered(NewerFirst, s);
    if |sorted| > limit {
      assert sorted == sorted[..limit] + sorted[limit..];
      if multiset(sorted[..limit])[x] < multiset(s)[x] {
        assert x in multiset(sorted[limit..]);
        var j :| 0 <= j < |sorted[limit..]| && sorted[limit..][j] == x;
        assert sorted[limit + j] == x;
      }
    }
  }

  lemma RetainedCount(list: seq<FailedAttempt>, x: FailedAttempt)
    ensures multiset(Retained(list))[x] == multiset(KeptOf(list, x))[x] <= multiset(list)[x]
    ensures multiset(Filter(Class(x), list))[x] == multiset(list)[x]
  {
    RetainedClasses(list);
    FilterCount(Class(x), Retained(list), x);
    FilterCount(Class(x), list, x);
    assert Filter(Class(x), Retained(list)) == KeptOf(list, x);
    assert KeptOf(list, x) == Recent(Filter(Class(x), list), LimitOf(list, x));
    RecentCount(Filter(Class(x), list), LimitOf(list, x), x);
  }

  lemma EvictedInClass(list: seq<FailedAttempt>, x: FailedAttempt)
    requires multiset(Retained(list))[x] < multiset(list)[x]
    ensures |KeptOf(list, x)| == LimitOf(list, x) && forall k :: k in KeptOf(list, x) ==> NewerFirst(k, x)
  {
    RetainedCount(list, x);
    assert KeptOf(list, x) == Recent(Filter(Class(x), list), LimitOf(list, x));
    hide Retained, Recent;
    RecentCount(Filter(Class(x), list), LimitOf(list, x), x);
  }

  lemma RetainedInClass(list: seq<FailedAttempt>, k: FailedAttempt)
    requires k in Retained(list)
    ensures k in KeptOf(list, k)
  {
    RetainedClasses(list);
    hide Retained, Kept;
    assert k in Filter(Class(k), Retained(list));
  }

  lemma UserFacingKept(list: seq<FailedAttempt>)
    ensures |Filter(IsUserFacing, Retained(list))| == |Kept(list).0| + |Kept(list).1|
    ensures |Filter(IsBackground, Retained(list))| == |Kept(list).2|
    ensures |Kept(list).0| <= 8 && |Kept(list).1| <= 8 - |Kept(list).0|
  {
    RetainedClasses(list);
    KeptMembers(list);
    hide Retained, Kept;
    UserFacingSplit(Retained(list));
  }

  lemma NewerFirstTimes(k: FailedAttempt, x: FailedAttempt)
    ensures NewerFirst(k, x) <==> forall t, u :: IsTime(k.attempt, t) && IsTime(x.attempt, u) ==> t >= u
  {
    assert IsTime(k.attempt, k.attempt.When()) && IsTime(x.attempt, x.attempt.When());
  }

  /**
    Eviction is justified: if a failure is dropped, its class is full, and every kept failure of
    the same impact is terminal where the dropped one is not, or is at least as recent.
    */
  lemma EvictionJustified(list: seq<FailedAttempt>, x: FailedAttempt, k: FailedAttempt)
    requires multiset(Retained(list))[x] < multiset(list)[x]
    requires k in Retained(list) && IsUserFacing(k) == IsUserFacing(x)
    ensures
      || (k.terminal && !x.terminal && x.attempt.impact.UserFacing?)
      || ((forall t, u :: IsTime(k.attempt, t) && IsTime(x.attempt, u) ==> t >= u)
          && (x.attempt.impact.UserFacing? ==> k.terminal == x.terminal))
    ensures IsUserFacing(x) ==> |Filter(IsUserFacing, Retained(list))| == 8
    ensures IsBackground(x) ==> |Filter(IsBackground, Retained(list))| == 8
  {
    hide Retained, Kept, NewerFirst, IsTime;
    EvictedInClass(list, x);
    RetainedInClass(list, k);
    UserFacingKept(list);
    NewerFirstTimes(k, x);
  }

  lemma {:induction false} UserFacingSplit(s: seq<FailedAttempt>)
    ensures |Filter(IsUserFacing, s)| == |Filter(IsTerminal, s)| + |Filter(IsNonTerminal, s)|
  {
    if s != [] {
      UserFacingSplit(s[1..]);
    }
  }

  /** Exactly min(8, n) user-facing and min(8, m) background failures are retained. */
  lemma RetainedSizes(list: seq<FailedAttempt>)
    ensures var n := |Filter(IsUserFacing, list)|;
            |Filter(IsUserFacing, Retained(list))| == if n <= 8 then n else 8
    ensures var m := |Filter(IsBackground, list)|;
            |Filter(IsBackground, Retained(list))| == if m <= 8 then m else 8
  {
    RetainedClasses(list);
    UserFacingSplit(list);
    UserFacingSplit(Retained(list));
    var (terminal, nonTerminal, background) := Kept(list);
    RecentMembers(Filter(IsTerminal, list), MAX_USER_FACING);
    RecentMembers(Filter(IsNonTerminal, list), MAX_USER_FACING - |terminal|);
    RecentMembers(Filter(IsBackground, list), MAX_BACKGROUND);
  }

  /** The partition loop. */
  method Partition(failures: seq<FailedAttempt>)
    returns (terminal: seq<FailedAttempt>, nonTerminal: seq<FailedAttempt>, background: seq<FailedAttempt>)
    ensures terminal == Filter(IsTerminal, failures)
    ensures nonTerminal == Filter(IsNonTerminal, failures)
    ensures background == Filter(IsBackground, failures)
  {
    terminal, nonTerminal, background := [], [], [];
    for i := 0 to |failures|
      invariant terminal == Filter(IsTerminal, failures[..i])
      invariant nonTerminal == Filter(IsNonTerminal, failures[..i])
      invariant background == Filter(IsBackground, failures[..i])
    {
      var f := failures[i];
      FilterNext(IsTerminal, failures, i);
      FilterNext(IsNonTerminal, failures, i);
      FilterNext(IsBackground, failures, i);
      if f.attempt.impact.UserFacing? {
        if f.terminal {
          terminal := terminal + [f];
        } else {
          nonTerminal := nonTerminal + [f];
        }
      } else {
        background := background + [f];
      }
    }
    assert failures[..|failures|] == failures;
  }

  lemma FilterNext(keep: FailedAttempt -> bool, s: seq<FailedAttempt>, i: nat)
    requires i < |s|
    ensures Filter(keep, s[..i + 1]) == Filter(keep, s[..i]) + if keep(s[i]) then [s[i]] else []
  {
    assert s[..i + 1] == s[..i] + [s[i]];
    FilterAppend(keep, s[..i], [s[i]]);
  }

  /** `retain_android_failed_attempts_by_impact`, with its lists sorted and cut in place. */
  method RetainByImpact(failures: seq<FailedAttempt>) returns (kept: seq<FailedAttempt>)
    ensures kept == Retained(failures)
  {
    var terminal, nonTerminal, background := Partition(failures);
    hide Filter, Sort, Truncate;
    terminal := Truncate(Sort(NewerFirst, terminal), MAX_USER_FACING);
    var room := if |terminal| < MAX_USER_FACING then MAX_USER_FACING - |terminal| else 0;
    nonTerminal := Truncate(Sort(NewerFirst, nonTerminal), room);
    background := Truncate(Sort(NewerFirst, background), MAX_BACKGROUND);
    kept := Sort(NewerFirst, terminal + nonTerminal + background);
  }

  // ---------------------------------------------------------------------------
  // Latest successes
  // ---------------------------------------------------------------------------

  /** The latest of several successes; of equally late ones, the last. */
  ghost predicate IsLatest(sources: seq<Success>, r: Option<Success>) {
    if r.None? then sources == []
    else exists k :: 0 <= k < |sources| && LatestAt(sources, k) && sources[k] == r.value
  }

  ghost predicate LatestAt(sources: seq<Success>, k: nat)
    requires k < |sources|
  {
    && (forall i :: 0 <= i < k ==> sources[i].at <= sources[k].at)
    && (forall i :: k < i < |sources| ==> sources[i].at < sources[k].at)
  }

  /** The running maximum with its tie-break. */
  function Later(current: Option<Success>, next: Success): Option<Success> {
    if current.None? || next.at >= current.value.at then Some(next) else current
  }

  lemma LaterIsLatest(sources: seq<Success>, current: Option<Success>, next: Success)
    requires IsLatest(sources, current)
    ensures IsLatest(sources + [next], Later(current, next))
  {
    var all := sources + [next];
    if current.None? || next.at >= current.value.at {
      assert LatestAt(all, |sources|);
    } else {
      var k :| 0 <= k < |sources| && LatestAt(sources, k) && sources[k] == current.value;
      assert LatestAt(all, k) && all[k] == current.value;
    }
  }

  /** The latest source is unique, so the summary is determined by its sources. */
  lemma LatestUnique(sources: seq<Success>, a: Option<Success>, b: Option<Success>)
    requires IsLatest(sources, a) && IsLatest(sources, b)
    ensures a == b
  {
  }

  /** The part of a URL before the first '?'. */
  function PathOf(url: string): string {
    if url == [] || url[0] == '?' then [] else [url[0]] + PathOf(url[1..])
  }

  /** `is_android_connectivity_probe_url` */
  predicate IsProbe(url: string) {
    var probe := "/api/v1/diagnostics/latency";
    var path := TrimSlashes(PathOf(url));
    |path| >= |probe| && path[|path| - |probe|..] == probe
  }

  predicate Succeeded(a: Attempt) {
    a.outcome == SUCCESS && a.impact.UserFacing?
  }

  function AttemptSources(attempts: seq<Attempt>): seq<Success> {
    if attempts == [] then []
    else
      var init := AttemptSources(attempts[..|attempts| - 1]);
      var a := attempts[|attempts| - 1];
      if Succeeded(a) then init + [Success(a.When(), a.url)] else init
  }

  function FunctionalAttemptSources(attempts: seq<Attempt>): seq<Success> {
    if attempts == [] then []
    else
      var init := FunctionalAttemptSources(attempts[..|attempts| - 1]);
      var a := attempts[|attempts| - 1];
      if Succeeded(a) && !IsProbe(a.url) then init + [Success(a.When(), a.url)] else init
  }

  /** URL of the last successful user-facing attempt. */
  function LastSuccessUrl(attempts: seq<Attempt>): Option<string> {
    if attempts == [] then None
    else
      var a := attempts[|attempts| - 1];
      if Succeeded(a) then Some(a.url) else LastSuccessUrl(attempts[..|attempts| - 1])
  }

  function EndpointUrl(e: Endpoint): string {
    if e.lastSuccessUrl.Some? then e.lastSuccessUrl.value else LastSuccessUrl(e.attempts).GetOr(e.locator)
  }

  function OwnSource(e: Endpoint): seq<Success> {
    if e.lastSuccess.Some? then [Success(e.lastSuccess.value, EndpointUrl(e))] else []
  }

  function EndpointSources(endpoints: seq<Endpoint>): seq<Success> {
    if endpoints == [] then []
    else
      var e := endpoints[|endpoints| - 1];
      EndpointSources(endpoints[..|endpoints| - 1]) + OwnSource(e) + AttemptSources(e.attempts)
  }

  function FunctionalSources(endpoints: seq<Endpoint>): seq<Success> {
    if endpoints == [] then []
    else
      FunctionalSources(endpoints[..|endpoints| - 1]) + FunctionalAttemptSources(endpoints[|endpoints| - 1].attempts)
  }

  function CompletedSource(event: Event): seq<Success> {
    if event.completed.Some? && Succeeded(event.completed.value.attempt)
    then [Success(event.completed.value.attempt.When(), event.completed.value.attempt.url)]
    else []
  }

  /** Everything that counts as a successful connection, in the order it is looked at. */
  function AllSources(event: Event): seq<Success> {
    EndpointSources(event.endpoints) + CompletedSource(event)
  }

  /** Everything that counts as a successful functional request. */
  function AllFunctionalSources(event: Event): seq<Success> {
    FunctionalSources(event.endpoints) +
    if CompletedSource(event) != [] && !IsProbe(CompletedSource(event)[0].url) then CompletedSource(event) else []
  }

  // ---------------------------------------------------------------------------
  // Failures
  // ---------------------------------------------------------------------------

  predicate Matches(completed: Option<Completed>, e: Endpoint, a: Attempt) {
    completed.Some? && completed.value == Completed(e.locator, e.pathKind, a)
  }

  function EndpointFailures(completed: Option<Completed>, e: Endpoint, attempts: seq<Attempt>): seq<FailedAttempt> {
    if attempts == [] then []
    else
      var init := EndpointFailures(completed, e, attempts[..|attempts| - 1]);
      var a := attempts[|attempts| - 1];
      if a.outcome == FAILURE
      then init + [FailedAttempt(Matches(completed, e, a), e.locator, e.pathKind, a)]
      else init
  }

  function Failures(completed: Option<Completed>, endpoints: seq<Endpoint>): seq<FailedAttempt> {
    if endpoints == [] then []
    else
      var e := endpoints[|endpoints| - 1];
      Failures(completed, endpoints[..|endpoints| - 1]) + EndpointFailures(completed, e, e.attempts)
  }

  predicate HasTerminal(failures: seq<FailedAttempt>) {
    exists f :: f in failures && f.terminal
  }

  function AllFailures(event: Event): seq<FailedAttempt> {
    var failures := Failures(event.completed, event.endpoints);
    if event.completed.Some?
       && event.completed.value.attempt.impact.UserFacing?
       && event.completed.value.attempt.outcome == FAILURE
       && !HasTerminal(failures)
    then
      var c := event.completed.value;
      failures + [FailedAttempt(true, c.locator, c.pathKind, c.attempt)]
    else failures
  }

  // ---------------------------------------------------------------------------
  // The summariser
  // ---------------------------------------------------------------------------

  method LastUrl(attempts: seq<Attempt>) returns (url: Option<string>)
    ensures url == LastSuccessUrl(attempts)
  {
    var i := |attempts|;
    assert attempts[..i] == attempts;
    while i > 0
      invariant 0 <= i <= |attempts|
      invariant LastSuccessUrl(attempts) == LastSuccessUrl(attempts[..i])
    {
      i := i - 1;
      assert attempts[..i + 1][..i] == attempts[..i];
      if Succeeded(attempts[i]) {
        return Some(attempts[i].url);
      }
    }
    url := None;
  }

  lemma NextAttempt(before: seq<Success>, attempts: seq<Attempt>, i: nat, current: Option<Success>)
    requires i < |attempts| && IsLatest(before + AttemptSources(attempts[..i]), current)
    ensures var a := attempts[i];
            IsLatest(before + AttemptSources(attempts[..i + 1]),
                     if Succeeded(a) then Later(current, Success(a.When(), a.url)) else current)
  {
    var a := attempts[i];
    assert attempts[..i + 1][..i] == attempts[..i];
    if Succeeded(a) {
      LaterIsLatest(before + AttemptSources(attempts[..i]), current, Success(a.When(), a.url));
      assert before + AttemptSources(attempts[..i + 1])
          == before + AttemptSources(attempts[..i]) + [Success(a.When(), a.url)];
    }
  }

  lemma NextFunctionalAttempt(before: seq<Success>, attempts: seq<Attempt>, i: nat, current: Option<Success>)
    requires i < |attempts| && IsLatest(before + FunctionalAttemptSources(attempts[..i]), current)
    ensures var a := attempts[i];
            IsLatest(before + FunctionalAttemptSources(attempts[..i + 1]),
                     if Succeeded(a) && !IsProbe(a.url) then Later(current, Success(a.When(), a.url)) else current)
  {
    var a := attempts[i];
    assert attempts[..i + 1][..i] == attempts[..i];
    if Succeeded(a) && !IsProbe(a.url) {
      LaterIsLatest(before + FunctionalAttemptSources(attempts[..i]), current, Success(a.When(), a.url));
      assert before + FunctionalAttemptSources(attempts[..i + 1])
          == before + FunctionalAttemptSources(attempts[..i]) + [Success(a.When(), a.url)];
    }
  }

  /** The loop over one endpoint's attempts. */
  method ScanAttempts(
    attempts: seq<Attempt>, connection: Option<Success>, functional: Option<Success>,
    ghost before: seq<Success>, ghost beforeFunctional: seq<Success>)
    returns (connection': Option<Success>, functional': Option<Success>)
    requires IsLatest(before, connection) && IsLatest(beforeFunctional, functional)
    ensures IsLatest(before + AttemptSources(attempts), connection')
    ensures IsLatest(beforeFunctional + FunctionalAttemptSources(attempts), functional')
  {
    connection', functional' := connection, functional;
    assert before + AttemptSources([]) == before;
    assert beforeFunctional + FunctionalAttemptSources([]) == beforeFunctional;
    for i := 0 to |attempts|
      invariant IsLatest(before + AttemptSources(attempts[..i]), connection')
      invariant IsLatest(beforeFunctional + FunctionalAttemptSources(attempts[..i]), functional')
    {
      var a := attempts[i];
      NextAttempt(before, attempts, i, connection');
      NextFunctionalAttempt(beforeFunctional, attempts, i, functional');
      hide IsLatest, IsProbe;
      if a.outcome != SUCCESS || !a.impact.UserFacing? {
        continue;
      }
      var at := a.When();
      if connection'.None? || at >= connection'.value.at {
        connection' := Some(Success(at, a.url));
      }
      if IsProbe(a.url) {
        continue;
      }
      if functional'.None? || at >= functional'.value.at {
        functional' := Some(Success(at, a.url));
      }
    }
    assert attempts[..|attempts|] == attempts;
  }

  /** The endpoint's own record of its last user-facing success. */
  method ScanOwn(e: Endpoint, connection: Option<Success>, ghost before: seq<Success>)
    returns (connection': Option<Success>)
    requires IsLatest(before, connection)
    ensures IsLatest(before + OwnSource(e), connection')
  {
    connection' := connection;
    assert e.lastSuccess.None? ==> before + OwnSource(e) == before;
    if e.lastSuccess.Some? && (connection.None? || e.lastSuccess.value >= connection.value.at) {
      var url := e.lastSuccessUrl;
      if url.None? {
        url := LastUrl(e.attempts);
      }
      connection' := Some(Success(e.lastSuccess.value, url.GetOr(e.locator)));
    }
    if e.lastSuccess.Some? {
      LaterIsLatest(before, connection, OwnSource(e)[0]);
    }
  }

  /** One endpoint: its own record first, then its attempts. */
  method ScanEndpoint(
    e: Endpoint, connection: Option<Success>, functional: Option<Success>,
    ghost before: seq<Success>, ghost beforeFunctional: seq<Success>)
    returns (connection': Option<Success>, functional': Option<Success>)
    requires IsLatest(before, connection) && IsLatest(beforeFunctional, functional)
    ensures IsLatest(before + OwnSource(e) + AttemptSources(e.attempts), connection')
    ensures IsLatest(beforeFunctional + FunctionalAttemptSources(e.attempts), functional')
  {
    hide IsLatest, OwnSource, AttemptSources, FunctionalAttemptSources;
    connection' := ScanOwn(e, connection, before);
    connection', functional' :=
      ScanAttempts(e.attempts, connection', functional, before + OwnSource(e), beforeFunctional);
  }

  lemma NextEndpoint(event: Event, i: nat)
    requires i < |event.endpoints|
    ensures var (done, e) := (event.endpoints[..i], event.endpoints[i]);
            var next := event.endpoints[..i + 1];
            && EndpointSources(next) == EndpointSources(done) + OwnSource(e) + AttemptSources(e.attempts)
            && FunctionalSources(next) == FunctionalSources(done) + FunctionalAttemptSources(e.attempts)
            && Failures(event.completed, next) ==
               Failures(event.completed, done) + EndpointFailures(event.completed, e, e.attempts)
  {
    assert event.endpoints[..i + 1][..i] == event.endpoints[..i];
  }

  /** `summarize_android_connection_diagnostics` */
  method Summarise(event: Event) returns (update: Update)
    ensures IsLatest(AllSources(event), update.connection)
    ensures IsLatest(AllFunctionalSources(event), update.functional)
    ensures update.failures == Retained(AllFailures(event))
  {
    var connection: Option<Success> := None;
    var functional: Option<Success> := None;
    var failures: seq<FailedAttempt> := [];
    assert IsLatest(EndpointSources([]), None) && IsLatest(FunctionalSources([]), None);
    assert Failures(event.completed, []) == [] && event.endpoints[..0] == [];
    hide IsLatest, EndpointSources, FunctionalSources, Failures, EndpointFailures, AllSources, AllFunctionalSources,
         AllFailures, Retained, OwnSource, AttemptSources, FunctionalAttemptSources;
    for i := 0 to |event.endpoints|
      invariant IsLatest(EndpointSources(event.endpoints[..i]), connection)
      invariant IsLatest(FunctionalSources(event.endpoints[..i]), functional)
      invariant failures == Failures(event.completed, event.endpoints[..i])
    {
      var e := event.endpoints[i];
      NextEndpoint(event, i);
      connection, functional :=
        ScanEndpoint(e, connection, functional,
                     EndpointSources(event.endpoints[..i]), FunctionalSources(event.endpoints[..i]));
      failures := failures + EndpointFailures(event.completed, e, e.attempts);
    }
    assert event.endpoints[..|event.endpoints|] == event.endpoints;
    connection, functional, failures := ScanCompleted(event, connection, functional, failures);
    failures := RetainByImpact(failures);
    update := Update(connection, functional, failures);
  }

  /** The operation that triggered the event, looked at last. */
  method ScanCompleted(
    event: Event, connection: Option<Success>, functional: Option<Success>, failures: seq<FailedAttempt>)
    returns (connection': Option<Success>, functional': Option<Success>, failures': seq<FailedAttempt>)
    requires IsLatest(EndpointSources(event.endpoints), connection)
    requires IsLatest(FunctionalSources(event.endpoints), functional)
    requires failures == Failures(event.completed, event.endpoints)
    ensures IsLatest(AllSources(event), connection')
    ensures IsLatest(AllFunctionalSources(event), functional')
    ensures failures' == AllFailures(event)
  {
    connection', functional', failures' := connection, functional, failures;
    assert CompletedSource(event) == [] ==> AllSources(event) == EndpointSources(event.endpoints);
    assert AllFunctionalSources(event) == FunctionalSources(event.endpoints)
        || AllFunctionalSources(event) == FunctionalSources(event.endpoints) + CompletedSource(event);
    if event.completed.Some? && event.completed.value.attempt.impact.UserFacing? {
      var c := event.completed.value;
      var success := Success(c.attempt.When(), c.attempt.url);
      LaterIsLatest(EndpointSources(event.endpoints), connection, success);
      LaterIsLatest(FunctionalSources(event.endpoints), functional, success);
      hide IsLatest, IsProbe;
      if c.attempt.outcome == SUCCESS {
        if connection.None? || success.at >= connection.value.at {
          connection' := Some(success);
        }
        if !IsProbe(c.attempt.url) && (functional.None? || success.at >= functional.value.at) {
          functional' := Some(success);
        }
      } else if c.attempt.outcome == FAILURE && !HasTerminal(failures) {
        failures' := failures + [FailedAttempt(true, c.locator, c.pathKind, c.attempt)];
      }
    }
  }

  // ---------------------------------------------------------------------------
  // What the summary means
  // ---------------------------------------------------------------------------

  lemma {:induction false} FunctionalAttemptsAreAttempts(attempts: seq<Attempt>)
    ensures forall x :: x in FunctionalAttemptSources(attempts) ==> x in AttemptSources(attempts)
  {
    if attempts != [] {
      FunctionalAttemptsAreAttempts(attempts[..|attempts| - 1]);
    }
  }

  lemma {:induction false} FunctionalAreSources(endpoints: seq<Endpoint>)
    ensures forall x :: x in FunctionalSources(endpoints) ==> x in EndpointSources(endpoints)
  {
    if endpoints != [] {
      FunctionalAreSources(endpoints[..|endpoints| - 1]);
      FunctionalAttemptsAreAttempts(endpoints[|endpoints| - 1].attempts);
    }
  }

  /** A functional success is never later than the latest connection success. */
  lemma FunctionalNeverExceedsConnection(event: Event, connection: Option<Success>, functional: Option<Success>)
    requires IsLatest(AllSources(event), connection) && IsLatest(AllFunctionalSources(event), functional)
    ensures functional.Some? ==> connection.Some? && functional.value.at <= connection.value.at
  {
    if functional.Some? {
      FunctionalAreSources(event.endpoints);
      var sources, functionals := AllSources(event), AllFunctionalSources(event);
      var k :| 0 <= k < |functionals| && LatestAt(functionals, k) && functionals[k] == functional.value;
      assert functionals[k] in functionals && functionals[k] in sources;
      var j :| 0 <= j < |sources| && sources[j] == functional.value;
      assert connection.Some?;
      var m :| 0 <= m < |sources| && LatestAt(sources, m) && sources[m] == connection.value;
    }
  }

  /** Terminal failures are user-facing only if the completed operation is; they always match it. */
  lemma {:induction false} TerminalsMatch(completed: Option<Completed>, e: Endpoint, attempts: seq<Attempt>)
    ensures forall f :: f in EndpointFailures(completed, e, attempts) && f.terminal ==>
              completed == Some(Completed(f.locator, f.pathKind, f.attempt))
  {
    if attempts != [] {
      TerminalsMatch(completed, e, attempts[..|attempts| - 1]);
    }
  }

  lemma {:induction false} AllTerminalsMatch(completed: Option<Completed>, endpoints: seq<Endpoint>)
    ensures forall f :: f in Failures(completed, endpoints) && f.terminal ==>
              completed == Some(Completed(f.locator, f.pathKind, f.attempt))
  {
    if endpoints != [] {
      AllTerminalsMatch(completed, endpoints[..|endpoints| - 1]);
      TerminalsMatch(completed, endpoints[|endpoints| - 1], endpoints[|endpoints| - 1].attempts);
    }
  }

  /** A failed user-facing operation always leaves its own terminal failure in the summary. */
  lemma FailedOperationIsReported(event: Event)
    requires event.completed.Some?
    requires event.completed.value.attempt.impact.UserFacing? && event.completed.value.attempt.outcome == FAILURE
    ensures var c := event.completed.value;
            FailedAttempt(true, c.locator, c.pathKind, c.attempt) in Retained(AllFailures(event))
  {
    var c := event.completed.value;
    var own := FailedAttempt(true, c.locator, c.pathKind, c.attempt);
    var failures := AllFailures(event);
    AllTerminalsMatch(event.completed, event.endpoints);
    assert forall f :: f in failures && f.terminal ==> f == own;
    assert own in failures by {
      if HasTerminal(Failures(event.completed, event.endpoints)) {
        var f :| f in Failures(event.completed, event.endpoints) && f.terminal;
        assert f == own;
      }
    }
    var terminals := Filter(IsTerminal, failures);
    assert own in terminals;
    RecentMembers(terminals, MAX_USER_FACING);
    var kept := Recent(terminals, MAX_USER_FACING);
    assert kept[0] in terminals && kept[0] == own;
    RetainedClasses(failures);
    assert own in Filter(IsTerminal, Retained(failures));
  }

  // ---------------------------------------------------------------------------
  // Which failures and successes an event holds
  // ---------------------------------------------------------------------------

  /** Attempt `j` of endpoint `i` failed, and `f` is how it is reported. */
  predicate FailureAt(event: Event, i: int, j: int, f: FailedAttempt) {
    && 0 <= i < |event.endpoints| && 0 <= j < |event.endpoints[i].attempts|
    && var (e, a) := (event.endpoints[i], event.endpoints[i].attempts[j]);
       && a.outcome == "failure" && f.attempt == a && f.locator == e.locator && f.pathKind == e.pathKind
       && (f.terminal <==> event.completed.Some? && event.completed.value.locator == e.locator
                           && event.completed.value.pathKind == e.pathKind && event.completed.value.attempt == a)
  }

  function FailurePairs(event: Event, n: nat, f: FailedAttempt): set<(int, int)>
    requires n <= |event.endpoints|
  {
    set i, j | 0 <= i < n && 0 <= j < |event.endpoints[i].attempts| && FailureAt(event, i, j, f) :: (i, j)
  }

  function FailurePositions(event: Event, i: nat, m: nat, f: FailedAttempt): set<(int, int)>
    requires i < |event.endpoints| && m <= |event.endpoints[i].attempts|
  {
    set j | 0 <= j < m && FailureAt(event, i, j, f) :: (i as int, j)
  }

  lemma PositionsStep(event: Event, i: nat, m: nat, f: FailedAttempt)
    requires i < |event.endpoints| && m < |event.endpoints[i].attempts|
    ensures |FailurePositions(event, i, m + 1, f)| ==
            |FailurePositions(event, i, m, f)| + if FailureAt(event, i, m, f) then 1 else 0
  {
    hide FailureAt;
    var before := FailurePositions(event, i, m, f);
    assert FailurePositions(event, i, m + 1, f) == before + if FailureAt(event, i, m, f) then {(i as int, m as int)} else {};
    assert (i as int, m as int) !in before;
  }

  lemma {:induction false} EndpointFailureCount(event: Event, i: nat, m: nat, f: FailedAttempt)
    requires i < |event.endpoints| && m <= |event.endpoints[i].attempts|
    ensures var e := event.endpoints[i];
            multiset(EndpointFailures(event.completed, e, e.attempts[..m]))[f] == |FailurePositions(event, i, m, f)|
  {
    var e := event.endpoints[i];
    if m > 0 {
      EndpointFailureCount(event, i, m - 1, f);
      assert e.attempts[..m][..m - 1] == e.attempts[..m - 1];
      PositionsStep(event, i, m - 1, f);
      hide FailurePositions;
    }
  }

  /** The failures of one more endpoint. */
  lemma FailuresStep(event: Event, i: nat, f: FailedAttempt)
    requires i < |event.endpoints|
    ensures var e := event.endpoints[i];
            multiset(Failures(event.completed, event.endpoints[..i + 1]))[f] ==
            multiset(Failures(event.completed, event.endpoints[..i]))[f] +
            multiset(EndpointFailures(event.completed, e, e.attempts))[f]
  {
    hide EndpointFailures;
    var (e, all) := (event.endpoints[i], event.endpoints[..i + 1]);
    assert all[..i] == event.endpoints[..i] && all[i] == e;
    CountConcat(Failures(event.completed, event.endpoints[..i]), EndpointFailures(event.completed, e, e.attempts), f);
  }

  lemma NoFailures(event: Event, f: FailedAttempt)
    ensures Failures(event.completed, event.endpoints[..0]) == [] && FailurePairs(event, 0, f) == {}
  {
    assert event.endpoints[..0] == [];
  }

  lemma {:induction false} FailureCount(event: Event, n: nat, f: FailedAttempt)
    requires n <= |event.endpoints|
    ensures multiset(Failures(event.completed, event.endpoints[..n]))[f] == |FailurePairs(event, n, f)|
  {
    hide Failures, FailurePairs, FailurePositions, EndpointFailures;
    if n == 0 {
      NoFailures(event, f);
    } else {
      FailureCount(event, n - 1, f);
      var e := event.endpoints[n - 1];
      FailuresStep(event, n - 1, f);
      EndpointFailureCount(event, n - 1, |e.attempts|, f);
      assert e.attempts[..|e.attempts|] == e.attempts;
      PairsSplit(event, n - 1, f);
    }
  }

  lemma CountConcat(a: seq<FailedAttempt>, b: seq<FailedAttempt>, f: FailedAttempt)
    ensures multiset(a + b)[f] == multiset(a)[f] + multiset(b)[f]
  {
  }

  lemma PairsSplit(event: Event, i: nat, f: FailedAttempt)
    requires i < |event.endpoints|
    ensures var (before, own) := (FailurePairs(event, i, f), FailurePositions(event, i, |event.endpoints[i].attempts|, f));
            FailurePairs(event, i + 1, f) == before + own && before !! own
            && |FailurePairs(event, i + 1, f)| == |before| + |own|
  {
    hide FailureAt;
    var before, own := FailurePairs(event, i, f), FailurePositions(event, i, |event.endpoints[i].attempts|, f);
    assert FailurePairs(event, i + 1, f) == before + own;
    assert before !! own;
  }

  /** The completed operation is a user-facing failure that no endpoint's attempts report. */
  ghost predicate Unreported(event: Event) {
    && event.completed.Some? && event.completed.value.attempt.impact.UserFacing?
    && event.completed.value.attempt.outcome == "failure"
    && forall i, j, f :: FailureAt(event, i, j, f) ==> !f.terminal
  }

  /**
    The failures of an event: each failed attempt of each endpoint as often as it occurs, and the
    completed operation's own failure if it is user-facing and otherwise missing.
    */
  lemma AllFailuresAre(event: Event, f: FailedAttempt)
    ensures var c := event.completed;
            multiset(AllFailures(event))[f] ==
              |FailurePairs(event, |event.endpoints|, f)| +
              if Unreported(event) && f == FailedAttempt(true, c.value.locator, c.value.pathKind, c.value.attempt)
              then 1 else 0
  {
    var n := |event.endpoints|;
    assert event.endpoints[..n] == event.endpoints;
    var failures := Failures(event.completed, event.endpoints);
    FailureCount(event, n, f);
    assert HasTerminal(failures) <==> exists i, j, g :: FailureAt(event, i, j, g) && g.terminal by {
      forall g ensures g in failures <==> exists i, j :: FailureAt(event, i, j, g) {
        FailureCount(event, n, g);
        FailurePairsEmpty(event, g);
        assert g in failures <==> g in multiset(failures);
      }
    }
  }

  lemma FailurePairsEmpty(event: Event, g: FailedAttempt)
    ensures |FailurePairs(event, |event.endpoints|, g)| > 0 <==> exists i, j :: FailureAt(event, i, j, g)
  {
    var pairs := FailurePairs(event, |event.endpoints|, g);
    if |pairs| > 0 {
      var p :| p in pairs;
      assert FailureAt(event, p.0, p.1, g);
    }
    if i, j :| FailureAt(event, i, j, g) {
      assert (i, j) in pairs;
    }
  }

  lemma RetainedLength(list: seq<FailedAttempt>)
    ensures |list| == |Filter(IsUserFacing, list)| + |Filter(IsBackground, list)|
  {
    if list != [] {
      RetainedLength(list[1..]);
    }
  }

  /** With at most eight failures of each impact, every failed attempt is reported. */
  lemma FewFailuresAllReported(event: Event, i: int, j: int, f: FailedAttempt)
    requires |Filter(IsUserFacing, AllFailures(event))| <= 8 && |Filter(IsBackground, AllFailures(event))| <= 8
    requires FailureAt(event, i, j, f)
    ensures f in Retained(AllFailures(event))
  {
    var list := AllFailures(event);
    hide AllFailures, Retained, FailureAt;
    RetainedSizes(list);
    RetainedOrdered(list);
    RetainedLength(list);
    RetainedLength(Retained(list));
    MultisetSubsetSameSize(multiset(Retained(list)), multiset(list));
    AllFailuresAre(event, f);
    FailurePairsEmpty(event, f);
    assert f in multiset(list);
    assert f in multiset(Retained(list));
  }

  /** A successful user-facing attempt, with its time and address. */
  predicate SuccessOf(a: Attempt, x: Success) {
    a.outcome == "success" && a.impact.UserFacing? && IsTime(a, x.at) && a.url == x.url
  }

  predicate OwnSuccess(e: Endpoint, x: Success) {
    && e.lastSuccess == Some(x.at)
    && (e.lastSuccessUrl.Some? ==> x.url == e.lastSuccessUrl.value)
    && (e.lastSuccessUrl.None? ==>
          if exists j :: 0 <= j < |e.attempts| && LastSuccessful(e.attempts, j)
          then exists j :: 0 <= j < |e.attempts| && LastSuccessful(e.attempts, j) && x.url == e.attempts[j].url
          else x.url == e.locator)
  }

  predicate LastSuccessful(attempts: seq<Attempt>, j: int)
    requires 0 <= j < |attempts|
  {
    && attempts[j].outcome == "success" && attempts[j].impact.UserFacing?
    && forall k :: j < k < |attempts| ==> attempts[k].outcome != "success" || !attempts[k].impact.UserFacing?
  }

  lemma {:induction false} LastSuccessUrlIs(attempts: seq<Attempt>)
    ensures LastSuccessUrl(attempts).None? <==> forall j :: 0 <= j < |attempts| ==> !LastSuccessful(attempts, j)
    ensures LastSuccessUrl(attempts).Some? ==>
              exists j :: 0 <= j < |attempts| && LastSuccessful(attempts, j) && attempts[j].url == LastSuccessUrl(attempts).value
  {
    if attempts != [] {
      var n := |attempts| - 1;
      var init := attempts[..n];
      if Succeeded(attempts[n]) {
        assert LastSuccessful(attempts, n);
      } else {
        LastSuccessUrlIs(init);
        assert forall j :: 0 <= j < n ==> (LastSuccessful(attempts, j) <==> LastSuccessful(init, j));
      }
    }
  }

  lemma OwnSourceIs(e: Endpoint, x: Success)
    ensures x in OwnSource(e) <==> OwnSuccess(e, x)
  {
    LastSuccessUrlIs(e.attempts);
    forall j, k | 0 <= j < |e.attempts| && 0 <= k < |e.attempts| && LastSuccessful(e.attempts, j) && LastSuccessful(e.attempts, k)
      ensures j == k
    {
    }
  }

  lemma {:induction false} AttemptSourcesAre(attempts: seq<Attempt>, x: Success)
    ensures x in AttemptSources(attempts) <==> exists j :: 0 <= j < |attempts| && SuccessOf(attempts[j], x)
    ensures x in FunctionalAttemptSources(attempts) <==>
            exists j :: 0 <= j < |attempts| && SuccessOf(attempts[j], x) && !IsProbe(x.url)
  {
    if attempts != [] {
      hide IsProbe;
      var n := |attempts| - 1;
      AttemptSourcesAre(attempts[..n], x);
      assert SuccessOf(attempts[n], x) <==> Succeeded(attempts[n]) && x == Success(attempts[n].When(), attempts[n].url);
      assert forall j :: 0 <= j < n ==> attempts[..n][j] == attempts[j];
    }
  }

  /** The endpoint's own record or one of its attempts. */
  predicate EndpointSuccess(e: Endpoint, x: Success) {
    OwnSuccess(e, x) || AttemptSuccess(e, x)
  }

  predicate AttemptSuccess(e: Endpoint, x: Success) {
    exists j :: 0 <= j < |e.attempts| && SuccessOf(e.attempts[j], x)
  }

  lemma EndpointSourceIs(e: Endpoint, x: Success)
    ensures x in OwnSource(e) || x in AttemptSources(e.attempts) <==> EndpointSuccess(e, x)
  {
    hide OwnSuccess, OwnSource, AttemptSources;
    OwnSourceIs(e, x);
    AttemptSourcesAre(e.attempts, x);
  }

  lemma InThree<T>(a: seq<T>, b: seq<T>, c: seq<T>, x: T)
    ensures x in a + b + c <==> x in a || x in b || x in c
  {
  }

  lemma {:induction false} EndpointSourcesAre(endpoints: seq<Endpoint>, x: Success)
    ensures x in EndpointSources(endpoints) <==> exists i :: 0 <= i < |endpoints| && EndpointSuccess(endpoints[i], x)
  {
    if endpoints != [] {
      hide EndpointSuccess, OwnSource, AttemptSources;
      var n := |endpoints| - 1;
      EndpointSourcesAre(endpoints[..n], x);
      EndpointSourceIs(endpoints[n], x);
      InThree(EndpointSources(endpoints[..n]), OwnSource(endpoints[n]), AttemptSources(endpoints[n].attempts), x);
      assert forall i :: 0 <= i < n ==> endpoints[..n][i] == endpoints[i];
    }
  }

  lemma {:induction false} FunctionalSourcesAre(endpoints: seq<Endpoint>, x: Success)
    ensures x in FunctionalSources(endpoints) <==>
            !IsProbe(x.url) && exists i :: 0 <= i < |endpoints| && AttemptSuccess(endpoints[i], x)
  {
    if endpoints != [] {
      hide IsProbe, FunctionalAttemptSources;
      var n := |endpoints| - 1;
      FunctionalSourcesAre(endpoints[..n], x);
      AttemptSourcesAre(endpoints[n].attempts, x);
      assert forall i :: 0 <= i < n ==> endpoints[..n][i] == endpoints[i];
    }
  }

  /** What counts as a success: an endpoint's own record, a successful user-facing attempt, or the completed operation. */
  lemma SourcesAre(event: Event, x: Success)
    ensures x in AllSources(event) <==>
            ((exists i :: 0 <= i < |event.endpoints| && EndpointSuccess(event.endpoints[i], x)) ||
             (event.completed.Some? && SuccessOf(event.completed.value.attempt, x)))
    ensures x in AllFunctionalSources(event) <==>
            (!IsProbe(x.url) &&
             ((exists i :: 0 <= i < |event.endpoints| && AttemptSuccess(event.endpoints[i], x)) ||
              (event.completed.Some? && SuccessOf(event.completed.value.attempt, x))))
  {
    hide IsProbe, EndpointSuccess, AttemptSuccess;
    EndpointSourcesAre(event.endpoints, x);
    FunctionalSourcesAre(event.endpoints, x);
    assert x in CompletedSource(event) <==> event.completed.Some? && SuccessOf(event.completed.value.attempt, x);
  }

  // ---------------------------------------------------------------------------
  // Probe addresses
  // ---------------------------------------------------------------------------

  /** The address without its query and trailing slashes. */
  ghost predicate Stripped(url: string, path: string, slashes: string, query: string) {
    && url == path + slashes + query && (forall c :: c in slashes ==> c == '/')
    && (path == "" || path[|path| - 1] != '/') && '?' !in path && (query == "" || query[0] == '?')
  }

  lemma {:induction false} PathOfIs(url: string) returns (query: string)
    ensures url == PathOf(url) + query && '?' !in PathOf(url) && (query == "" || query[0] == '?')
  {
    if url == [] || url[0] == '?' {
      query := url;
      assert PathOf(url) + query == url;
    } else {
      query := PathOfIs(url[1..]);
      assert url == [url[0]] + url[1..];
    }
  }

  /** A probe address is one that, without query and trailing slashes, ends in the probe's path. */
  lemma ProbeMeans(url: string) returns (path: string, slashes: string, query: string)
    ensures Stripped(url, path, slashes, query)
    ensures var probe := "/api/v1/diagnostics/latency";
            IsProbe(url) <==> |path| >= |probe| && path[|path| - |probe|..] == probe
  {
    query := PathOfIs(url);
    slashes := TrimSlashesIs(PathOf(url));
    path := TrimSlashes(PathOf(url));
    assert forall c :: c in path ==> c in PathOf(url);
  }
}
