/**
  The folder-sync status store: the list of profile statuses and the service summary
  derived from it (apps/android-app/src/lib.rs, `update_profile_status` and
  `rebuild_service_summary`). Timestamps of the store itself are not modelled.
  */
module ServiceStatus {
  import opened Wrappers
  import opened StableSort
  import opened Text

  type ProfileId = string

  /** The fields of a profile status that the summary or the ordering reads. */
  datatype Entry = Entry(
    profile: ProfileId,
    title: string,
    state: string,
    message: string,
    activity: string,
    lastSuccess: Option<nat>)

  const STARTING := "starting"
  const ERROR := "error"
  const SYNCING := "syncing"
  const RUNNING := "running"
  const STOPPED := "stopped"

  // ---------------------------------------------------------------------------
  // Order of the list: label, then profile id
  // ---------------------------------------------------------------------------

  predicate EntryLeq(a: Entry, b: Entry) {
    if a.title == b.title then TextLeq(a.profile, b.profile) else TextLeq(a.title, b.title)
  }

  lemma EntryLeqIsTotalPreorder()
    ensures TotalPreorder(EntryLeq)
  {
    forall a, b ensures EntryLeq(a, b) || EntryLeq(b, a) {
      TextLeqTotal(a.title, b.title);
      TextLeqTotal(a.profile, b.profile);
    }
    forall a, b, c | EntryLeq(a, b) && EntryLeq(b, c) ensures EntryLeq(a, c) {
      if a.title == b.title && b.title == c.title {
        TextLeqTransitive(a.profile, b.profile, c.profile);
      } else if a.title != b.title && b.title != c.title {
        TextLeqTransitive(a.title, b.title, c.title);
        if a.title == c.title {
          TextLeqTotal(a.title, b.title);
        }
      }
    }
  }

  // ---------------------------------------------------------------------------
  // Updating the list
  // ---------------------------------------------------------------------------

  ghost predicate UniqueIds(list: seq<Entry>) {
    forall i, j :: 0 <= i < j < |list| ==> list[i].profile != list[j].profile
  }

  /** Position of the first entry of a profile, or the length of the list. */
  function IndexOf(list: seq<Entry>, profile: ProfileId): (k: nat)
    ensures k <= |list|
    ensures k < |list| ==> list[k].profile == profile
    ensures forall i :: 0 <= i < k ==> list[i].profile != profile
  {
    if list == [] then 0
    else if list[0].profile == profile then 0
    else 1 + IndexOf(list[1..], profile)
  }

  function Lookup(list: seq<Entry>, profile: ProfileId): Option<Entry> {
    var k := IndexOf(list, profile);
    if k < |list| then Some(list[k]) else None
  }

  /** `update_profile_status`: replace in place, otherwise append and sort the list. */
  function Upsert(list: seq<Entry>, e: Entry): seq<Entry> {
    var k := IndexOf(list, e.profile);
    if k < |list| then list[k := e] else Sort(EntryLeq, list + [e])
  }

  function Remove(list: seq<Entry>, profile: ProfileId): seq<Entry> {
    Filter((e: Entry) => e.profile != profile, list)
  }

  /** In a list with unique ids an entry is found exactly when it is a member. */
  lemma LookupMember(list: seq<Entry>, e: Entry)
    requires UniqueIds(list)
    ensures e in list <==> Lookup(list, e.profile) == Some(e)
  {
    if e in list {
      var i :| 0 <= i < |list| && list[i] == e;
      var k := IndexOf(list, e.profile);
      assert k <= i;
    }
  }

  lemma UniqueIdsIff(list: seq<Entry>)
    ensures UniqueIds(list) <==>
            (forall x, y :: x in list && y in list && x.profile == y.profile ==> x == y) && NoDuplicates(list)
  {
    if !UniqueIds(list) && NoDuplicates(list) {
      var i, j :| 0 <= i < j < |list| && list[i].profile == list[j].profile;
      assert list[i] in list && list[j] in list;
      assert list[i] != list[j];
    }
  }

  lemma SortKeepsUniqueIds(list: seq<Entry>)
    requires UniqueIds(list)
    ensures UniqueIds(Sort(EntryLeq, list))
    ensures forall x :: x in Sort(EntryLeq, list) <==> x in list
  {
    var sorted := Sort(EntryLeq, list);
    SortMultiset(EntryLeq, list);
    InMultiset(sorted, list);
    UniqueIdsIff(list);
    DistinctCounts(list);
    CountsDistinct(sorted);
    UniqueIdsIff(sorted);
  }

  /** An update stores the entry and leaves every other profile as it was. */
  lemma UpsertLookup(list: seq<Entry>, e: Entry)
    requires UniqueIds(list)
    ensures UniqueIds(Upsert(list, e))
    ensures Lookup(Upsert(list, e), e.profile) == Some(e)
    ensures forall q :: q != e.profile ==> Lookup(Upsert(list, e), q) == Lookup(list, q)
    ensures forall x :: x in Upsert(list, e) <==> x == e || (x in list && x.profile != e.profile)
  {
    var k := IndexOf(list, e.profile);
    var updated := Upsert(list, e);
    if k < |list| {
      assert updated[k] == e;
      forall x ensures x in updated <==> x == e || (x in list && x.profile != e.profile) {
        if x in list && x.profile != e.profile {
          var i :| 0 <= i < |list| && list[i] == x;
          assert updated[i] == x;
        }
      }
    } else {
      assert UniqueIds(list + [e]);
      SortKeepsUniqueIds(list + [e]);
    }
    LookupMember(updated, e);
    forall q | q != e.profile ensures Lookup(updated, q) == Lookup(list, q) {
      SameMembersSameLookup(updated, list, q);
    }
  }

  lemma SameMembersSameLookup(a: seq<Entry>, b: seq<Entry>, q: ProfileId)
    requires UniqueIds(a) && UniqueIds(b)
    requires forall x: Entry :: x.profile == q ==> (x in a <==> x in b)
    ensures Lookup(a, q) == Lookup(b, q)
  {
    if Lookup(a, q).Some? {
      LookupMember(a, Lookup(a, q).value);
      LookupMember(b, Lookup(a, q).value);
    }
    if Lookup(b, q).Some? {
      LookupMember(a, Lookup(b, q).value);
      LookupMember(b, Lookup(b, q).value);
    }
  }

  lemma {:induction false} RemoveUnique(list: seq<Entry>, profile: ProfileId)
    requires UniqueIds(list)
    ensures UniqueIds(Remove(list, profile))
  {
    if list != [] {
      RemoveUnique(list[1..], profile);
      if list[0].profile != profile {
        var rest := Remove(list[1..], profile);
        forall j | 0 <= j < |rest| ensures rest[j].profile != list[0].profile {
          assert rest[j] in list[1..];
        }
      }
    }
  }

  /** Removing a profile leaves every other profile as it was. */
  lemma RemoveLookup(list: seq<Entry>, profile: ProfileId)
    requires UniqueIds(list)
    ensures UniqueIds(Remove(list, profile))
    ensures Lookup(Remove(list, profile), profile) == None
    ensures forall q :: q != profile ==> Lookup(Remove(list, profile), q) == Lookup(list, q)
  {
    var removed := Remove(list, profile);
    RemoveUnique(list, profile);
    assert forall i :: 0 <= i < |removed| ==> removed[i] in removed;
    forall q | q != profile ensures Lookup(removed, q) == Lookup(list, q) {
      SameMembersSameLookup(removed, list, q);
    }
  }

  // ---------------------------------------------------------------------------
  // Ordering of the list
  // ---------------------------------------------------------------------------

  ghost predicate SortedList(list: seq<Entry>) {
    Ordered(EntryLeq, list)
  }

  /** The place an in-place replacement has to fit into. */
  predicate FitsAt(list: seq<Entry>, k: nat, e: Entry)
    requires k < |list|
  {
    && (k == 0 || EntryLeq(list[k - 1], e))
    && (k + 1 == |list| || EntryLeq(e, list[k + 1]))
  }

  lemma EntryLeqTransitive(a: Entry, b: Entry, c: Entry)
    requires EntryLeq(a, b) && EntryLeq(b, c)
    ensures EntryLeq(a, c)
  {
    EntryLeqIsTotalPreorder();
  }

  lemma ReplacementSorted(list: seq<Entry>, k: nat, e: Entry)
    requires SortedList(list) && k < |list| && FitsAt(list, k, e)
    ensures SortedList(list[k := e])
  {
    hide EntryLeq;
    forall i | 0 <= i < k ensures EntryLeq(list[i], e) {
      if i < k - 1 {
        EntryLeqTransitive(list[i], list[k - 1], e);
      }
    }
    forall j | k < j < |list| ensures EntryLeq(e, list[j]) {
      if k + 1 < j {
        EntryLeqTransitive(e, list[k + 1], list[j]);
      }
    }
  }

  /**
    An update of a sorted list leaves it sorted exactly when the profile is new or the
    replacement fits between the neighbours of the entry it replaces.
    */
  lemma UpsertSortedIff(list: seq<Entry>, e: Entry)
    requires SortedList(list)
    ensures SortedList(Upsert(list, e)) <==>
            var k := IndexOf(list, e.profile); k == |list| || FitsAt(list, k, e)
  {
    hide EntryLeq, IndexOf;
    var k := IndexOf(list, e.profile);
    if k == |list| {
      EntryLeqIsTotalPreorder();
      SortOrdered(EntryLeq, list + [e]);
    } else {
      var updated := list[k := e];
      if FitsAt(list, k, e) {
        ReplacementSorted(list, k, e);
      } else if k > 0 && !EntryLeq(list[k - 1], e) {
        assert !EntryLeq(updated[k - 1], updated[k]);
      } else {
        assert !EntryLeq(updated[k], updated[k + 1]);
      }
    }
  }

  /** A renamed profile is replaced in place and leaves the list out of order. */
  lemma RenamingUnsorts()
    ensures exists list, e :: SortedList(list) && UniqueIds(list) && !SortedList(Upsert(list, e))
  {
    var a := Entry("1", "a", RUNNING, "", "", None);
    var b := Entry("2", "b", RUNNING, "", "", None);
    var renamed := Entry("1", "c", RUNNING, "", "", None);
    var list := [a, b];
    assert TextLeq("a", "b") && !TextLeq("c", "b");
    assert SortedList(list) && UniqueIds(list);
    var k := IndexOf(list, "1");
    assert list[0].profile == "1" && k == 0;
    assert !FitsAt(list, k, renamed);
    UpsertSortedIff(list, renamed);
  }

  /** A replacement that keeps its label always fits. */
  lemma SameLabelFits(list: seq<Entry>, e: Entry)
    requires SortedList(list)
    requires IndexOf(list, e.profile) < |list| ==> list[IndexOf(list, e.profile)].title == e.title
    ensures SortedList(Upsert(list, e))
  {
    UpsertSortedIff(list, e);
    var k := IndexOf(list, e.profile);
    if k < |list| {
      assert k > 0 ==> EntryLeq(list[k - 1], list[k]);
      assert k + 1 < |list| ==> EntryLeq(list[k], list[k + 1]);
    }
  }

  lemma {:induction false} RemoveSorted(list: seq<Entry>, profile: ProfileId)
    requires SortedList(list)
    ensures SortedList(Remove(list, profile))
  {
    if list != [] {
      RemoveSorted(list[1..], profile);
      var rest := Remove(list[1..], profile);
      forall j | 0 <= j < |rest| ensures EntryLeq(list[0], rest[j]) {
        assert rest[j] in list[1..];
      }
    }
  }

  // ---------------------------------------------------------------------------
  // The service summary
  // ---------------------------------------------------------------------------

  /** The service message with its numbers; the English rendering is not modelled. */
  datatype Message =
    | NothingActive
    | WithErrors(active: nat, failing: nat)
    | SyncingSome(syncing: nat, active: nat)
    | StartingSome(starting: nat, watching: nat)
    | WatchingAll(watching: nat)

  datatype Summary = Summary(
    profileCount: nat,
    activeCount: nat,
    syncingCount: nat,
    errorCount: nat,
    startingCount: nat,
    runningCount: nat,
    lastSuccess: Option<nat>,
    currentActivity: Option<(string, string)>,  // label and detail of the primary profile
    activeSummary: seq<(string, string)>,       // label and state of the first three
    more: nat,                                  // how many further active profiles
    serviceState: string,
    serviceMessage: Message)

  /** `char::is_whitespace`. */
  predicate IsWhitespace(c: char) {
    || '\U{9}' <= c <= '\U{D}' || c == ' ' || c == '\U{85}' || c == '\U{A0}' || c == '\U{1680}'
    || '\U{2000}' <= c <= '\U{200A}' || c == '\U{2028}' || c == '\U{2029}' || c == '\U{202F}'
    || c == '\U{205F}' || c == '\U{3000}'
  }

  predicate IsBlank(text: string) {
    forall c :: c in text ==> IsWhitespace(c)
  }

  function Active(list: seq<Entry>): seq<Entry> {
    Filter((e: Entry) => e.state != STOPPED, list)
  }

  function CountState(list: seq<Entry>, state: string): nat {
    |Filter((e: Entry) => e.state == state, list)|
  }

  function Rank(e: Entry): nat {
    if e.state == ERROR then 0
    else if e.state == SYNCING then 1
    else if e.state == STARTING then 2
    else if e.state == RUNNING then 3
    else 4
  }

  /** The first entry of minimal rank (`Iterator::min_by_key`). */
  function Primary(list: seq<Entry>): (k: nat)
    requires list != []
    ensures k < |list|
    ensures forall i :: 0 <= i < k ==> Rank(list[k]) < Rank(list[i])
    ensures forall i :: k <= i < |list| ==> Rank(list[k]) <= Rank(list[i])
  {
    if |list| == 1 then 0
    else
      var j := Primary(list[1..]);
      assert forall i :: 1 <= i < |list| ==> list[i] == list[1..][i - 1];
      if Rank(list[0]) <= Rank(list[1..][j]) then 0 else j + 1
  }

  function Detail(e: Entry): string {
    if !IsBlank(e.message) then e.message
    else if !IsBlank(e.activity) then e.activity
    else e.state
  }

  function LatestSuccess(list: seq<Entry>): (r: Option<nat>)
    ensures r == None <==> forall e :: e in list ==> e.lastSuccess == None
    ensures r.Some? ==> exists e :: e in list && e.lastSuccess == r
    ensures r.Some? ==> forall e :: e in list && e.lastSuccess.Some? ==> e.lastSuccess.value <= r.value
  {
    if list == [] then None
    else
      var rest := LatestSuccess(list[1..]);
      assert list == [list[0]] + list[1..];
      if list[0].lastSuccess == None then
        assert rest.Some? ==> exists e :: e in list[1..] && e in list && e.lastSuccess == rest;
        rest
      else if rest == None || rest.value <= list[0].lastSuccess.value then
        assert list[0] in list;
        list[0].lastSuccess
      else
        assert exists e :: e in list[1..] && e in list && e.lastSuccess == rest;
        rest
  }

  function Pairs(list: seq<Entry>): seq<(string, string)> {
    seq(|list|, i requires 0 <= i < |list| => (list[i].title, list[i].state))
  }

  /** `rebuild_service_summary`. */
  function Summarise(list: seq<Entry>): Summary {
    var active := Active(list);
    var syncing := CountState(active, SYNCING);
    var failing := CountState(active, ERROR);
    var starting := CountState(active, STARTING);
    var watching := CountState(active, RUNNING);
    Summary(
      |list|, |active|, syncing, failing, starting, watching,
      LatestSuccess(active),
      if active == [] then None
      else var primary := active[Primary(active)]; Some((primary.title, Detail(primary))),
      Pairs(if |active| > 3 then active[..3] else active),
      if |active| > 3 then |active| - 3 else 0,
      if active == [] then STOPPED
      else if failing > 0 then ERROR
      else if syncing > 0 then SYNCING
      else RUNNING,
      if active == [] then NothingActive
      else if failing > 0 then WithErrors(|active|, failing)
      else if syncing > 0 then SyncingSome(syncing, |active|)
      else if starting > 0 then StartingSome(starting, watching)
      else WatchingAll(watching))
  }

  lemma CountPositive(list: seq<Entry>, state: string)
    ensures CountState(list, state) > 0 <==> exists e :: e in list && e.state == state
  {
    var matching := Filter((e: Entry) => e.state == state, list);
    if e :| e in list && e.state == state {
      assert e in matching;
    }
    if matching != [] {
      assert matching[0] in matching;
    }
  }

  /** The service state is the worst state any profile reports. */
  lemma ServiceStateMeaning(list: seq<Entry>)
    ensures Summarise(list).serviceState == STOPPED <==> forall e :: e in list ==> e.state == STOPPED
    ensures Summarise(list).serviceState == ERROR <==> exists e :: e in list && e.state == ERROR
    ensures Summarise(list).serviceState == SYNCING <==>
            (exists e :: e in list && e.state == SYNCING) && !exists e :: e in list && e.state == ERROR
  {
    var active := Active(list);
    CountPositive(active, ERROR);
    CountPositive(active, SYNCING);
    assert active != [] ==> active[0] in active;
    assert forall e :: e in active <==> e in list && e.state != STOPPED;
  }

  /** The profiles in a given state. */
  function InState(list: seq<Entry>, state: string): set<int> {
    set i | 0 <= i < |list| && list[i].state == state
  }

  /** The text has something besides whitespace. */
  predicate HasText(text: string) {
    exists i :: 0 <= i < |text| && !IsWhitespace(text[i])
  }

  /** How pressing a state is: errors first, then syncing, starting and running, then any other. */
  const URGENCY := ["error", "syncing", "starting", "running"]

  ghost predicate MoreUrgent(a: string, b: string) {
    exists i :: 0 <= i < |URGENCY| && URGENCY[i] == a && forall j :: 0 <= j <= i ==> URGENCY[j] != b
  }

  lemma RankIsUrgency(a: Entry, b: Entry)
    ensures Rank(a) < Rank(b) <==> MoreUrgent(a.state, b.state)
  {
    assert URGENCY[0] == ERROR && URGENCY[1] == SYNCING && URGENCY[2] == STARTING && URGENCY[3] == RUNNING;
    if Rank(a) < Rank(b) {
      assert URGENCY[Rank(a)] == a.state;
    }
  }

  lemma CountIsNumber(list: seq<Entry>, state: string)
    requires state != STOPPED
    ensures CountState(Active(list), state) == |InState(list, state)|
  {
    var active := (e: Entry) => e.state != STOPPED;
    var matches := (e: Entry) => e.state == state;
    FilterFilter(active, matches, list);
    FilterSize(matches, list);
    assert Positions(matches, list) == InState(list, state);
  }

  /** The counts: profiles in each state, over the whole list. */
  lemma CountsMean(list: seq<Entry>)
    ensures var s := Summarise(list);
            && s.profileCount == |list|
            && s.activeCount == |set i | 0 <= i < |list| && list[i].state != "stopped"|
            && s.syncingCount == |InState(list, "syncing")| && s.errorCount == |InState(list, "error")|
            && s.startingCount == |InState(list, "starting")| && s.runningCount == |InState(list, "running")|
  {
    var active := (e: Entry) => e.state != STOPPED;
    FilterSize(active, list);
    assert Positions(active, list) == set i | 0 <= i < |list| && list[i].state != "stopped";
    CountIsNumber(list, "syncing");
    CountIsNumber(list, "error");
    CountIsNumber(list, "starting");
    CountIsNumber(list, "running");
  }

  /** The message: which of the five it is, and the counts it carries. */
  lemma MessageMeans(list: seq<Entry>)
    ensures var (s, m) := (Summarise(list), Summarise(list).serviceMessage);
            if s.activeCount == 0 then m == NothingActive
            else if s.errorCount > 0 then m == WithErrors(s.activeCount, s.errorCount)
            else if s.syncingCount > 0 then m == SyncingSome(s.syncingCount, s.activeCount)
            else if s.startingCount > 0 then m == StartingSome(s.startingCount, s.runningCount)
            else m == WatchingAll(s.runningCount)
  {
    hide Filter;
  }

  /** The profiles listed: the first three that are not stopped, in order, and how many more there are. */
  lemma ListedMean(list: seq<Entry>) returns (active: seq<int>)
    ensures forall k, l :: 0 <= k < l < |active| ==> active[k] < active[l]
    ensures forall i :: i in active <==> 0 <= i < |list| && list[i].state != "stopped"
    ensures ListsFirst(list, active, Summarise(list).activeSummary, Summarise(list).more)
  {
    active := FilterPositions((e: Entry) => e.state != STOPPED, list);
    hide Filter;
    assert |Active(list)| == |active|;
  }

  /** The first three of the given positions, by label and state, and the number of the others. */
  predicate ListsFirst(list: seq<Entry>, active: seq<int>, listed: seq<(string, string)>, more: nat) {
    && |listed| == (if |active| <= 3 then |active| else 3) && more == |active| - |listed|
    && forall k :: 0 <= k < |listed| ==> 0 <= active[k] < |list| && listed[k] == (list[active[k]].title, list[active[k]].state)
  }

  /** The latest success of any profile that is not stopped. */
  lemma LastSuccessMeans(list: seq<Entry>)
    ensures var last := Summarise(list).lastSuccess;
            && (last.None? <==> forall i :: 0 <= i < |list| && list[i].state != "stopped" ==> list[i].lastSuccess.None?)
            && (last.Some? ==>
                  && (exists i :: 0 <= i < |list| && list[i].state != "stopped" && list[i].lastSuccess == last)
                  && (forall i :: 0 <= i < |list| && list[i].state != "stopped" && list[i].lastSuccess.Some? ==>
                        list[i].lastSuccess.value <= last.value))
  {
    var active := Active(list);
    assert forall e :: e in active <==> e in list && e.state != STOPPED;
    assert forall i :: 0 <= i < |list| ==> list[i] in list;
    if LatestSuccess(active).Some? {
      var e :| e in active && e.lastSuccess == LatestSuccess(active);
      var i :| 0 <= i < |list| && list[i] == e;
    }
  }

  /** The profile in focus: the first of the most urgent that are not stopped, with its most telling text. */
  lemma ActivityMeans(list: seq<Entry>)
    ensures var current := Summarise(list).currentActivity;
            && (current.None? <==> forall i :: 0 <= i < |list| ==> list[i].state == "stopped")
            && (current.Some? ==> exists k :: InFocus(list, k) && current.value == (list[k].title, Telling(list[k])))
  {
    hide Filter, Rank, Detail;
    var positions := FilterPositions((e: Entry) => e.state != STOPPED, list);
    var active := Active(list);
    assert |active| == |positions|;
    if active != [] {
      var p := Primary(active);
      var k := positions[p];
      forall i | 0 <= i < |list| && list[i].state != "stopped"
        ensures (i < k ==> MoreUrgent(list[k].state, list[i].state)) && !MoreUrgent(list[i].state, list[k].state)
      {
        assert i in positions;
        var q :| 0 <= q < |positions| && positions[q] == i;
        RankIsUrgency(list[k], list[i]);
        RankIsUrgency(list[i], list[k]);
      }
      assert InFocus(list, k);
      DetailIsTelling(list[k]);
    } else {
      assert forall i :: 0 <= i < |list| && list[i].state != "stopped" ==> i in positions;
    }
  }

  ghost predicate InFocus(list: seq<Entry>, k: int) {
    && 0 <= k < |list| && list[k].state != "stopped"
    && (forall i :: 0 <= i < k && list[i].state != "stopped" ==> MoreUrgent(list[k].state, list[i].state))
    && (forall i :: k < i < |list| && list[i].state != "stopped" ==> !MoreUrgent(list[i].state, list[k].state))
  }

  ghost function Telling(e: Entry): string {
    if HasText(e.message) then e.message else if HasText(e.activity) then e.activity else e.state
  }

  lemma DetailIsTelling(e: Entry)
    ensures Detail(e) == Telling(e)
  {
    forall text ensures IsBlank(text) <==> !HasText(text) {
      assert IsBlank(text) ==> forall i :: 0 <= i < |text| ==> text[i] in text;
    }
  }

  /** An empty list has the summary the store is created with and reset to. */
  const IDLE := Summary(0, 0, 0, 0, 0, 0, None, None, [], 0, STOPPED, NothingActive)

  lemma EmptySummary()
    ensures Summarise([]) == IDLE
  {
    assert Active([]) == [];
    assert Pairs([]) == [];
  }

  datatype Store = Store(profiles: seq<Entry>, summary: Summary)

  /** The shared status record, updated in place under its mutex. */
  class StatusStore {
    var profiles: seq<Entry>
    var summary: Summary

    ghost function View(): Store
      reads this
    {
      Store(profiles, summary)
    }

    /** The summary is that of the present list. */
    ghost predicate Current()
      reads this
    {
      summary == Summarise(profiles)
    }

    constructor ()
      ensures View() == Store([], IDLE) && Current()
    {
      profiles, summary := [], IDLE;
      new;
      EmptySummary();
    }

    /** `update_profile_status` */
    method UpdateProfileStatus(e: Entry)
      modifies this
      ensures View() == old(View()).(profiles := Upsert(old(profiles), e))
      ensures old(UniqueIds(profiles)) ==> UniqueIds(profiles)
    {
      if UniqueIds(profiles) {
        UpsertLookup(profiles, e);
      }
      var k := 0;
      while k < |profiles| && profiles[k].profile != e.profile
        invariant 0 <= k <= |profiles|
        invariant forall i :: 0 <= i < k ==> profiles[i].profile != e.profile
        invariant profiles == old(profiles) && summary == old(summary)
      {
        k := k + 1;
      }
      if k < |profiles| {
        profiles := profiles[k := e];
      } else {
        profiles := Sort(EntryLeq, profiles + [e]);
      }
    }

    /** The removal inside `stop_profile`. */
    method RemoveProfile(profile: ProfileId)
      modifies this
      ensures View() == old(View()).(profiles := Remove(old(profiles), profile))
      ensures old(UniqueIds(profiles)) ==> UniqueIds(profiles)
    {
      if UniqueIds(profiles) {
        RemoveLookup(profiles, profile);
      }
      profiles := Remove(profiles, profile);
    }

    /** The reset at the end of `stop_all`. */
    method Reset()
      modifies this
      ensures View() == Store([], IDLE) && Current()
      ensures forall p :: Lookup(profiles, p) == None
    {
      profiles, summary := [], IDLE;
      EmptySummary();
    }

    /** `refresh_service_summary` */
    method Refresh()
      modifies this
      ensures Current() && profiles == old(profiles)
      ensures old(Current()) ==> View() == old(View())
    {
      summary := Summarise(profiles);
    }
  }
}
