/**
  The swipe listener (apps/tiny-display-status/src/touch.rs): a running start and last position
  per touch, and a page index advanced once per recognised swipe.
  */
module Touch {
  import opened Wrappers

  const SWIPE_THRESHOLD := 30

  /** `Position` is an absolute x event, `Contact` a touch-button event. */
  datatype Event = Position(x: int) | Contact(value: int) | Other

  predicate EndsTouch(e: Event) {
    e.Contact? && (e.value == 0 || e.value == 1)
  }

  /** The positions reported since the last press or release. */
  function Trail(events: seq<Event>): seq<int> {
    if events == [] then []
    else
      var e, before := events[|events| - 1], events[..|events| - 1];
      if EndsTouch(e) then []
      else if e.Position? then Trail(before) + [e.x]
      else Trail(before)
  }

  /** The swipe a finished trail amounts to: +1, -1 or none. */
  function SwipeOf(trail: seq<int>): int {
    if trail == [] then 0
    else
      var delta := trail[|trail| - 1] - trail[0];
      if delta >= 30 then 1 else if delta <= -30 then -1 else 0
  }

  /** Positive swipes minus negative swipes. */
  function NetSwipes(events: seq<Event>): int {
    if events == [] then 0
    else
      var e, before := events[|events| - 1], events[..|events| - 1];
      NetSwipes(before) + if e == Contact(0) then SwipeOf(Trail(before)) else 0
  }

  /** Some release ended a swipe. */
  predicate Swiped(events: seq<Event>) {
    events != [] &&
    var e, before := events[|events| - 1], events[..|events| - 1];
    Swiped(before) || (e == Contact(0) && SwipeOf(Trail(before)) != 0)
  }

  /** `advance_page` */
  function AdvancePage(page: nat, pages: nat, direction: int): nat
    requires pages > 0
  {
    (page + direction) % pages
  }

  /** A remainder in range is the remainder. */
  lemma RemainderIs(x: int, turns: int, n: int, r: int)
    requires 0 <= r < n && x == turns * n + r
    ensures x % n == r
  {
    var k := turns - x / n;
    assert k >= 1 ==> k * n >= n;
    assert k <= -1 ==> k * n <= -n;
    assert k * n == x % n - r;
  }

  /** Moving a page that is right modulo the page count keeps it right. */
  lemma AdvanceKeeps(target: int, page: nat, pages: nat, direction: int)
    requires pages > 0 && page % pages == target % pages
    ensures AdvancePage(page, pages, direction) == (target + direction) % pages
    ensures AdvancePage(page, pages, direction) % pages == (target + direction) % pages
  {
    var next := AdvancePage(page, pages, direction);
    var turns := target / pages - page / pages + (page + direction) / pages;
    assert page + direction == ((page + direction) / pages) * pages + next;
    assert target - page == (target / pages - page / pages) * pages;
    assert target + direction == turns * pages + next;
    RemainderIs(target + direction, turns, pages, next);
    RemainderIs(next, 0, pages, next);
  }

  /** The event loop of `run_swipe_listener`, over any events read so far. */
  method Listen(events: seq<Event>, initial: nat, pages: nat) returns (page: nat)
    requires pages > 0
    ensures page % pages == (initial + NetSwipes(events)) % pages
    ensures if Swiped(events) then page < pages else page == initial
    ensures Swiped(events) || initial < pages ==> page == (initial + NetSwipes(events)) % pages
  {
    page := initial;
    var start: Option<int>, last: Option<int> := None, None;
    ghost var trail: seq<int>, net, swiped := [], 0, false;
    for i := 0 to |events|
      invariant trail == Trail(events[..i]) && net == NetSwipes(events[..i]) && swiped == Swiped(events[..i])
      invariant start == if trail == [] then None else Some(trail[0])
      invariant last == if trail == [] then None else Some(trail[|trail| - 1])
      invariant page % pages == (initial + net) % pages
      invariant if swiped then page < pages else page == initial
    {
      assert events[..i + 1][..i] == events[..i];
      var e := events[i];
      ghost var swipe := if e == Contact(0) then SwipeOf(trail) else 0;
      AdvanceKeeps(initial + net, page, pages, swipe);
      net, swiped := net + swipe, swiped || swipe != 0;
      trail := if EndsTouch(e) then [] else if e.Position? then trail + [e.x] else trail;
      hide Trail, NetSwipes, Swiped;
      if e.Position? {
        last := Some(e.x);
        if start.None? {
          start := Some(e.x);
        }
      } else if e.Contact? {
        if e.value == 1 {
          start, last := None, None;
        } else if e.value == 0 {
          if start.Some? && last.Some? {
            var delta := last.value - start.value;
            if delta >= SWIPE_THRESHOLD || -delta >= SWIPE_THRESHOLD {
              page := AdvancePage(page, pages, if delta > 0 then 1 else -1);
            }
          }
          start, last := None, None;
        }
      }
    }
    assert events[..|events|] == events;
    if page < pages {
      RemainderIs(page, 0, pages, page);
    }
  }
}
