/** The host's event list: fetched in `event_date` order, narrowed by a search
    on title or category. */
module HostEvents {
  import opened Base
  import opened Text
  import opened Ledger

  predicate HostEventMatches(e: EventRow, search: string)
  {
    IncludesIgnoringCase(e.title, search)
    || (e.category.Some? && IncludesIgnoringCase(e.category.value, search))
  }

  /** `filteredEvents` of the host's events page. */
  function FilteredEvents(events: seq<EventRow>, search: string): (r: seq<EventRow>)
    ensures IsSubsequence(r, events)
    ensures forall i :: 0 <= i < |r| ==> r[i] in events && HostEventMatches(r[i], search)
    ensures forall i :: 0 <= i < |events| && HostEventMatches(events[i], search) ==> events[i] in r
    ensures forall x: EventRow :: multiset(r)[x] == if HostEventMatches(x, search) then multiset(events)[x] else 0
  {
    FilterIsSubsequence(events, (e: EventRow) => HostEventMatches(e, search));
    FilterMultiplicity(events, (e: EventRow) => HostEventMatches(e, search));
    Filter(events, (e: EventRow) => HostEventMatches(e, search))
  }

  /** An empty search keeps every event. */
  lemma EmptySearchKeepsAll(events: seq<EventRow>)
    ensures FilteredEvents(events, "") == events
  {
    forall i | 0 <= i < |events|
      ensures HostEventMatches(events[i], "")
    {
      EmptyIsContained(ToLower(events[i].title));
    }
    FilterAll(events, (e: EventRow) => HostEventMatches(e, ""));
  }

  /** An event without a category can be found by its title only. */
  lemma UncategorisedMatchesByTitle(e: EventRow, search: string)
    requires e.category.None?
    ensures HostEventMatches(e, search) <==> IncludesIgnoringCase(e.title, search)
  {
  }

  /** Ascending by `event_date`, as the fetch orders them. */
  predicate ByDate(events: seq<EventRow>)
  {
    forall i, j :: 0 <= i < j < |events| ==> events[i].eventDate <= events[j].eventDate
  }

  /** Filtering keeps the fetch order: the search result is still in date order. */
  lemma {:induction false} FilterKeepsDateOrder(events: seq<EventRow>, p: EventRow -> bool)
    requires ByDate(events)
    ensures ByDate(Filter(events, p))
  {
    if events != [] {
      FilterKeepsDateOrder(events[1..], p);
      var rest := Filter(events[1..], p);
      if p(events[0]) {
        forall j | 0 <= j < |rest|
          ensures events[0].eventDate <= rest[j].eventDate
        {
          var k :| 0 <= k < |events[1..]| && events[1..][k] == rest[j];
          assert events[k + 1] == rest[j];
        }
        ConsByDate(events[0], rest);
      }
    }
  }

  /** An event no later than every event of a date-ordered list can go first. */
  lemma ConsByDate(e: EventRow, rest: seq<EventRow>)
    requires ByDate(rest)
    requires forall j :: 0 <= j < |rest| ==> e.eventDate <= rest[j].eventDate
    ensures ByDate([e] + rest)
  {
    var r := [e] + rest;
    forall i, j | 0 <= i < j < |r|
      ensures r[i].eventDate <= r[j].eventDate
    {
      assert r[j] == rest[j - 1];
      if i > 0 {
        assert r[i] == rest[i - 1];
      }
    }
  }

  lemma SearchResultByDate(events: seq<EventRow>, search: string)
    requires ByDate(events)
    ensures ByDate(FilteredEvents(events, search))
  {
    FilterKeepsDateOrder(events, (e: EventRow) => HostEventMatches(e, search));
  }
}
