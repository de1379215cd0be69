/** Registration issuing: the participant's events page (ticket code, insert,
    counter write, the list of events already registered for, the offer shown
    on each card and the search) and the dashboard's one-click registration. */
module Issuing {
  import opened Base
  import opened Text
  import opened Ledger
  import opened TokenCodec
  import opened Scanner

  /** `REG-${event.id.slice(0, 8)}-${user.id.slice(0, 8)}-` before the timestamp. */
  function TicketHead(eventId: string, userId: string): string
  {
    "REG-" + Prefix(eventId, 8) + "-" + Prefix(userId, 8) + "-"
  }

  /** The events page's ticket code; `nowMs` is `Date.now()`. The timestamp
      can be read back from the code's tail. */
  function EventsTicketCode(eventId: string, userId: string, nowMs: nat): (code: string)
    ensures StartsWith(code, TicketHead(eventId, userId))
    ensures IsDigits(code[|TicketHead(eventId, userId)|..])
    ensures ParseDigits(code[|TicketHead(eventId, userId)|..]) == nowMs
  {
    var head := TicketHead(eventId, userId);
    NatToStringRoundTrip(nowMs);
    assert (head + NatToString(nowMs))[..|head|] == head;
    assert (head + NatToString(nowMs))[|head|..] == NatToString(nowMs);
    head + NatToString(nowMs)
  }

  /** Codes issued to the same participant for the same event at different
      milliseconds differ. */
  lemma EventsTicketCodesDiffer(eventId: string, userId: string, t1: nat, t2: nat)
    requires t1 != t2
    ensures EventsTicketCode(eventId, userId, t1) != EventsTicketCode(eventId, userId, t2)
  {
  }

  /** The row the events page inserts; `id` is the identifier the database assigns. */
  function NewTicket(event: EventRow, userId: string, id: string, nowMs: nat): (r: Registration)
    ensures r.status == Registered && r.checkedInAt.None?
    ensures r.eventId == event.id && r.userId == userId && r.id == id
    ensures r.qrCode == EventsTicketCode(event.id, userId, nowMs)
  {
    Registration(id, event.id, userId, Registered, EventsTicketCode(event.id, userId, nowMs), None)
  }

  /** Inserting a fresh ticket keeps `checked_in_at` and `attended` in step. */
  lemma NewTicketKeepsConsistency(rows: seq<Registration>, event: EventRow, userId: string, id: string, nowMs: nat)
    requires CheckInConsistent(rows)
    ensures CheckInConsistent(rows + [NewTicket(event, userId, id, nowMs)])
  {
  }

  /** A registration that holds a seat for the user: theirs and not cancelled. */
  predicate HoldsSeat(r: Registration, userId: string)
  {
    r.userId == userId && r.status != Cancelled
  }

  /** The `registeredEvents` list fetched for the user: the event ids of their
      registrations that are not cancelled, in ledger order. */
  function RegisteredEventIds(regs: seq<Registration>, userId: string): (r: seq<string>)
    ensures |r| <= |regs|
    ensures forall i :: 0 <= i < |regs| && HoldsSeat(regs[i], userId) ==> regs[i].eventId in r
  {
    if regs == [] then []
    else (if HoldsSeat(regs[0], userId) then [regs[0].eventId] else []) + RegisteredEventIds(regs[1..], userId)
  }

  /** An event id is on the list exactly when one of the user's seat-holding
      registrations is for that event. */
  lemma {:induction false} RegisteredEventIdsIff(regs: seq<Registration>, userId: string, eventId: string)
    ensures eventId in RegisteredEventIds(regs, userId) <==>
              exists i :: 0 <= i < |regs| && HoldsSeat(regs[i], userId) && regs[i].eventId == eventId
  {
    if regs != [] {
      RegisteredEventIdsIff(regs[1..], userId, eventId);
      if eventId in RegisteredEventIds(regs[1..], userId) {
        var i :| 0 <= i < |regs[1..]| && HoldsSeat(regs[1..][i], userId) && regs[1..][i].eventId == eventId;
        assert regs[i + 1] == regs[1..][i];
      }
      if exists i :: 0 <= i < |regs| && HoldsSeat(regs[i], userId) && regs[i].eventId == eventId {
        var i :| 0 <= i < |regs| && HoldsSeat(regs[i], userId) && regs[i].eventId == eventId;
        if i > 0 {
          assert regs[1..][i - 1] == regs[i];
        }
      }
    }
  }

  /** A new row extends the fetched list by its event id exactly when it holds a seat. */
  lemma {:induction false} RegisteredEventIdsAppend(regs: seq<Registration>, row: Registration, userId: string)
    ensures RegisteredEventIds(regs + [row], userId)
         == RegisteredEventIds(regs, userId) + (if HoldsSeat(row, userId) then [row.eventId] else [])
  {
    if regs != [] {
      assert (regs + [row])[1..] == regs[1..] + [row];
      RegisteredEventIdsAppend(regs[1..], row, userId);
    }
  }

  /** Appending `event.id` on the client after a successful insert gives the
      list a refetch would give. */
  lemma ClientListMatchesRefetch(regs: seq<Registration>, event: EventRow, userId: string, id: string, nowMs: nat)
    ensures RegisteredEventIds(regs + [NewTicket(event, userId, id, nowMs)], userId)
         == RegisteredEventIds(regs, userId) + [event.id]
  {
    RegisteredEventIdsAppend(regs, NewTicket(event, userId, id, nowMs), userId);
  }

  /** `current_registrations >= max_capacity`, a null counter comparing as 0. */
  predicate IsFull(e: EventRow)
    ensures e.currentRegistrations.None? ==> (IsFull(e) <==> e.maxCapacity <= 0)
    ensures e.currentRegistrations.Some? ==> (IsFull(e) <==> e.currentRegistrations.value >= e.maxCapacity)
  {
    Current(e) >= e.maxCapacity
  }

  /** The button an event card shows. */
  datatype Offer = AlreadyRegistered | EventFull | RegisterNow

  function OfferFor(e: EventRow, registeredEvents: seq<string>): (o: Offer)
    ensures o == AlreadyRegistered <==> e.id in registeredEvents
    ensures o == EventFull <==> e.id !in registeredEvents && IsFull(e)
    ensures o == RegisterNow <==> e.id !in registeredEvents && Current(e) < e.maxCapacity
  {
    if e.id in registeredEvents then AlreadyRegistered
    else if IsFull(e) then EventFull
    else RegisterNow
  }

  /** Cancelling every registration for an event brings its "Register Now"
      button back, as long as the event is not full. */
  lemma CancelledReopensOffer(regs: seq<Registration>, userId: string, e: EventRow)
    requires forall i :: 0 <= i < |regs| && regs[i].userId == userId && regs[i].eventId == e.id ==>
               regs[i].status == Cancelled
    requires !IsFull(e)
    ensures OfferFor(e, RegisteredEventIds(regs, userId)) == RegisterNow
  {
  }

  /** The events page's search: title or description contains the query,
      ignoring case, and the category is "all" or equal. */
  predicate EventMatches(e: EventRow, search: string, category: string)
  {
    && (IncludesIgnoringCase(e.title, search)
        || (e.description.Some? && IncludesIgnoringCase(e.description.value, search)))
    && (category == "all" || e.category == Some(category))
  }

  function FilteredEvents(events: seq<EventRow>, search: string, category: string): (r: seq<EventRow>)
    ensures IsSubsequence(r, events)
    ensures forall i :: 0 <= i < |r| ==> EventMatches(r[i], search, category)
    ensures forall i :: 0 <= i < |events| && EventMatches(events[i], search, category) ==> events[i] in r
    ensures forall x: EventRow :: multiset(r)[x] == if EventMatches(x, search, category) then multiset(events)[x] else 0
  {
    FilterIsSubsequence(events, (e: EventRow) => EventMatches(e, search, category));
    FilterMultiplicity(events, (e: EventRow) => EventMatches(e, search, category));
    Filter(events, (e: EventRow) => EventMatches(e, search, category))
  }

  /** An empty search with category "all" lists every event. */
  lemma EmptySearchListsAll(events: seq<EventRow>)
    ensures FilteredEvents(events, "", "all") == events
  {
    forall i | 0 <= i < |events|
      ensures EventMatches(events[i], "", "all")
    {
      EmptyIsContained(ToLower(events[i].title));
    }
    FilterAll(events, (e: EventRow) => EventMatches(e, "", "all"));
  }

  /** The participant's events page. */
  class EventsPage {
    var registeredEvents: seq<string>
    var selectedEvent: Option<EventRow>
    var registering: bool

    constructor (registeredEvents: seq<string>)
      ensures this.registeredEvents == registeredEvents && selectedEvent == None && !registering
    {
      this.registeredEvents := registeredEvents;
      selectedEvent := None;
      registering := false;
    }

    /** `handleRegister(event)`: `user` is the signed-in user's id, `id` the
        id the database gives the new row, `nowMs` the clock and `insertOk`
        whether the insert reported no error. There is no capacity or
        duplicate check, and the counter is written from the client's copy. */
    method HandleRegister(store: Store, event: EventRow, user: Option<string>, id: string, nowMs: nat, insertOk: bool)
      modifies this, store
      ensures !registering
      ensures user.None? || !insertOk ==>
                && store.registrations == old(store.registrations) && store.events == old(store.events)
                && registeredEvents == old(registeredEvents) && selectedEvent == old(selectedEvent)
      ensures user.Some? && insertOk ==>
                && store.registrations == old(store.registrations) + [NewTicket(event, user.value, id, nowMs)]
                && store.events == WithRegistrationCount(old(store.events), event.id, Current(event) + 1)
                && registeredEvents == old(registeredEvents) + [event.id]
                && selectedEvent == None
    {
      registering := true;
      if user.None? {
        registering := false;
        return;
      }
      var qrCode := EventsTicketCode(event.id, user.value, nowMs);
      if insertOk {
        store.Insert(Registration(id, event.id, user.value, Registered, qrCode, None));
        store.SetRegistrationCount(event.id, Current(event) + 1);
        registeredEvents := registeredEvents + [event.id];
        selectedEvent := None;
      }
      registering := false;
    }
  }

  /** The dashboard's ticket code: no clock, so it repeats for a repeated registration. */
  function DashboardTicketCode(eventId: string, userId: string): (code: string)
    ensures StartsWith(code, "QR-" + eventId + "-")
    ensures code[|eventId| + 4..] == Prefix(userId, 5)
  {
    var head := "QR-" + eventId + "-";
    assert (head + Prefix(userId, 5))[..|head|] == head;
    head + Prefix(userId, 5)
  }

  /** The row the dashboard inserts: `status` is whatever the database fills in by default. */
  function DashboardTicket(eventId: string, userId: string, id: string, defaultStatus: string): (r: Registration)
    ensures r.eventId == eventId && r.userId == userId && r.id == id && r.status == defaultStatus
    ensures r.qrCode == DashboardTicketCode(eventId, userId) && r.checkedInAt.None?
  {
    Registration(id, eventId, userId, defaultStatus, DashboardTicketCode(eventId, userId), None)
  }

  /** The dashboard's `handleRegister(eventId)`; `insertError` is the insert's
      error message, if any. It returns the text of the alert. */
  method DashboardRegister(store: Store, eventId: string, user: Option<string>, id: string,
                           defaultStatus: string, insertError: Option<string>) returns (alert: string)
    modifies store
    ensures store.events == old(store.events)
    ensures user.None? ==> alert == "Please login first" && store.registrations == old(store.registrations)
    ensures user.Some? && insertError.Some? ==>
              alert == "Registration failed: " + insertError.value && store.registrations == old(store.registrations)
    ensures user.Some? && insertError.None? ==>
              && alert == "Successfully registered!"
              && store.registrations == old(store.registrations) + [DashboardTicket(eventId, user.value, id, defaultStatus)]
  {
    if user.None? {
      return "Please login first";
    }
    if insertError.Some? {
      return "Registration failed: " + insertError.value;
    }
    store.Insert(DashboardTicket(eventId, user.value, id, defaultStatus));
    alert := "Successfully registered!";
  }

  /** Registering twice from the dashboard stores two rows with one code, so a
      scan of that ticket at its event finds no unique row. */
  lemma RepeatedDashboardTicketNotFound(rows: seq<Registration>, eventId: string, userId: string,
                                        id1: string, id2: string, defaultStatus: string, directory: seq<Profile>)
    ensures var after := rows + [DashboardTicket(eventId, userId, id1, defaultStatus),
                                 DashboardTicket(eventId, userId, id2, defaultStatus)];
            Resolve(Ticket(DashboardTicketCode(eventId, userId)), eventId, after, directory) ==
              Reply(Failure(MsgTicketNotFound))
  {
    var after := rows + [DashboardTicket(eventId, userId, id1, defaultStatus),
                         DashboardTicket(eventId, userId, id2, defaultStatus)];
    FilterTwo(after, TicketMatch(DashboardTicketCode(eventId, userId), eventId), |rows|, |rows| + 1);
  }
}
