/** The hosted data store, reduced to the two tables the registration and
    check-in path reads and writes: `registrations` (the ledger) and `events`
    (the catalog with its registration counter), together with the read-only
    `profiles` directory and the row lookups the pages issue against them. */
module Ledger {
  import opened Base

  /** The status values the pages compare against; the column itself is free text. */
  const Registered := "registered"
  const Attended := "attended"
  const Cancelled := "cancelled"

  /** A `registrations` row. `checkedInAt` is the check-in time in milliseconds. */
  datatype Registration = Registration(
    id: string,
    eventId: string,
    userId: string,
    status: string,
    qrCode: string,
    checkedInAt: Option<int>)

  /** A `profiles` row; the text columns may be null. */
  datatype Profile = Profile(
    id: string,
    fullName: Option<string>,
    email: Option<string>,
    college: Option<string>,
    studentId: Option<string>)

  /** An `events` row. `eventDate` is in milliseconds since the epoch. */
  datatype EventRow = EventRow(
    id: string,
    title: string,
    description: Option<string>,
    category: Option<string>,
    status: string,
    currentRegistrations: Option<int>,
    maxCapacity: int,
    eventDate: int)

  /** `event.current_registrations || 0`: a null counter reads as 0. */
  function Current(e: EventRow): (n: int)
    ensures e.currentRegistrations.None? ==> n == 0
    ensures e.currentRegistrations.Some? ==> n == e.currentRegistrations.value
  {
    match e.currentRegistrations
    case None => 0
    case Some(k) => k
  }

  /** `checked_in_at` is set exactly on the attended rows. */
  predicate CheckInConsistent(rows: seq<Registration>)
  {
    forall i :: 0 <= i < |rows| ==> (rows[i].checkedInAt.Some? <==> rows[i].status == Attended)
  }

  /** The effect of `update({status: "attended", checked_in_at}).eq("id", id)` on one row. */
  function Stamp(r: Registration, id: string, at: int): (r': Registration)
    ensures r.id == id ==> r'.status == Attended && r'.checkedInAt == Some(at)
    ensures r.id != id ==> r' == r
    ensures r'.id == r.id && r'.eventId == r.eventId && r'.userId == r.userId && r'.qrCode == r.qrCode
  {
    if r.id == id then r.(status := Attended, checkedInAt := Some(at)) else r
  }

  /** The same update applied to the whole table. */
  function MarkAttended(rows: seq<Registration>, id: string, at: int): (r: seq<Registration>)
    ensures |r| == |rows|
    ensures forall i :: 0 <= i < |rows| ==> r[i] == Stamp(rows[i], id, at)
  {
    if rows == [] then [] else [Stamp(rows[0], id, at)] + MarkAttended(rows[1..], id, at)
  }

  /** The check-in update leaves every row whose id differs untouched, and never
      breaks the `checked_in_at`/`attended` correspondence. */
  lemma MarkAttendedFrame(rows: seq<Registration>, id: string, at: int)
    requires CheckInConsistent(rows)
    ensures CheckInConsistent(MarkAttended(rows, id, at))
    ensures forall i :: 0 <= i < |rows| && rows[i].id != id ==> MarkAttended(rows, id, at)[i] == rows[i]
  {
  }

  /** Updating an already-updated table again with the same values changes nothing. */
  lemma {:induction false} MarkAttendedIdempotent(rows: seq<Registration>, id: string, at: int)
    ensures MarkAttended(MarkAttended(rows, id, at), id, at) == MarkAttended(rows, id, at)
  {
    if rows != [] {
      MarkAttendedIdempotent(rows[1..], id, at);
      assert MarkAttended(rows, id, at)[1..] == MarkAttended(rows[1..], id, at);
    }
  }

  /** A filter on columns the update does not touch commutes with the update. */
  lemma {:induction false} FilterMarkAttended(rows: seq<Registration>, id: string, at: int, p: Registration -> bool)
    requires forall r :: p(Stamp(r, id, at)) == p(r)
    ensures Filter(MarkAttended(rows, id, at), p) == MarkAttended(Filter(rows, p), id, at)
  {
    if rows != [] {
      FilterMarkAttended(rows[1..], id, at, p);
      assert MarkAttended(rows, id, at)[1..] == MarkAttended(rows[1..], id, at);
      if p(rows[0]) {
        assert MarkAttended(Filter(rows, p), id, at)
            == [Stamp(rows[0], id, at)] + MarkAttended(Filter(rows[1..], p), id, at);
      }
    }
  }

  /** `.eq("qr_code", code).eq("event_id", eventId)`. */
  function TicketMatch(code: string, eventId: string): Registration -> bool
  {
    (r: Registration) => r.qrCode == code && r.eventId == eventId
  }

  /** `.eq("event_id", eventId).eq("user_id", userId)`. */
  function ParticipantMatch(eventId: string, userId: string): Registration -> bool
  {
    (r: Registration) => r.eventId == eventId && r.userId == userId
  }

  /** The rows a ticket scan selects. */
  function TicketRows(rows: seq<Registration>, code: string, eventId: string): (r: seq<Registration>)
    ensures forall i :: 0 <= i < |r| ==> r[i] in rows && r[i].qrCode == code && r[i].eventId == eventId
    ensures forall i :: 0 <= i < |rows| && rows[i].qrCode == code && rows[i].eventId == eventId ==> rows[i] in r
    ensures forall x: Registration :: multiset(r)[x] == if x.qrCode == code && x.eventId == eventId then multiset(rows)[x] else 0
  {
    FilterMultiplicity(rows, TicketMatch(code, eventId));
    Filter(rows, TicketMatch(code, eventId))
  }

  /** The rows an identity-card scan selects. */
  function ParticipantRows(rows: seq<Registration>, eventId: string, userId: string): (r: seq<Registration>)
    ensures forall i :: 0 <= i < |r| ==> r[i] in rows && r[i].eventId == eventId && r[i].userId == userId
    ensures forall i :: 0 <= i < |rows| && rows[i].eventId == eventId && rows[i].userId == userId ==> rows[i] in r
    ensures forall x: Registration :: multiset(r)[x] == if x.eventId == eventId && x.userId == userId then multiset(rows)[x] else 0
  {
    FilterMultiplicity(rows, ParticipantMatch(eventId, userId));
    Filter(rows, ParticipantMatch(eventId, userId))
  }

  /** `profiles.select("*").eq("id", userId).single()`. */
  function ProfileOf(directory: seq<Profile>, userId: string): (r: Option<Profile>)
    ensures r.Some? ==> r.value in directory && r.value.id == userId
    ensures r.Some? <==> |Filter(directory, (p: Profile) => p.id == userId)| == 1
  {
    Single(Filter(directory, (p: Profile) => p.id == userId))
  }

  /** `update({current_registrations: value}).eq("id", eventId)`. */
  function WithRegistrationCount(events: seq<EventRow>, eventId: string, value: int): (r: seq<EventRow>)
    ensures |r| == |events|
    ensures forall i :: 0 <= i < |events| ==>
              r[i] == if events[i].id == eventId then events[i].(currentRegistrations := Some(value)) else events[i]
  {
    if events == [] then []
    else [if events[0].id == eventId then events[0].(currentRegistrations := Some(value)) else events[0]]
         + WithRegistrationCount(events[1..], eventId, value)
  }

  /** The two tables, mutated in place by inserts and updates. */
  class Store {
    var registrations: seq<Registration>
    var events: seq<EventRow>

    constructor (registrations: seq<Registration>, events: seq<EventRow>)
      ensures this.registrations == registrations && this.events == events
    {
      this.registrations := registrations;
      this.events := events;
    }

    /** `from("registrations").insert(row)` once the database has filled in its defaults. */
    method Insert(row: Registration)
      modifies this
      ensures registrations == old(registrations) + [row]
      ensures events == old(events)
    {
      registrations := registrations + [row];
    }

    /** `from("registrations").update({status: "attended", checked_in_at: at}).eq("id", id)`. */
    method CheckIn(id: string, at: int)
      modifies this
      ensures registrations == MarkAttended(old(registrations), id, at)
      ensures events == old(events)
    {
      registrations := MarkAttended(registrations, id, at);
    }

    /** `from("events").update({current_registrations: value}).eq("id", eventId)`. */
    method SetRegistrationCount(eventId: string, value: int)
      modifies this
      ensures events == WithRegistrationCount(old(events), eventId, value)
      ensures registrations == old(registrations)
    {
      events := WithRegistrationCount(events, eventId, value);
    }
  }
}
