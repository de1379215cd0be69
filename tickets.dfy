/** The participant's own registrations, each joined with its event: the
    upcoming / past / cancelled tabs of the tickets page, the QR button on a
    ticket, and the counters on the participant dashboard. `now` is the
    current time in milliseconds. */
module Tickets {
  import opened Base
  import opened Ledger

  /** A registration with its embedded `events` row. */
  datatype Booking = Booking(reg: Registration, event: EventRow)

  predicate IsUpcoming(b: Booking, now: int)
  {
    b.event.eventDate > now && b.reg.status != Cancelled
  }

  predicate IsPast(b: Booking, now: int)
  {
    b.event.eventDate <= now || b.reg.status == Attended
  }

  predicate IsCancelled(b: Booking)
  {
    b.reg.status == Cancelled
  }

  function Upcoming(bookings: seq<Booking>, now: int): (r: seq<Booking>)
    ensures IsSubsequence(r, bookings)
    ensures forall i :: 0 <= i < |r| ==> r[i] in bookings && r[i].event.eventDate > now && r[i].reg.status != Cancelled
    ensures forall i :: 0 <= i < |bookings| && IsUpcoming(bookings[i], now) ==> bookings[i] in r
    ensures forall x: Booking :: multiset(r)[x] == if IsUpcoming(x, now) then multiset(bookings)[x] else 0
  {
    FilterIsSubsequence(bookings, (b: Booking) => IsUpcoming(b, now));
    FilterMultiplicity(bookings, (b: Booking) => IsUpcoming(b, now));
    Filter(bookings, (b: Booking) => IsUpcoming(b, now))
  }

  function Past(bookings: seq<Booking>, now: int): (r: seq<Booking>)
    ensures IsSubsequence(r, bookings)
    ensures forall i :: 0 <= i < |r| ==> r[i] in bookings && (r[i].event.eventDate <= now || r[i].reg.status == Attended)
    ensures forall i :: 0 <= i < |bookings| && IsPast(bookings[i], now) ==> bookings[i] in r
    ensures forall x: Booking :: multiset(r)[x] == if IsPast(x, now) then multiset(bookings)[x] else 0
  {
    FilterIsSubsequence(bookings, (b: Booking) => IsPast(b, now));
    FilterMultiplicity(bookings, (b: Booking) => IsPast(b, now));
    Filter(bookings, (b: Booking) => IsPast(b, now))
  }

  function CancelledTab(bookings: seq<Booking>): (r: seq<Booking>)
    ensures IsSubsequence(r, bookings)
    ensures forall i :: 0 <= i < |r| ==> r[i] in bookings && r[i].reg.status == Cancelled
    ensures forall i :: 0 <= i < |bookings| && IsCancelled(bookings[i]) ==> bookings[i] in r
    ensures forall x: Booking :: multiset(r)[x] == if IsCancelled(x) then multiset(bookings)[x] else 0
  {
    FilterIsSubsequence(bookings, IsCancelled);
    FilterMultiplicity(bookings, IsCancelled);
    Filter(bookings, IsCancelled)
  }

  /** The tabs overlap: an attended booking for a future event is both upcoming
      and past, and a past-dated cancelled one is both past and cancelled. */
  lemma TabsOverlap(b: Booking, now: int)
    ensures b.event.eventDate > now && b.reg.status == Attended ==> IsUpcoming(b, now) && IsPast(b, now)
    ensures b.event.eventDate <= now && b.reg.status == Cancelled ==> IsPast(b, now) && IsCancelled(b)
    ensures IsUpcoming(b, now) ==> !IsCancelled(b)
  {
  }

  /** No booking is missing from all three tabs, so together they list at least every booking. */
  lemma {:induction false} TabsCoverEveryBooking(bookings: seq<Booking>, now: int)
    ensures forall i :: 0 <= i < |bookings| ==>
              bookings[i] in Upcoming(bookings, now) || bookings[i] in Past(bookings, now)
              || bookings[i] in CancelledTab(bookings)
    ensures |Upcoming(bookings, now)| + |Past(bookings, now)| + |CancelledTab(bookings)| >= |bookings|
  {
    forall i | 0 <= i < |bookings|
      ensures IsUpcoming(bookings[i], now) || IsPast(bookings[i], now) || IsCancelled(bookings[i])
    {
    }
    if bookings != [] {
      TabsCoverEveryBooking(bookings[1..], now);
    }
  }

  /** `canShowQR && isUpcoming`: the ticket's QR button. */
  predicate ShowsQr(b: Booking, now: int)
    ensures ShowsQr(b, now) ==> IsUpcoming(b, now)
    ensures IsCancelled(b) ==> !ShowsQr(b, now)
    ensures b.event.eventDate <= now ==> !ShowsQr(b, now)
  {
    (b.reg.status == Registered || b.reg.status == Attended) && b.event.eventDate > now
  }

  /** A QR button appears only on bookings of the upcoming tab, never on a cancelled one. */
  lemma QrOnlyOnUpcoming(bookings: seq<Booking>, now: int, i: nat)
    requires i < |bookings| && ShowsQr(bookings[i], now)
    ensures bookings[i] in Upcoming(bookings, now)
    ensures !IsCancelled(bookings[i])
  {
  }

  /** The dashboard's "Total Attended": attended entries of the past list. */
  function TotalAttended(bookings: seq<Booking>, now: int): (n: nat)
    ensures n == Count(bookings, (b: Booking) => b.reg.status == Attended)
  {
    FilterOfFilter(bookings, (b: Booking) => IsPast(b, now), (b: Booking) => b.reg.status == Attended);
    Count(Past(bookings, now), (b: Booking) => b.reg.status == Attended)
  }

  /** The dashboard's "Active Tickets": bookings with status registered. */
  function ActiveTickets(bookings: seq<Booking>): (n: nat)
    ensures n == |Filter(bookings, (b: Booking) => b.reg.status == Registered)|
    ensures n + Count(bookings, (b: Booking) => b.reg.status == Attended) + |CancelledTab(bookings)| <= |bookings|
  {
    CountThree(bookings, (b: Booking) => b.reg.status == Registered,
               (b: Booking) => b.reg.status == Attended, IsCancelled);
    Count(bookings, (b: Booking) => b.reg.status == Registered)
  }
}
