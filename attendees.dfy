/** The host's attendee list for an event: search, status filter and the
    counters above the table. */
module Attendees {
  import opened Base
  import opened Text
  import opened Ledger

  /** A registration with its embedded `profiles` row, which may be missing. */
  datatype Attendee = Attendee(reg: Registration, profile: Option<Profile>)

  /** `field?.toLowerCase().includes(q)`: a null field never matches. */
  predicate FieldMatches(field: Option<string>, query: string)
  {
    field.Some? && IncludesIgnoringCase(field.value, query)
  }

  predicate SearchMatches(a: Attendee, query: string)
  {
    a.profile.Some? &&
    (FieldMatches(a.profile.value.fullName, query) || FieldMatches(a.profile.value.email, query)
     || FieldMatches(a.profile.value.studentId, query))
  }

  predicate StatusMatches(a: Attendee, statusFilter: string)
  {
    statusFilter == "all" || a.reg.status == statusFilter
  }

  /** `filteredAttendees`. */
  function FilteredAttendees(attendees: seq<Attendee>, query: string, statusFilter: string): (r: seq<Attendee>)
    ensures IsSubsequence(r, attendees)
    ensures forall i :: 0 <= i < |r| ==> r[i] in attendees && SearchMatches(r[i], query) && StatusMatches(r[i], statusFilter)
    ensures forall i :: 0 <= i < |attendees| && SearchMatches(attendees[i], query) && StatusMatches(attendees[i], statusFilter)
              ==> attendees[i] in r
    ensures forall x: Attendee :: multiset(r)[x] == if SearchMatches(x, query) && StatusMatches(x, statusFilter) then multiset(attendees)[x] else 0
  {
    FilterIsSubsequence(attendees, (a: Attendee) => SearchMatches(a, query) && StatusMatches(a, statusFilter));
    FilterMultiplicity(attendees, (a: Attendee) => SearchMatches(a, query) && StatusMatches(a, statusFilter));
    Filter(attendees, (a: Attendee) => SearchMatches(a, query) && StatusMatches(a, statusFilter))
  }

  /** A profile with at least one of name, email and student id present. */
  predicate HasSearchableField(a: Attendee)
  {
    a.profile.Some? &&
    (a.profile.value.fullName.Some? || a.profile.value.email.Some? || a.profile.value.studentId.Some?)
  }

  /** Even the empty query drops attendees without a profile or without any
      searchable field: the list starts out as exactly those that have one. */
  lemma EmptyQueryKeepsSearchable(attendees: seq<Attendee>)
    ensures FilteredAttendees(attendees, "", "all") == Filter(attendees, HasSearchableField)
  {
    forall i | 0 <= i < |attendees| && attendees[i].profile.Some?
      ensures SearchMatches(attendees[i], "") <==> HasSearchableField(attendees[i])
    {
      var p := attendees[i].profile.value;
      if p.fullName.Some? { EmptyIsContained(ToLower(p.fullName.value)); }
      if p.email.Some? { EmptyIsContained(ToLower(p.email.value)); }
      if p.studentId.Some? { EmptyIsContained(ToLower(p.studentId.value)); }
    }
    FilterCongruent(attendees, (a: Attendee) => SearchMatches(a, "") && StatusMatches(a, "all"), HasSearchableField);
  }

  datatype AttendeeStats = AttendeeStats(total: nat, registered: nat, attended: nat, cancelled: nat)

  /** `stats`, over every fetched attendee whatever the search and filter. */
  function Stats(attendees: seq<Attendee>): (s: AttendeeStats)
    ensures s.total == |attendees|
    ensures s.registered == Count(attendees, (a: Attendee) => a.reg.status == Registered)
    ensures s.attended == Count(attendees, (a: Attendee) => a.reg.status == Attended)
    ensures s.cancelled == Count(attendees, (a: Attendee) => a.reg.status == Cancelled)
    ensures s.registered + s.attended + s.cancelled <= s.total
    ensures (forall i :: 0 <= i < |attendees| ==>
               attendees[i].reg.status in {Registered, Attended, Cancelled}) ==>
              s.registered + s.attended + s.cancelled == s.total
  {
    var isRegistered := (a: Attendee) => a.reg.status == Registered;
    var isAttended := (a: Attendee) => a.reg.status == Attended;
    var isCancelled := (a: Attendee) => a.reg.status == Cancelled;
    CountThree(attendees, isRegistered, isAttended, isCancelled);
    AttendeeStats(|attendees|, Count(attendees, isRegistered), Count(attendees, isAttended), Count(attendees, isCancelled))
  }
}
