/** The host's check-in scanner: a scanned or typed string becomes a check-in
    result and at most one write to the ledger. The decision is a pure function
    (`Decide`); the page object applies it. */
module Scanner {
  import opened Base
  import opened Text
  import opened Ledger
  import opened TokenCodec

  datatype CheckInResult = CheckInResult(
    success: bool,
    message: string,
    participant: Option<Profile>,
    registration: Option<Registration>)

  /** An entry of the session's "recent check-ins" feed. */
  datatype RecentCheckIn = RecentCheckIn(participant: Profile, time: string)

  const MsgSelectEvent := "Please select an event first"
  const MsgNotRegistered := "Participant is not registered for this event"
  const MsgTicketNotFound := "Invalid QR code or ticket not found for this event"
  const MsgProcessingError := "Error processing QR code. Please try again."
  const MsgAlreadyCheckedIn := "Already checked in!"
  const MsgCancelled := "Registration was cancelled"
  const MsgUpdateFailed := "Failed to check in. Please try again."
  const MsgCheckedIn := "Successfully checked in!"

  /** The feed shows at most this many check-ins. */
  const FeedLimit := 10

  function Failure(message: string): CheckInResult
  {
    CheckInResult(false, message, None, None)
  }

  /** Where a scan ends before the update: a result to show, or the row to mark attended. */
  datatype Step = Reply(result: CheckInResult) | Write(reg: Registration, participant: Option<Profile>)

  /** The status test at the head of `handleCheckIn`. */
  function Admit(reg: Registration, participant: Option<Profile>): (s: Step)
    ensures reg.status == Attended ==> s == Reply(CheckInResult(false, MsgAlreadyCheckedIn, participant, Some(reg)))
    ensures reg.status == Cancelled ==> s == Reply(CheckInResult(false, MsgCancelled, participant, Some(reg)))
    ensures s.Write? <==> reg.status != Attended && reg.status != Cancelled
    ensures s.Write? ==> s == Write(reg, participant)
  {
    if reg.status == Attended then Reply(CheckInResult(false, MsgAlreadyCheckedIn, participant, Some(reg)))
    else if reg.status == Cancelled then Reply(CheckInResult(false, MsgCancelled, participant, Some(reg)))
    else Write(reg, participant)
  }

  /** The lookups of `processQRData` for a classified scan at the selected event. */
  function Resolve(scan: Scan, eventId: string, rows: seq<Registration>, directory: seq<Profile>): (s: Step)
    ensures scan.Unreadable? ==> s == Reply(Failure(MsgProcessingError))
    ensures scan.IdentityCard? && |ParticipantRows(rows, eventId, scan.userId)| != 1 ==>
              s == Reply(Failure(MsgNotRegistered))
    ensures scan.IdentityCard? && |ParticipantRows(rows, eventId, scan.userId)| == 1 ==>
              var reg := ParticipantRows(rows, eventId, scan.userId)[0];
              s == Admit(reg, ProfileOf(directory, reg.userId))
    ensures scan.Ticket? && |TicketRows(rows, scan.code, eventId)| != 1 ==>
              s == Reply(Failure(MsgTicketNotFound))
    ensures scan.Ticket? && |TicketRows(rows, scan.code, eventId)| == 1 ==>
              var reg := TicketRows(rows, scan.code, eventId)[0];
              s == Admit(reg, ProfileOf(directory, reg.userId))
  {
    match scan
    case Unreadable => Reply(Failure(MsgProcessingError))
    case IdentityCard(userId) =>
      (match Single(ParticipantRows(rows, eventId, userId))
       case None => Reply(Failure(MsgNotRegistered))
       case Some(reg) => Admit(reg, ProfileOf(directory, reg.userId)))
    case Ticket(code) =>
      (match Single(TicketRows(rows, code, eventId))
       case None => Reply(Failure(MsgTicketNotFound))
       case Some(reg) => Admit(reg, ProfileOf(directory, reg.userId)))
  }

  /** `processQRData(raw)` up to the update, with `selectedEvent` the chosen event ("" for none). */
  function Decide(c: Codec, raw: string, selectedEvent: string, rows: seq<Registration>, directory: seq<Profile>): (s: Step)
    ensures s.Write? ==> s.reg in rows && s.reg.eventId == selectedEvent
                         && s.reg.status != Attended && s.reg.status != Cancelled
    ensures s.Write? ==> s.participant == ProfileOf(directory, s.reg.userId)
    ensures s.Write? ==> selectedEvent != ""
    ensures s.Write? && ScanOf(c, raw).Ticket? ==> TicketRows(rows, ScanOf(c, raw).code, selectedEvent) == [s.reg]
    ensures s.Write? && ScanOf(c, raw).IdentityCard? ==>
              ParticipantRows(rows, selectedEvent, ScanOf(c, raw).userId) == [s.reg]
    ensures s.Write? ==> !ScanOf(c, raw).Unreadable?
  {
    if selectedEvent == "" then Reply(Failure(MsgSelectEvent))
    else Resolve(ScanOf(c, raw), selectedEvent, rows, directory)
  }

  /** `[entry, ...feed.slice(0, 9)]`. */
  function PushRecent(feed: seq<RecentCheckIn>, entry: RecentCheckIn): (r: seq<RecentCheckIn>)
    ensures 1 <= |r| <= FeedLimit
    ensures r[0] == entry
    ensures |r| == if |feed| < FeedLimit then |feed| + 1 else FeedLimit
    ensures forall i :: 1 <= i < |r| ==> r[i] == feed[i - 1]
  {
    [entry] + Take(feed, FeedLimit - 1)
  }

  /** The ledger after the step; `updateOk` is whether the update reported no error. */
  function RowsAfter(s: Step, rows: seq<Registration>, nowMs: int, updateOk: bool): (r: seq<Registration>)
    ensures s.Reply? || !updateOk ==> r == rows
    ensures s.Write? && updateOk ==> r == MarkAttended(rows, s.reg.id, nowMs)
  {
    if s.Write? && updateOk then MarkAttended(rows, s.reg.id, nowMs) else rows
  }

  /** The result shown after the step. */
  function ResultAfter(s: Step, updateOk: bool): (r: CheckInResult)
    ensures s.Reply? ==> r == s.result
    ensures s.Write? && !updateOk ==> r == Failure(MsgUpdateFailed)
    ensures s.Write? && updateOk ==> r.success && r.message == MsgCheckedIn && r.participant == s.participant
    ensures s.Write? && updateOk ==> r.registration == Some(s.reg.(status := Attended))
  {
    match s
    case Reply(res) => res
    case Write(reg, participant) =>
      if updateOk then CheckInResult(true, MsgCheckedIn, participant, Some(reg.(status := Attended)))
      else Failure(MsgUpdateFailed)
  }

  /** The feed after the step: it grows only on a successful write with a known participant. */
  function FeedAfter(s: Step, feed: seq<RecentCheckIn>, updateOk: bool, time: string): (r: seq<RecentCheckIn>)
    ensures s.Write? && updateOk && s.participant.Some? ==> r == PushRecent(feed, RecentCheckIn(s.participant.value, time))
    ensures !(s.Write? && updateOk && s.participant.Some?) ==> r == feed
  {
    if s.Write? && updateOk && s.participant.Some? then PushRecent(feed, RecentCheckIn(s.participant.value, time))
    else feed
  }

  /** Only a successful result carries a success flag, and it follows a write. */
  lemma {:induction false} SuccessOnlyAfterWrite(c: Codec, raw: string, ev: string, rows: seq<Registration>,
                                                 directory: seq<Profile>, updateOk: bool)
    ensures var s := Decide(c, raw, ev, rows, directory);
            ResultAfter(s, updateOk).success <==> s.Write? && updateOk
  {
    var s := Decide(c, raw, ev, rows, directory);
    if s.Reply? {
      if ev != "" {
        match ScanOf(c, raw)
        case Unreadable =>
        case IdentityCard(u) =>
          var m := Single(ParticipantRows(rows, ev, u));
          if m.Some? { assert s == Admit(m.value, ProfileOf(directory, m.value.userId)); }
        case Ticket(code) =>
          var m := Single(TicketRows(rows, code, ev));
          if m.Some? { assert s == Admit(m.value, ProfileOf(directory, m.value.userId)); }
      }
    }
  }

  /** With no event selected nothing is looked up and nothing is written. */
  lemma NoEventSelected(c: Codec, raw: string, rows: seq<Registration>, directory: seq<Profile>, nowMs: int, updateOk: bool)
    ensures Decide(c, raw, "", rows, directory) == Reply(Failure(MsgSelectEvent))
    ensures RowsAfter(Decide(c, raw, "", rows, directory), rows, nowMs, updateOk) == rows
  {
  }

  /** Input that parses to JSON `null` reaches the outer `catch`. */
  lemma NullPayloadIsProcessingError(c: Codec, raw: string, ev: string, rows: seq<Registration>, directory: seq<Profile>)
    requires ev != ""
    requires c.decodeUri(raw).Some? && c.parse(c.decodeUri(raw).value) == Some(Null)
    ensures Decide(c, raw, ev, rows, directory) == Reply(Failure(MsgProcessingError))
  {
  }

  /** Input that does not decode is looked up as a ticket code equal to the raw input. */
  lemma LiteralCodeLookup(c: Codec, raw: string, ev: string, rows: seq<Registration>, directory: seq<Profile>)
    requires ev != ""
    requires c.decodeUri(raw).None? || c.parse(c.decodeUri(raw).value).None?
    ensures Decide(c, raw, ev, rows, directory)
         == match Single(TicketRows(rows, raw, ev))
            case None => Reply(Failure(MsgTicketNotFound))
            case Some(reg) => Admit(reg, ProfileOf(directory, reg.userId))
  {
    UnparseableIsLiteralTicket(c, raw);
  }

  /** An identity scan resolves through the selected event and the card holder
      only; unless exactly one row matches, the participant counts as not
      registered and nothing is written. */
  lemma IdentityScanResolution(c: Codec, raw: string, ev: string, userId: string,
                               rows: seq<Registration>, directory: seq<Profile>)
    requires ev != "" && ScanOf(c, raw) == IdentityCard(userId)
    ensures |ParticipantRows(rows, ev, userId)| != 1 ==>
              Decide(c, raw, ev, rows, directory) == Reply(Failure(MsgNotRegistered))
    ensures |ParticipantRows(rows, ev, userId)| == 1 ==>
              var reg := ParticipantRows(rows, ev, userId)[0];
              reg.eventId == ev && reg.userId == userId &&
              Decide(c, raw, ev, rows, directory) == Admit(reg, ProfileOf(directory, userId))
  {
  }

  /** A ticket scan, however the code was obtained (a literal typed code, a
      JSON primitive, or an object with its own `qr_code`), resolves through the
      selected event and that code only; unless exactly one row matches, the
      ticket is not found and nothing is written. */
  lemma TicketScanResolution(c: Codec, raw: string, ev: string, code: string,
                             rows: seq<Registration>, directory: seq<Profile>)
    requires ev != "" && ScanOf(c, raw) == Ticket(code)
    ensures |TicketRows(rows, code, ev)| != 1 ==>
              Decide(c, raw, ev, rows, directory) == Reply(Failure(MsgTicketNotFound))
    ensures |TicketRows(rows, code, ev)| == 1 ==>
              var reg := TicketRows(rows, code, ev)[0];
              reg.eventId == ev && reg.qrCode == code &&
              Decide(c, raw, ev, rows, directory) == Admit(reg, ProfileOf(directory, reg.userId))
  {
  }

  /** A participant who cancelled and then registered again holds two rows for
      the event, so `.single()` fails and the identity card is turned away. */
  lemma ReRegisteredParticipantNotFound(c: Codec, raw: string, ev: string, userId: string,
                                        rows: seq<Registration>, directory: seq<Profile>, i: nat, j: nat)
    requires ev != "" && ScanOf(c, raw) == IdentityCard(userId)
    requires i < j < |rows|
    requires rows[i].eventId == ev && rows[i].userId == userId && rows[i].status == Cancelled
    requires rows[j].eventId == ev && rows[j].userId == userId && rows[j].status == Registered
    ensures Decide(c, raw, ev, rows, directory) == Reply(Failure(MsgNotRegistered))
  {
    FilterTwo(rows, ParticipantMatch(ev, userId), i, j);
  }

  /** A ticket payload scanned at its own event admits the one row holding its code. */
  lemma TicketScanAdmits(c: Codec, reg: Registration, event: EventRow, rows: seq<Registration>, directory: seq<Profile>)
    requires Lawful(c) && reg.qrCode != "" && reg.eventId != ""
    requires TicketRows(rows, reg.qrCode, reg.eventId) == [reg]
    ensures Decide(c, TicketToken(c, reg.qrCode, reg, event), reg.eventId, rows, directory)
         == Admit(reg, ProfileOf(directory, reg.userId))
  {
    TicketRoundTrip(c, reg, event);
  }

  /** Tickets are not transferable: a payload whose code exists at no row of
      event `other` is not found there, whatever event it was issued for. */
  lemma TicketScopedToEvent(c: Codec, reg: Registration, event: EventRow, other: string,
                            rows: seq<Registration>, directory: seq<Profile>)
    requires Lawful(c) && reg.qrCode != "" && other != ""
    requires forall i :: 0 <= i < |rows| ==> !(rows[i].qrCode == reg.qrCode && rows[i].eventId == other)
    ensures Decide(c, TicketToken(c, reg.qrCode, reg, event), other, rows, directory)
         == Reply(Failure(MsgTicketNotFound))
  {
    TicketRoundTrip(c, reg, event);
    FilterNone(rows, TicketMatch(reg.qrCode, other));
  }

  /** Scanning again after a successful check-in reports "Already checked in!"
      and echoes the updated row: the transition happens once. */
  lemma {:induction false} SecondScanIsAlreadyCheckedIn(c: Codec, raw: string, ev: string, rows: seq<Registration>,
                                                        directory: seq<Profile>, nowMs: int)
    requires Decide(c, raw, ev, rows, directory).Write?
    ensures var s := Decide(c, raw, ev, rows, directory);
            Decide(c, raw, ev, MarkAttended(rows, s.reg.id, nowMs), directory) ==
              Reply(CheckInResult(false, MsgAlreadyCheckedIn, s.participant, Some(Stamp(s.reg, s.reg.id, nowMs))))
  {
    var s := Decide(c, raw, ev, rows, directory);
    match ScanOf(c, raw)
    case Unreadable =>
    case IdentityCard(u) =>
      RescanFindsStamped(rows, s.reg, nowMs, ParticipantMatch(ev, u));
    case Ticket(code) =>
      RescanFindsStamped(rows, s.reg, nowMs, TicketMatch(code, ev));
  }

  /** A lookup that found exactly `reg` finds exactly its stamped copy after the update. */
  lemma RescanFindsStamped(rows: seq<Registration>, reg: Registration, nowMs: int, p: Registration -> bool)
    requires forall r :: p(Stamp(r, reg.id, nowMs)) == p(r)
    requires Filter(rows, p) == [reg]
    ensures Filter(MarkAttended(rows, reg.id, nowMs), p) == [Stamp(reg, reg.id, nowMs)]
  {
    FilterMarkAttended(rows, reg.id, nowMs, p);
    assert MarkAttended([reg], reg.id, nowMs) == [Stamp(reg, reg.id, nowMs)];
  }

  /** The successful result echoes the pre-scan row with only its status
      changed; on a consistent ledger that copy therefore has no check-in time. */
  lemma {:induction false} EchoKeepsPreScanTime(c: Codec, raw: string, ev: string, rows: seq<Registration>,
                                                directory: seq<Profile>)
    requires CheckInConsistent(rows)
    requires Decide(c, raw, ev, rows, directory).Write?
    ensures var r := ResultAfter(Decide(c, raw, ev, rows, directory), true).registration.value;
            r.status == Attended && r.checkedInAt.None?
  {
    var s := Decide(c, raw, ev, rows, directory);
    var k :| 0 <= k < |rows| && rows[k] == s.reg;
    assert rows[k].checkedInAt.Some? <==> rows[k].status == Attended;
  }

  /** The host's scanner page: the selected event, the manual-entry field, the
      last result and the recent check-ins feed. */
  class ScannerPage {
    var selectedEvent: string
    var manualCode: string
    var checkInResult: Option<CheckInResult>
    var recentCheckIns: seq<RecentCheckIn>

    ghost predicate Valid()
      reads this
    {
      |recentCheckIns| <= FeedLimit
    }

    /** The page after `fetchEvents`: the first open event is selected, "" when there is none. */
    constructor (firstEvent: string)
      ensures Valid()
      ensures selectedEvent == firstEvent && manualCode == "" && checkInResult == None && recentCheckIns == []
    {
      selectedEvent := firstEvent;
      manualCode := "";
      checkInResult := None;
      recentCheckIns := [];
    }

    /** `handleCheckIn(registration, participant)`: `nowMs` is the clock,
        `time` its rendering for the feed, `updateOk` the update's outcome. */
    method HandleCheckIn(store: Store, reg: Registration, participant: Option<Profile>,
                         nowMs: int, time: string, updateOk: bool)
      requires Valid()
      modifies this, store
      ensures Valid()
      ensures selectedEvent == old(selectedEvent) && manualCode == old(manualCode)
      ensures store.events == old(store.events)
      ensures store.registrations == RowsAfter(Admit(reg, participant), old(store.registrations), nowMs, updateOk)
      ensures checkInResult == Some(ResultAfter(Admit(reg, participant), updateOk))
      ensures recentCheckIns == FeedAfter(Admit(reg, participant), old(recentCheckIns), updateOk, time)
    {
      if reg.status == Attended {
        checkInResult := Some(CheckInResult(false, MsgAlreadyCheckedIn, participant, Some(reg)));
        return;
      }
      if reg.status == Cancelled {
        checkInResult := Some(CheckInResult(false, MsgCancelled, participant, Some(reg)));
        return;
      }
      if updateOk {
        store.CheckIn(reg.id, nowMs);
      } else {
        checkInResult := Some(Failure(MsgUpdateFailed));
        return;
      }
      checkInResult := Some(CheckInResult(true, MsgCheckedIn, participant, Some(reg.(status := Attended))));
      if participant.Some? {
        recentCheckIns := PushRecent(recentCheckIns, RecentCheckIn(participant.value, time));
      }
    }

    /** `processQRData(raw)` against the selected event. */
    method ProcessQRData(c: Codec, raw: string, store: Store, directory: seq<Profile>,
                         nowMs: int, time: string, updateOk: bool)
      requires Valid()
      modifies this, store
      ensures Valid()
      ensures selectedEvent == old(selectedEvent) && manualCode == old(manualCode)
      ensures store.events == old(store.events)
      ensures var s := Decide(c, raw, old(selectedEvent), old(store.registrations), directory);
              && store.registrations == RowsAfter(s, old(store.registrations), nowMs, updateOk)
              && checkInResult == Some(ResultAfter(s, updateOk))
              && recentCheckIns == FeedAfter(s, old(recentCheckIns), updateOk, time)
    {
      if selectedEvent == "" {
        checkInResult := Some(Failure(MsgSelectEvent));
        return;
      }
      checkInResult := None;
      var scan := ScanOf(c, raw);
      match scan
      case Unreadable =>
        checkInResult := Some(Failure(MsgProcessingError));
      case IdentityCard(userId) =>
        var found := Single(ParticipantRows(store.registrations, selectedEvent, userId));
        if found.None? {
          checkInResult := Some(Failure(MsgNotRegistered));
          return;
        }
        HandleCheckIn(store, found.value, ProfileOf(directory, found.value.userId), nowMs, time, updateOk);
      case Ticket(code) =>
        var found := Single(TicketRows(store.registrations, code, selectedEvent));
        if found.None? {
          checkInResult := Some(Failure(MsgTicketNotFound));
          return;
        }
        var participant := ProfileOf(directory, found.value.userId);
        HandleCheckIn(store, found.value, participant, nowMs, time, updateOk);
    }

    /** `handleManualSubmit`: a non-blank entry is trimmed, processed and cleared. */
    method HandleManualSubmit(c: Codec, store: Store, directory: seq<Profile>,
                              nowMs: int, time: string, updateOk: bool)
      requires Valid()
      modifies this, store
      ensures Valid()
      ensures selectedEvent == old(selectedEvent)
      ensures store.events == old(store.events)
      ensures Trim(old(manualCode)) == "" ==>
                && manualCode == old(manualCode) && checkInResult == old(checkInResult)
                && recentCheckIns == old(recentCheckIns) && store.registrations == old(store.registrations)
      ensures Trim(old(manualCode)) != "" ==>
                var s := Decide(c, Trim(old(manualCode)), old(selectedEvent), old(store.registrations), directory);
                && manualCode == ""
                && store.registrations == RowsAfter(s, old(store.registrations), nowMs, updateOk)
                && checkInResult == Some(ResultAfter(s, updateOk))
                && recentCheckIns == FeedAfter(s, old(recentCheckIns), updateOk, time)
    {
      var code := Trim(manualCode);
      if code != "" {
        ProcessQRData(c, code, store, directory, nowMs, time, updateOk);
        manualCode := "";
      }
    }
  }
}
