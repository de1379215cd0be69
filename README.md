# Campus events platform: registration and QR check-in, in Dafny

This project models the registration and check-in path of a campus events web
application, together with the small helpers around it.

- A participant registers for an event. The registration gets a ticket code and bumps the event's counter.
- The participant shows a ticket QR code or an identity-card QR code.
- At the door the host's scanner turns the scanned or typed string into a result. It makes at most one write: the one that marks the registration attended.
- Around this path sit the ledger views:
  - the tickets tabs;
  - the participant and host dashboards;
  - the attendee list;
  - the host's event list.
- The helpers are:
  - the QR-like picture of the confirmation modal;
  - the task board;
  - the notification bar;
  - the request middleware's routing decision;
  - the event card.

The hosted data store becomes an in-memory `Store` class holding the
`registrations` and `events` tables as sequences. Inserts and updates on it are
methods. Lookups are filters, and a `.single()` lookup yields a row only when
exactly one row matches. Pages that change their own state step by step are
classes: the scanner page, the events page, the task board and the notification
bar. Their methods are specified by pure functions of the old state. The QR
picture is an `array2<bool>` filled by nested loops.

JSON (RFC 8259) and percent-encoding (section 2.1 of RFC 3986) are not spelled
out. A `Codec` value bundles `JSON.stringify`, `JSON.parse`,
`encodeURIComponent` and `decodeURIComponent`. They are total functions;
`parse` and `decodeUri` give `None` where the real ones throw. The predicate
`Lawful` states the two round trips the platform guarantees, and the
encode→scan lemmas assume it.

Values that come from outside are parameters:
- the clock (`nowMs`, `now`) and its rendering for the feed (`time`);
- the signed-in user;
- the identifiers and column defaults the database assigns;
- whether an insert or update reported an error, and its message.

Module layout, one file each:
- `base.dfy`: filter, count, subsequence, `.single()` and `slice`.
- `text.dfy`: `toLowerCase`, `toUpperCase`, `includes`, `startsWith`, `trim` and decimal rendering.
- `ledger.dfy`: rows, the check-in update, lookups and `Store`.
- `token_codec.dfy`: payload encoders and the scanner's decoder.
- `scanner.dfy`: the check-in processor and scanner page.
- `issuing.dfy`: both registration paths and the events page.
- `tickets.dfy`: the tickets tabs and participant dashboard counters.
- `attendees.dfy`, `host_dashboard.dfy`, `host_events.dfy`, `asset_gallery.dfy`: the views.
- `qr_pattern.dfy`, `task_board.dfy`, `notifications.dfy`, `middleware.dfy`, `event_card.dfy`: the helpers.

## Model

| member | source | states |
|---|---|---|
| Base.Single | app/host/scanner/page.tsx:167-175 | `.single()` gives a row exactly when one row matches, and then it is that row |
| Text.Trim | app/host/scanner/page.tsx:281-287 | `trim()` returns the slice of the input that lies between leading and trailing JavaScript whitespace; the result is empty exactly when the input is all whitespace, and otherwise starts and ends with non-whitespace |
| Text.ContainsIff | app/participant/events/page.tsx:188-194 | `includes` holds exactly when the query occurs at some offset |
| Ledger.Stamp | app/host/scanner/page.tsx:246-252 | the check-in update sets status `attended` and `checked_in_at` together on the row with the given id; every other row is left alone; id, event, user and code never change |
| Ledger.MarkAttended | app/host/scanner/page.tsx:246-252 | the update keeps the table's length and applies `Stamp` to each row in place |
| Ledger.MarkAttendedFrame | app/host/scanner/page.tsx:246-252 | rows with another id are untouched, and the update keeps `checked_in_at` set exactly on attended rows |
| Ledger.MarkAttendedIdempotent | app/host/scanner/page.tsx:246-252 | repeating the same update changes nothing |
| Ledger.FilterMarkAttended | app/host/scanner/page.tsx:166-203 | a lookup on columns the update does not touch commutes with the update |
| Ledger.TicketRows | app/host/scanner/page.tsx:190-196 | the ticket lookup keeps, with every copy, exactly the rows with that code at that event |
| Ledger.ParticipantRows | app/host/scanner/page.tsx:167-175 | the identity lookup keeps, with every copy, exactly the rows of that user at that event |
| Ledger.ProfileOf | app/host/scanner/page.tsx:205-210 | the profile lookup gives a profile with the requested id, present exactly when one profile has it |
| Ledger.WithRegistrationCount | app/participant/events/page.tsx:173-178 | the counter update rewrites `current_registrations` on rows with the event's id only |
| Ledger.Store.Insert | app/participant/events/page.tsx:164-169 | an insert appends the row to the registrations and leaves the events alone |
| Ledger.Store.CheckIn | app/host/scanner/page.tsx:246-252 | the check-in update replaces the registrations by `MarkAttended` of the old ones |
| Ledger.Store.SetRegistrationCount | app/participant/events/page.tsx:173-178 | the counter update changes the events table only |
| TokenCodec.Decode | app/host/scanner/page.tsx:156-163 | a string that fails to URI-decode or to parse becomes `{qr_code: raw}`; otherwise the parse result is used |
| TokenCodec.Classify | app/host/scanner/page.tsx:166-188 | JSON `null` is unreadable; the identity branch is taken exactly when `type` is `"participant_id"` and `id` is truthy, with that id; otherwise the ticket code is a truthy `qr_code`, or else the raw input |
| TokenCodec.UnparseableIsLiteralTicket | app/host/scanner/page.tsx:158-163 | decoding never rejects: undecodable input is the ticket code equal to itself |
| TokenCodec.UnreadableIffNull | app/host/scanner/page.tsx:212-217 | only input that parses to JSON `null` reaches the outer error |
| TokenCodec.ClassifyIgnoresOtherMembers | app/host/scanner/page.tsx:166-196 | members other than `type`, `id` and `qr_code` (such as `event_id`) do not affect the scan |
| TokenCodec.FractionalCodeIsRendered | app/host/scanner/page.tsx:188 | a numeric `qr_code` 1.5 is looked up as the ticket code "1.5", and a numeric 0 is falsy, so the raw input is used |
| TokenCodec.TicketQrUrl | app/participant/registrations/page.tsx:89-100 | the ticket QR URL is the image-service prefix followed by the encoded ticket payload |
| TokenCodec.TicketRoundTrip | app/participant/registrations/page.tsx:89-98 | scanning a ticket payload takes the ticket branch, with the stored code if it is non-empty and the whole payload otherwise |
| TokenCodec.IdentityQrUrl | app/participant/id-card/page.tsx:60-75 | the ID-card QR URL is the image-service prefix followed by the encoded identity payload; the `data` argument plays no part |
| TokenCodec.IdentityObjectCopiesProfile | app/participant/id-card/page.tsx:63-72 | the identity payload has `type "participant_id"`, the profile's id, name, email, college and student id, and the timestamp, and nothing else |
| TokenCodec.IdentityRoundTrip | app/participant/id-card/page.tsx:63-72 | at any render time the ID card scans as the holder's identity (a literal ticket code if the id is empty) |
| TokenCodec.ShortId | app/participant/id-card/page.tsx:205 | the displayed ID is the first eight characters of the profile id, upper-cased |
| Scanner.Admit | app/host/scanner/page.tsx:225-243 | `attended` and `cancelled` give their failure messages and echo the row, with no write; any other status leads to the write |
| Scanner.Decide | app/host/scanner/page.tsx:144-211 | a write is reached only for a row in the ledger, at the selected event, whose status is neither attended nor cancelled, paired with that row's profile lookup; the written row is the only row the source query matches: the only row with the scanned code at the selected event for a ticket, the only row of the card holder at that event for an ID card |
| Scanner.Resolve | app/host/scanner/page.tsx:166-211 | unreadable input is the processing error; an identity or ticket scan with other than exactly one match at the event is "Participant is not registered for this event" or "Invalid QR code or ticket not found for this event"; with one match it admits that row with its holder's profile |
| Scanner.PushRecent | app/host/scanner/page.tsx:270-278 | the feed gains the new entry first, keeps the earlier entries in order, and holds at most 10 |
| Scanner.RowsAfter | app/host/scanner/page.tsx:246-260 | the ledger changes only after a write that succeeded, and then by the check-in update of that row's id |
| Scanner.ResultAfter | app/host/scanner/page.tsx:254-267 | an update error gives "Failed to check in"; success gives "Successfully checked in!" with the participant and the pre-scan row with its status set to attended |
| Scanner.FeedAfter | app/host/scanner/page.tsx:269-278 | the feed grows only after a successful write with a known participant |
| Scanner.SuccessOnlyAfterWrite | app/host/scanner/page.tsx:221-267 | a result is successful exactly when the write happened and reported no error |
| Scanner.NoEventSelected | app/host/scanner/page.tsx:145-151 | with no event selected the result is "Please select an event first" and the ledger is unchanged |
| Scanner.NullPayloadIsProcessingError | app/host/scanner/page.tsx:212-217 | input that parses to `null` gives "Error processing QR code. Please try again." |
| Scanner.LiteralCodeLookup | app/host/scanner/page.tsx:158-163 | undecodable input is looked up as a ticket whose code equals the raw input |
| Scanner.IdentityScanResolution | app/host/scanner/page.tsx:166-182 | an identity scan looks only at the selected event and the card holder; with no unique match it is "Participant is not registered for this event" |
| Scanner.ReRegisteredParticipantNotFound | app/host/scanner/page.tsx:166-182 | a participant with a cancelled and a new registration for the event is turned away at identity scan, because the lookup is not unique |
| Scanner.TicketScanAdmits | app/host/scanner/page.tsx:188-211 | a ticket payload scanned at its own event, with a unique matching row, admits that row with its profile |
| Scanner.TicketScopedToEvent | app/host/scanner/page.tsx:188-203 | a ticket whose code has no row at the selected event is "Invalid QR code or ticket not found for this event", whatever event it names |
| Scanner.TicketScanResolution | app/host/scanner/page.tsx:188-203 | a ticket scan with an event selected fails with "Invalid QR code or ticket not found for this event" unless exactly one row has that code at that event, and otherwise admits that row, whose event and code are the scanned ones |
| Scanner.SecondScanIsAlreadyCheckedIn | app/host/scanner/page.tsx:225-233 | scanning again after the update gives "Already checked in!" with the updated row, so the transition happens once |
| Scanner.EchoKeepsPreScanTime | app/host/scanner/page.tsx:262-267 | on a consistent ledger the echoed row says attended but still has no check-in time |
| Scanner.ScannerPage.constructor | app/host/scanner/page.tsx:97-116 | the page starts with the first listed event selected, an empty entry field, no result and an empty feed |
| Scanner.ScannerPage.HandleCheckIn | app/host/scanner/page.tsx:221-279 | the ledger, result and feed become `RowsAfter`, `ResultAfter` and `FeedAfter` of `Admit`, and the feed stays within 10 entries |
| Scanner.ScannerPage.ProcessQRData | app/host/scanner/page.tsx:144-219 | the ledger, result and feed become those functions of `Decide` on the old ledger and the selected event |
| Scanner.ScannerPage.HandleManualSubmit | app/host/scanner/page.tsx:281-287 | blank entry changes nothing; otherwise the trimmed entry is processed and the field cleared |
| Issuing.EventsTicketCode | app/participant/events/page.tsx:162 | the code starts with `REG-`, the first 8 characters of the event id, `-`, the first 8 of the user id and `-`, and its tail is the decimal timestamp, which reads back exactly |
| Issuing.EventsTicketCodesDiffer | app/participant/events/page.tsx:162 | codes issued to one user for one event at different milliseconds differ |
| Issuing.NewTicket | app/participant/events/page.tsx:164-169 | the inserted row has status registered, the event and user ids, that code, and no check-in time |
| Issuing.NewTicketKeepsConsistency | app/participant/events/page.tsx:164-169 | inserting it keeps `checked_in_at` set exactly on attended rows |
| Issuing.RegisteredEventIds | app/participant/events/page.tsx:132-143 | `registeredEvents` holds the event id of every registration of the user that is not cancelled, and is no longer than the ledger |
| Issuing.RegisteredEventIdsIff | app/participant/events/page.tsx:132-143 | an event id is on that list exactly when one of the user's registrations that are not cancelled is for that event |
| Issuing.RegisteredEventIdsAppend | app/participant/events/page.tsx:132-143 | a new row extends that list by its event id exactly when it holds a seat |
| Issuing.ClientListMatchesRefetch | app/participant/events/page.tsx:180 | appending `event.id` on the client after the insert gives what a refetch would give |
| Issuing.OfferFor | app/participant/events/page.tsx:352-368 | the card shows "Already Registered" exactly when the id is listed, "Event Full" exactly when it is not listed and the counter (null as 0) has reached capacity, and "Register Now" otherwise |
| Issuing.IsFull | app/participant/events/page.tsx:286 | an event is full exactly when its counter is at least its capacity; a null counter counts as 0 |
| Issuing.CancelledReopensOffer | app/participant/events/page.tsx:132-143 | once all of a user's registrations for an event are cancelled, "Register Now" is back if the event is not full |
| Issuing.FilteredEvents | app/participant/events/page.tsx:188-194 | the list keeps, in order and with every copy, exactly the events whose title or description contains the search (ignoring case) and whose category is "all" or equal |
| Issuing.EmptySearchListsAll | app/participant/events/page.tsx:188-194 | an empty search in category "all" lists every event |
| Issuing.EventsPage.HandleRegister | app/participant/events/page.tsx:149-186 | with no user, or after an insert error, nothing changes; otherwise the ticket is inserted, the counter is written as the client copy (null as 0) plus one, the event id is appended and the selection cleared; there is no capacity or duplicate check; `registering` ends false |
| Issuing.DashboardTicketCode | app/participant/dashboard/page.tsx:60 | the code is `QR-`, the event id, `-` and the first five characters of the user id, with no clock |
| Issuing.DashboardTicket | app/participant/dashboard/page.tsx:55-61 | the dashboard's row carries the event, the user and that code; its status is the column default |
| Issuing.DashboardRegister | app/participant/dashboard/page.tsx:51-65 | with no user the alert is "Please login first"; after an insert error it is "Registration failed: " plus the message; otherwise the row is appended and the alert is "Successfully registered!" |
| Issuing.RepeatedDashboardTicketNotFound | app/participant/dashboard/page.tsx:60 | registering twice from the dashboard stores two rows with one code, so that ticket is "not found" at its event |
| Tickets.Upcoming | app/participant/registrations/page.tsx:135-138 | the upcoming tab keeps, in order and with every copy, exactly the bookings of future events that are not cancelled (the dashboard's filter at app/participant/dashboard/page.tsx:119-122 is the same) |
| Tickets.Past | app/participant/registrations/page.tsx:140-143 | the past tab keeps, in order and with every copy, exactly the bookings dated at or before now or attended (same filter on the dashboard) |
| Tickets.CancelledTab | app/participant/registrations/page.tsx:145-147 | the cancelled tab keeps, in order and with every copy, exactly the cancelled bookings |
| Tickets.TabsOverlap | app/participant/registrations/page.tsx:135-147 | a future attended booking is both upcoming and past, and a past cancelled booking is both past and cancelled; upcoming excludes cancelled |
| Tickets.TabsCoverEveryBooking | app/participant/registrations/page.tsx:135-147 | every booking is on the upcoming, the past or the cancelled tab, so the three tabs together are at least as long as the list |
| Tickets.QrOnlyOnUpcoming | app/participant/registrations/page.tsx:169-172 | the ticket QR button appears only on upcoming, uncancelled bookings |
| Tickets.ShowsQr | app/participant/registrations/page.tsx:169-172 | the QR button shows only for a future event, never for a cancelled booking or one dated at or before now |
| Tickets.TotalAttended | app/participant/dashboard/page.tsx:203 | "Total Attended" (attended bookings of the past list) equals the number of all attended bookings |
| Tickets.ActiveTickets | app/participant/dashboard/page.tsx:219 | "Active Tickets" counts the registered bookings; together with the attended and cancelled counts it never exceeds the total |
| Attendees.FilteredAttendees | app/host/attendees/page.tsx:134-142 | the list keeps, in order and with every copy, exactly the attendees whose name, email or student id contains the search (ignoring case) and whose status matches "all" or equals the filter |
| Attendees.EmptyQueryKeepsSearchable | app/host/attendees/page.tsx:135-138 | even the empty search drops attendees with no profile, or with none of the three fields present |
| Attendees.Stats | app/host/attendees/page.tsx:187-192 | the stats count all fetched attendees and the three statuses; the three counts sum to at most the total, and to exactly the total when no other status occurs |
| HostDashboard.ActiveEvents | app/host/dashboard/page.tsx:66-68 | active events are, in order and with every copy, exactly those with status upcoming or ongoing |
| HostDashboard.TotalRegistrations | app/host/dashboard/page.tsx:69-72 | the total is 0 when every counter is null, is non-negative when every counter is, and is the one counter of a single event |
| HostDashboard.TotalRegistrationsAppend | app/host/dashboard/page.tsx:69-72 | the registrations total (null counters as 0) is additive over the event list |
| HostDashboard.TotalWithinCapacity | app/host/dashboard/page.tsx:69-72 | when every counter is within its capacity, the total is within the summed capacities |
| HostDashboard.NullAmountsIgnored | app/host/dashboard/page.tsx:86-93 | a budget line with a null allocated (or spent) amount can be dropped from any position without changing the allocated (or spent) total |
| HostDashboard.SumAllocatedAppend | app/host/dashboard/page.tsx:86-89 | the allocated total of two lists of lines is the sum of their totals |
| HostDashboard.SumSpentAppend | app/host/dashboard/page.tsx:90-93 | the spent total of two lists of lines is the sum of their totals |
| HostDashboard.Stats | app/host/dashboard/page.tsx:97-103 | the stats give the number of events, the active count, the registrations total, and budget totals that stay 0 when there are no events or the budget query returns null |
| HostDashboard.RecentEvents | app/host/dashboard/page.tsx:105 | the recent list is the first min(5, n) events of the fetched list |
| HostEvents.FilteredEvents | app/host/events/page.tsx:73-77 | the list keeps, in order and with every copy, exactly the events whose title or category contains the search, ignoring case |
| HostEvents.EmptySearchKeepsAll | app/host/events/page.tsx:73-77 | an empty search keeps every event |
| HostEvents.UncategorisedMatchesByTitle | app/host/events/page.tsx:76 | an event with no category matches by title only |
| HostEvents.FilterKeepsDateOrder | app/host/events/page.tsx:61-77 | any filter keeps a date-ordered list date-ordered |
| HostEvents.SearchResultByDate | app/host/events/page.tsx:61-77 | the search result of the date-ordered fetch is date-ordered |
| AssetGallery.FilteredAssets | components/asset-gallery.tsx:78-84 | the gallery keeps, in order and with every copy, exactly the assets that pass the type filter and whose name or event contains the search, ignoring case |
| AssetGallery.UnfilteredShowsAll | components/asset-gallery.tsx:78-84 | filter "all" with an empty search shows every asset |
| AssetGallery.OnlyKindExcludesOthers | components/asset-gallery.tsx:79 | a single-type filter shows only assets of that type |
| AssetGallery.UnattachedMatchesByName | components/asset-gallery.tsx:80-82 | an asset with no event matches by name only |
| QrPattern.SeedAppend | components/qr-code-modal.tsx:29 | the seed of a concatenation is the sum of the seeds |
| QrPattern.SeedRemove | components/qr-code-modal.tsx:29 | removing one character lowers the seed by that character's code |
| QrPattern.AnagramsShareSeed | components/qr-code-modal.tsx:29 | codes with the same characters in any order have the same seed |
| QrPattern.AnagramsSharePattern | components/qr-code-modal.tsx:27-61 | such codes give the same picture |
| QrPattern.FinderSquareShape | components/qr-code-modal.tsx:42-59 | each corner square has a dark border, a dark 3×3 centre and a light ring between them |
| QrPattern.OutsideSquaresSeeded | components/qr-code-modal.tsx:33-59 | cells outside the three squares keep their seeded value |
| QrPattern.AddFinderPattern | components/qr-code-modal.tsx:42-55 | the 7×7 square at the given corner is overwritten with the finder shape and no other cell changes |
| QrPattern.GeneratePattern | components/qr-code-modal.tsx:27-61 | a fresh 21×21 grid whose cells are the seeded value `(seed·(i+1)·(j+1)) mod 7 < 3`, overlaid by finder squares at (0,0), (0,14) and (14,0); every write is in bounds |
| TaskBoard.WithStatus | components/task-board.tsx:67-71 | a move changes the status of the tasks with that id only, keeping length, order and other fields |
| TaskBoard.UnknownIdUnchanged | components/task-board.tsx:67-71 | a move for an unknown id changes nothing |
| TaskBoard.MoveIdempotent | components/task-board.tsx:67-71 | the same move twice is the move once |
| TaskBoard.LastMoveWins | components/task-board.tsx:67-71 | a later move of a task overrides an earlier one |
| TaskBoard.Column | components/task-board.tsx:75-79 | a column holds, in order and with every copy, exactly the tasks of its status |
| TaskBoard.ColumnsPartition | components/task-board.tsx:75-79 | the three columns together hold every task exactly once |
| TaskBoard.Progress | components/task-board.tsx:81-83 | progress is 0 for an empty board or one with nothing completed, between 0 and 100, and 100 when every task is completed |
| TaskBoard.Percent | components/task-board.tsx:83 | the completed percentage times the number of tasks is exactly 100 times the completed count, and lies between 0 and 100 |
| TaskBoard.MenuOptions | components/task-board.tsx:153-173 | the menu offers the two statuses other than the current one |
| TaskBoard.Board.constructor | components/task-board.tsx:64 | the board starts from the given tasks |
| TaskBoard.Board.HandleStatusChange | components/task-board.tsx:66-73 | the board's tasks become `WithStatus` of the old ones |
| Notifications.MarkRead | components/notification-bar.tsx:73-77 | only notifications with that id become read; the rest and the order are unchanged |
| Notifications.MarkReadMonotone | components/notification-bar.tsx:73-77 | marking read never unsets `read`, and is idempotent |
| Notifications.MarkReadLowersUnread | components/notification-bar.tsx:64-77 | the unread count drops by exactly the unread notifications with that id, so it never rises |
| Notifications.UnreadCount | components/notification-bar.tsx:64 | the unread badge count is at most the number of notifications and is 0 exactly when every notification is read |
| Notifications.Urgent | components/notification-bar.tsx:65 | the urgent notification is the first unread alert in list order, and there is none exactly when no unread alert exists |
| Notifications.DismissedAlertLeavesBanner | components/notification-bar.tsx:65-85 | after an id is marked read, no notification with that id is urgent |
| Notifications.ElapsedSince | components/notification-bar.tsx:100-107 | the shown unit is minutes below an hour, hours below a day and days otherwise, each the floor of the elapsed time in that unit |
| Notifications.FormatTime | components/notification-bar.tsx:100-107 | the label is the floored minutes with "m ago" below an hour, the floored hours with "h ago" below a day, and the floored days with "d ago" otherwise |
| Notifications.NotificationBar.constructor | components/notification-bar.tsx:60-62 | the bar starts with the given notifications, no current alert, and visible |
| Notifications.NotificationBar.SyncCurrentAlert | components/notification-bar.tsx:67-71 | an urgent notification, when there is one, becomes the current alert |
| Notifications.NotificationBar.MarkAsRead | components/notification-bar.tsx:73-77 | the notifications become `MarkRead` of the old ones |
| Notifications.NotificationBar.DismissAlert | components/notification-bar.tsx:79-85 | the current alert, if any, is marked read and cleared; the banner is hidden in every case |
| Middleware.Route | middleware.ts:37-63 | a visitor who is not signed in is sent to "/login" exactly when the path is neither public nor "/"; a signed-in user on exactly "/login" or "/register" is sent to "/host" for role host and "/participant" otherwise; every other request passes |
| Middleware.PublicRouteIff | middleware.ts:38-41 | a path is public exactly when it starts with "/login", "/register" or "/auth/callback" |
| Middleware.PublicExtends | middleware.ts:38-41 | any extension of a public route, such as "/registerX", is public |
| Middleware.LandingPageOpen | middleware.ts:43 | "/" is never redirected for a visitor who is not signed in |
| Middleware.SignedInBelowSignInPasses | middleware.ts:51-63 | a signed-in user on "/register/x" or "/login/x" passes through |
| Middleware.NoRedirectChain | middleware.ts:43-60 | a redirect never leads to a page that redirects again |
| EventCard.AlmostFullInIntegers | components/event-card.tsx:40 | for a positive capacity, "almost full" is exactly `5·attendees > 4·max` |
| EventCard.HoursUntil | components/event-card.tsx:41 | the hours until the event are the floor of the millisecond difference over 3,600,000 |
| EventCard.QrWindow | components/event-card.tsx:42 | the QR button shows for a registered user with a QR code exactly from one hour to just under 25 hours before the event |
| EventCard.FooterButton | components/event-card.tsx:143-164 | the footer shows the QR button when it applies, then "Registered" for a registered user, then the register button, which is disabled and labelled "Event Full" exactly when attendees reach the maximum |
| EventCard.CategoryColor | components/event-card.tsx:44-53 | the five known categories have their own colour class and any other category gets the default |

## Left out

- Data store I/O, authentication, cookies (middleware.ts:9-30) and the camera are parameters or absent. The data store is an in-memory `Store`. The scanner has no decoder behind the camera, so only manual entry reaches `ProcessQRData`.
- Concurrency is not modelled: operations run one after another. Two consequences follow and are not modelled.
  - The check-in update has no status condition, so concurrent scans could both write.
  - The counter write uses the client's stale copy, so concurrent registrations lose increments.
- JSON and URI encoding internals are abstract (`Codec`). `Lawful` is assumed only by the round-trip lemmas.
- When the embedded `profiles(*)` join of the identity branch finds no profile, it is modelled as the same unique-id profile lookup the ticket branch makes.
- Floating point is not modelled:
  - Money sums and the task progress are exact `real`s.
  - `isAlmostFull` is exact division; a negative capacity is not treated specially.
  - Floor on elapsed times is exact integer division.
  - The QR seed is an unbounded integer, so codes long enough to pass 2^53 are not covered.
- Locale formatting is absent: `toLocaleTimeString` becomes the `time` parameter, and date rendering is left out.
- Case mapping covers ASCII letters only. Characters are Unicode scalar values, while `charCodeAt` counts UTF-16 code units; the two agree below U+10000.
- A JSON number carries its JavaScript rendering (`String(n)`) as given, beside its value; the rendering is not computed from the value.
- A budget amount returned as a numeric string is treated as a number.
- `current_registrations` and `max_capacity` are treated as numbers; a null counter compares as 0.
- `getCategoryColor` keys inherited from `Object.prototype` (such as "constructor") are not modelled.
- Issuing.EventsPage.HandleRegister: does not model the refetch after registering, and assumes the counter update succeeds because the page ignores its result.
- Issuing.EventsTicketCode: a clock before 1970 (a negative `Date.now()`) is not modelled; the timestamp is a `nat`.
- TaskBoard.Board.HandleStatusChange: the parent's `onStatusChange` callback is not modelled.
- The fetch filters (host ownership, event status, college, date ordering) are queries; the views take the fetched lists as inputs. Date ordering is stated as a precondition in `HostEvents.SearchResultByDate`.
- `QrPattern.GeneratePattern` covers only the grid. The SVG rendering and the external QR image service are not modelled.
- Rendering, icons and styling are not modelled, and neither are the plain forms (account registration and event creation).
