/** The event card's derived flags, footer button and category colour. Times
    are in milliseconds since the epoch. */
module EventCard {

  const HourMs := 3600000

  /** `attendees / maxAttendees > 0.8`, in exact arithmetic; dividing by zero
      follows JavaScript (positive over zero is infinite, zero over zero is not a number). */
  predicate IsAlmostFull(attendees: int, maxAttendees: int)
  {
    if maxAttendees == 0 then attendees > 0
    else (attendees as real) / (maxAttendees as real) > 0.8
  }

  /** For a positive capacity, "almost full" is more than four fifths, in integers. */
  lemma AlmostFullInIntegers(attendees: int, maxAttendees: int)
    requires maxAttendees > 0
    ensures IsAlmostFull(attendees, maxAttendees) <==> 5 * attendees > 4 * maxAttendees
  {
    var a := attendees as real;
    var m := maxAttendees as real;
    assert a / m * m == a;
    if a / m > 0.8 {
      assert a > 0.8 * m;
    }
    if 5.0 * a > 4.0 * m {
      assert a / m > 0.8;
    }
  }

  /** `Math.floor((date - now) / 1000 / 60 / 60)`. */
  function HoursUntil(eventMs: int, nowMs: int): (h: int)
    ensures h * HourMs <= eventMs - nowMs < (h + 1) * HourMs
  {
    (eventMs - nowMs) / HourMs
  }

  /** `isRegistered && hasQrCode && hoursUntil <= 24 && hoursUntil > 0`. */
  predicate ShowQrButton(isRegistered: bool, hasQrCode: bool, eventMs: int, nowMs: int)
  {
    isRegistered && hasQrCode && 0 < HoursUntil(eventMs, nowMs) <= 24
  }

  /** The QR button shows from one hour up to just under twenty-five hours before the event. */
  lemma QrWindow(isRegistered: bool, hasQrCode: bool, eventMs: int, nowMs: int)
    ensures ShowQrButton(isRegistered, hasQrCode, eventMs, nowMs) <==>
              isRegistered && hasQrCode && HourMs <= eventMs - nowMs < 25 * HourMs
  {
    var h := HoursUntil(eventMs, nowMs);
    if HourMs <= eventMs - nowMs < 25 * HourMs {
      assert h * HourMs < 25 * HourMs;
    }
  }

  datatype Footer = ViewQr | RegisteredBadge | RegisterButton(disabled: bool, caption: string)

  /** The footer button, by precedence: QR, then "Registered", then register. */
  function FooterButton(isRegistered: bool, hasQrCode: bool, attendees: int, maxAttendees: int,
                        eventMs: int, nowMs: int): (f: Footer)
    ensures f == ViewQr <==> ShowQrButton(isRegistered, hasQrCode, eventMs, nowMs)
    ensures f == RegisteredBadge <==> isRegistered && !ShowQrButton(isRegistered, hasQrCode, eventMs, nowMs)
    ensures f.RegisterButton? <==> !isRegistered
    ensures f.RegisterButton? ==> (f.disabled <==> attendees >= maxAttendees)
    ensures f.RegisterButton? ==> f.caption == (if attendees >= maxAttendees then "Event Full" else "Register Now")
  {
    if ShowQrButton(isRegistered, hasQrCode, eventMs, nowMs) then ViewQr
    else if isRegistered then RegisteredBadge
    else RegisterButton(attendees >= maxAttendees, if attendees >= maxAttendees then "Event Full" else "Register Now")
  }

  const DefaultColor := "bg-muted text-muted-foreground"

  /** `getCategoryColor(cat)`. */
  function CategoryColor(category: string): (c: string)
    ensures category !in {"Tech", "Cultural", "Sports", "Academic", "Workshop"} ==> c == DefaultColor
    ensures category in {"Tech", "Cultural", "Sports", "Academic", "Workshop"} ==> c != DefaultColor
  {
    match category
    case "Tech" => "bg-primary/20 text-primary"
    case "Cultural" => "bg-accent/20 text-accent"
    case "Sports" => "bg-chart-3/20 text-chart-3"
    case "Academic" => "bg-chart-5/20 text-chart-5"
    case "Workshop" => "bg-chart-2/20 text-chart-2"
    case _ => DefaultColor
  }
}
