/** The QR payloads: the event-ticket payload built on the participant's tickets
    page, the identity-card payload built on the ID-card page, and the scanner's
    reading of a scanned or typed string (decode, parse, classify).

    JSON (RFC 8259) and percent-encoding (section 2.1 of RFC 3986) are not
    spelled out: a `Codec` bundles `JSON.stringify`, `JSON.parse`,
    `encodeURIComponent` and `decodeURIComponent` as functions, and `Lawful`
    states the round trips the platform guarantees. */
module TokenCodec {
  import opened Base
  import opened Text
  import opened Ledger

  /** A JSON member value.
      A number carries its exact value and its JavaScript rendering
      (`String(n)`, such as "1.5" or "1e+21"), which is what the query builder
      sends; JSON has no NaN or infinite numbers. `JComposite` is an object or
      array; `text` is what the query builder sends when such a value is used
      as a filter. */
  datatype JsonValue = JString(s: string) | JNumber(value: real, rendering: string) | JBool(b: bool) | JNull | JComposite(text: string)

  type JsonObject = map<string, JsonValue>

  /** The outcome of a `JSON.parse` that did not throw. `Primitive` is a
      number, string, boolean or array: a value that has none of the
      properties `type`, `id` or `qr_code`. */
  datatype Parsed = Null | Primitive | Object(fields: JsonObject)

  /** `stringify`/`encodeUri` never fail; `parse`/`decodeUri` give `None` where they throw. */
  datatype Codec = Codec(
    stringify: JsonObject -> string,
    parse: string -> Option<Parsed>,
    encodeUri: string -> string,
    decodeUri: string -> Option<string>)

  ghost predicate Lawful(c: Codec)
  {
    && (forall o :: c.parse(c.stringify(o)) == Some(Object(o)))
    && (forall s :: c.decodeUri(c.encodeUri(s)) == Some(s))
  }

  /** JavaScript truthiness of a member value. */
  predicate Truthy(v: JsonValue)
  {
    match v
    case JString(s) => s != ""
    case JNumber(n, _) => n != 0.0
    case JBool(b) => b
    case JNull => false
    case JComposite(_) => true
  }

  /** The text a member value stands for when it is passed to `.eq(column, value)`. */
  function KeyText(v: JsonValue): string
  {
    match v
    case JString(s) => s
    case JNumber(_, t) => t
    case JBool(b) => if b then "true" else "false"
    case JNull => "null"
    case JComposite(t) => t
  }

  /** Property access `parsed.name`; `None` is `undefined`. */
  function Member(p: Parsed, name: string): Option<JsonValue>
    requires !p.Null?
  {
    if p.Object? && name in p.fields then Some(p.fields[name]) else None
  }

  /** What the scanner does with a raw string, once decoded. */
  datatype Scan =
    | IdentityCard(userId: string)   // `type == "participant_id"` with a truthy `id`
    | Ticket(code: string)           // everything else that can be read
    | Unreadable                     // JSON `null`: the property access throws

  /** The object the inner `catch` substitutes when decoding or parsing throws. */
  function Fallback(raw: string): Parsed
  {
    Object(map["qr_code" := JString(raw)])
  }

  /** `JSON.parse(decodeURIComponent(raw))`, caught and replaced by `{qr_code: raw}`. */
  function Decode(c: Codec, raw: string): (p: Parsed)
    ensures c.decodeUri(raw).None? ==> p == Fallback(raw)
    ensures c.decodeUri(raw).Some? && c.parse(c.decodeUri(raw).value).None? ==> p == Fallback(raw)
    ensures c.decodeUri(raw).Some? && c.parse(c.decodeUri(raw).value).Some? ==> p == c.parse(c.decodeUri(raw).value).value
  {
    match c.decodeUri(raw)
    case None => Fallback(raw)
    case Some(text) =>
      match c.parse(text)
      case None => Fallback(raw)
      case Some(q) => q
  }

  /** The identity branch test, then the ticket code `parsed.qr_code || raw`. */
  function Classify(p: Parsed, raw: string): (s: Scan)
    ensures s.Unreadable? <==> p.Null?
    ensures s.IdentityCard? <==> !p.Null? && Member(p, "type") == Some(JString("participant_id"))
                                 && Member(p, "id").Some? && Truthy(Member(p, "id").value)
    ensures s.IdentityCard? ==> s.userId == KeyText(Member(p, "id").value)
    ensures s.Ticket? && Member(p, "qr_code").Some? && Truthy(Member(p, "qr_code").value) ==>
              s.code == KeyText(Member(p, "qr_code").value)
    ensures s.Ticket? && !(Member(p, "qr_code").Some? && Truthy(Member(p, "qr_code").value)) ==> s.code == raw
  {
    if p.Null? then Unreadable
    else
      var t := Member(p, "type");
      var id := Member(p, "id");
      if t == Some(JString("participant_id")) && id.Some? && Truthy(id.value) then IdentityCard(KeyText(id.value))
      else
        var q := Member(p, "qr_code");
        Ticket(if q.Some? && Truthy(q.value) then KeyText(q.value) else raw)
  }

  function ScanOf(c: Codec, raw: string): Scan
  {
    Classify(Decode(c, raw), raw)
  }

  /** Decoding never rejects: a string that does not decode or parse is a ticket
      code standing for itself. */
  lemma UnparseableIsLiteralTicket(c: Codec, raw: string)
    requires c.decodeUri(raw).None? || c.parse(c.decodeUri(raw).value).None?
    ensures ScanOf(c, raw) == Ticket(raw)
  {
    assert Member(Decode(c, raw), "type").None?;
  }

  /** Only input that parses to JSON `null` is unreadable. */
  lemma UnreadableIffNull(c: Codec, raw: string)
    ensures ScanOf(c, raw).Unreadable? <==>
              c.decodeUri(raw).Some? && c.parse(c.decodeUri(raw).value) == Some(Null)
  {
  }

  /** A fractional number as `qr_code` is truthy and is looked up by its rendering. */
  lemma FractionalCodeIsRendered(raw: string)
    ensures Classify(Object(map["qr_code" := JNumber(1.5, "1.5")]), raw) == Ticket("1.5")
    ensures Classify(Object(map["qr_code" := JNumber(0.0, "0")]), raw) == Ticket(raw)
  {
    assert Member(Object(map["qr_code" := JNumber(1.5, "1.5")]), "type").None?;
    assert Member(Object(map["qr_code" := JNumber(0.0, "0")]), "type").None?;
  }

  /** Members other than `type`, `id` and `qr_code` (such as `event_id`) play no part. */
  lemma ClassifyIgnoresOtherMembers(o: JsonObject, raw: string, name: string, v: JsonValue)
    requires name != "type" && name != "id" && name != "qr_code"
    ensures Classify(Object(o[name := v]), raw) == Classify(Object(o), raw)
  {
    assert Member(Object(o[name := v]), "type") == Member(Object(o), "type");
    assert Member(Object(o[name := v]), "id") == Member(Object(o), "id");
    assert Member(Object(o[name := v]), "qr_code") == Member(Object(o), "qr_code");
  }

  /** Start of every QR image URL; the payload is its `data` parameter. */
  const QrServiceBase := "https://api.qrserver.com/v1/create-qr-code/?size=200x200&data="

  /** The object `generateQRUrl` serialises for a ticket. */
  function TicketObject(qrCode: string, reg: Registration, event: EventRow): JsonObject
  {
    map["type" := JString("event_ticket"),
        "qr_code" := JString(qrCode),
        "registration_id" := JString(reg.id),
        "event_id" := JString(event.id),
        "event_title" := JString(event.title)]
  }

  /** The ticket payload: no clock and no randomness, so it is fixed for the registration. */
  function TicketToken(c: Codec, qrCode: string, reg: Registration, event: EventRow): string
  {
    c.encodeUri(c.stringify(TicketObject(qrCode, reg, event)))
  }

  /** `generateQRUrl(qrCode, registration)`. */
  function TicketQrUrl(c: Codec, qrCode: string, reg: Registration, event: EventRow): (url: string)
    ensures StartsWith(url, QrServiceBase)
    ensures url[|QrServiceBase|..] == TicketToken(c, qrCode, reg, event)
  {
    assert (QrServiceBase + TicketToken(c, qrCode, reg, event))[..|QrServiceBase|] == QrServiceBase;
    QrServiceBase + TicketToken(c, qrCode, reg, event)
  }

  /** Scanning a ticket payload takes the ticket branch with the stored code; an
      empty stored code falls back to the whole payload string. */
  lemma TicketRoundTrip(c: Codec, reg: Registration, event: EventRow)
    requires Lawful(c)
    ensures var token := TicketToken(c, reg.qrCode, reg, event);
            ScanOf(c, token) == if reg.qrCode != "" then Ticket(reg.qrCode) else Ticket(token)
  {
    var o := TicketObject(reg.qrCode, reg, event);
    var token := TicketToken(c, reg.qrCode, reg, event);
    assert c.decodeUri(token) == Some(c.stringify(o));
    assert Decode(c, token) == Object(o);
    assert Member(Object(o), "type") == Some(JString("event_ticket"));
  }

  /** A JSON string for a text column, `null` for a null one. */
  function ColumnJson(v: Option<string>): JsonValue
  {
    match v
    case Some(s) => JString(s)
    case None => JNull
  }

  /** The object `generateQRCode` serialises for the ID card at time `nowMs`. */
  function IdentityObject(p: Profile, nowMs: int): JsonObject
  {
    map["type" := JString("participant_id"),
        "id" := JString(p.id),
        "name" := ColumnJson(p.fullName),
        "email" := ColumnJson(p.email),
        "college" := ColumnJson(p.college),
        "student_id" := ColumnJson(p.studentId),
        "timestamp" := JNumber(nowMs as real, IntToString(nowMs))]
  }

  function IdentityToken(c: Codec, p: Profile, nowMs: int): string
  {
    c.encodeUri(c.stringify(IdentityObject(p, nowMs)))
  }

  /** `generateQRCode(data)`: `data` is not used. */
  function IdentityQrUrl(c: Codec, data: string, p: Profile, nowMs: int): (url: string)
    ensures StartsWith(url, QrServiceBase)
    ensures url[|QrServiceBase|..] == IdentityToken(c, p, nowMs)
  {
    assert (QrServiceBase + IdentityToken(c, p, nowMs))[..|QrServiceBase|] == QrServiceBase;
    QrServiceBase + IdentityToken(c, p, nowMs)
  }

  /** The ID card payload copies the profile's columns verbatim. */
  lemma IdentityObjectCopiesProfile(p: Profile, nowMs: int)
    ensures var o := IdentityObject(p, nowMs);
            && o["type"] == JString("participant_id") && o["id"] == JString(p.id)
            && o["name"] == ColumnJson(p.fullName) && o["email"] == ColumnJson(p.email)
            && o["college"] == ColumnJson(p.college) && o["student_id"] == ColumnJson(p.studentId)
            && o.Keys == {"type", "id", "name", "email", "college", "student_id", "timestamp"}
  {
  }

  /** Whatever the render time, an ID card scans as the holder's identity; a
      profile with an empty id is read as a literal ticket code instead. */
  lemma IdentityRoundTrip(c: Codec, p: Profile, nowMs: int)
    requires Lawful(c)
    ensures var token := IdentityToken(c, p, nowMs);
            ScanOf(c, token) == if p.id != "" then IdentityCard(p.id) else Ticket(token)
  {
    var o := IdentityObject(p, nowMs);
    var token := IdentityToken(c, p, nowMs);
    assert c.decodeUri(token) == Some(c.stringify(o));
    assert Decode(c, token) == Object(o);
    assert "qr_code" !in o;
  }

  /** The `ID:` line under the card: the first eight characters, upper-cased. */
  function ShortId(id: string): (r: string)
    ensures |r| == if |id| < 8 then |id| else 8
    ensures forall i :: 0 <= i < |r| ==> r[i] == UpperChar(id[i])
  {
    ToUpper(Prefix(id, 8))
  }
}
