/** Job payloads: what the scheduler writes into them, and which of them the claimer accepts. */
module Payload {
  import opened Text

  datatype Json =
    | JNull
    | JBool(flag: bool)
    | JInteger(number: int)
    | JFraction
    | JString(text: string)
    | JArray(items: seq<Json>)
    | JObject(fields: map<string, Json>)

  /** The text of the column: JSON, or something `serde_json` refuses. */
  datatype Raw = NotJson | Value(json: Json)

  const ALLOWED: set<string> :=
    {"kind", "eventId", "minutesBefore", "dueAt", "inboundCount", "emailId", "accountId", "emailFallback"}
  const MAX_OPAQUE_ID_LENGTH: nat := 128

  predicate InI32(n: int) {
    -0x8000_0000 <= n <= 0x7fff_ffff
  }

  predicate InI64(n: int) {
    -0x8000_0000_0000_0000 <= n <= 0x7fff_ffff_ffff_ffff
  }

  type I32 = n: int | -0x8000_0000 <= n <= 0x7fff_ffff
  type I64 = n: int | -0x8000_0000_0000_0000 <= n <= 0x7fff_ffff_ffff_ffff

  datatype Payload = Payload(
    kind: string,
    eventId: string,
    minutesBefore: Option<I64>,
    dueAt: Option<I64>,
    inboundCount: Option<I64>,
    emailId: string,
    accountId: string,
    emailFallback: bool)

  /** Reads a key as text without surrounding whitespace; a missing key reads as the empty text, and `None` refuses the payload. */
  function TextField(fields: map<string, Json>, key: string): Option<string> {
    if key !in fields || fields[key].JNull? then Some("")
    else if fields[key].JString? then Some(Trim(fields[key].text))
    else None
  }

  /** Reads a key as a 64-bit integer if it is there; `None` refuses the payload, also for an integer that does not fit. */
  function NumberField(fields: map<string, Json>, key: string): Option<Option<I64>> {
    if key !in fields || fields[key].JNull? then Some(None)
    else if fields[key].JInteger? && InI64(fields[key].number) then Some(Some(fields[key].number))
    else None
  }

  function FlagField(fields: map<string, Json>, key: string): Option<bool> {
    if key !in fields || fields[key].JNull? then Some(false)
    else if fields[key].JBool? then Some(fields[key].flag)
    else None
  }

  predicate RefsMatchKind(p: Payload) {
    match p.kind
    case "" => true
    case "event_reminder" => p.emailId == "" && p.accountId == ""
    case "new_mail" => p.eventId == "" && !p.emailFallback
    case _ => false
  }

  predicate RefsAreShort(p: Payload) {
    && ByteLength(p.eventId) <= MAX_OPAQUE_ID_LENGTH
    && ByteLength(p.emailId) <= MAX_OPAQUE_ID_LENGTH
    && ByteLength(p.accountId) <= MAX_OPAQUE_ID_LENGTH
  }

  /** What the claimer makes of the column's text; a job whose text gives `None` never reaches a channel. */
  function Parse(raw: Raw): Option<Payload> {
    if raw.NotJson? then None
    else if raw.json.JNull? then ParseFields(map[])
    else if raw.json.JObject? then ParseFields(raw.json.fields)
    else None
  }

  function ParseFields(fields: map<string, Json>): Option<Payload> {
    if !(fields.Keys <= ALLOWED) then None
    else
      var kind :- TextField(fields, "kind");
      var eventId :- TextField(fields, "eventId");
      var minutesBefore :- NumberField(fields, "minutesBefore");
      var dueAt :- NumberField(fields, "dueAt");
      var inboundCount :- NumberField(fields, "inboundCount");
      var emailId :- TextField(fields, "emailId");
      var accountId :- TextField(fields, "accountId");
      var emailFallback :- FlagField(fields, "emailFallback");
      var p := Payload(kind, eventId, minutesBefore, dueAt, inboundCount, emailId, accountId, emailFallback);
      if RefsMatchKind(p) && RefsAreShort(p) then Some(p) else None
  }

  // ----- What is accepted -----

  /** The fields of the column's JSON; `null` reads as an object without any. */
  function FieldsOf(raw: Raw): map<string, Json> {
    if raw.Value? && raw.json.JObject? then raw.json.fields else map[]
  }

  /** Only the eight known keys, each with the right type or `null`. */
  predicate WellTyped(fields: map<string, Json>) {
    forall key | key in fields ::
      if key in {"kind", "eventId", "emailId", "accountId"} then fields[key].JString? || fields[key].JNull?
      else if key in {"minutesBefore", "dueAt", "inboundCount"} then
        fields[key].JNull? || (fields[key].JInteger? && -0x8000_0000_0000_0000 <= fields[key].number < 0x8000_0000_0000_0000)
      else key == "emailFallback" && (fields[key].JBool? || fields[key].JNull?)
  }

  function Words(fields: map<string, Json>, key: string): string {
    if key in fields && fields[key].JString? then Trim(fields[key].text) else ""
  }

  function Number(fields: map<string, Json>, key: string): Option<int> {
    if key in fields && fields[key].JInteger? then Some(fields[key].number) else None
  }

  predicate IsFlagged(fields: map<string, Json>) {
    "emailFallback" in fields && fields["emailFallback"] == JBool(true)
  }

  lemma FieldsAreRead(fields: map<string, Json>, key: string)
    requires WellTyped(fields)
    ensures key in {"kind", "eventId", "emailId", "accountId"} ==> TextField(fields, key) == Some(Words(fields, key))
    ensures key in {"minutesBefore", "dueAt", "inboundCount"} ==>
              NumberField(fields, key).Some? && NumberField(fields, key).value == Number(fields, key)
    ensures FlagField(fields, "emailFallback") == Some(IsFlagged(fields))
  {
  }

  lemma IllTypedIsRefused(fields: map<string, Json>)
    requires !WellTyped(fields)
    ensures ParseFields(fields).None?
  {
  }

  lemma WellTypedIsRead(fields: map<string, Json>)
    requires WellTyped(fields)
    ensures ParseFields(fields).Some? <==>
              && (match Words(fields, "kind")
                  case "" => true
                  case "event_reminder" => Words(fields, "emailId") == "" && Words(fields, "accountId") == ""
                  case "new_mail" => Words(fields, "eventId") == "" && !IsFlagged(fields)
                  case _ => false)
              && (forall key | key in {"eventId", "emailId", "accountId"} :: ByteLength(Words(fields, key)) <= 128)
    ensures ParseFields(fields).Some? ==>
              var p := ParseFields(fields).value;
              && p.kind == Words(fields, "kind") && p.eventId == Words(fields, "eventId")
              && p.emailId == Words(fields, "emailId") && p.accountId == Words(fields, "accountId")
              && p.minutesBefore == Number(fields, "minutesBefore") && p.dueAt == Number(fields, "dueAt")
              && p.inboundCount == Number(fields, "inboundCount") && (p.emailFallback <==> IsFlagged(fields))
  {
    forall key
      ensures key in {"kind", "eventId", "emailId", "accountId"} ==> TextField(fields, key) == Some(Words(fields, key))
      ensures key in {"minutesBefore", "dueAt", "inboundCount"} ==>
                NumberField(fields, key).Some? && NumberField(fields, key).value == Number(fields, key)
    {
      FieldsAreRead(fields, key);
    }
    FieldsAreRead(fields, "kind");
    assert fields.Keys <= ALLOWED;
  }

  /**
   * A job's text is accepted exactly when it is `null` or an object of known keys with the right types, its ids take at
   * most 128 bytes, and they fit the kind; then each field reads as what its key holds.
   */
  lemma AcceptedExactlyWhen(raw: Raw)
    ensures var fields := FieldsOf(raw);
            Parse(raw).Some? <==>
              && raw.Value? && (raw.json.JNull? || raw.json.JObject?) && WellTyped(fields)
              && (match Words(fields, "kind")
                  case "" => true
                  case "event_reminder" => Words(fields, "emailId") == "" && Words(fields, "accountId") == ""
                  case "new_mail" => Words(fields, "eventId") == "" && !IsFlagged(fields)
                  case _ => false)
              && (forall key | key in {"eventId", "emailId", "accountId"} :: ByteLength(Words(fields, key)) <= 128)
    ensures Parse(raw).Some? ==>
              var fields, p := FieldsOf(raw), Parse(raw).value;
              && p.kind == Words(fields, "kind") && p.eventId == Words(fields, "eventId")
              && p.emailId == Words(fields, "emailId") && p.accountId == Words(fields, "accountId")
              && p.minutesBefore == Number(fields, "minutesBefore") && p.dueAt == Number(fields, "dueAt")
              && p.inboundCount == Number(fields, "inboundCount") && (p.emailFallback <==> IsFlagged(fields))
  {
    var fields := FieldsOf(raw);
    if WellTyped(fields) {
      WellTypedIsRead(fields);
    } else {
      IllTypedIsRefused(fields);
    }
  }

  /** What the scheduler writes for one reminder: opaque refs only. */
  function ReminderPayload(eventId: string, minutesBefore: I32, dueAt: Option<I64>, emailFallback: bool): Raw {
    var base: map<string, Json> := map[
      "kind" := JString("event_reminder"),
      "eventId" := JString(eventId),
      "minutesBefore" := JInteger(minutesBefore)];
    var dated := if dueAt.Some? then base["dueAt" := JInteger(dueAt.value)] else base;
    Value(JObject(if emailFallback then dated["emailFallback" := JBool(true)] else dated))
  }

  /** The event ids the scheduler may queue without the claimer dropping the job. */
  predicate ShortEventId(eventId: string) {
    ByteLength(Trim(eventId)) <= MAX_OPAQUE_ID_LENGTH
  }

  lemma ReminderKindIsTrimmed()
    ensures Trim("event_reminder") == "event_reminder"
  {
    assert !IsWhitespace('e') && !IsWhitespace('r');
  }

  lemma WrittenFields(eventId: string, minutesBefore: I32, dueAt: Option<I64>, emailFallback: bool, fields: map<string, Json>)
    requires ReminderPayload(eventId, minutesBefore, dueAt, emailFallback) == Value(JObject(fields))
    ensures WellTyped(fields)
    ensures Words(fields, "kind") == Trim("event_reminder") && Words(fields, "eventId") == Trim(eventId)
    ensures Words(fields, "emailId") == "" && Words(fields, "accountId") == ""
    ensures Number(fields, "minutesBefore") == Some(minutesBefore) && Number(fields, "dueAt") == dueAt
    ensures Number(fields, "inboundCount") == None && (IsFlagged(fields) <==> emailFallback)
  {
    WrittenKeys(eventId, minutesBefore, dueAt, emailFallback, fields);
  }

  lemma WrittenKeys(eventId: string, minutesBefore: I32, dueAt: Option<I64>, emailFallback: bool, fields: map<string, Json>)
    requires ReminderPayload(eventId, minutesBefore, dueAt, emailFallback) == Value(JObject(fields))
    ensures forall key | key in fields :: key in {"kind", "eventId", "minutesBefore", "dueAt", "emailFallback"}
    ensures {"kind", "eventId", "minutesBefore"} <= fields.Keys
    ensures "dueAt" in fields <==> dueAt.Some?
    ensures "emailFallback" in fields <==> emailFallback
    ensures fields["kind"] == JString("event_reminder") && fields["eventId"] == JString(eventId)
    ensures fields["minutesBefore"] == JInteger(minutesBefore)
    ensures dueAt.Some? ==> fields["dueAt"] == JInteger(dueAt.value)
    ensures emailFallback ==> fields["emailFallback"] == JBool(true)
  {
  }

  /** The reader returns exactly what the writer put in, the event id trimmed, precisely when that id is short enough. */
  lemma ReminderRoundTrip(eventId: string, minutesBefore: I32, dueAt: Option<I64>, emailFallback: bool)
    ensures Parse(ReminderPayload(eventId, minutesBefore, dueAt, emailFallback)) ==
            if ShortEventId(eventId)
            then Some(Payload("event_reminder", Trim(eventId), Option<I64>.Some(minutesBefore), dueAt, None, "", "", emailFallback))
            else None
  {
    ReminderKindIsTrimmed();
    var raw := ReminderPayload(eventId, minutesBefore, dueAt, emailFallback);
    var fields := raw.json.fields;
    WrittenFields(eventId, minutesBefore, dueAt, emailFallback, fields);
    WellTypedIsRead(fields);
  }
}
