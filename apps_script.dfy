/**
 * What the two Google Apps Script intake handlers share: the request event,
 * the sheet's rows, the notification mail, the JSON envelope they answer
 * with, and how a property of the parsed payload is read.
 */
module AppsScript {
  import opened Wrappers
  import opened Js

  /** The value of `new Date()` when the request is handled. */
  datatype Instant = Instant(millis: int)

  /** One spreadsheet cell as `appendRow` receives it; `EmptyCell` is `undefined`. */
  datatype Cell = TimeCell(at: Instant) | ValueCell(value: Json) | EmptyCell

  type Row = seq<Cell>

  /** One `Label: value` line of a notification body; several values are joined by spaces. */
  datatype MailLine = MailLine(caption: string, values: seq<Cell>)

  /** A message handed to `MailApp.sendEmail`, with the "Total ..." count of its last line. */
  datatype Mail = Mail(to: string, subject: string, lines: seq<MailLine>, total: int)

  /** The object passed to `JSON.stringify` for the response. */
  datatype Envelope = Success(message: string) | Failure(error: string)

  /** What `ContentService.createTextOutput(...).setMimeType(...)` returns. */
  datatype Output = JsonOutput(envelope: Envelope) | TextOutput(text: string)

  datatype PostData = PostData(contents: string)

  /** The `e` argument of `doPost`; `postData` is absent when the request has no body. */
  datatype Event = Event(postData: Option<PostData>)

  /** `e.postData && e.postData.contents`: the guard of the first `if`. */
  predicate HasPayload(e: Event) {
    e.postData.Some? && e.postData.value.contents != ""
  }

  /** A request without a body, or with an empty one, fails the guard; any non-empty body passes it. */
  lemma PayloadShapes(contents: string)
    ensures !HasPayload(Event(None))
    ensures HasPayload(Event(Some(PostData(contents)))) <==> contents != ""
  {
  }

  const NoDataError: Exception := Error("No data received")
  const MissingFieldsError: Exception := Error("Missing required fields")

  /** The error V8 throws for `data.key` when `data` is `null`. */
  function NullReadError(key: string): Exception {
    Exception("TypeError", "Cannot read properties of null (reading '" + key + "')")
  }

  /** `data.key` on a payload that is not `null`: the property of an object, `undefined` otherwise. */
  function Get(data: Json, key: string): (v: Option<Json>)
    ensures v.Some? <==> data.JObject? && key in data.fields
    ensures v.Some? ==> v.value == data.fields[key]
  {
    if data.JObject? && key in data.fields then Some(data.fields[key]) else None
  }

  /** A property read placed in a row cell. */
  function CellOf(v: Option<Json>): Cell {
    if v.Some? then ValueCell(v.value) else EmptyCell
  }

  /**
   * The required-field guard `if (!data.k0 || !data.k1 || ...) throw`: reading
   * the first key of a `null` payload throws a TypeError; otherwise the check
   * fails when some key is falsy. `None` means the guard passes.
   */
  function RequiredCheck(data: Json, keys: seq<string>): (r: Option<Exception>)
    requires keys != []
    ensures r.None? <==> !data.JNull? && forall k :: k in keys ==> Truthy(Get(data, k))
    ensures r.Some? ==> r.value == (if data.JNull? then NullReadError(keys[0]) else MissingFieldsError)
  {
    if data.JNull? then Some(NullReadError(keys[0]))
    else if exists k :: k in keys && !Truthy(Get(data, k)) then Some(MissingFieldsError)
    else None
  }

  /** The `catch` block: every error becomes a failure envelope holding its `toString()`. */
  function Caught(x: Exception): (out: Output)
    ensures out.JsonOutput? && out.envelope.Failure?
    ensures out.envelope.error == x.ToString()
  {
    JsonOutput(Failure(x.ToString()))
  }

  /**
   * A failure envelope names what was thrown: its text starts with the error's
   * name and ends with its message, so a thrown `new Error(m)` shows `m`.
   */
  lemma CaughtShowsError(x: Exception)
    ensures Caught(x).envelope.Failure?
    ensures x.name <= Caught(x).envelope.error
    ensures IsSuffix(x.message, Caught(x).envelope.error)
  {
    ToStringParts(x);
  }

  /** The script property that holds the notification address. */
  const NotificationKey := "NOTIFICATION_EMAIL"

  /** `properties.getProperty('NOTIFICATION_EMAIL')`: `None` is `null`. */
  function NotificationAddress(properties: map<string, string>): (a: Option<string>)
    ensures a.Some? <==> NotificationKey in properties
  {
    if NotificationKey in properties then Some(properties[NotificationKey]) else None
  }
}
