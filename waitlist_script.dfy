/** The waitlist form's intake script: `doPost` and `doGet`. */
module WaitlistScript {
  import opened Wrappers
  import opened Js
  import opened AppsScript

  /** The keys the required-field guard reads, in its order. */
  const RequiredKeys: seq<string> := ["firstName", "lastName", "email", "company", "role"]

  const SuccessMessage := "Successfully added to waitlist"
  const MailSubject := "New NeuroStream Waitlist Signup"
  const LivenessText := "NeuroStream Waitlist API is working!"

  /**
   * The guarded part of `doPost` after parsing: the required-field check and
   * the 7-cell row it appends.
   */
  function Intake(data: Json, now: Instant): (r: Result<Row, Exception>)
    ensures r.Ok? <==> !data.JNull? && forall k :: k in RequiredKeys ==> Truthy(Get(data, k))
    ensures data.JNull? ==> r == Err(NullReadError("firstName"))
    ensures !data.JNull? && r.Err? ==> r.error == MissingFieldsError
    ensures r.Ok? ==> r.value == [
      TimeCell(now),
      ValueCell(Get(data, "firstName").value),
      ValueCell(Get(data, "lastName").value),
      ValueCell(Get(data, "email").value),
      ValueCell(Get(data, "company").value),
      ValueCell(Get(data, "role").value),
      ValueCell(OrEmpty(Get(data, "useCase")))]
  {
    var check := RequiredCheck(data, RequiredKeys);
    if check.Some? then Err(check.value)
    else
      assert "firstName" in RequiredKeys && "lastName" in RequiredKeys && "email" in RequiredKeys;
      assert "company" in RequiredKeys && "role" in RequiredKeys;
      Ok([TimeCell(now),
          CellOf(Get(data, "firstName")),
          CellOf(Get(data, "lastName")),
          CellOf(Get(data, "email")),
          CellOf(Get(data, "company")),
          CellOf(Get(data, "role")),
          ValueCell(OrEmpty(Get(data, "useCase")))])
  }

  /** The notification: the full name on one line, the use case shown as 'Not provided' when falsy, the time, and the count. */
  function NotificationMail(to: string, data: Json, now: Instant, total: int): Mail {
    var useCase := Get(data, "useCase");
    Mail(to, MailSubject, [
      MailLine("Name", [CellOf(Get(data, "firstName")), CellOf(Get(data, "lastName"))]),
      MailLine("Email", [CellOf(Get(data, "email"))]),
      MailLine("Company", [CellOf(Get(data, "company"))]),
      MailLine("Role", [CellOf(Get(data, "role"))]),
      MailLine("Use Case", [if Truthy(useCase) then ValueCell(useCase.value) else ValueCell(JString("Not provided"))]),
      MailLine("Time", [TimeCell(now)])],
      total)
  }

  /**
   * The notification reports the stored submission: each line shows the cells
   * the row holds for its fields, in the row's order, with an empty use case
   * shown as 'Not provided', and the time line shows the row's timestamp.
   */
  lemma NotificationReportsRow(to: string, data: Json, now: Instant, total: int)
    requires Intake(data, now).Ok?
    ensures var row := Intake(data, now).value;
      var m := NotificationMail(to, data, now, total);
      && m.to == to && m.subject == MailSubject && m.total == total
      && |m.lines| == 6
      && m.lines[0] == MailLine("Name", [row[1], row[2]])
      && m.lines[1] == MailLine("Email", [row[3]])
      && m.lines[2] == MailLine("Company", [row[4]])
      && m.lines[3] == MailLine("Role", [row[5]])
      && m.lines[4] == MailLine("Use Case", [if row[6] == ValueCell(JString("")) then ValueCell(JString("Not provided")) else row[6]])
      && m.lines[5] == MailLine("Time", [row[0]])
  {
    var useCase := Get(data, "useCase");
    assert Truthy(useCase) ==> OrEmpty(useCase) != JString("");
  }

  /**
   * How the mail step ends, given the configured address `to` and the row
   * count `total`: with no address, no mail and success; when sending throws,
   * no mail and the caught error; otherwise one more mail and success.
   */
  predicate Notified(before: seq<Mail>, after: seq<Mail>, out: Output, to: Option<string>,
                     mailFault: Option<Exception>, data: Json, now: Instant, total: int)
  {
    if !TruthyString(to) then
      after == before && out == JsonOutput(Success(SuccessMessage))
    else if mailFault.Some? then
      after == before && out == Caught(mailFault.value)
    else
      after == before + [NotificationMail(to.value, data, now, total)] && out == JsonOutput(Success(SuccessMessage))
  }

  /** The script's deployment: the active sheet, the mail sent so far and the script properties. */
  class Deployment {
    /** The rows of the active sheet; the first is the header. */
    var rows: seq<Row>
    /** The messages `MailApp.sendEmail` has delivered. */
    var sent: seq<Mail>
    /** `PropertiesService.getScriptProperties()`. */
    var properties: map<string, string>

    constructor (rows: seq<Row>, properties: map<string, string>)
      ensures this.rows == rows && this.properties == properties && sent == []
    {
      this.rows := rows;
      this.properties := properties;
      sent := [];
    }

    /**
     * `doPost`. `parse` stands for `JSON.parse` (an error is a thrown
     * SyntaxError), `now` for `new Date()`, and `mailFault` for an error
     * `MailApp.sendEmail` throws. The sheet only grows, by at most the one row
     * `Intake` builds; every path ends in a JSON envelope.
     */
    method DoPost(e: Event, parse: string -> Result<Json, Exception>, now: Instant, mailFault: Option<Exception>)
      returns (out: Output)
      modifies this`rows, this`sent
      ensures out.JsonOutput?
      ensures !HasPayload(e) ==>
                out == Caught(NoDataError)
                && rows == old(rows) && sent == old(sent)
      ensures HasPayload(e) && parse(e.postData.value.contents).Err? ==>
                out == Caught(parse(e.postData.value.contents).error)
                && rows == old(rows) && sent == old(sent)
      ensures HasPayload(e) && parse(e.postData.value.contents).Ok? ==>
                var data := parse(e.postData.value.contents).value;
                match Intake(data, now)
                case Err(x) =>
                  out == Caught(x) && rows == old(rows) && sent == old(sent)
                case Ok(row) =>
                  && rows == old(rows) + [row]
                  && Notified(old(sent), sent, out, NotificationAddress(properties), mailFault, data, now, |rows| - 1)
    {
      if !HasPayload(e) {
        return Caught(NoDataError);
      }
      var parsed := parse(e.postData.value.contents);
      if parsed.Err? {
        return Caught(parsed.error);
      }
      var data := parsed.value;
      var checked := Intake(data, now);
      if checked.Err? {
        return Caught(checked.error);
      }
      out := StoreAndNotify(data, checked.value, now, mailFault);
    }

    /**
     * The rest of `doPost` once the row is built: the row is appended, then
     * the notification goes to the configured address unless sending throws;
     * with no address configured the script logs and still succeeds.
     */
    method StoreAndNotify(data: Json, row: Row, now: Instant, mailFault: Option<Exception>) returns (out: Output)
      modifies this`rows, this`sent
      ensures rows == old(rows) + [row]
      ensures Notified(old(sent), sent, out, NotificationAddress(properties), mailFault, data, now, |rows| - 1)
    {
      rows := rows + [row];
      var notificationEmail := NotificationAddress(properties);
      if TruthyString(notificationEmail) {
        if mailFault.Some? {
          return Caught(mailFault.value);
        }
        sent := sent + [NotificationMail(notificationEmail.value, data, now, |rows| - 1)];
      }
      // else: console.error and carry on without mail
      return JsonOutput(Success(SuccessMessage));
    }

    /** `doGet`: the fixed liveness text, and nothing changes. */
    method DoGet(e: Event) returns (out: Output)
      ensures out == TextOutput("NeuroStream Waitlist API is working!")
    {
      return TextOutput(LivenessText);
    }
  }
}
