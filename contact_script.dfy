/** The contact form's intake script: `doPost` and `doGet`. */
module ContactScript {
  import opened Wrappers
  import opened Js
  import opened AppsScript

  /** The keys the required-field guard reads, in its order. */
  const RequiredKeys: seq<string> := ["name", "email", "subject", "message"]

  const SuccessMessage := "Message sent successfully"
  const MailSubject := "New NeuroStream Contact Form Submission"
  const LivenessText := "NeuroStream Contact API is working!"

  /**
   * The guarded part of `doPost` after parsing: the required-field check and
   * the row it appends.
   */
  function Intake(data: Json, now: Instant): (r: Result<Row, Exception>)
    ensures r.Ok? <==> !data.JNull? && forall k :: k in RequiredKeys ==> Truthy(Get(data, k))
    ensures data.JNull? ==> r == Err(NullReadError("name"))
    ensures !data.JNull? && r.Err? ==> r.error == MissingFieldsError
    ensures r.Ok? ==> r.value == [
      TimeCell(now),
      ValueCell(Get(data, "name").value),
      ValueCell(Get(data, "email").value),
      ValueCell(OrEmpty(Get(data, "company"))),
      ValueCell(Get(data, "subject").value),
      ValueCell(Get(data, "message").value)]
  {
    var check := RequiredCheck(data, RequiredKeys);
    if check.Some? then Err(check.value)
    else
      assert "name" in RequiredKeys && "email" in RequiredKeys;
      assert "subject" in RequiredKeys && "message" in RequiredKeys;
      Ok([TimeCell(now),
          CellOf(Get(data, "name")),
          CellOf(Get(data, "email")),
          ValueCell(OrEmpty(Get(data, "company"))),
          CellOf(Get(data, "subject")),
          CellOf(Get(data, "message"))])
  }

  /** The notification: every field, the company shown as 'Not provided' when falsy, the time, and the count. */
  function NotificationMail(to: string, data: Json, now: Instant, total: int): Mail {
    var company := Get(data, "company");
    Mail(to, MailSubject, [
      MailLine("Name", [CellOf(Get(data, "name"))]),
      MailLine("Email", [CellOf(Get(data, "email"))]),
      MailLine("Company", [if Truthy(company) then ValueCell(company.value) else ValueCell(JString("Not provided"))]),
      MailLine("Subject", [CellOf(Get(data, "subject"))]),
      MailLine("Message", [CellOf(Get(data, "message"))]),
      MailLine("Time", [TimeCell(now)])],
      total)
  }

  /**
   * The notification reports the stored submission: each line shows the cell
   * the row holds for that field, in the row's order, with an empty company
   * shown as 'Not provided', and the time line shows the row's timestamp.
   */
  lemma NotificationReportsRow(to: string, data: Json, now: Instant, total: int)
    requires Intake(data, now).Ok?
    ensures var row := Intake(data, now).value;
      var m := NotificationMail(to, data, now, total);
      && m.to == to && m.subject == MailSubject && m.total == total
      && |m.lines| == 6
      && m.lines[0] == MailLine("Name", [row[1]])
      && m.lines[1] == MailLine("Email", [row[2]])
      && m.lines[2] == MailLine("Company", [if row[3] == ValueCell(JString("")) then ValueCell(JString("Not provided")) else row[3]])
      && m.lines[3] == MailLine("Subject", [row[4]])
      && m.lines[4] == MailLine("Message", [row[5]])
      && m.lines[5] == MailLine("Time", [row[0]])
  {
    var company := Get(data, "company");
    assert Truthy(company) ==> OrEmpty(company) != JString("");
  }

  /**
   * How the mail step ends, given the configured address `to` and the row
   * count `total`: with no address, no mail and success; when sending throws,
   * no mail and the caught error; otherwise one more mail and success.
   */
  predicate Notified(before: seq<Mail>, after: seq<Mail>, out: Output, to: Option<string>,
                     mailFault: Option<Exception>, data: Json, now: Instant, total: int)
  {
    if !TruthyString(to) then
      after == before && out == JsonOutput(Success(SuccessMessage))
    else if mailFault.Some? then
      after == before && out == Caught(mailFault.value)
    else
      after == before + [NotificationMail(to.value, data, now, total)] && out == JsonOutput(Success(SuccessMessage))
  }

  /** The script's deployment: the active sheet, the mail sent so far and the script properties. */
  class Deployment {
    /** The rows of the active sheet; the first is the header. */
    var rows: seq<Row>
    /** The messages `MailApp.sendEmail` has delivered. */
    var sent: seq<Mail>
    /** `PropertiesService.getScriptProperties()`. */
    var properties: map<string, string>

    constructor (rows: seq<Row>, properties: map<string, string>)
      ensures this.rows == rows && this.properties == properties && sent == []
    {
      this.rows := rows;
      this.properties := properties;
      sent := [];
    }

    /**
     * `doPost`. `parse` stands for `JSON.parse` (an error is a thrown
     * SyntaxError), `now` for `new Date()`, and `mailFault` for an error
     * `MailApp.sendEmail` throws. The sheet only grows, by at most the one row
     * `Intake` builds; every path ends in a JSON envelope.
     */
    method DoPost(e: Event, parse: string -> Result<Json, Exception>, now: Instant, mailFault: Option<Exception>)
      returns (out: Output)
      modifies this`rows, this`sent
      ensures out.JsonOutput?
      ensures !HasPayload(e) ==>
                out == Caught(NoDataError)
                && rows == old(rows) && sent == old(sent)
      ensures HasPayload(e) && parse(e.postData.value.contents).Err? ==>
                out == Caught(parse(e.postData.value.contents).error)
                && rows == old(rows) && sent == old(sent)
      ensures HasPayload(e) && parse(e.postData.value.contents).Ok? ==>
                var data := parse(e.postData.value.contents).value;
                match Intake(data, now)
                case Err(x) =>
                  out == Caught(x) && rows == old(rows) && sent == old(sent)
                case Ok(row) =>
                  && rows == old(rows) + [row]
                  && Notified(old(sent), sent, out, NotificationAddress(properties), mailFault, data, now, |rows| - 1)
    {
      if !HasPayload(e) {
        return Caught(NoDataError);
      }
      var parsed := parse(e.postData.value.contents);
      if parsed.Err? {
        return Caught(parsed.error);
      }
      var data := parsed.value;
      var checked := Intake(data, now);
      if checked.Err? {
        return Caught(checked.error);
      }
      out := StoreAndNotify(data, checked.value, now, mailFault);
    }

    /**
     * The rest of `doPost` once the row is built: the row is appended, then
     * the notification goes to the configured address unless sending throws;
     * with no address configured the script logs and still succeeds.
     */
    method StoreAndNotify(data: Json, row: Row, now: Instant, mailFault: Option<Exception>) returns (out: Output)
      modifies this`rows, this`sent
      ensures rows == old(rows) + [row]
      ensures Notified(old(sent), sent, out, NotificationAddress(properties), mailFault, data, now, |rows| - 1)
    {
      rows := rows + [row];
      var notificationEmail := NotificationAddress(properties);
      if TruthyString(notificationEmail) {
        if mailFault.Some? {
          return Caught(mailFault.value);
        }
        sent := sent + [NotificationMail(notificationEmail.value, data, now, |rows| - 1)];
      }
      // else: console.error and carry on without mail
      return JsonOutput(Success(SuccessMessage));
    }

    /** `doGet`: the fixed liveness text, and nothing changes. */
    method DoGet(e: Event) returns (out: Output)
      ensures out == TextOutput("NeuroStream Contact API is working!")
    {
      return TextOutput(LivenessText);
    }
  }
}
