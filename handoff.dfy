/**
 * From the browser to the sheet: a record the page's schema accepts, sent as
 * `JSON.stringify(formData)` and parsed back by the intake script, passes the
 * script's required-field guard and becomes exactly the row below. `d` has
 * every key of the blank record, as `FormPage.Valid()` keeps for `formData`.
 */
module Handoff {
  import opened Wrappers
  import opened Js
  import opened Schema
  import opened AppsScript
  import ContactForm
  import WaitlistForm
  import ContactScript
  import WaitlistScript
  import opened FormPipeline

  /** An optional field as the row stores it: `data.x || ''` of a string property. */
  function StoredOptional(d: map<string, string>, key: string): string {
    if key in d then d[key] else ""
  }

  /** A property of the serialized record is the string stored under its key. */
  lemma GetSerialized(d: map<string, string>, key: string)
    requires key in d
    ensures Get(Serialize(d), key) == Some(JString(d[key]))
  {
  }

  /** A record with every key of the blank contact record. */
  lemma ContactRecordKeys(d: map<string, string>)
    requires ContactForm.BlankContact.Keys <= d.Keys
    ensures "name" in d && "email" in d && "company" in d && "subject" in d && "message" in d
  {
  }

  /** Every key the contact script requires is a non-empty string in a record that keeps the page's rules. */
  lemma ContactRequiredPresent(d: map<string, string>, isEmail: string -> bool)
    requires "name" in d && "email" in d && "company" in d && "subject" in d && "message" in d
    requires ContactForm.ContactValid(d, isEmail)
    ensures forall k :: k in ContactScript.RequiredKeys ==> Truthy(Get(Serialize(d), k))
  {
    GetSerialized(d, "name");
    GetSerialized(d, "email");
    GetSerialized(d, "subject");
    GetSerialized(d, "message");
    forall k | k in ContactScript.RequiredKeys ensures Truthy(Get(Serialize(d), k)) {
      assert k == "name" || k == "email" || k == "subject" || k == "message";
    }
  }

  /** The row the contact script appends for a serialized record that passes its guard. */
  lemma ContactRow(d: map<string, string>, now: Instant)
    requires "name" in d && "email" in d && "company" in d && "subject" in d && "message" in d
    requires forall k :: k in ContactScript.RequiredKeys ==> Truthy(Get(Serialize(d), k))
    ensures ContactScript.Intake(Serialize(d), now) == Ok([
      TimeCell(now),
      ValueCell(JString(d["name"])),
      ValueCell(JString(d["email"])),
      ValueCell(JString(StoredOptional(d, "company"))),
      ValueCell(JString(d["subject"])),
      ValueCell(JString(d["message"]))])
  {
    GetSerialized(d, "name");
    GetSerialized(d, "email");
    GetSerialized(d, "company");
    GetSerialized(d, "subject");
    GetSerialized(d, "message");
  }

  lemma ContactSubmissionStored(d: map<string, string>, isEmail: string -> bool, now: Instant)
    requires ContactForm.BlankContact.Keys <= d.Keys
    requires Violations(ContactForm.ContactSchema, d, isEmail) == []
    ensures ContactScript.Intake(Serialize(d), now) == Ok([
      TimeCell(now),
      ValueCell(JString(d["name"])),
      ValueCell(JString(d["email"])),
      ValueCell(JString(StoredOptional(d, "company"))),
      ValueCell(JString(d["subject"])),
      ValueCell(JString(d["message"]))])
  {
    ContactRecordKeys(d);
    assert ContactForm.ContactValid(d, isEmail) by {
      ContactForm.ContactValidIff(d, isEmail);
    }
    ContactRequiredPresent(d, isEmail);
    ContactRow(d, now);
  }

  /** A record with every key of the blank waitlist record. */
  lemma WaitlistRecordKeys(d: map<string, string>)
    requires WaitlistForm.BlankWaitlist.Keys <= d.Keys
    ensures "firstName" in d && "lastName" in d && "email" in d && "company" in d && "role" in d && "useCase" in d
  {
  }

  /** Every key the waitlist script requires is a non-empty string in a record that keeps the page's rules. */
  lemma WaitlistRequiredPresent(d: map<string, string>, isEmail: string -> bool)
    requires "firstName" in d && "lastName" in d && "email" in d && "company" in d && "role" in d && "useCase" in d
    requires WaitlistForm.WaitlistValid(d, isEmail)
    ensures forall k :: k in WaitlistScript.RequiredKeys ==> Truthy(Get(Serialize(d), k))
  {
    GetSerialized(d, "firstName");
    GetSerialized(d, "lastName");
    GetSerialized(d, "email");
    GetSerialized(d, "company");
    GetSerialized(d, "role");
    forall k | k in WaitlistScript.RequiredKeys ensures Truthy(Get(Serialize(d), k)) {
      assert k == "firstName" || k == "lastName" || k == "email" || k == "company" || k == "role";
    }
  }

  /** The row the waitlist script appends for a serialized record that passes its guard. */
  lemma WaitlistRow(d: map<string, string>, now: Instant)
    requires "firstName" in d && "lastName" in d && "email" in d && "company" in d && "role" in d && "useCase" in d
    requires forall k :: k in WaitlistScript.RequiredKeys ==> Truthy(Get(Serialize(d), k))
    ensures WaitlistScript.Intake(Serialize(d), now) == Ok([
      TimeCell(now),
      ValueCell(JString(d["firstName"])),
      ValueCell(JString(d["lastName"])),
      ValueCell(JString(d["email"])),
      ValueCell(JString(d["company"])),
      ValueCell(JString(d["role"])),
      ValueCell(JString(StoredOptional(d, "useCase")))])
  {
    GetSerialized(d, "firstName");
    GetSerialized(d, "lastName");
    GetSerialized(d, "email");
    GetSerialized(d, "company");
    GetSerialized(d, "role");
    GetSerialized(d, "useCase");
  }

  lemma WaitlistSubmissionStored(d: map<string, string>, isEmail: string -> bool, now: Instant)
    requires WaitlistForm.BlankWaitlist.Keys <= d.Keys
    requires Violations(WaitlistForm.WaitlistSchema, d, isEmail) == []
    ensures WaitlistScript.Intake(Serialize(d), now) == Ok([
      TimeCell(now),
      ValueCell(JString(d["firstName"])),
      ValueCell(JString(d["lastName"])),
      ValueCell(JString(d["email"])),
      ValueCell(JString(d["company"])),
      ValueCell(JString(d["role"])),
      ValueCell(JString(StoredOptional(d, "useCase")))])
  {
    WaitlistRecordKeys(d);
    assert WaitlistForm.WaitlistValid(d, isEmail) by {
      WaitlistForm.WaitlistValidIff(d, isEmail);
    }
    WaitlistRequiredPresent(d, isEmail);
    WaitlistRow(d, now);
  }

  /**
   * A contact page's submit, followed to the sheet: the request it sends, if
   * any, carries the record as it was when submitted, and the contact script's
   * intake turns that body into the record's own row.
   */
  method SubmitContact(page: FormPage, isEmail: string -> bool, scriptUrl: Option<string>,
                       outcome: FetchOutcome, now: Instant) returns (request: Option<Post>)
    requires page.Valid() && page.schema == ContactForm.ContactSchema && page.blank == ContactForm.BlankContact
    modifies page`formData, page`formErrors, page`isSubmitting, page`submitStatus
    ensures page.Valid()
    ensures request.Some? ==>
              var d := old(page.formData);
              request.value.body == Serialize(d)
              && ContactScript.Intake(request.value.body, now) == Ok([
                TimeCell(now),
                ValueCell(JString(d["name"])),
                ValueCell(JString(d["email"])),
                ValueCell(JString(StoredOptional(d, "company"))),
                ValueCell(JString(d["subject"])),
                ValueCell(JString(d["message"]))])
  {
    ghost var d := page.formData;
    request := page.HandleSubmit(isEmail, scriptUrl, outcome);
    if request.Some? {
      ContactSubmissionStored(d, isEmail, now);
    }
  }

  /** The same for the waitlist page and the waitlist script. */
  method SubmitWaitlist(page: FormPage, isEmail: string -> bool, scriptUrl: Option<string>,
                        outcome: FetchOutcome, now: Instant) returns (request: Option<Post>)
    requires page.Valid() && page.schema == WaitlistForm.WaitlistSchema && page.blank == WaitlistForm.BlankWaitlist
    modifies page`formData, page`formErrors, page`isSubmitting, page`submitStatus
    ensures page.Valid()
    ensures request.Some? ==>
              var d := old(page.formData);
              request.value.body == Serialize(d)
              && WaitlistScript.Intake(request.value.body, now) == Ok([
                TimeCell(now),
                ValueCell(JString(d["firstName"])),
                ValueCell(JString(d["lastName"])),
                ValueCell(JString(d["email"])),
                ValueCell(JString(d["company"])),
                ValueCell(JString(d["role"])),
                ValueCell(JString(StoredOptional(d, "useCase")))])
  {
    ghost var d := page.formData;
    request := page.HandleSubmit(isEmail, scriptUrl, outcome);
    if request.Some? {
      WaitlistSubmissionStored(d, isEmail, now);
    }
  }
}
