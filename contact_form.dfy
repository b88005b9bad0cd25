/** The contact page's schema, its blank record, and what validation means for it. */
module ContactForm {
  import opened Wrappers
  import opened Js
  import opened Schema
  import opened FormPipeline

  const NameField := Field("name", [
    Required("Name is required"),
    Max(100, "Name must be less than 100 characters"),
    NamePattern("Name contains invalid characters")])
  const EmailField := Field("email", [
    Required("Email is required"),
    Email("Please enter a valid email address"),
    Max(254, "Email address is too long")])
  const CompanyField := Field("company", [
    Max(100, "Company name must be less than 100 characters")])
  const SubjectField := Field("subject", [
    Required("Subject is required"),
    Max(200, "Subject must be less than 200 characters")])
  const MessageField := Field("message", [
    Required("Message is required"),
    Max(5000, "Message must be less than 5000 characters")])

  const ContactSchema: ObjectSchema := [NameField, EmailField, CompanyField, SubjectField, MessageField]

  const BlankContact: map<string, string> :=
    map["name" := "", "email" := "", "company" := "", "subject" := "", "message" := ""]

  /** The contact page as it mounts. */
  method NewContactPage() returns (page: FormPage)
    ensures fresh(page) && page.Valid()
    ensures page.schema == ContactSchema && page.blank == BlankContact
    ensures page.formData == BlankContact && page.formErrors == map[]
    ensures !page.isSubmitting && page.submitStatus == NoStatus
  {
    page := new FormPage(ContactSchema, BlankContact);
  }

  // The rules of each field, written out independently of the schema.

  predicate NameOk(v: Option<string>) {
    v.Some? && v.value != "" && Utf16Length(v.value) <= 100 && MatchesNamePattern(v.value)
  }

  predicate EmailOk(v: Option<string>, isEmail: string -> bool) {
    v.Some? && v.value != "" && isEmail(v.value) && Utf16Length(v.value) <= 254
  }

  predicate CompanyOk(v: Option<string>) {
    v.None? || Utf16Length(v.value) <= 100
  }

  predicate SubjectOk(v: Option<string>) {
    v.Some? && v.value != "" && Utf16Length(v.value) <= 200
  }

  predicate MessageOk(v: Option<string>) {
    v.Some? && v.value != "" && Utf16Length(v.value) <= 5000
  }

  predicate ContactValid(d: map<string, string>, isEmail: string -> bool) {
    && NameOk(Lookup(d, "name"))
    && EmailOk(Lookup(d, "email"), isEmail)
    && CompanyOk(Lookup(d, "company"))
    && SubjectOk(Lookup(d, "subject"))
    && MessageOk(Lookup(d, "message"))
  }

  /** The name rules agree with the schema's tests for `name`. */
  lemma NameFieldOk(d: map<string, string>, isEmail: string -> bool)
    ensures FieldOk(NameField, d, isEmail) <==> NameOk(Lookup(d, "name"))
  {
    var v, rs := Lookup(d, "name"), NameField.rules;
    assert FieldOk(NameField, d, isEmail) <==> Passes(rs[0], v, isEmail) && Passes(rs[1], v, isEmail) && Passes(rs[2], v, isEmail);
  }

  lemma EmailFieldOk(d: map<string, string>, isEmail: string -> bool)
    ensures FieldOk(EmailField, d, isEmail) <==> EmailOk(Lookup(d, "email"), isEmail)
  {
    var v, rs := Lookup(d, "email"), EmailField.rules;
    assert FieldOk(EmailField, d, isEmail) <==> Passes(rs[0], v, isEmail) && Passes(rs[1], v, isEmail) && Passes(rs[2], v, isEmail);
  }

  lemma CompanyFieldOk(d: map<string, string>, isEmail: string -> bool)
    ensures FieldOk(CompanyField, d, isEmail) <==> CompanyOk(Lookup(d, "company"))
  {
    var v, rs := Lookup(d, "company"), CompanyField.rules;
    assert FieldOk(CompanyField, d, isEmail) <==> Passes(rs[0], v, isEmail);
  }

  lemma SubjectFieldOk(d: map<string, string>, isEmail: string -> bool)
    ensures FieldOk(SubjectField, d, isEmail) <==> SubjectOk(Lookup(d, "subject"))
  {
    var v, rs := Lookup(d, "subject"), SubjectField.rules;
    assert FieldOk(SubjectField, d, isEmail) <==> Passes(rs[0], v, isEmail) && Passes(rs[1], v, isEmail);
  }

  lemma MessageFieldOk(d: map<string, string>, isEmail: string -> bool)
    ensures FieldOk(MessageField, d, isEmail) <==> MessageOk(Lookup(d, "message"))
  {
    var v, rs := Lookup(d, "message"), MessageField.rules;
    assert FieldOk(MessageField, d, isEmail) <==> Passes(rs[0], v, isEmail) && Passes(rs[1], v, isEmail);
  }

  lemma ContactDistinct()
    ensures DistinctPaths(ContactSchema)
  {
  }

  /** After a validation pass, `name` has an error exactly when its rules are broken; likewise below. */
  lemma NameError(d: map<string, string>, isEmail: string -> bool)
    ensures "name" in ErrorMap(Violations(ContactSchema, d, isEmail)) <==> !NameOk(Lookup(d, "name"))
  {
    ContactDistinct();
    assert ContactSchema[0] == NameField;
    ErrorAt(ContactSchema, d, isEmail, 0);
    NameFieldOk(d, isEmail);
  }

  lemma EmailError(d: map<string, string>, isEmail: string -> bool)
    ensures "email" in ErrorMap(Violations(ContactSchema, d, isEmail)) <==> !EmailOk(Lookup(d, "email"), isEmail)
  {
    ContactDistinct();
    assert ContactSchema[1] == EmailField;
    ErrorAt(ContactSchema, d, isEmail, 1);
    EmailFieldOk(d, isEmail);
  }

  lemma CompanyError(d: map<string, string>, isEmail: string -> bool)
    ensures "company" in ErrorMap(Violations(ContactSchema, d, isEmail)) <==> !CompanyOk(Lookup(d, "company"))
  {
    ContactDistinct();
    assert ContactSchema[2] == CompanyField;
    ErrorAt(ContactSchema, d, isEmail, 2);
    CompanyFieldOk(d, isEmail);
  }

  lemma SubjectError(d: map<string, string>, isEmail: string -> bool)
    ensures "subject" in ErrorMap(Violations(ContactSchema, d, isEmail)) <==> !SubjectOk(Lookup(d, "subject"))
  {
    ContactDistinct();
    assert ContactSchema[3] == SubjectField;
    ErrorAt(ContactSchema, d, isEmail, 3);
    SubjectFieldOk(d, isEmail);
  }

  lemma MessageError(d: map<string, string>, isEmail: string -> bool)
    ensures "message" in ErrorMap(Violations(ContactSchema, d, isEmail)) <==> !MessageOk(Lookup(d, "message"))
  {
    ContactDistinct();
    assert ContactSchema[4] == MessageField;
    ErrorAt(ContactSchema, d, isEmail, 4);
    MessageFieldOk(d, isEmail);
  }

  /** Every key of the schema is one of the record's keys. */
  lemma SchemaKeyInRecord(k: string)
    requires exists i :: 0 <= i < |ContactSchema| && ContactSchema[i].path == k
    ensures k == "name" || k == "email" || k == "company" || k == "subject" || k == "message"
    ensures k in BlankContact
  {
    var i :| 0 <= i < |ContactSchema| && ContactSchema[i].path == k;
    if i == 0 {} else if i == 1 {} else if i == 2 {} else if i == 3 {} else {}
  }

  /** The error map names only the schema's keys. */
  lemma ErrorKeyNames(d: map<string, string>, isEmail: string -> bool)
    ensures forall k :: k in ErrorMap(Violations(ContactSchema, d, isEmail)) ==> k == "name" || k == "email" || k == "company" || k == "subject" || k == "message"
  {
    ErrorKeysWithin(ContactSchema, d, isEmail);
    forall k | k in ErrorMap(Violations(ContactSchema, d, isEmail)) ensures k == "name" || k == "email" || k == "company" || k == "subject" || k == "message" {
      SchemaKeyInRecord(k);
    }
  }

  /** The error map names no key outside the contact record. */
  lemma ErrorKeys(d: map<string, string>, isEmail: string -> bool)
    ensures ErrorMap(Violations(ContactSchema, d, isEmail)).Keys <= BlankContact.Keys
  {
    ErrorKeysWithin(ContactSchema, d, isEmail);
    forall k | k in ErrorMap(Violations(ContactSchema, d, isEmail)) ensures k in BlankContact {
      SchemaKeyInRecord(k);
    }
  }

  /**
   * A validation pass of the contact record reports an error for exactly the
   * fields that break their rules, and for no other key.
   */
  lemma ContactErrors(d: map<string, string>, isEmail: string -> bool)
    ensures var errs := ErrorMap(Violations(ContactSchema, d, isEmail));
      && errs.Keys <= BlankContact.Keys
      && ("name" in errs <==> !NameOk(Lookup(d, "name")))
      && ("email" in errs <==> !EmailOk(Lookup(d, "email"), isEmail))
      && ("company" in errs <==> !CompanyOk(Lookup(d, "company")))
      && ("subject" in errs <==> !SubjectOk(Lookup(d, "subject")))
      && ("message" in errs <==> !MessageOk(Lookup(d, "message")))
  {
    ErrorKeys(d, isEmail);
    NameError(d, isEmail);
    EmailError(d, isEmail);
    CompanyError(d, isEmail);
    SubjectError(d, isEmail);
    MessageError(d, isEmail);
  }

  /** A record that keeps every rule leaves the error map empty. */
  lemma NoErrorsWhenValid(d: map<string, string>, isEmail: string -> bool)
    requires ContactValid(d, isEmail)
    ensures ErrorMap(Violations(ContactSchema, d, isEmail)) == map[]
  {
    var errs := ErrorMap(Violations(ContactSchema, d, isEmail));
    ErrorKeyNames(d, isEmail);
    NameError(d, isEmail);
    EmailError(d, isEmail);
    CompanyError(d, isEmail);
    SubjectError(d, isEmail);
    MessageError(d, isEmail);
    assert forall k :: k !in errs;
  }

  /** A record that breaks some rule leaves an error in the map. */
  lemma ErrorsWhenInvalid(d: map<string, string>, isEmail: string -> bool)
    requires !ContactValid(d, isEmail)
    ensures ErrorMap(Violations(ContactSchema, d, isEmail)) != map[]
  {
    if !NameOk(Lookup(d, "name")) {
      NameError(d, isEmail);
    } else if !EmailOk(Lookup(d, "email"), isEmail) {
      EmailError(d, isEmail);
    } else if !CompanyOk(Lookup(d, "company")) {
      CompanyError(d, isEmail);
    } else if !SubjectOk(Lookup(d, "subject")) {
      SubjectError(d, isEmail);
    } else {
      MessageError(d, isEmail);
    }
  }

  /** The record passes, and the error map is empty, exactly when every field keeps its rules. */
  lemma ContactValidIff(d: map<string, string>, isEmail: string -> bool)
    ensures Violations(ContactSchema, d, isEmail) == [] <==> ContactValid(d, isEmail)
    ensures ErrorMap(Violations(ContactSchema, d, isEmail)) == map[] <==> ContactValid(d, isEmail)
  {
    ErrorMapEmpty(Violations(ContactSchema, d, isEmail));
    if ContactValid(d, isEmail) {
      NoErrorsWhenValid(d, isEmail);
    } else {
      ErrorsWhenInvalid(d, isEmail);
    }
  }

  /** The tests an empty name fails, in order: `required`, then `matches`. */
  lemma EmptyNameViolations(isEmail: string -> bool)
    ensures FieldViolations("name", NameField.rules, Some(""), isEmail)
        == [Violation("name", "Name is required"), Violation("name", "Name contains invalid characters")]
  {
  }

  /**
   * An empty name fails both `required` and `matches`; the later error in
   * `inner` overwrites the earlier, so the page shows the character-class
   * message.
   */
  lemma EmptyNameMessage(d: map<string, string>, isEmail: string -> bool)
    requires Lookup(d, "name") == Some("")
    ensures var errs := ErrorMap(Violations(ContactSchema, d, isEmail));
      "name" in errs && errs["name"] == "Name contains invalid characters"
  {
    ContactDistinct();
    EmptyNameViolations(isEmail);
    ErrorAt(ContactSchema, d, isEmail, 0);
  }

  /** The only test a well-formed name over 100 code units fails is `max`. */
  lemma LongNameViolations(name: string, isEmail: string -> bool)
    requires MatchesNamePattern(name) && Utf16Length(name) > 100
    ensures FieldViolations("name", NameField.rules, Some(name), isEmail)
        == [Violation("name", "Name must be less than 100 characters")]
  {
  }

  /** A well-formed name that is too long shows the length message. */
  lemma LongNameMessage(d: map<string, string>, isEmail: string -> bool)
    requires Lookup(d, "name").Some? && MatchesNamePattern(d["name"]) && Utf16Length(d["name"]) > 100
    ensures var errs := ErrorMap(Violations(ContactSchema, d, isEmail));
      "name" in errs && errs["name"] == "Name must be less than 100 characters"
  {
    ContactDistinct();
    LongNameViolations(d["name"], isEmail);
    ErrorAt(ContactSchema, d, isEmail, 0);
  }
}
