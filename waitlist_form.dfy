/** The waitlist page's schema, its blank record, its role list, and what validation means for it. */
module WaitlistForm {
  import opened Wrappers
  import opened Js
  import opened Schema
  import opened FormPipeline

  const FirstNameField := Field("firstName", [
    Required("First name is required"),
    Max(50, "First name must be less than 50 characters"),
    NamePattern("First name contains invalid characters")])
  const LastNameField := Field("lastName", [
    Required("Last name is required"),
    Max(50, "Last name must be less than 50 characters"),
    NamePattern("Last name contains invalid characters")])
  const EmailField := Field("email", [
    Required("Email is required"),
    Email("Please enter a valid email address"),
    Max(254, "Email address is too long")])
  const CompanyField := Field("company", [
    Required("Company is required"),
    Max(100, "Company name must be less than 100 characters")])
  const RoleField := Field("role", [
    Required("Please select your role")])
  const UseCaseField := Field("useCase", [
    Max(2000, "Use case description must be less than 2000 characters")])

  const WaitlistSchema: ObjectSchema :=
    [FirstNameField, LastNameField, EmailField, CompanyField, RoleField, UseCaseField]

  const BlankWaitlist: map<string, string> :=
    map["firstName" := "", "lastName" := "", "email" := "", "company" := "", "role" := "", "useCase" := ""]

  /** The options of the role `<select>`. */
  const Roles: seq<string> := [
    "Data Engineer", "Analytics Engineer", "Data Analyst", "ML Engineer",
    "Product Manager", "Engineering Manager", "CTO/VP Engineering", "Other"]

  /** The waitlist page as it mounts. */
  method NewWaitlistPage() returns (page: FormPage)
    ensures fresh(page) && page.Valid()
    ensures page.schema == WaitlistSchema && page.blank == BlankWaitlist
    ensures page.formData == BlankWaitlist && page.formErrors == map[]
    ensures !page.isSubmitting && page.submitStatus == NoStatus
  {
    page := new FormPage(WaitlistSchema, BlankWaitlist);
  }

  // The rules of each field, written out independently of the schema.

  /** First and last name: required, at most 50 code units, letters, whitespace, `'` and `-`. */
  predicate PersonNameOk(v: Option<string>) {
    v.Some? && v.value != "" && Utf16Length(v.value) <= 50 && MatchesNamePattern(v.value)
  }

  predicate EmailOk(v: Option<string>, isEmail: string -> bool) {
    v.Some? && v.value != "" && isEmail(v.value) && Utf16Length(v.value) <= 254
  }

  predicate CompanyOk(v: Option<string>) {
    v.Some? && v.value != "" && Utf16Length(v.value) <= 100
  }

  /** Only presence is checked: the schema does not restrict the role to `Roles`. */
  predicate RoleOk(v: Option<string>) {
    v.Some? && v.value != ""
  }

  predicate UseCaseOk(v: Option<string>) {
    v.None? || Utf16Length(v.value) <= 2000
  }

  predicate WaitlistValid(d: map<string, string>, isEmail: string -> bool) {
    && PersonNameOk(Lookup(d, "firstName"))
    && PersonNameOk(Lookup(d, "lastName"))
    && EmailOk(Lookup(d, "email"), isEmail)
    && CompanyOk(Lookup(d, "company"))
    && RoleOk(Lookup(d, "role"))
    && UseCaseOk(Lookup(d, "useCase"))
  }

  lemma FirstNameFieldOk(d: map<string, string>, isEmail: string -> bool)
    ensures FieldOk(FirstNameField, d, isEmail) <==> PersonNameOk(Lookup(d, "firstName"))
  {
    var v, rs := Lookup(d, "firstName"), FirstNameField.rules;
    assert FieldOk(FirstNameField, d, isEmail) <==> Passes(rs[0], v, isEmail) && Passes(rs[1], v, isEmail) && Passes(rs[2], v, isEmail);
  }

  lemma LastNameFieldOk(d: map<string, string>, isEmail: string -> bool)
    ensures FieldOk(LastNameField, d, isEmail) <==> PersonNameOk(Lookup(d, "lastName"))
  {
    var v, rs := Lookup(d, "lastName"), LastNameField.rules;
    assert FieldOk(LastNameField, d, isEmail) <==> Passes(rs[0], v, isEmail) && Passes(rs[1], v, isEmail) && Passes(rs[2], v, isEmail);
  }

  lemma EmailFieldOk(d: map<string, string>, isEmail: string -> bool)
    ensures FieldOk(EmailField, d, isEmail) <==> EmailOk(Lookup(d, "email"), isEmail)
  {
    var v, rs := Lookup(d, "email"), EmailField.rules;
    assert FieldOk(EmailField, d, isEmail) <==> Passes(rs[0], v, isEmail) && Passes(rs[1], v, isEmail) && Passes(rs[2], v, isEmail);
  }

  lemma CompanyFieldOk(d: map<string, string>, isEmail: string -> bool)
    ensures FieldOk(CompanyField, d, isEmail) <==> CompanyOk(Lookup(d, "company"))
  {
    var v, rs := Lookup(d, "company"), CompanyField.rules;
    assert FieldOk(CompanyField, d, isEmail) <==> Passes(rs[0], v, isEmail) && Passes(rs[1], v, isEmail);
  }

  lemma RoleFieldOk(d: map<string, string>, isEmail: string -> bool)
    ensures FieldOk(RoleField, d, isEmail) <==> RoleOk(Lookup(d, "role"))
  {
    var v, rs := Lookup(d, "role"), RoleField.rules;
    assert FieldOk(RoleField, d, isEmail) <==> Passes(rs[0], v, isEmail);
  }

  lemma UseCaseFieldOk(d: map<string, string>, isEmail: string -> bool)
    ensures FieldOk(UseCaseField, d, isEmail) <==> UseCaseOk(Lookup(d, "useCase"))
  {
    var v, rs := Lookup(d, "useCase"), UseCaseField.rules;
    assert FieldOk(UseCaseField, d, isEmail) <==> Passes(rs[0], v, isEmail);
  }

  lemma WaitlistDistinct()
    ensures DistinctPaths(WaitlistSchema)
  {
  }

  /** After a validation pass, `firstName` has an error exactly when its rules are broken; likewise below. */
  lemma FirstNameError(d: map<string, string>, isEmail: string -> bool)
    ensures "firstName" in ErrorMap(Violations(WaitlistSchema, d, isEmail)) <==> !PersonNameOk(Lookup(d, "firstName"))
  {
    WaitlistDistinct();
    assert WaitlistSchema[0] == FirstNameField;
    ErrorAt(WaitlistSchema, d, isEmail, 0);
    FirstNameFieldOk(d, isEmail);
  }

  lemma LastNameError(d: map<string, string>, isEmail: string -> bool)
    ensures "lastName" in ErrorMap(Violations(WaitlistSchema, d, isEmail)) <==> !PersonNameOk(Lookup(d, "lastName"))
  {
    WaitlistDistinct();
    assert WaitlistSchema[1] == LastNameField;
    ErrorAt(WaitlistSchema, d, isEmail, 1);
    LastNameFieldOk(d, isEmail);
  }

  lemma EmailError(d: map<string, string>, isEmail: string -> bool)
    ensures "email" in ErrorMap(Violations(WaitlistSchema, d, isEmail)) <==> !EmailOk(Lookup(d, "email"), isEmail)
  {
    WaitlistDistinct();
    assert WaitlistSchema[2] == EmailField;
    ErrorAt(WaitlistSchema, d, isEmail, 2);
    EmailFieldOk(d, isEmail);
  }

  lemma CompanyError(d: map<string, string>, isEmail: string -> bool)
    ensures "company" in ErrorMap(Violations(WaitlistSchema, d, isEmail)) <==> !CompanyOk(Lookup(d, "company"))
  {
    assert WaitlistSchema[3] == CompanyField;
    WaitlistDistinct();
    ErrorAt(WaitlistSchema, d, isEmail, 3);
    CompanyFieldOk(d, isEmail);
  }

  lemma RoleError(d: map<string, string>, isEmail: string -> bool)
    ensures "role" in ErrorMap(Violations(WaitlistSchema, d, isEmail)) <==> !RoleOk(Lookup(d, "role"))
  {
    WaitlistDistinct();
    assert WaitlistSchema[4] == RoleField;
    ErrorAt(WaitlistSchema, d, isEmail, 4);
    RoleFieldOk(d, isEmail);
  }

  lemma UseCaseError(d: map<string, string>, isEmail: string -> bool)
    ensures "useCase" in ErrorMap(Violations(WaitlistSchema, d, isEmail)) <==> !UseCaseOk(Lookup(d, "useCase"))
  {
    WaitlistDistinct();
    assert WaitlistSchema[5] == UseCaseField;
    ErrorAt(WaitlistSchema, d, isEmail, 5);
    UseCaseFieldOk(d, isEmail);
  }

  /** Every key of the schema is one of the record's keys. */
  lemma SchemaKeyInRecord(k: string)
    requires exists i :: 0 <= i < |WaitlistSchema| && WaitlistSchema[i].path == k
    ensures k == "firstName" || k == "lastName" || k == "email" || k == "company" || k == "role" || k == "useCase"
    ensures k in BlankWaitlist
  {
    var i :| 0 <= i < |WaitlistSchema| && WaitlistSchema[i].path == k;
    if i == 0 {} else if i == 1 {} else if i == 2 {} else if i == 3 {} else if i == 4 {} else {}
  }

  /** The error map names only the schema's keys. */
  lemma ErrorKeyNames(d: map<string, string>, isEmail: string -> bool)
    ensures forall k :: k in ErrorMap(Violations(WaitlistSchema, d, isEmail)) ==> k == "firstName" || k == "lastName" || k == "email" || k == "company" || k == "role" || k == "useCase"
  {
    ErrorKeysWithin(WaitlistSchema, d, isEmail);
    forall k | k in ErrorMap(Violations(WaitlistSchema, d, isEmail)) ensures k == "firstName" || k == "lastName" || k == "email" || k == "company" || k == "role" || k == "useCase" {
      SchemaKeyInRecord(k);
    }
  }

  /** The error map names no key outside the waitlist record. */
  lemma ErrorKeys(d: map<string, string>, isEmail: string -> bool)
    ensures ErrorMap(Violations(WaitlistSchema, d, isEmail)).Keys <= BlankWaitlist.Keys
  {
    ErrorKeysWithin(WaitlistSchema, d, isEmail);
    forall k | k in ErrorMap(Violations(WaitlistSchema, d, isEmail)) ensures k in BlankWaitlist {
      SchemaKeyInRecord(k);
    }
  }

  /**
   * A validation pass of the waitlist record reports an error for exactly the
   * fields that break their rules, and for no other key.
   */
  lemma WaitlistErrors(d: map<string, string>, isEmail: string -> bool)
    ensures var errs := ErrorMap(Violations(WaitlistSchema, d, isEmail));
      && errs.Keys <= BlankWaitlist.Keys
      && ("firstName" in errs <==> !PersonNameOk(Lookup(d, "firstName")))
      && ("lastName" in errs <==> !PersonNameOk(Lookup(d, "lastName")))
      && ("email" in errs <==> !EmailOk(Lookup(d, "email"), isEmail))
      && ("company" in errs <==> !CompanyOk(Lookup(d, "company")))
      && ("role" in errs <==> !RoleOk(Lookup(d, "role")))
      && ("useCase" in errs <==> !UseCaseOk(Lookup(d, "useCase")))
  {
    ErrorKeys(d, isEmail);
    FirstNameError(d, isEmail);
    LastNameError(d, isEmail);
    EmailError(d, isEmail);
    CompanyError(d, isEmail);
    RoleError(d, isEmail);
    UseCaseError(d, isEmail);
  }

  /** A record that keeps every rule leaves the error map empty. */
  lemma NoErrorsWhenValid(d: map<string, string>, isEmail: string -> bool)
    requires WaitlistValid(d, isEmail)
    ensures ErrorMap(Violations(WaitlistSchema, d, isEmail)) == map[]
  {
    var errs := ErrorMap(Violations(WaitlistSchema, d, isEmail));
    ErrorKeyNames(d, isEmail);
    FirstNameError(d, isEmail);
    LastNameError(d, isEmail);
    EmailError(d, isEmail);
    CompanyError(d, isEmail);
    RoleError(d, isEmail);
    UseCaseError(d, isEmail);
    assert forall k :: k !in errs;
  }

  /** A record that breaks some rule leaves an error in the map. */
  lemma ErrorsWhenInvalid(d: map<string, string>, isEmail: string -> bool)
    requires !WaitlistValid(d, isEmail)
    ensures ErrorMap(Violations(WaitlistSchema, d, isEmail)) != map[]
  {
    if !PersonNameOk(Lookup(d, "firstName")) {
      FirstNameError(d, isEmail);
    } else if !PersonNameOk(Lookup(d, "lastName")) {
      LastNameError(d, isEmail);
    } else if !EmailOk(Lookup(d, "email"), isEmail) {
      EmailError(d, isEmail);
    } else if !CompanyOk(Lookup(d, "company")) {
      CompanyError(d, isEmail);
    } else if !RoleOk(Lookup(d, "role")) {
      RoleError(d, isEmail);
    } else {
      UseCaseError(d, isEmail);
    }
  }

  /** The record passes, and the error map is empty, exactly when every field keeps its rules. */
  lemma WaitlistValidIff(d: map<string, string>, isEmail: string -> bool)
    ensures Violations(WaitlistSchema, d, isEmail) == [] <==> WaitlistValid(d, isEmail)
    ensures ErrorMap(Violations(WaitlistSchema, d, isEmail)) == map[] <==> WaitlistValid(d, isEmail)
  {
    ErrorMapEmpty(Violations(WaitlistSchema, d, isEmail));
    if WaitlistValid(d, isEmail) {
      NoErrorsWhenValid(d, isEmail);
    } else {
      ErrorsWhenInvalid(d, isEmail);
    }
  }

  /**
   * The schema checks the role for presence only: in a record that passes,
   * any non-empty role, one of `Roles` or not, passes too. Only the page's
   * `<select>` keeps the role within the list.
   */
  lemma AnyRoleAccepted(d: map<string, string>, isEmail: string -> bool, role: string)
    requires Violations(WaitlistSchema, d, isEmail) == []
    requires role != ""
    ensures Violations(WaitlistSchema, d["role" := role], isEmail) == []
  {
    WaitlistValidIff(d, isEmail);
    var d' := d["role" := role];
    assert Lookup(d', "firstName") == Lookup(d, "firstName");
    assert Lookup(d', "lastName") == Lookup(d, "lastName");
    assert Lookup(d', "email") == Lookup(d, "email");
    assert Lookup(d', "company") == Lookup(d, "company");
    assert Lookup(d', "useCase") == Lookup(d, "useCase");
    WaitlistValidIff(d', isEmail);
  }

  /** A role the `<select>` never offers, such as "Intern", still passes the schema. */
  lemma RoleOutsideListAccepted(d: map<string, string>, isEmail: string -> bool)
    requires Violations(WaitlistSchema, d, isEmail) == []
    ensures "Intern" !in Roles
    ensures Violations(WaitlistSchema, d["role" := "Intern"], isEmail) == []
  {
    AnyRoleAccepted(d, isEmail, "Intern");
  }

  /** The tests an empty first name fails, in order: `required`, then `matches`. */
  lemma EmptyFirstNameViolations(isEmail: string -> bool)
    ensures FieldViolations("firstName", FirstNameField.rules, Some(""), isEmail)
        == [Violation("firstName", "First name is required"), Violation("firstName", "First name contains invalid characters")]
  {
  }

  /** An empty first name shows the character-class message, the later of its two errors. */
  lemma EmptyFirstNameMessage(d: map<string, string>, isEmail: string -> bool)
    requires Lookup(d, "firstName") == Some("")
    ensures var errs := ErrorMap(Violations(WaitlistSchema, d, isEmail));
      "firstName" in errs && errs["firstName"] == "First name contains invalid characters"
  {
    WaitlistDistinct();
    EmptyFirstNameViolations(isEmail);
    ErrorAt(WaitlistSchema, d, isEmail, 0);
  }
}
