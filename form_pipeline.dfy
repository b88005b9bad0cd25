/**
 * The state and handlers that the contact page and the waitlist page share:
 * `formData`, the error map, `isSubmitting` and `submitStatus`, with
 * `validateForm`, `handleInputChange` and `handleSubmit`. The two pages run
 * the same code over their own schema and their own blank record.
 */
module FormPipeline {
  import opened Wrappers
  import opened Js
  import opened Schema

  /** `submitStatus`: `null`, `'success'` or `'error'`. */
  datatype SubmitStatus = NoStatus | Succeeded | Failed

  /**
   * How `await fetch(url, { mode: 'no-cors', ... })` ends: it resolves with an
   * opaque response (nothing of it is read) or it rejects.
   */
  datatype FetchOutcome = Dispatched | Rejected

  /** The request the page sends: the endpoint and `JSON.stringify(formData)`, as the server parses it. */
  datatype Post = Post(url: string, body: Json)

  class FormPage {
    /** The page's `validationSchema`. */
    const schema: ObjectSchema
    /** The record `formData` starts as and is reset to after a successful submit. */
    const blank: map<string, string>

    var formData: map<string, string>
    /** `formErrors` on the contact page, `errors` on the waitlist page. */
    var formErrors: map<string, string>
    var isSubmitting: bool
    var submitStatus: SubmitStatus

    /** Every key of the blank record stays a key of `formData`. */
    ghost predicate Valid()
      reads this
    {
      blank.Keys <= formData.Keys
    }

    /** The component's `useState` initial values. */
    constructor (schema: ObjectSchema, blank: map<string, string>)
      ensures Valid()
      ensures this.schema == schema && this.blank == blank
      ensures formData == blank && formErrors == map[]
      ensures !isSubmitting && submitStatus == NoStatus
    {
      this.schema := schema;
      this.blank := blank;
      formData := blank;
      formErrors := map[];
      isSubmitting := false;
      submitStatus := NoStatus;
    }

    /**
     * `validateForm`: runs the schema over `formData` and stores either the
     * empty map or the map built from `inner`; returns whether it passed.
     */
    method ValidateForm(isEmail: string -> bool) returns (ok: bool)
      modifies this`formErrors
      ensures ok <==> Violations(schema, formData, isEmail) == []
      ensures formErrors == ErrorMap(Violations(schema, formData, isEmail))
      ensures ok <==> formErrors == map[]
    {
      var inner := Violations(schema, formData, isEmail);
      ErrorMapEmpty(inner);
      if inner == [] {
        formErrors := map[];
        return true;
      }
      var newErrors := CollectErrors(inner);
      formErrors := newErrors;
      return false;
    }

    /**
     * `handleInputChange`: stores the sanitized value under the edited field
     * and, when that field shows an error, replaces the error by `''`.
     */
    method HandleInputChange(name: string, value: string, sanitize: string -> string)
      requires Valid()
      modifies this`formData, this`formErrors
      ensures Valid()
      ensures formData == old(formData)[name := sanitize(value)]
      ensures formErrors == if TruthyString(Lookup(old(formErrors), name))
                            then old(formErrors)[name := ""]
                            else old(formErrors)
    {
      var sanitizedValue := sanitize(value);
      formData := formData[name := sanitizedValue];
      if TruthyString(Lookup(formErrors, name)) {
        formErrors := formErrors[name := ""];
      }
    }

    /**
     * `handleSubmit`. A record that fails validation returns at once; otherwise
     * the page posts the record when the endpoint is configured, and ends with
     * `isSubmitting` false and a status: `'success'` with a blank record when
     * the request was dispatched, `'error'` with the record kept when the
     * endpoint is missing or the request rejects. Returns the request sent,
     * if any.
     */
    method HandleSubmit(isEmail: string -> bool, scriptUrl: Option<string>, outcome: FetchOutcome)
      returns (request: Option<Post>)
      requires Valid()
      modifies this`formData, this`formErrors, this`isSubmitting, this`submitStatus
      ensures Valid()
      ensures formErrors == ErrorMap(Violations(schema, old(formData), isEmail))
      ensures Violations(schema, old(formData), isEmail) != [] ==>
                && request == None
                && formData == old(formData)
                && isSubmitting == old(isSubmitting)
                && submitStatus == old(submitStatus)
      ensures Violations(schema, old(formData), isEmail) == [] ==>
                && !isSubmitting
                && request == (if TruthyString(scriptUrl)
                               then Some(Post(scriptUrl.value, Serialize(old(formData))))
                               else None)
                && (if TruthyString(scriptUrl) && outcome == Dispatched
                    then submitStatus == Succeeded && formData == blank
                    else submitStatus == Failed && formData == old(formData))
    {
      var valid := ValidateForm(isEmail);
      if !valid {
        return None;
      }
      isSubmitting := true;
      submitStatus := NoStatus;
      if !TruthyString(scriptUrl) {
        // throw new Error('... URL not configured'), caught below
        request := None;
        submitStatus := Failed;
      } else {
        request := Some(Post(scriptUrl.value, Serialize(formData)));
        if outcome == Dispatched {
          submitStatus := Succeeded;
          formData := blank;
        } else {
          submitStatus := Failed;
        }
      }
      // finally
      isSubmitting := false;
    }
  }
}
