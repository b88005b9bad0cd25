# NeuroStream landing site: forms, intake scripts, theme and page helpers

This project models the parts of the NeuroStream marketing site that hold
logic rather than markup, and proves what that logic promises.

- **Form pipeline.** The contact page and the waitlist page each have a Yup
  schema, a `validateForm` that turns `ValidationError.inner` into a
  field-to-message map, a `handleInputChange` that stores the sanitized value,
  and a `handleSubmit` state machine over `formData`, the error map,
  `isSubmitting` and `submitStatus`. Both pages run the same handler code, so
  one class, `FormPipeline.FormPage`, models it. Each page module supplies its
  schema and its blank record.
- **Intake scripts.** There are two Google Apps Script deployments, one for
  contact messages and one for waitlist signups. Each `doPost` checks for a
  payload, parses it, checks the required fields, appends one row, optionally
  mails a notification, and answers with a JSON envelope from a single
  `try`/`catch`. Each `doGet` returns a fixed liveness text.
- **Theme provider.** `isDarkMode` is mirrored into the document's `dark`
  class and into the `neurostream-theme` key of local storage.
- **Page helpers.** The landing page's rotating role headline, its accordion
  toggle, and the team page's avatar initials.

The `Handoff` module links the two sides: a record that the page's schema
accepts, serialized by `JSON.stringify` and parsed by the script, passes the
script's required-field guard and becomes exactly the documented row.

The browser and server libraries the code calls are parameters:

| library call | parameter |
|---|---|
| DOMPurify's `sanitize` | `sanitize: string -> string` |
| Yup's email test | `isEmail: string -> bool` |
| `JSON.parse` | `parse: string -> Result<Json, Exception>` |
| the outcome of `fetch` | a `FetchOutcome` |
| `process.env` lookup of the endpoint | an `Option<string>` |
| `new Date()` | an `Instant` |
| a failure of `MailApp.sendEmail` | an `Option<Exception>` |

State that the code changes in place is held in classes:

- the form page's React state;
- the script deployment's sheet rows, delivered mail and script properties;
- the theme provider's mode, document class and storage;
- the landing page's role index and expanded sections.

Validation semantics follow Yup with `abortEarly: false`:

- Every test of every field runs, in declaration order.
- `required` fails on a missing or empty string.
- `max(n)` fails when the string is longer than `n` UTF-16 code units.
- `matches` fails on any string outside the pattern, the empty string included.
- `email` passes an empty string.

The name pattern `^[a-zA-Z\s'-]+$` is `Schema.MatchesNamePattern`. In it,
`\s` is ECMAScript's whitespace and line-terminator set. The `forEach` over
`inner` keeps the last message per key.

The role `<select>` offers only the entries of `roles`
(src/WaitlistPage.jsx:100-109, 416-434). The schema, though, only requires a
non-empty role (src/WaitlistPage.jsx:28-29). `WaitlistForm.AnyRoleAccepted`
and `WaitlistForm.RoleOutsideListAccepted` state this. The length messages
say "less than N", but Yup's `max(N)` accepts exactly N, and the model
follows `max`.

## Model

| member | source | states |
|---|---|---|
| Js.SerializeRoundTrip | src/ContactPage.jsx:143 | the body `JSON.stringify(formData)` reads back by `Deserialize` as exactly the record sent |
| Js.DeserializeRoundTrip | CONTACT_GOOGLE_APPS_SCRIPT.js:12 | a parsed value that reads back as a record of strings is that record serialized, so `Serialize` and `Deserialize` are inverse on records of strings |
| Js.ToStringParts | CONTACT_GOOGLE_APPS_SCRIPT.js:65 | `error.toString()` starts with the error's name and ends with its message; its length is theirs plus 2 for `": "` when both are non-empty |
| Js.ErrorToString | CONTACT_GOOGLE_APPS_SCRIPT.js:5 | a thrown `new Error(m)` reaches the envelope as `"Error: " + m` |
| Js.Utf16Length | src/ContactPage.jsx:11 | a string's `length` lies between its character count and twice it; it equals the character count exactly when no character is astral |
| Schema.FieldViolations | src/ContactPage.jsx:8-29 | a field yields at most one violation per test, each naming that field's path; it yields none exactly when every test passes |
| Schema.CollectErrors | src/ContactPage.jsx:92-95 | the `forEach` loop builds the same map as folding the violations in order |
| Schema.ErrorMapKeys | src/ContactPage.jsx:92-95 | a key is in the error map exactly when some violation names it |
| Schema.ErrorMapLastWins | src/ContactPage.jsx:92-95 | the last violation naming a key supplies that key's message; an earlier one is overwritten |
| Schema.ErrorMapEmpty | src/ContactPage.jsx:86-100 | the error map is empty exactly when there are no violations |
| Schema.ErrorMapConcat | src/ContactPage.jsx:93-95 | folding two violation lists in turn is the first map overridden by the second |
| Schema.SamePathErrorMap | src/ContactPage.jsx:93-95 | violations that all name one field leave that field with the last message only |
| Schema.ViolationPaths | src/ContactPage.jsx:88-95 | every entry of `Violations`, the model of `inner`, names the path of a schema field |
| Schema.NoViolationsIffAllFieldsOk | src/ContactPage.jsx:88 | with `abortEarly: false`, validation passes exactly when every field passes all its tests |
| Schema.ErrorsByField | src/ContactPage.jsx:88-95 | the map `validateForm` builds is the merge, in schema order, of each field's own last-message entry |
| Schema.ErrorAt | src/ContactPage.jsx:86-100 | in a schema with distinct keys, a field's key has an error exactly when the field fails, and the error is its last failing test's message |
| Schema.ErrorKeysWithin | src/ContactPage.jsx:86-100 | every key of the error map is the key of some schema field |
| Schema.ValidationErrors | src/ContactPage.jsx:86-100 | all of the above for a whole schema: keys only from the schema, one entry per failing field, holding its last message |
| FormPipeline.FormPage.constructor | src/ContactPage.jsx:74-84 | the page starts with the blank record, no errors, not submitting, and a null status |
| FormPipeline.FormPage.ValidateForm | src/ContactPage.jsx:86-100 | it returns true exactly when there are no violations; the stored error map is the fold of the violations, and it is empty exactly on success |
| FormPipeline.FormPage.HandleInputChange | src/ContactPage.jsx:102-118 | only the edited field changes, to the sanitized value; only that field's error changes, to `''`, and only when it was non-empty |
| FormPipeline.FormPage.HandleSubmit | src/ContactPage.jsx:120-165 | see the four cases below this table |
| ContactForm.NewContactPage | src/ContactPage.jsx:74-84 | the contact page mounts with the five empty fields and no errors |
| ContactForm.NameFieldOk | src/ContactPage.jsx:9-12 | `name` passes exactly when it is present, non-empty, at most 100 code units, and built from letters, whitespace, `'` and `-` |
| ContactForm.EmailFieldOk | src/ContactPage.jsx:14-17 | `email` passes exactly when it is present, non-empty, an address by the email test, and at most 254 code units |
| ContactForm.CompanyFieldOk | src/ContactPage.jsx:19-20 | `company` passes exactly when it is absent or at most 100 code units |
| ContactForm.SubjectFieldOk | src/ContactPage.jsx:22-24 | `subject` passes exactly when it is present, non-empty and at most 200 code units |
| ContactForm.MessageFieldOk | src/ContactPage.jsx:26-28 | `message` passes exactly when it is present, non-empty and at most 5000 code units |
| ContactForm.NameError | src/ContactPage.jsx:9-12 | after validation, `name` has an error exactly when its rules are broken |
| ContactForm.EmailError | src/ContactPage.jsx:14-17 | after validation, `email` has an error exactly when its rules are broken |
| ContactForm.CompanyError | src/ContactPage.jsx:19-20 | after validation, `company` has an error exactly when it is over 100 code units |
| ContactForm.SubjectError | src/ContactPage.jsx:22-24 | after validation, `subject` has an error exactly when its rules are broken |
| ContactForm.MessageError | src/ContactPage.jsx:26-28 | after validation, `message` has an error exactly when its rules are broken |
| ContactForm.ErrorKeyNames | src/ContactPage.jsx:8-29 | the error map names only the five schema keys |
| ContactForm.ErrorKeys | src/ContactPage.jsx:74-80 | the error map has no key outside the contact record |
| ContactForm.ContactErrors | src/ContactPage.jsx:86-100 | every failing field gets an entry, no passing field does, and no other key appears |
| ContactForm.NoErrorsWhenValid | src/ContactPage.jsx:86-90 | a record that keeps every rule yields an empty error map |
| ContactForm.ErrorsWhenInvalid | src/ContactPage.jsx:91-96 | a record that breaks some rule yields a non-empty error map |
| ContactForm.ContactValidIff | src/ContactPage.jsx:86-100 | validation passes, and the error map is empty, exactly when all five field rules hold |
| ContactForm.EmptyNameViolations | src/ContactPage.jsx:9-12 | an empty name fails `required` and then `matches`, and nothing else |
| ContactForm.EmptyNameMessage | src/ContactPage.jsx:92-95 | for an empty name, the later error overwrites the earlier, so the page shows "Name contains invalid characters" |
| ContactForm.LongNameViolations | src/ContactPage.jsx:11 | a well-formed name over 100 code units fails only `max` |
| ContactForm.LongNameMessage | src/ContactPage.jsx:11 | such a name shows "Name must be less than 100 characters" |
| WaitlistForm.NewWaitlistPage | src/WaitlistPage.jsx:83-93 | the waitlist page mounts with the six empty fields and no errors |
| WaitlistForm.FirstNameFieldOk | src/WaitlistPage.jsx:9-12 | `firstName` passes exactly when it is present, non-empty, at most 50 code units, and in the name character class |
| WaitlistForm.LastNameFieldOk | src/WaitlistPage.jsx:14-17 | `lastName` passes exactly when it is present, non-empty, at most 50 code units, and in the name character class |
| WaitlistForm.EmailFieldOk | src/WaitlistPage.jsx:19-22 | `email` passes exactly when it is present, non-empty, an address by the email test, and at most 254 code units |
| WaitlistForm.CompanyFieldOk | src/WaitlistPage.jsx:24-26 | `company` passes exactly when it is present, non-empty and at most 100 code units |
| WaitlistForm.RoleFieldOk | src/WaitlistPage.jsx:28-29 | `role` passes exactly when it is present and non-empty |
| WaitlistForm.UseCaseFieldOk | src/WaitlistPage.jsx:31-32 | `useCase` passes exactly when it is absent or at most 2000 code units |
| WaitlistForm.FirstNameError | src/WaitlistPage.jsx:9-12 | after validation, `firstName` has an error exactly when its rules are broken |
| WaitlistForm.LastNameError | src/WaitlistPage.jsx:14-17 | after validation, `lastName` has an error exactly when its rules are broken |
| WaitlistForm.EmailError | src/WaitlistPage.jsx:19-22 | after validation, `email` has an error exactly when its rules are broken |
| WaitlistForm.CompanyError | src/WaitlistPage.jsx:24-26 | after validation, `company` has an error exactly when its rules are broken |
| WaitlistForm.RoleError | src/WaitlistPage.jsx:28-29 | after validation, `role` has an error exactly when it is missing or empty |
| WaitlistForm.UseCaseError | src/WaitlistPage.jsx:31-32 | after validation, `useCase` has an error exactly when it is over 2000 code units |
| WaitlistForm.ErrorKeyNames | src/WaitlistPage.jsx:8-33 | the error map names only the six schema keys |
| WaitlistForm.ErrorKeys | src/WaitlistPage.jsx:83-90 | the error map has no key outside the waitlist record |
| WaitlistForm.WaitlistErrors | src/WaitlistPage.jsx:111-124 | every failing field gets an entry, no passing field does, and no other key appears |
| WaitlistForm.NoErrorsWhenValid | src/WaitlistPage.jsx:111-115 | a record that keeps every rule yields an empty error map |
| WaitlistForm.ErrorsWhenInvalid | src/WaitlistPage.jsx:116-122 | a record that breaks some rule yields a non-empty error map |
| WaitlistForm.WaitlistValidIff | src/WaitlistPage.jsx:111-124 | validation passes, and the error map is empty, exactly when all six field rules hold |
| WaitlistForm.AnyRoleAccepted | src/WaitlistPage.jsx:28-29 | in a passing record, replacing the role by any non-empty string, in `roles` or not, still passes |
| WaitlistForm.RoleOutsideListAccepted | src/WaitlistPage.jsx:28-29 | "Intern" is not one of `roles`, yet a passing record with role "Intern" still passes |
| WaitlistForm.EmptyFirstNameViolations | src/WaitlistPage.jsx:9-12 | an empty first name fails `required` and then `matches`, and nothing else |
| WaitlistForm.EmptyFirstNameMessage | src/WaitlistPage.jsx:118-120 | an empty first name shows "First name contains invalid characters", the later of its two errors |
| AppsScript.RequiredCheck | CONTACT_GOOGLE_APPS_SCRIPT.js:16-18 | the guard passes exactly when the payload is not `null` and every required key is truthy; otherwise it gives the TypeError for the first key of a `null` payload, or "Missing required fields" |
| AppsScript.PayloadShapes | CONTACT_GOOGLE_APPS_SCRIPT.js:4 | `HasPayload`: a request with no body fails the guard, and one with a body passes exactly when the contents are non-empty |
| AppsScript.CaughtShowsError | CONTACT_GOOGLE_APPS_SCRIPT.js:60-68 | `Caught`: the failure envelope's text starts with the error's name and ends with its message |
| ContactScript.Intake | CONTACT_GOOGLE_APPS_SCRIPT.js:16-28 | as `RequiredCheck`, for the keys name, email, subject and message; on success the row is the timestamp, name, email, company or `''`, subject and message |
| ContactScript.NotificationReportsRow | CONTACT_GOOGLE_APPS_SCRIPT.js:39-52 | `NotificationMail` goes to the configured address with the fixed subject and count; its six lines show, in order, the row's name, email, company (`'Not provided'` when empty), subject, message and timestamp |
| ContactScript.Deployment.DoPost | CONTACT_GOOGLE_APPS_SCRIPT.js:1-69 | see the cases below this table |
| ContactScript.Deployment.StoreAndNotify | CONTACT_GOOGLE_APPS_SCRIPT.js:21-58 | appends the row, and then, by `Notified`: no address means no mail and success; a mail fault means no mail and the caught error; otherwise one mail with total = rows - 1, and success |
| ContactScript.Deployment.DoGet | CONTACT_GOOGLE_APPS_SCRIPT.js:71-75 | returns the text "NeuroStream Contact API is working!" and modifies nothing |
| WaitlistScript.Intake | CORRECTED_GOOGLE_APPS_SCRIPT.js:16-29 | as `RequiredCheck`, for the keys firstName, lastName, email, company and role; on success the 7-cell row is the timestamp, the five required values, and useCase or `''` |
| WaitlistScript.NotificationReportsRow | CORRECTED_GOOGLE_APPS_SCRIPT.js:40-53 | `NotificationMail` shows, in order, the row's first and last name, email, company, role, use case (`'Not provided'` when empty) and timestamp |
| WaitlistScript.Deployment.DoPost | CORRECTED_GOOGLE_APPS_SCRIPT.js:1-70 | the same cases as the contact script, with the waitlist row, message and mail |
| WaitlistScript.Deployment.StoreAndNotify | CORRECTED_GOOGLE_APPS_SCRIPT.js:21-59 | appends the row, then mails as the contact script does, with "Successfully added to waitlist" as the success message |
| WaitlistScript.Deployment.DoGet | CORRECTED_GOOGLE_APPS_SCRIPT.js:72-76 | returns the text "NeuroStream Waitlist API is working!" and modifies nothing |
| Handoff.GetSerialized | src/ContactPage.jsx:143 | reading a key of the serialized record gives the string stored under it |
| Handoff.ContactRequiredPresent | CONTACT_GOOGLE_APPS_SCRIPT.js:16 | a record that keeps the contact rules has every key the contact script requires, each non-empty |
| Handoff.ContactRow | CONTACT_GOOGLE_APPS_SCRIPT.js:21-28 | such a serialized record becomes the row of its own five values, with company stored as-is |
| Handoff.ContactSubmissionStored | CONTACT_GOOGLE_APPS_SCRIPT.js:16-28 | every record the contact schema accepts passes the script's guard and is stored as exactly that row |
| Handoff.WaitlistRequiredPresent | CORRECTED_GOOGLE_APPS_SCRIPT.js:16 | a record that keeps the waitlist rules has every key the waitlist script requires, each non-empty |
| Handoff.WaitlistRow | CORRECTED_GOOGLE_APPS_SCRIPT.js:21-29 | such a serialized record becomes the row of its own six values, with useCase stored as-is |
| Handoff.WaitlistSubmissionStored | CORRECTED_GOOGLE_APPS_SCRIPT.js:16-29 | every record the waitlist schema accepts passes the script's guard and is stored as exactly that row |
| Handoff.SubmitContact | src/ContactPage.jsx:120-146 | a contact page's submit, from any reachable page state, sends a body that the contact script's intake turns into the submitted record's own row |
| Handoff.SubmitWaitlist | src/WaitlistPage.jsx:144-168 | the same for the waitlist page and the waitlist script |
| Theme.SavedMode | src/ThemeContext.js:18-22 | a saved `'dark'` means dark; any other non-empty value means light; an empty or missing value adopts nothing |
| Theme.StoredValueRoundTrip | src/ThemeContext.js:42 | `StoredValue`, the value a toggle stores, is read back by the load effect as the same mode |
| Theme.ThemeProvider.constructor | src/ThemeContext.js:14 | the provider starts in dark mode |
| Theme.ThemeProvider.UpdateDocumentClass | src/ThemeContext.js:30-36 | the document has the `dark` class exactly when the argument is true |
| Theme.ThemeProvider.LoadTheme | src/ThemeContext.js:17-27 | it adopts the saved mode and sets the class to match; with nothing usable saved, the class becomes dark and the mode is unchanged |
| Theme.ThemeProvider.ToggleTheme | src/ThemeContext.js:38-43 | the mode flips, the class follows it, and storage gains `neurostream-theme` naming the new mode, all else kept |
| Theme.Mount | src/ThemeContext.js:14-27 | on mount, the class matches the mode; `'dark'` gives dark, any other non-empty value gives light, and absent or empty gives dark |
| Theme.ToggleTwice | src/ThemeContext.js:38-43 | two toggles restore the mode and the class, and the stored value names that mode |
| Theme.ReloadAfterToggle | src/ThemeContext.js:17-43 | a provider mounted after a toggle, over the same storage, shows the toggled mode |
| Landing.NextRole | src/LandingPage.jsx:70 | the next index is below 5, one more than the previous, wrapping to 0 after the last |
| Landing.TicksAdvance | src/LandingPage.jsx:68-73 | `Ticks`: after `n` ticks the index is (start + n) mod 5 |
| Landing.FiveTicksRestore | src/LandingPage.jsx:70 | five ticks bring the headline back to its starting role |
| Landing.ToggledSections | src/LandingPage.jsx:77-82 | the toggled key's expanded state flips (an absent key counts as collapsed); every other key keeps its presence and value |
| Landing.ToggleTwiceLooksTheSame | src/LandingPage.jsx:553 | toggling a section twice leaves every section looking as before |
| Landing.LandingPage.constructor | src/LandingPage.jsx:55-56 | the headline starts at role 0 with no section expanded |
| Landing.LandingPage.Tick | src/LandingPage.jsx:68-73 | a tick keeps the index within the five roles and advances it by `NextRole` |
| Landing.LandingPage.ToggleSection | src/LandingPage.jsx:77-82 | the sections become `ToggledSections` of the old ones |
| Team.Split | src/TeamPage.jsx:150 | `split(' ')` yields at least one piece, none containing a space |
| Team.JoinSplit | src/TeamPage.jsx:150 | joining the pieces with spaces gives the name back |
| Team.FirstCharsOfNonEmpty | src/TeamPage.jsx:150 | the joined first characters are, in order, the first characters of the non-empty pieces; empty pieces contribute nothing |
| Team.InitialsOfName | src/TeamPage.jsx:150 | `Initials(name)`, the avatar text, has one character per non-empty piece of the name, each that piece's first character |
| Team.TwoWordInitials | src/TeamPage.jsx:150 | a first and a last name without spaces give their two first letters |
| Team.TeamInitials | src/TeamPage.jsx:31-50 | the three founders' avatars read SP, NS and PS |

`FormPipeline.FormPage.HandleSubmit` has four cases:

- The error map is refreshed from the submitted record in every case.
- A failing record changes nothing else and sends nothing.
- A passing record ends with `isSubmitting` false. The request posts the
  serialized record exactly when the endpoint is set.
- Success, and the blank record, follow exactly when the endpoint is set and
  the request is dispatched. Otherwise the status is `'error'` and the record
  is kept.

`ContactScript.Deployment.DoPost` ends in a JSON envelope on every path:

- With no payload: the "No data received" error, and nothing changes.
- When parsing throws: that error, and nothing changes.
- When the guard throws: its error, and nothing changes.
- Otherwise exactly one row, the one `Intake` builds, is appended, and the
  mail step follows `Notified`.

## Left out

- Rendering: the JSX markup, styling and animations are not modelled. Scroll
  listeners and `window.scrollTo` are not modelled either. The pages are
  UI only beyond the state they keep.
- DOMPurify and Yup's email regular expression are foreign libraries. They
  enter as the parameters `sanitize` and `isEmail`, with no properties
  assumed.
- `JSON.parse` is the parameter `parse`. JSON text is not modelled:
  `Js.Serialize` maps a record straight to the value that parsing its
  `JSON.stringify` text gives. `Js.SerializeRoundTrip` and
  `Js.DeserializeRoundTrip` prove that mapping inverse to reading the record
  back. They do not prove anything about the characters of the text.
- React batching and stale closures are not modelled. Each handler runs
  atomically on the current state.
  - The `await` suspensions are not modelled.
  - The disabled submit button, which stops a second submit in flight, is
    not modelled.
- The network is not modelled. The `no-cors` request is a `FetchOutcome`
  parameter, and the endpoint from `process.env` is an `Option<string>`
  parameter.
- `console.log` and `console.error` calls are not modelled.
- `SpreadsheetApp.getActiveSheet` and `appendRow` are assumed not to throw.
  Only an error from `MailApp.sendEmail` enters, as `mailFault`.
- The mail body is not rendered as text. `AppsScript.MailLine` records each
  labelled line's values, and `Mail.total` records the "Total" count.
- `new Date()` is an opaque `Instant`, so its string form in the mail is not
  modelled.
- `Team.FirstChar`: `n[0]` of a piece that starts with an astral character
  gives a lone surrogate in JavaScript. The model gives the whole character.
- `ContactScript.Deployment.DoPost`: a payload whose required values are
  truthy but not strings (numbers, objects) is stored as those values. The
  mail's rendering of such values is not modelled.
- `WaitlistScript.Deployment.DoPost`: the same as for the contact script.
- Yup's test order within a field is taken to be declaration order, and
  `inner` lists the fields in schema order. Yup's code is not part of this
  model.
- The `AboutPage`, `App` router and Tailwind configuration are static or
  wiring, and are not part of this model.
