/**
 * The subset of Yup that the two form pages use: an object schema of string
 * fields, each with an ordered list of tests, validated with
 * `abortEarly: false`, and the `forEach` that turns the resulting
 * `ValidationError.inner` list into a field-to-message map.
 */
module Schema {
  import opened Wrappers
  import opened Js

  /** One test of a `Yup.string()` chain, with its error message. */
  datatype Rule =
    | Required(message: string)          // .required(message)
    | Max(limit: nat, message: string)   // .max(limit, message)
    | NamePattern(message: string)       // .matches(/^[a-zA-Z\s'-]+$/, message)
    | Email(message: string)             // .email(message)

  /** One property of `Yup.object({...})`: its key and its tests in declaration order. */
  datatype Field = Field(path: string, rules: seq<Rule>)

  type ObjectSchema = seq<Field>

  /** One entry of `ValidationError.inner`. */
  datatype Violation = Violation(path: string, message: string)

  /** The character class `[a-zA-Z\s'-]`. */
  predicate IsNameChar(c: char) {
    ('a' <= c <= 'z') || ('A' <= c <= 'Z') || IsWhitespace(c) || c == '\'' || c == '-'
  }

  /** Whether `s` matches `/^[a-zA-Z\s'-]+$/`: at least one character, all of the class. */
  predicate MatchesNamePattern(s: string) {
    |s| > 0 && forall i :: 0 <= i < |s| ==> IsNameChar(s[i])
  }

  /** The value Yup sees for `path`: `None` stands for `undefined`. */
  function Lookup(data: map<string, string>, path: string): (v: Option<string>)
    ensures v.Some? <==> path in data
    ensures v.Some? ==> v.value == data[path]
  {
    if path in data then Some(data[path]) else None
  }

  /**
   * Whether the value passes one test. Every test but `required` lets
   * `undefined` through; `matches` does not exclude the empty string, `email`
   * does; `max` counts UTF-16 code units. `isEmail` stands for Yup's email
   * regular expression.
   */
  predicate Passes(rule: Rule, v: Option<string>, isEmail: string -> bool) {
    match rule
    case Required(_) => v.Some? && v.value != ""
    case Max(limit, _) => v.None? || Utf16Length(v.value) <= limit
    case NamePattern(_) => v.None? || MatchesNamePattern(v.value)
    case Email(_) => v.None? || v.value == "" || isEmail(v.value)
  }

  /** Whether the value passes every test of the field. */
  predicate FieldOk(f: Field, data: map<string, string>, isEmail: string -> bool) {
    forall r :: r in f.rules ==> Passes(r, Lookup(data, f.path), isEmail)
  }

  /** The errors one field contributes to `inner`: one per failing test, in test order. */
  function FieldViolations(path: string, rules: seq<Rule>, v: Option<string>, isEmail: string -> bool): (vs: seq<Violation>)
    ensures |vs| <= |rules|
    ensures forall j :: 0 <= j < |vs| ==> vs[j].path == path
    ensures vs == [] <==> forall r :: r in rules ==> Passes(r, v, isEmail)
  {
    if rules == [] then []
    else
      (if Passes(rules[0], v, isEmail) then [] else [Violation(path, rules[0].message)])
      + FieldViolations(path, rules[1..], v, isEmail)
  }

  /** `ValidationError.inner` of `schema.validate(data, { abortEarly: false })`. */
  function Violations(schema: ObjectSchema, data: map<string, string>, isEmail: string -> bool): seq<Violation>
  {
    if schema == [] then []
    else FieldViolations(schema[0].path, schema[0].rules, Lookup(data, schema[0].path), isEmail)
         + Violations(schema[1..], data, isEmail)
  }

  /** Every entry of `inner` names the path of a field of the schema. */
  lemma {:induction false} ViolationPaths(schema: ObjectSchema, data: map<string, string>, isEmail: string -> bool)
    ensures var vs := Violations(schema, data, isEmail);
      forall j :: 0 <= j < |vs| ==> exists i :: 0 <= i < |schema| && schema[i].path == vs[j].path
  {
    if schema != [] {
      ViolationPaths(schema[1..], data, isEmail);
      var head := FieldViolations(schema[0].path, schema[0].rules, Lookup(data, schema[0].path), isEmail);
      var vs := Violations(schema, data, isEmail);
      assert vs == head + Violations(schema[1..], data, isEmail);
      forall j | 0 <= j < |vs| ensures exists i :: 0 <= i < |schema| && schema[i].path == vs[j].path {
        if j < |head| {
          assert schema[0].path == vs[j].path;
        } else {
          var i :| 0 <= i < |schema[1..]| && schema[1..][i].path == vs[j].path;
          assert schema[i + 1].path == vs[j].path;
        }
      }
    }
  }

  /** The message the field shows: that of its last failing test. */
  function LastMessage(f: Field, data: map<string, string>, isEmail: string -> bool): string
    requires !FieldOk(f, data, isEmail)
  {
    var vs := FieldViolations(f.path, f.rules, Lookup(data, f.path), isEmail);
    vs[|vs| - 1].message
  }

  /** No two fields of the schema share a key, as in an object literal. */
  predicate DistinctPaths(schema: ObjectSchema) {
    forall i, j :: 0 <= i < j < |schema| ==> schema[i].path != schema[j].path
  }

  /** `newErrors` after `inner.forEach(error => { newErrors[error.path] = error.message })`. */
  function ErrorMap(inner: seq<Violation>): map<string, string>
  {
    if inner == [] then map[]
    else ErrorMap(inner[..|inner| - 1])[inner[|inner| - 1].path := inner[|inner| - 1].message]
  }

  /** The `forEach` loop of `validateForm`. */
  method CollectErrors(inner: seq<Violation>) returns (newErrors: map<string, string>)
    ensures newErrors == ErrorMap(inner)
  {
    newErrors := map[];
    var i := 0;
    while i < |inner|
      invariant 0 <= i <= |inner|
      invariant newErrors == ErrorMap(inner[..i])
    {
      assert inner[..i + 1][..i] == inner[..i];
      newErrors := newErrors[inner[i].path := inner[i].message];
      i := i + 1;
    }
    assert inner[..i] == inner;
  }

  /** A key has an error exactly when some violation names it. */
  lemma {:induction false} ErrorMapKeys(inner: seq<Violation>)
    ensures forall k :: k in ErrorMap(inner) <==> exists i :: 0 <= i < |inner| && inner[i].path == k
  {
    if inner != [] {
      var init := inner[..|inner| - 1];
      ErrorMapKeys(init);
      forall k | k in ErrorMap(inner)
        ensures exists i :: 0 <= i < |inner| && inner[i].path == k
      {
        if k != inner[|inner| - 1].path {
          assert k in ErrorMap(init);
          var i :| 0 <= i < |init| && init[i].path == k;
          assert inner[i].path == k;
        }
      }
      forall k | exists i :: 0 <= i < |inner| && inner[i].path == k
        ensures k in ErrorMap(inner)
      {
        var i :| 0 <= i < |inner| && inner[i].path == k;
        if i < |init| {
          assert init[i].path == k;
        }
      }
    }
  }

  /** Each key holds the message of the LAST violation that names it. */
  lemma {:induction false} ErrorMapLastWins(inner: seq<Violation>, i: nat)
    requires i < |inner|
    requires forall j :: i < j < |inner| ==> inner[j].path != inner[i].path
    ensures inner[i].path in ErrorMap(inner)
    ensures ErrorMap(inner)[inner[i].path] == inner[i].message
  {
    if i < |inner| - 1 {
      var init := inner[..|inner| - 1];
      ErrorMapLastWins(init, i);
    }
  }

  /** No violations, no errors. */
  lemma ErrorMapEmpty(inner: seq<Violation>)
    ensures ErrorMap(inner) == map[] <==> inner == []
  {
    if inner != [] {
      assert inner[|inner| - 1].path in ErrorMap(inner);
    }
  }

  /** A record passes exactly when every field passes all of its tests. */
  lemma {:induction false} NoViolationsIffAllFieldsOk(schema: ObjectSchema, data: map<string, string>, isEmail: string -> bool)
    ensures Violations(schema, data, isEmail) == [] <==>
            forall i :: 0 <= i < |schema| ==> FieldOk(schema[i], data, isEmail)
  {
    if schema != [] {
      NoViolationsIffAllFieldsOk(schema[1..], data, isEmail);
      assert forall i :: 1 <= i < |schema| ==> schema[i] == schema[1..][i - 1];
    }
  }

  /** The errors one field leaves in the map: its key with its last message, or nothing. */
  function FieldErrorMap(f: Field, data: map<string, string>, isEmail: string -> bool): map<string, string> {
    if FieldOk(f, data, isEmail) then map[] else map[f.path := LastMessage(f, data, isEmail)]
  }

  /** The fields' error maps merged in schema order, a later field overriding an earlier one. */
  function MergedFieldErrors(schema: ObjectSchema, data: map<string, string>, isEmail: string -> bool): map<string, string> {
    if schema == [] then map[]
    else FieldErrorMap(schema[0], data, isEmail) + MergedFieldErrors(schema[1..], data, isEmail)
  }

  /** Running the `forEach` over two lists in turn: the second list's entries win. */
  lemma {:induction false} ErrorMapConcat(a: seq<Violation>, b: seq<Violation>)
    ensures ErrorMap(a + b) == ErrorMap(a) + ErrorMap(b)
  {
    if b == [] {
      assert a + b == a;
    } else {
      var b' := b[..|b| - 1];
      assert (a + b)[..|a + b| - 1] == a + b';
      assert (a + b)[|a + b| - 1] == b[|b| - 1];
      ErrorMapConcat(a, b');
    }
  }

  /** Violations that all name one key leave that key with the last message. */
  lemma {:induction false} SamePathErrorMap(vs: seq<Violation>, path: string)
    requires forall j :: 0 <= j < |vs| ==> vs[j].path == path
    ensures ErrorMap(vs) == if vs == [] then map[] else map[path := vs[|vs| - 1].message]
  {
    if vs != [] {
      SamePathErrorMap(vs[..|vs| - 1], path);
    }
  }

  /** One field's violations leave its key with the last message, or nothing. */
  lemma OneFieldErrorMap(f: Field, data: map<string, string>, isEmail: string -> bool)
    ensures ErrorMap(FieldViolations(f.path, f.rules, Lookup(data, f.path), isEmail)) == FieldErrorMap(f, data, isEmail)
  {
    SamePathErrorMap(FieldViolations(f.path, f.rules, Lookup(data, f.path), isEmail), f.path);
  }

  /** The map `validateForm` builds is the merge of the fields' own error maps. */
  lemma {:induction false} ErrorsByField(schema: ObjectSchema, data: map<string, string>, isEmail: string -> bool)
    ensures ErrorMap(Violations(schema, data, isEmail)) == MergedFieldErrors(schema, data, isEmail)
  {
    if schema != [] {
      var f := schema[0];
      ErrorsByField(schema[1..], data, isEmail);
      ErrorMapConcat(FieldViolations(f.path, f.rules, Lookup(data, f.path), isEmail), Violations(schema[1..], data, isEmail));
      OneFieldErrorMap(f, data, isEmail);
    }
  }

  /** A key of the merged map is the key of a failing field. */
  lemma {:induction false} MergedKeys(schema: ObjectSchema, data: map<string, string>, isEmail: string -> bool)
    ensures forall k :: k in MergedFieldErrors(schema, data, isEmail) ==>
              exists i :: 0 <= i < |schema| && schema[i].path == k && !FieldOk(schema[i], data, isEmail)
  {
    if schema != [] {
      MergedKeys(schema[1..], data, isEmail);
      forall k | k in MergedFieldErrors(schema, data, isEmail)
        ensures exists i :: 0 <= i < |schema| && schema[i].path == k && !FieldOk(schema[i], data, isEmail)
      {
        if k !in FieldErrorMap(schema[0], data, isEmail) {
          assert k in MergedFieldErrors(schema[1..], data, isEmail);
          var i :| 0 <= i < |schema[1..]| && schema[1..][i].path == k && !FieldOk(schema[1..][i], data, isEmail);
          assert schema[i + 1] == schema[1..][i];
        }
      }
    }
  }

  /** In a schema with distinct keys, a field's key is in the merged map exactly when it fails, with its last message. */
  lemma {:induction false} MergedAt(schema: ObjectSchema, data: map<string, string>, isEmail: string -> bool, i: nat)
    requires DistinctPaths(schema)
    requires i < |schema|
    ensures var m := MergedFieldErrors(schema, data, isEmail);
      && (schema[i].path in m <==> !FieldOk(schema[i], data, isEmail))
      && (!FieldOk(schema[i], data, isEmail) ==> m[schema[i].path] == LastMessage(schema[i], data, isEmail))
  {
    var rest := schema[1..];
    assert forall j :: 0 <= j < |rest| ==> rest[j] == schema[j + 1];
    if i == 0 {
      MergedKeys(rest, data, isEmail);
      assert schema[0].path !in MergedFieldErrors(rest, data, isEmail);
    } else {
      MergedAt(rest, data, isEmail, i - 1);
      assert schema[0].path != schema[i].path;
    }
  }

  /**
   * One field of a schema with distinct keys, after a validation pass: its key
   * has an error exactly when the field fails one of its tests, and the error
   * is the message of the last failing test.
   */
  lemma ErrorAt(schema: ObjectSchema, data: map<string, string>, isEmail: string -> bool, i: nat)
    requires DistinctPaths(schema)
    requires i < |schema|
    ensures var errs := ErrorMap(Violations(schema, data, isEmail));
      && (schema[i].path in errs <==> !FieldOk(schema[i], data, isEmail))
      && (!FieldOk(schema[i], data, isEmail) ==> errs[schema[i].path] == LastMessage(schema[i], data, isEmail))
  {
    ErrorsByField(schema, data, isEmail);
    MergedAt(schema, data, isEmail, i);
  }

  /** Every key of the error map is the key of some field of the schema. */
  lemma ErrorKeysWithin(schema: ObjectSchema, data: map<string, string>, isEmail: string -> bool)
    ensures forall k :: k in ErrorMap(Violations(schema, data, isEmail)) ==>
              exists i :: 0 <= i < |schema| && schema[i].path == k
  {
    ErrorsByField(schema, data, isEmail);
    MergedKeys(schema, data, isEmail);
  }

  /**
   * The error map of a validation pass: a key is present exactly when the
   * field with that key fails one of its tests, and then it holds the message
   * of the last failing test; no other key is present.
   */
  lemma ValidationErrors(schema: ObjectSchema, data: map<string, string>, isEmail: string -> bool)
    requires DistinctPaths(schema)
    ensures var errs := ErrorMap(Violations(schema, data, isEmail));
      && (forall k :: k in errs ==> exists i :: 0 <= i < |schema| && schema[i].path == k)
      && (forall i :: 0 <= i < |schema| ==> (schema[i].path in errs <==> !FieldOk(schema[i], data, isEmail)))
      && (forall i :: 0 <= i < |schema| && !FieldOk(schema[i], data, isEmail) ==>
            errs[schema[i].path] == LastMessage(schema[i], data, isEmail))
  {
    ErrorsByField(schema, data, isEmail);
    MergedKeys(schema, data, isEmail);
    forall i | 0 <= i < |schema|
      ensures var m := MergedFieldErrors(schema, data, isEmail);
        && (schema[i].path in m <==> !FieldOk(schema[i], data, isEmail))
        && (!FieldOk(schema[i], data, isEmail) ==> m[schema[i].path] == LastMessage(schema[i], data, isEmail))
    {
      MergedAt(schema, data, isEmail, i);
    }
  }
}
