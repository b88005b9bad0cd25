/**
 * The pieces of JavaScript's value semantics that the forms and the intake
 * scripts rely on: JSON values, truthiness, Error objects, string length in
 * UTF-16 code units and the `\s` character class of regular expressions.
 */
module Js {
  import opened Wrappers

  /** A value as JSON.parse produces it. */
  datatype Json =
    | JNull
    | JBool(b: bool)
    | JNumber(n: real)
    | JString(s: string)
    | JArray(items: seq<Json>)
    | JObject(fields: map<string, Json>)

  /** Truthiness of a property read; `None` is `undefined`. */
  predicate Truthy(v: Option<Json>) {
    match v
    case None => false
    case Some(JNull) => false
    case Some(JBool(b)) => b
    case Some(JNumber(n)) => n != 0.0
    case Some(JString(s)) => s != ""
    case Some(_) => true
  }

  /** Truthiness of a value that is a string or `undefined`/`null`. */
  predicate TruthyString(v: Option<string>) {
    v.Some? && v.value != ""
  }

  /** `x || ''` for a property read. */
  function OrEmpty(v: Option<Json>): (r: Json)
    ensures Truthy(v) ==> r == v.value
    ensures !Truthy(v) ==> r == JString("")
  {
    if Truthy(v) then v.value else JString("")
  }

  /** `JSON.parse(JSON.stringify(m))` for an object whose properties are all strings. */
  function Serialize(m: map<string, string>): Json {
    JObject(map k | k in m :: JString(m[k]))
  }

  /** Reading a parsed value back as a record of strings: an object whose every property is a string. */
  function Deserialize(j: Json): (r: Option<map<string, string>>)
    ensures r.Some? <==> j.JObject? && forall k :: k in j.fields ==> j.fields[k].JString?
    ensures r.Some? ==> r.value.Keys == j.fields.Keys
  {
    if j.JObject? && forall k :: k in j.fields ==> j.fields[k].JString? then
      Some(map k | k in j.fields :: j.fields[k].s)
    else None
  }

  /** A stringified record of strings parses back to the same record. */
  lemma SerializeRoundTrip(m: map<string, string>)
    ensures Deserialize(Serialize(m)) == Some(m)
  {
    var j := Serialize(m);
    assert j.fields.Keys == m.Keys;
    assert forall k :: k in j.fields ==> j.fields[k] == JString(m[k]);
    assert Deserialize(j).Some?;
    var back := Deserialize(j).value;
    assert back.Keys == m.Keys;
    assert forall k :: k in back ==> back[k] == m[k];
    assert back == m;
  }

  /** A value that reads back as a record of strings is that record serialized. */
  lemma DeserializeRoundTrip(j: Json)
    requires Deserialize(j).Some?
    ensures Serialize(Deserialize(j).value) == j
  {
    var m := Deserialize(j).value;
    var f := Serialize(m).fields;
    assert f.Keys == j.fields.Keys;
    assert forall k :: k in f ==> f[k] == JString(j.fields[k].s) == j.fields[k];
  }

  /** An Error object: its constructor name and its message. */
  datatype Exception = Exception(name: string, message: string) {
    /** Error.prototype.toString: the name, a colon and the message, either part dropped when empty. */
    function ToString(): string {
      if name == "" then message
      else if message == "" then name
      else name + ": " + message
    }
  }

  /**
   * The rendered error starts with its name and ends with its message, and
   * holds nothing else but the `": "` between them when both are present.
   */
  lemma ToStringParts(x: Exception)
    ensures x.name <= x.ToString()
    ensures IsSuffix(x.message, x.ToString())
    ensures |x.ToString()| == |x.name| + |x.message| + (if x.name != "" && x.message != "" then 2 else 0)
  {
    var s := x.ToString();
    if x.name != "" && x.message != "" {
      assert s == x.name + (": " + x.message);
      assert s[|s| - |x.message|..] == x.message;
    } else if x.name == "" {
      assert s[|s| - |x.message|..] == x.message;
    } else {
      assert s[|s|..] == [];
    }
  }

  /** `new Error(message)`. */
  function Error(message: string): Exception {
    Exception("Error", message)
  }

  /** `String(new Error(message))` is `"Error: "` followed by the message. */
  lemma ErrorToString(message: string)
    requires message != ""
    ensures Error(message).ToString() == "Error: " + message
  {
    assert "Error" + ": " == "Error: ";
  }

  /** `s.endsWith(suffix)`. */
  predicate IsSuffix(suffix: string, s: string) {
    |suffix| <= |s| && s[|s| - |suffix|..] == suffix
  }

  /** Whether `c` is outside the Basic Multilingual Plane, so takes two UTF-16 code units. */
  predicate IsAstral(c: char) {
    c as int > 0xFFFF
  }

  /** `s.length`: the number of UTF-16 code units of `s`. */
  function Utf16Length(s: string): (n: nat)
    ensures |s| <= n <= 2 * |s|
    ensures n == |s| <==> (forall i :: 0 <= i < |s| ==> !IsAstral(s[i]))
  {
    if s == [] then 0
    else (if IsAstral(s[0]) then 2 else 1) + Utf16Length(s[1..])
  }

  /** The characters `\s` matches: ECMAScript WhiteSpace and LineTerminator. */
  predicate IsWhitespace(c: char) {
    var k := c as int;
    k == 0x09 || k == 0x0A || k == 0x0B || k == 0x0C || k == 0x0D || k == 0x20
    || k == 0xA0 || k == 0x1680 || (0x2000 <= k <= 0x200A)
    || k == 0x2028 || k == 0x2029 || k == 0x202F || k == 0x205F
    || k == 0x3000 || k == 0xFEFF
  }
}
