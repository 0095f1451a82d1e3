/**
 * The loosely typed values the server receives: request bodies decoded by
 * the JSON body parser and session-log lines decoded by `JSON.parse`.
 * Property reads, truthiness, `??`, `typeof … === 'object'` and `String(v)`
 * are given their JavaScript meaning on these values.
 */
module JsValue {
  import opened Wrappers
  import Text

  /**
   * A JSON value. A number is kept as the text `String(n)` gives it (JSON
   * has no NaN or Infinity, so "0" is its only falsy rendering).
   */
  datatype Json =
    | JNull
    | JBool(b: bool)
    | JNum(text: string)
    | JStr(s: string)
    | JArr(items: seq<Json>)
    | JObj(members: seq<(string, Json)>)

  /** The value of the last member named `key`, as `JSON.parse` keeps the last duplicate. */
  function LastMember(members: seq<(string, Json)>, key: string): Option<Json> {
    if |members| == 0 then None
    else if members[|members| - 1].0 == key then Some(members[|members| - 1].1)
    else LastMember(members[..|members| - 1], key)
  }

  /** A key is found iff some member has it, and what is found is the value of the last such member. */
  lemma {:induction false} LastMemberSpec(members: seq<(string, Json)>, key: string)
    ensures var r := LastMember(members, key);
            && (r.Some? <==> exists i :: 0 <= i < |members| && members[i].0 == key)
            && (r.Some? ==> exists i :: 0 <= i < |members| && members[i] == (key, r.value)
                              && forall j :: i < j < |members| ==> members[j].0 != key)
  {
    if |members| > 0 && members[|members| - 1].0 != key {
      var prefix := members[..|members| - 1];
      LastMemberSpec(prefix, key);
      assert forall i :: 0 <= i < |prefix| ==> prefix[i] == members[i];
    }
  }

  /**
   * `v.key` (or `v?.key`): an own member of an object; `undefined` on every
   * other value. The keys the model reads are plain names, never "length"
   * nor an array index.
   */
  function Get(v: Json, key: string): Option<Json> {
    match v
    case JObj(members) => LastMember(members, key)
    case _ => None
  }

  /** `v?.key` on a value that may itself be `undefined`. */
  function GetOpt(v: Option<Json>, key: string): Option<Json> {
    if v.Some? then Get(v.value, key) else None
  }

  /**
   * A member the source declares as a string: its text when it holds a
   * string, absent otherwise.
   */
  function StringField(v: Json, key: string): Option<string> {
    match Get(v, key)
    case Some(JStr(s)) => Some(s)
    case _ => None
  }

  /** JavaScript truthiness of a JSON value. */
  predicate Truthy(v: Json) {
    match v
    case JNull => false
    case JBool(b) => b
    case JNum(text) => text != "0"
    case JStr(s) => s != ""
    case JArr(_) => true
    case JObj(_) => true
  }

  /** Truthiness of a value that may be `undefined`. */
  predicate TruthyOpt(v: Option<Json>) {
    v.Some? && Truthy(v.value)
  }

  /** Truthiness of an optional string (`undefined`, `null` and "" are falsy). */
  predicate Present(s: Option<string>) {
    s.Some? && s.value != ""
  }

  /** `v === null || v === undefined`. */
  predicate Nullish(v: Option<Json>) {
    v.None? || v.value == JNull
  }

  /** `v ?? d`. */
  function Coalesce(v: Option<Json>, d: Json): (r: Json)
    ensures !Nullish(v) ==> r == v.value
    ensures Nullish(v) ==> r == d
  {
    if Nullish(v) then d else v.value
  }

  /** `typeof v === 'object'`: true of `null`, arrays and objects. */
  predicate IsObjectType(v: Option<Json>) {
    v.Some? && (v.value.JNull? || v.value.JArr? || v.value.JObj?)
  }

  /**
   * `String(v)` (and `${v}` in a template): arrays join their elements with
   * "," rendering `null` as "", objects render as "[object Object]".
   */
  function ToJsString(v: Json): string
    decreases v
  {
    match v
    case JNull => "null"
    case JBool(b) => if b then "true" else "false"
    case JNum(text) => text
    case JStr(s) => s
    case JArr(items) =>
      Text.Join(seq(|items|, i requires 0 <= i < |items| =>
        if items[i] == JNull then "" else ToJsString(items[i])), ",")
    case JObj(_) => "[object Object]"
  }
}
