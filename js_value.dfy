/**
 * The JavaScript values the extension handles: parsed JSON bodies, the payload
 * of a reply and the fields it reads from them.  Property access and truthiness
 * follow the ECMAScript rules for the keys the extension uses.
 */
module JsValues {
  import opened Wrappers
  import opened JsStrings

  datatype JsValue =
    | JUndefined
    | JNull
    | JBool(b: bool)
    | JNumber(n: real)
    | JString(s: string)
    | JArray(items: seq<JsValue>)
    | JObject(members: map<string, JsValue>)
  {
    /** `null` and `undefined`: reading a property of either throws a TypeError. */
    predicate Nullish() { JUndefined? || JNull? }
  }

  /** ECMAScript ToBoolean on the values above (no NaN or -0 arises from JSON). */
  predicate Truthy(v: JsValue)
    ensures v.Nullish() ==> !Truthy(v)
    ensures v.JArray? || v.JObject? ==> Truthy(v)
    ensures v.JString? ==> (Truthy(v) <==> v.s != [])
    ensures v.JNumber? ==> (Truthy(v) <==> v.n != 0.0)
    ensures v.JBool? ==> (Truthy(v) <==> v.b)
  {
    match v
    case JUndefined => false
    case JNull => false
    case JBool(b) => b
    case JNumber(n) => n != 0.0
    case JString(s) => s != []
    case JArray(_) => true
    case JObject(_) => true
  }

  /** The TypeError message V8 gives for reading `key` of `null` or `undefined`. */
  function NullishReadMessage(base: JsValue, key: string): (m: string)
    requires base.Nullish()
    ensures |m| >= |key| + 43
    ensures m[..26] == "Cannot read properties of "
    ensures m[|m| - |key| - 2..] == key + "')"
  {
    "Cannot read properties of " + (if base.JNull? then "null" else "undefined")
    + " (reading '" + key + "')"
  }

  /**
   * `base[key]`: own properties of objects, index keys of arrays and strings,
   * and `undefined` for everything else.  None of the keys the extension reads
   * names a member of a prototype, so prototypes are not modelled.
   */
  function Get(base: JsValue, key: string): (r: Result<JsValue, string>)
    ensures r.Err? <==> base.Nullish()
    ensures r.Err? ==> r.error == NullishReadMessage(base, key)
    ensures base.JObject? && key in base.members ==> r == Ok(base.members[key])
    ensures base.JObject? && key !in base.members ==> r == Ok(JUndefined)
    ensures (base.JBool? || base.JNumber?) ==> r == Ok(JUndefined)
  {
    match base
    case JUndefined => Err(NullishReadMessage(base, key))
    case JNull => Err(NullishReadMessage(base, key))
    case JObject(m) => Ok(if key in m then m[key] else JUndefined)
    case JArray(items) =>
      var i := ParseIndex(key);
      Ok(if i.Some? && i.value < |items| then items[i.value] else JUndefined)
    case JString(s) =>
      var i := ParseIndex(key);
      Ok(if i.Some? && i.value < |s| then JString([s[i.value]]) else JUndefined)
    case _ => Ok(JUndefined)
  }

  /** `base[key]` on a value already known not to be null or undefined. */
  function Member(base: JsValue, key: string): (r: JsValue)
    requires !base.Nullish()
    ensures Get(base, key) == Ok(r)
  {
    Get(base, key).value
  }

  /** `v[0]` on an array is its first element, and `undefined` on an empty one. */
  lemma FirstElement(items: seq<JsValue>)
    ensures Member(JArray(items), "0") == if items == [] then JUndefined else items[0]
  {
  }
}
