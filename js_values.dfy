/**
 * Loosely typed JavaScript values as they reach the edge functions (parsed JSON bodies,
 * Stripe objects and their metadata), with the pieces of JavaScript semantics the code uses:
 * truthiness, optional chaining, `??` and `String(v)`.
 */
module JsValues {
  import opened Wrappers
  import opened JsText

  /**
   * A JavaScript value. Numbers are integral (see the README for what that leaves out);
   * objects are maps from own property names to values.
   */
  datatype JValue =
    | JUndefined
    | JNull
    | JBool(b: bool)
    | JNumber(n: int)
    | JString(s: string)
    | JArray(items: seq<JValue>)
    | JObject(fields: map<string, JValue>)

  /** JavaScript truthiness: `undefined`, `null`, `false`, `0` and `""` are falsy. */
  predicate Truthy(v: JValue) {
    match v
    case JUndefined => false
    case JNull => false
    case JBool(b) => b
    case JNumber(n) => n != 0
    case JString(s) => s != ""
    case JArray(_) => true
    case JObject(_) => true
  }

  /**
   * `v?.[key]` for a property name: an object's own property, `undefined` when it is missing
   * or when `v` is not an object.
   */
  function Get(v: JValue, key: string): (r: JValue)
    ensures !v.JObject? ==> r == JUndefined
    ensures v.JObject? && key !in v.fields ==> r == JUndefined
  {
    if v.JObject? && key in v.fields then v.fields[key] else JUndefined
  }

  /** `v?.[0]`: the first array element, the property "0" of an object, the first character of a string. */
  function First(v: JValue): JValue {
    match v
    case JArray(items) => if |items| > 0 then items[0] else JUndefined
    case JObject(m) => if "0" in m then m["0"] else JUndefined
    case JString(s) => if |s| > 0 then JString([s[0]]) else JUndefined
    case _ => JUndefined
  }

  /** The string value of an optional string: `undefined` when absent. */
  function FromOption(o: Option<string>): (v: JValue)
    ensures o.None? ==> v == JUndefined
    ensures o.Some? ==> v == JString(o.value)
  {
    match o
    case None => JUndefined
    case Some(s) => JString(s)
  }

  /** `v ?? fallback`. */
  function OrElse(v: JValue, fallback: JValue): JValue {
    if v.JUndefined? || v.JNull? then fallback else v
  }

  function Join(parts: seq<string>, sep: string): string {
    if |parts| == 0 then "" else if |parts| == 1 then parts[0] else Join(parts[..|parts| - 1], sep) + sep + parts[|parts| - 1]
  }

  /** `undefined` or `null`: the values `??` replaces and `join` writes as the empty string. */
  predicate Nullish(v: JValue) {
    v.JUndefined? || v.JNull?
  }

  /** A string that is set and not empty. */
  predicate Present(o: Option<string>) {
    o.Some? && o.value != ""
  }

  /**
   * When `String(v)` throws a TypeError. A value parsed from JSON holds no functions, so an
   * object with an own `toString` property has no callable `toString`, and its inherited
   * `valueOf` returns the object itself: no primitive is reached. An array throws when
   * `join` meets an element, other than `null` or `undefined`, that throws.
   */
  predicate Throws(v: JValue) {
    match v
    case JObject(m) => "toString" in m
    case JArray(items) => exists i :: 0 <= i < |items| && !Nullish(items[i]) && Throws(items[i])
    case _ => false
  }

  /**
   * `String(v)`, or `None` when it throws. An array renders as its elements joined with ",",
   * where `null` and `undefined` elements render as the empty string; an object without an own
   * `toString` property as "[object Object]".
   */
  function JsString(v: JValue): (r: Option<string>)
    ensures r.None? <==> Throws(v)
    ensures v.JUndefined? ==> r == Some("undefined")
    ensures v.JNull? ==> r == Some("null")
    ensures v.JBool? ==> r == Some(if v.b then "true" else "false")
    ensures v.JNumber? ==> r.Some? && CanonicalNumber(r.value) && ParseNumber(r.value) == Some(v.n)
    ensures v.JString? ==> r == Some(v.s)
    ensures v.JObject? && r.Some? ==> r.value == "[object Object]"
    ensures v.JArray? && |v.items| == 0 ==> r == Some("")
    ensures v.JArray? && |v.items| == 1 && !Nullish(v.items[0]) ==> r == JsString(v.items[0])
    ensures r == Some("") ==> v == JString("") || v.JArray?
  {
    match v
    case JUndefined => Some("undefined")
    case JNull => Some("null")
    case JBool(b) => Some(if b then "true" else "false")
    case JNumber(n) => NumberToStringRoundTrip(n); Some(NumberToString(n))
    case JString(s) => Some(s)
    case JArray(items) =>
      var parts := seq(|items|, i requires 0 <= i < |items| =>
        if Nullish(items[i]) then Some("") else JsString(items[i]));
      assert forall i :: 0 <= i < |items| ==> (parts[i].None? <==> !Nullish(items[i]) && Throws(items[i]));
      if exists i :: 0 <= i < |parts| && parts[i].None? then None
      else Some(Join(seq(|parts|, i requires 0 <= i < |parts| => parts[i].GetOr("")), ","))
    case JObject(m) => if "toString" in m then None else Some("[object Object]")
  }
}
