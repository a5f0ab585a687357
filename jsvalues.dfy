/**
 * The JavaScript values the daemon receives once a text frame has been parsed as JSON, and the
 * few pieces of JavaScript semantics the source applies to them: property lookup, the loose test
 * `== undefined`, truthiness and string conversion. JSON parsing itself is not modelled: the
 * parser is an oracle that yields one of these values or fails. A number carries, beside its
 * value, the text JavaScript's `String(n)` gives for it, which the opaque parser supplies.
 */
module JsValues {
  import opened Wrappers

  datatype JsValue =
    | JUndefined
    | JNull
    | JBool(b: bool)
    | JNum(value: real, text: string)
    | JStr(s: string)
    | JArr(elems: seq<JsValue>)
    | JObj(fields: map<string, JsValue>)

  /** What a JSON text frame turns into: `JSON.parse` throws, or yields a value. */
  datatype Parsed = Unparsable | Parsed(value: JsValue)

  /**
   * `v[key]` for a key that is neither an array index nor a name inherited from
   * `Object.prototype`; `None` stands for the `TypeError` thrown on `null` and `undefined`.
   */
  function Member(v: JsValue, key: string): (r: Option<JsValue>)
    ensures r.None? <==> IsNullish(v)
    ensures v.JObj? && key !in v.fields ==> r == Some(JUndefined)
    ensures v.JObj? && key in v.fields ==> r == Some(v.fields[key])
  {
    match v
    case JUndefined => None
    case JNull => None
    case JObj(m) => Some(if key in m then m[key] else JUndefined)
    case JStr(s) => Some(if key == "length" then JNum(|s| as real, Decimal(|s|)) else JUndefined)
    case JArr(a) => Some(if key == "length" then JNum(|a| as real, Decimal(|a|)) else JUndefined)
    case _ => Some(JUndefined)
  }

  /** A field of a parsed object, `undefined` when it is absent. */
  function Field(m: map<string, JsValue>, key: string): JsValue {
    if key in m then m[key] else JUndefined
  }

  /** The loose comparison `v == undefined`, which also holds of `null`. */
  predicate IsNullish(v: JsValue) {
    v.JUndefined? || v.JNull?
  }

  /**
   * JavaScript truthiness (`if (v)`). JSON has no NaN, so a number is falsy exactly when it is
   * zero.
   */
  predicate Truthy(v: JsValue) {
    match v
    case JUndefined => false
    case JNull => false
    case JBool(b) => b
    case JNum(x, _) => x != 0.0
    case JStr(s) => s != ""
    case _ => true
  }

  /** Decimal digits of a natural number, as `String(n)` prints it. */
  function Decimal(n: nat): (r: string)
    ensures |r| >= 1
    decreases n
  {
    if n < 10 then [Digit(n)] else Decimal(n / 10) + [Digit(n % 10)]
  }

  function Digit(d: nat): char
    requires d < 10
  {
    "0123456789"[d]
  }

  /**
   * `String(v)`, the conversion `"$" + v` applies: arrays are joined with "," (their `null` and
   * `undefined` elements print as nothing) and every plain object prints as "[object Object]".
   */
  function ToJsString(v: JsValue): string
    decreases v, 1
  {
    match v
    case JUndefined => "undefined"
    case JNull => "null"
    case JBool(b) => if b then "true" else "false"
    case JNum(_, text) => text
    case JStr(s) => s
    case JArr(a) => Join(v, a)
    case JObj(_) => "[object Object]"
  }

  /** `Array.prototype.join(",")` over the elements of the array `whole`. */
  function Join(ghost whole: JsValue, a: seq<JsValue>): string
    requires forall x :: x in a ==> x < whole
    decreases whole, 0, |a|
  {
    if a == [] then ""
    else
      assert a[0] in a;
      assert forall x :: x in a[1..] ==> x in a;
      var first := if IsNullish(a[0]) then "" else ToJsString(a[0]);
      if |a| == 1 then first else first + "," + Join(whole, a[1..])
  }

  /** `ToJsString` is the identity on strings, which are what well-behaved clients send. */
  lemma StringIdsPrintAsThemselves(s: string)
    ensures ToJsString(JStr(s)) == s
  {
  }
}
