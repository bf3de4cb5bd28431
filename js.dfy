/**
 * JSON values as `response.json()` produces them, together with the handful of
 * JavaScript evaluation rules the handlers rely on: truthiness, member reads
 * (which throw on `null`), `String(x)` (which throws on an object without a
 * primitive form), `x || d` and `new Error(x).message`.
 */
module Js {
  import opened Wrappers

  /** A parsed JSON document. Numbers are integers; an object is a map from keys to values. */
  datatype Json =
    | JNull
    | JBool(b: bool)
    | JNum(n: int)
    | JStr(s: string)
    | JArr(items: seq<Json>)
    | JObj(members: map<string, Json>)

  /** The value of a JavaScript expression over JSON data: `None` is `undefined`. */
  type Value = Option<Json>

  /** How evaluating an expression (or a `try` block) ended. */
  datatype Completion<T> = Normal(value: T) | Throw(message: string)

  /** JavaScript's ToBoolean on a JSON value or `undefined`. */
  predicate Truthy(v: Value) {
    match v
    case None => false
    case Some(JNull) => false
    case Some(JBool(b)) => b
    case Some(JNum(n)) => n != 0
    case Some(JStr(s)) => s != ""
    case Some(_) => true
  }

  /** The message of the TypeError raised by reading a member of `null` (V8's wording). */
  function NullRead(key: string): string {
    "Cannot read properties of null (reading '" + key + "')"
  }

  /**
   * `base.key` for a key that no built-in prototype defines (`error`, `results`,
   * `url`, `src`): an object's own member, `undefined` for every other non-null
   * value, and a TypeError for `null`.
   */
  function Member(base: Json, key: string): (r: Completion<Value>)
    ensures r.Throw? <==> base == JNull
    ensures r.Normal? && r.value.Some? ==> base.JObj? && key in base.members && r.value.value == base.members[key]
  {
    match base
    case JNull => Throw(NullRead(key))
    case JObj(m) => Normal(if key in m then Some(m[key]) else None)
    case _ => Normal(None)
  }

  /** `base[0]` on a value already known to be truthy (so not `null`). */
  function First(base: Json): Value
    requires Truthy(Some(base))
  {
    match base
    case JArr(items) => if |items| > 0 then Some(items[0]) else None
    case JStr(s) => if |s| > 0 then Some(JStr([s[0]])) else None
    case JObj(m) => if "0" in m then Some(m["0"]) else None
    case _ => None
  }

  /**
   * `base.length > 0` on a value already known to be truthy. An object's
   * `length` member is compared as a number when it is a number, a boolean or
   * `null`; any other member counts as not positive.
   */
  predicate HasPositiveLength(base: Json)
    requires Truthy(Some(base))
  {
    match base
    case JArr(items) => |items| > 0
    case JStr(s) => |s| > 0
    case JObj(m) =>
      "length" in m &&
      (match m["length"]
       case JNum(n) => n > 0
       case JBool(b) => b
       case _ => false)
    case _ => false
  }

  /** The digits of a natural number in base ten. */
  function NatToDecimal(n: nat): (s: string)
    ensures |s| > 0
    decreases n
  {
    var d := ['0' + (n % 10) as char];
    if n < 10 then d else NatToDecimal(n / 10) + d
  }

  /** The message of the TypeError raised when ToPrimitive finds no primitive (V8's wording). */
  const NotPrimitive := "Cannot convert object to primitive value"

  /**
   * An object with its own `toString` member, or an array holding one at any
   * depth. JSON values are never callable, so such an object shadows
   * `Object.prototype.toString` with a value that cannot be called, and
   * `valueOf` gives back the object itself: no primitive is found.
   */
  predicate Unconvertible(j: Json)
    decreases j
  {
    match j
    case JObj(m) => "toString" in m
    case JArr(items) => exists i :: 0 <= i < |items| && Unconvertible(items[i])
    case _ => false
  }

  /** `String(x)` (the ToString operation) for a JSON value, or the TypeError it throws. */
  function ToStr(j: Json): (r: Completion<string>)
    ensures r.Throw? <==> Unconvertible(j)
    ensures r.Throw? ==> r.message == NotPrimitive
    ensures j.JStr? ==> r == Normal(j.s)
    decreases j
  {
    match j
    case JNull => Normal("null")
    case JBool(b) => Normal(if b then "true" else "false")
    case JNum(n) => Normal(if n < 0 then "-" + NatToDecimal(-n) else NatToDecimal(n))
    case JStr(s) => Normal(s)
    case JArr(items) =>
      // Array.prototype.join(","): a null element contributes the empty string.
      var parts := seq(|items|, i requires 0 <= i < |items| => if items[i] == JNull then Normal("") else ToStr(items[i]));
      assert forall i :: 0 <= i < |items| ==> (parts[i].Throw? <==> Unconvertible(items[i]));
      Joined(parts)
    case JObj(m) => if "toString" in m then Throw(NotPrimitive) else Normal("[object Object]")
  }

  /** The parts joined with commas, or the first of them that threw. */
  function Joined(parts: seq<Completion<string>>): (r: Completion<string>)
    ensures r.Throw? <==> exists i :: 0 <= i < |parts| && parts[i].Throw?
    ensures r.Throw? ==> exists i :: 0 <= i < |parts| && parts[i] == r
  {
    if parts == [] then Normal("")
    else match parts[0]
      case Throw(_) => parts[0]
      case Normal(first) =>
        if |parts| == 1 then parts[0]
        else match Joined(parts[1..])
          case Throw(m) => Throw(m)
          case Normal(rest) => Normal(first + "," + rest)
  }

  /** `v || d` where `d` is a string literal. */
  function Or(v: Value, d: string): Value {
    if Truthy(v) then v else Some(JStr(d))
  }

  /** `new Error(v).message`: the value converted to a string, "" for `undefined`, or what the conversion throws. */
  function ErrorMessage(v: Value): Completion<string> {
    match v
    case None => Normal("")
    case Some(j) => ToStr(j)
  }

  /** `err.message || d` in a `catch` block. */
  function CaughtMessage(message: string, d: string): (r: string)
    ensures d != "" ==> r != ""
    ensures message != "" ==> r == message
  {
    if message == "" then d else message
  }
}
