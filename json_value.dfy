/** The JSON values that travel between the console and its backend, with the two
    JavaScript conversions the pages apply to them: `String(v)` and truthiness. */
module JsonValue {

  /** A JSON value. A number is carried as the text JavaScript's `String(n)` gives
      for it ("0", "12.5", "1e+21"), so that conversions of numbers stay exact. A
      number parsed from JSON is finite, but a price put through `Number` can be
      "Infinity", which is carried as a `JNum` here although `JSON.stringify` sends
      it as `null`. */
  datatype Json =
    | JNull
    | JBool(b: bool)
    | JNum(text: string)
    | JStr(s: string)
    | JArr(items: seq<Json>)
    | JObj(fields: map<string, Json>)

  /** JavaScript truthiness: `null`, `false`, `0` and `""` are falsy; arrays and
      objects, even empty ones, are truthy. */
  predicate Truthy(v: Json)
    ensures !Truthy(v) <==> v == JNull || v == JBool(false) || v == JNum("0") || v == JStr("")
  {
    match v
    case JNull => false
    case JBool(b) => b
    case JNum(t) => t != "0"
    case JStr(s) => s != ""
    case JArr(_) => true
    case JObj(_) => true
  }

  /** `typeof v === "object"`, which JavaScript answers yes for `null` and arrays too. */
  predicate IsObjectType(v: Json) {
    v.JNull? || v.JArr? || v.JObj?
  }

  /** `String(v)`: an array is joined with commas, with `null` members written as
      the empty string; any object is "[object Object]". */
  function JsString(v: Json): (r: string)
    ensures v.JStr? ==> r == v.s
    ensures v.JObj? ==> r == "[object Object]"
    ensures v == JArr([]) ==> r == ""
    ensures v.JArr? && |v.items| == 1 ==> r == if v.items[0].JNull? then "" else JsString(v.items[0])
    decreases v, 1
  {
    match v
    case JNull => "null"
    case JBool(b) => if b then "true" else "false"
    case JNum(t) => t
    case JStr(s) => s
    case JArr(xs) => Join(xs)
    case JObj(_) => "[object Object]"
  }

  /** `Array.prototype.join(",")` over the members of an array. */
  function Join(xs: seq<Json>): string
    decreases xs, 0
  {
    if xs == [] then ""
    else
      var first := if xs[0].JNull? then "" else JsString(xs[0]);
      if |xs| == 1 then first else first + "," + Join(xs[1..])
  }
}
