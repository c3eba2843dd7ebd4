/**
 * The dynamic values the Go code handles as `interface{}` when it decodes
 * JSON into `map[string]interface{}`, and how `fmt.Sprint` renders them. A
 * JSON object is kept as its members in one order a `range` loop may visit
 * the Go map. Go decodes every JSON number as a `float64`; `JNumber` stands
 * only for whole numbers of magnitude below 10^6, which `fmt.Sprint` prints
 * as plain decimals. Larger or fractional numbers are not modelled.
 */
module Json {
  import opened Text

  datatype JsonValue =
    | JNull
    | JBool(b: bool)
    | JNumber(n: int)
    | JString(s: string)
    | JArray(items: seq<JsonValue>)
    | JObject(members: seq<(string, JsonValue)>)

  /** The text of a Go `error` value. */
  datatype Error = Error(text: string)

  function Join(parts: seq<string>, separator: string): string
  {
    if |parts| == 0 then ""
    else if |parts| == 1 then parts[0]
    else parts[0] + separator + Join(parts[1..], separator)
  }

  /**
   * `fmt.Sprint(v)`: strings print as themselves, numbers in decimal, lists as
   * `[a b]` and maps as `map[k:v]` (members in the order given).
   */
  function Sprint(v: JsonValue): string
    decreases v
  {
    match v
    case JNull => "<nil>"
    case JBool(b) => if b then "true" else "false"
    case JNumber(n) => Decimal(n)
    case JString(s) => s
    case JArray(items) =>
      "[" + Join(seq(|items|, i requires 0 <= i < |items| => Sprint(items[i])), " ") + "]"
    case JObject(members) =>
      "map[" + Join(seq(|members|, i requires 0 <= i < |members| => MemberText(v, i)), " ") + "]"
  }

  function MemberText(v: JsonValue, i: nat): string
    requires v.JObject? && i < |v.members|
    decreases v, 0
  {
    var m := v.members[i];
    assert m in v.members;
    m.0 + ":" + Sprint(m.1)
  }

  /** The error `dataModelToMap` records for a list element that is not a string. */
  function ConversionError(element: JsonValue, list: seq<JsonValue>): Error
  {
    Error("Could not convert: " + Sprint(element) + " of type " + Sprint(JArray(list)) + " to string")
  }
}
