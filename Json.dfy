/** The JSON-shaped values the runner moves around: parsed response bodies,
    command arguments and request payloads. */
module Json {
  import opened Wrappers

  /** A Python value as `json.loads` produces it and `json.dumps` accepts it.
      A float is kept exactly as `mantissa * 10^exponent`. */
  datatype Json =
    | JNull
    | JBool(b: bool)
    | JInt(i: int)
    | JFloat(mantissa: int, exponent: int)
    | JString(s: string)
    | JArray(items: seq<Json>)
    | JObject(fields: map<string, Json>)

  /** Python truthiness (`if arguments:`): None, False, zero and empty
      containers are false, everything else is true. */
  predicate Truthy(j: Json): (r: bool)
    ensures r <==> j != ZeroOf(j)
  {
    match j
    case JNull => false
    case JBool(b) => b
    case JInt(i) => i != 0
    case JFloat(m, _) => m != 0
    case JString(s) => s != []
    case JArray(items) => items != []
    case JObject(fields) => fields != map[]
  }

  /** The false value of each Python type: None, False, zero and the empty
      string, list and dict. A float zero keeps its exponent. */
  function ZeroOf(j: Json): Json {
    match j
    case JNull => JNull
    case JBool(_) => JBool(false)
    case JInt(_) => JInt(0)
    case JFloat(_, e) => JFloat(0, e)
    case JString(_) => JString("")
    case JArray(_) => JArray([])
    case JObject(_) => JObject(map[])
  }

  /** `json.loads`: a text either parses to a value or raises with a message.
      The parser itself is not modelled; it is a parameter of every operation
      that uses it. */
  type JsonLoader = string -> Result<Json, string>
}
