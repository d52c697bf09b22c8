/** The JSON parameter maps of a request and the typed lookups the source
    performs on them (`as_f64`, `as_i64`, `as_str` of serde_json). */
module Json {
  import opened Wrappers

  /** A 64-bit float, kept as the computation that produced it. The model never
      evaluates IEEE arithmetic or its decimal rendering: the compiler only
      records WHICH quantity is rendered, and the rendering itself is a
      parameter (`display`) standing for Rust's `Display` of `f64`. */
  datatype F64 =
    | Literal(r: real)                // a float literal of the source, or a JSON number with a fraction or exponent
    | FromInt(i: int)                 // a JSON integer converted with `as f64`
    | Quotient(num: F64, den: F64)    // IEEE division
    | Difference(lhs: F64, rhs: F64)  // IEEE subtraction

  /** A serde_json value. Integers that serde stores as `i64`/`u64` are `JInt`;
      numbers written with a fraction or exponent are `JFloat`. */
  datatype JsonValue =
    | JNull
    | JBool(b: bool)
    | JInt(i: int)
    | JFloat(r: real)
    | JString(s: string)
    | JArray(items: seq<JsonValue>)
    | JObject(fields: seq<(string, JsonValue)>)

  /** `HashMap<String, serde_json::Value>` */
  type Params = map<string, JsonValue>

  const I64_MIN: int := -0x8000_0000_0000_0000
  const I64_MAX: int := 0x7FFF_FFFF_FFFF_FFFF

  predicate IsI64(i: int) {
    I64_MIN <= i <= I64_MAX
  }

  /** `Value::as_f64`: every JSON number converts, nothing else does. */
  function AsF64(v: JsonValue): (r: Option<F64>)
    ensures r.Some? <==> v.JInt? || v.JFloat?
    ensures v.JInt? ==> r == Some(FromInt(v.i))
    ensures v.JFloat? ==> r == Some(Literal(v.r))
  {
    match v
    case JInt(i) => Some(FromInt(i))
    case JFloat(x) => Some(Literal(x))
    case _ => None
  }

  /** `Value::as_i64`: only integers that fit in `i64`; a float such as `2.0`
      and a `u64` above `i64::MAX` both give `None`. */
  function AsI64(v: JsonValue): (r: Option<int>)
    ensures r.Some? <==> v.JInt? && IsI64(v.i)
    ensures r.Some? ==> r.value == v.i && IsI64(r.value)
  {
    match v
    case JInt(i) => if IsI64(i) then Some(i) else None
    case _ => None
  }

  /** `Value::as_str`: only JSON strings. */
  function AsStr(v: JsonValue): (r: Option<string>)
    ensures r.Some? <==> v.JString?
    ensures r.Some? ==> r.value == v.s
  {
    match v
    case JString(s) => Some(s)
    case _ => None
  }

  /** `parameters.get(key).and_then(|v| v.as_f64())` */
  function GetF64(p: Params, key: string): Option<F64> {
    if key in p then AsF64(p[key]) else None
  }

  /** `parameters.get(key).and_then(|v| v.as_i64())` */
  function GetI64(p: Params, key: string): Option<int> {
    if key in p then AsI64(p[key]) else None
  }

  /** `parameters.get(key).and_then(|v| v.as_str())` */
  function GetStr(p: Params, key: string): Option<string> {
    if key in p then AsStr(p[key]) else None
  }
}
