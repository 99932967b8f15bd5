/** The ECMAScript values a rating can arrive as, and their conversion to a string. */
module JsValues {
  import opened Decimal

  /** Number.MAX_SAFE_INTEGER, 2^53 - 1: every integer up to this magnitude is a Number,
      and Number::toString writes it as its exact decimal numeral. */
  const MaxSafeInteger: int := 9_007_199_254_740_991

  /** The safe integers, the integral Numbers modelled here. */
  type SafeInteger = k: int | -MaxSafeInteger <= k <= MaxSafeInteger

  datatype JsValue =
    | Str(s: string)
    | Null
    | Undefined
    | Bool(b: bool)
    | Integer(k: SafeInteger)

  /** The decimal string of an integer: an optional '-' and the numeral of its magnitude.
      For a safe integer this is what Number::toString writes. */
  function DecimalString(k: int): (s: string)
    ensures |s| > 0
    ensures k < 0 <==> s[0] == '-'
    ensures AllDigits(if k < 0 then s[1..] else s)
  {
    if k < 0 then "-" + NatDigits(-k) else NatDigits(k)
  }

  /** The abstract operation ToString, for the values modelled here. */
  function ToString(v: JsValue): string {
    match v
    case Str(s) => s
    case Null => "null"
    case Undefined => "undefined"
    case Bool(b) => if b then "true" else "false"
    case Integer(k) => DecimalString(k)
  }
}
