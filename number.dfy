/** normalizeRating of utils/number.js: read a rating as a radix-10 integer, count
    NaN as 0, and clamp the result into [min, max] (by default [0, 5]). */
module Number {
  import opened Decimal
  import opened JsValues
  import opened ParseInt

  /** The early-return chain of normalizeRating: the lower bound is compared first,
      so with min > max every result is one of the two bounds. */
  function Clamp(n: int, min: int, max: int): (r: int)
    ensures min <= max ==> min <= r <= max
    ensures min <= n <= max ==> r == n
    ensures n < min ==> r == min
    ensures n > max ==> r == (if n < min then min else max)
    ensures min > max ==> r == (if n < min then min else max)
  {
    if n < min then min else if n > max then max else n
  }

  /** parseInt(value, 10), with NaN replaced by 0. */
  function RatingValue(value: JsValue): int {
    match ParseIntValue(value)
    case None => 0
    case Some(k) => k
  }

  /** What normalizeRating returns. */
  function Normalize(value: JsValue, min: int := 0, max: int := 5): (r: int)
    ensures min <= max ==> min <= r <= max
    ensures min > max ==> r == min || r == max
  {
    Clamp(RatingValue(value), min, max)
  }

  /** normalizeRating(value, min, max), step by step as the source does it. */
  method NormalizeRating(value: JsValue, min: int := 0, max: int := 5) returns (r: int)
    ensures r == Normalize(value, min, max)
    ensures min <= max ==> min <= r <= max
  {
    var n: int;
    var parsed := ParseIntValue(value);
    if parsed.None? {
      n := 0;
    } else {
      n := parsed.value;
    }
    if n < min {
      return min;
    }
    if n > max {
      return max;
    }
    return n;
  }

  /** An integer inside [min, max] passes through unchanged, given as a Number or
      as its decimal string. */
  lemma NormalizeKeepsInRange(k: int, min: int, max: int)
    requires min <= k <= max
    ensures Normalize(Str(DecimalString(k)), min, max) == k
    ensures -MaxSafeInteger <= k <= MaxSafeInteger ==> Normalize(Integer(k), min, max) == k
  {
    ParseDecimalString(k);
  }

  /** Normalizing the string form of a result again gives the same result. */
  lemma NormalizeIdempotent(value: JsValue, min: int, max: int)
    requires min <= max
    ensures Normalize(Str(DecimalString(Normalize(value, min, max))), min, max) == Normalize(value, min, max)
  {
    NormalizeKeepsInRange(Normalize(value, min, max), min, max);
  }

  /** A value with no digit after its leading white space and sign counts as 0 before
      clamping: it normalizes as 0 does, so to 0 whenever 0 is in range, in particular
      under the default bounds. */
  lemma NormalizeWithoutDigits(value: JsValue, ws: string, sign: string, rest: string, min: int, max: int)
    requires Scans(ToString(value), ws, sign, "", rest)
    ensures RatingValue(value) == 0
    ensures Normalize(value, min, max) == Clamp(0, min, max)
    ensures min <= 0 <= max ==> Normalize(value, min, max) == 0
    ensures Normalize(value) == 0
  {
    ParseIntOfScan(ToString(value), ws, sign, "", rest);
  }

  /** Readings of typical inputs under the default bounds [0, 5]. */
  lemma NormalizeDefaultExamples()
    ensures Normalize(Str("abc")) == 0
    ensures Normalize(Str("")) == 0
    ensures Normalize(Str("-")) == 0
    ensures Normalize(Null) == 0
    ensures Normalize(Undefined) == 0
    ensures Normalize(Str("4.9 stars")) == 4
    ensures Normalize(Str("  +3x")) == 3
    ensures Normalize(Str("0x10")) == 0
  {
    ParseIntWithoutDigits();
    ParseIntOfNullAndUndefined();
    ParseIntStopsAtNonDigit();
    ParseIntSkipsSpaceAndPlus();
    ParseIntKeepsHexPrefix();
  }

  /** Out-of-range readings are clamped to the nearer bound under the defaults. */
  lemma NormalizeClampsExamples()
    ensures Normalize(Str("10")) == 5
    ensures Normalize(Str("-3")) == 0
    ensures Normalize(Integer(-3)) == 0
    ensures Normalize(Integer(7)) == 5
  {
    assert DecimalString(10) == "10" by {
      assert NatDigits(1) == "1";
    }
    ParseDecimalString(10);
    ParseDecimalString(-3);
    ParseDecimalString(7);
  }
}
