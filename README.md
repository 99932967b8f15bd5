# normalizeRating, modelled in Dafny

The repository is a small movie-browsing web application. Its only piece of logic
is `normalizeRating(value, min = 0, max = 5)` in `utils/number.js`. Display code
calls it to turn an untrusted rating into an integer star count. It:

1. reads `value` with `parseInt(value, 10)`. This is the global function of
   ECMAScript described in section 19.2.5 of ECMA-262, "parseInt ( string, radix )":
   the value is converted by ToString, its leading white space and line
   terminators are skipped, one `+` or `-` is accepted, and the longest run of
   decimal digits that follows is read. NaN results when there is no digit, and
   with radix 10 a `0x` prefix is not stripped;
2. replaces NaN by 0;
3. returns `min` when the number is below `min`, else `max` when it is above `max`,
   else the number itself.

The project has four modules, one per concern:

- `Decimal` (decimal.dfy) covers radix-10 digit strings: what a digit string
  denotes, the shortest numeral of a natural number, and the fact that the two
  agree.
- `JsValues` (js_values.dfy) covers the values a rating can arrive as (`Str`,
  `Null`, `Undefined`, `Bool`, `Integer`) and the abstract operation ToString on
  them.
- `ParseInt` (parse_int.dfy) is `parseInt(s, 10)` as pure recursive functions
  (`TrimStart`, `DigitRun`, `ParseSigned`, `ParseDigits`, `ParseInt10`). It also
  gives a declarative reading of a string, `Scans`: white space, then a sign,
  then the digits, then the rest. Two lemmas tie this reading to the parser:
  `ParseIntOfScan` shows the parser agrees with every such reading, and
  `ScanExists` shows that every string has one.
- `Number` (number.dfy) holds `normalizeRating` as an imperative method,
  `NormalizeRating`. Like the original, it has a mutable local `n` that is
  overwritten when the parse gives NaN, then a chain of early returns. The method
  is proved against the function `Normalize`, and the lemmas state the clamping
  properties about `Normalize`.

NaN is `None` in the parser's `Option<int>` result. `parseInt("-0")` yields the
Number -0, which the model treats as the integer 0.

When `min > max`, the model returns exactly what the code does: the lower bound is
compared first, so the result is `min` when the parsed value is below `min` and `max`
otherwise. Any other reading of that case does not match the code.

## Model

| member | source | states |
|---|---|---|
| `Decimal.NatDigits` | utils/number.js:2 | the numeral of a natural number is non-empty and all digits, and starts with '0' only for 0 (the form ToString gives an integral Number) |
| `Decimal.DigitsValueOfNatDigits` | utils/number.js:2 | reading the numeral of n in radix 10 gives back n |
| `JsValues.DecimalString` | utils/number.js:2 | the string form of an integer is non-empty, starts with '-' exactly when the integer is negative, and is digits after that sign |
| `JsValues.ToString` | utils/number.js:2 | the ToString step of `parseInt(value, 10)`: a string stays as it is, null and undefined become "null" and "undefined", booleans become "true"/"false", and a safe integer becomes its decimal string; ParseIntOfNullAndUndefined and NormalizeKeepsInRange state what parseInt then makes of these |
| `ParseInt.TrimStart` | utils/number.js:2 | the leading white-space skip of parseInt; it never lengthens the string, and TrimStartRemovesWhiteSpace states that it removes exactly the maximal white-space prefix |
| `ParseInt.DigitRun` | utils/number.js:2 | the length of the digit run parseInt reads, at most the string's length; DigitRunIsMaximal states that the run is all digits and cannot be extended |
| `ParseInt.ParseDigits` | utils/number.js:2 | the digit step gives NaN exactly when the string does not start with a decimal digit, and otherwise a non-negative value |
| `ParseInt.ParseSigned` | utils/number.js:2 | the sign step: a negative result only comes after a leading '-', and a string that starts with a digit gives a non-negative number |
| `ParseInt.ParseInt10` | utils/number.js:2 | `parseInt(s, 10)` on a string; ParseIntOfScan and ScanExists together fix its result on every string (NaN without digits, else the signed value of the longest digit run after white space and one sign), and ParseDecimalString states that it reads back every integer's decimal string |
| `ParseInt.ParseIntValue` | utils/number.js:2 | `parseInt(value, 10)` on any modelled value, through ToString; ParseIntOfNullAndUndefined and NormalizeKeepsInRange state its results on null, undefined and safe integers |
| `ParseInt.TrimStartRemovesWhiteSpace` | utils/number.js:2 | the white-space skip removes a prefix made only of white space and line terminators, and what remains does not start with one |
| `ParseInt.DigitRunIsMaximal` | utils/number.js:2 | the digits parseInt reads are all decimal digits, and the character after them (if any) is not a digit |
| `ParseInt.ParseIntOfScan` | utils/number.js:2 | for a string read as white space, then at most one sign, then digits, then a rest that does not start with a digit, parseInt gives NaN when there are no digits and otherwise the digits' value, negated after '-' |
| `ParseInt.ScanExists` | utils/number.js:2 | every string has such a reading, so the previous lemma fixes parseInt on all inputs |
| `ParseInt.ParseDecimalString` | utils/number.js:2 | parseInt reads back the string form of every integer |
| `ParseInt.ParseIntStopsAtNonDigit` | utils/number.js:2 | "4.9 stars" reads as 4 |
| `ParseInt.ParseIntSkipsSpaceAndPlus` | utils/number.js:2 | "  +3x" reads as 3 |
| `ParseInt.ParseIntKeepsHexPrefix` | utils/number.js:2 | with radix 10, "0x10" reads as 0 |
| `ParseInt.ParseIntSignedAfterSpace` | utils/number.js:2 | a tab and a line feed before '-' are skipped: "\t\n-12ab" reads as -12 |
| `ParseInt.ParseIntNegativeZero` | utils/number.js:2 | "-0" reads as 0 |
| `ParseInt.ParseIntWithoutDigits` | utils/number.js:2 | "", "abc" and "-" read as NaN |
| `ParseInt.ParseIntNoDigitAfterSignOrSpace` | utils/number.js:2 | "+-3" (a second sign) and a space and a no-break space before ".5" read as NaN |
| `ParseInt.ParseIntOfNullAndUndefined` | utils/number.js:2 | null and undefined, through their string forms "null" and "undefined", read as NaN |
| `Number.RatingValue` | utils/number.js:2-5 | `n` after NaN is replaced by 0; NormalizeWithoutDigits states that it is 0 for every value without digits, and NormalizeKeepsInRange that it is k for the decimal string of k |
| `Number.Clamp` | utils/number.js:6-11 | with min <= max the result lies in [min, max] and a value inside passes through; below min gives min; above max gives max unless the value is also below min; with min > max the result is min for values below min and max for all others |
| `Number.Normalize` | utils/number.js:1-12 | with min <= max the normalized rating lies in [min, max]; with min > max it is one of the two bounds; the bounds default to 0 and 5 |
| `Number.NormalizeRating` | utils/number.js:1-13 | the method with its mutable local and early returns computes Normalize for every input, so its result lies in [min, max] whenever min <= max |
| `Number.NormalizeKeepsInRange` | utils/number.js:2-12 | an integer inside [min, max] is returned unchanged, given as its decimal string or, when it is a safe integer, as a Number |
| `Number.NormalizeIdempotent` | utils/number.js:2-12 | with min <= max, normalizing the string form of a result again with the same bounds gives the same result |
| `Number.NormalizeWithoutDigits` | utils/number.js:2-12 | a value with no digit after leading white space and one sign counts as 0 before clamping, for any bounds: its reading is 0 and it normalizes exactly as 0 does (so "abc" gives 1 under [1, 5] and -1 under [-5, -1]); the result is 0 when 0 is in range, and always under the default bounds |
| `Number.NormalizeDefaultExamples` | utils/number.js:1-12 | under the defaults, "abc", "", "-", null and undefined give 0, "4.9 stars" gives 4, "  +3x" gives 3 and "0x10" gives 0 |
| `Number.NormalizeClampsExamples` | utils/number.js:6-11 | under the defaults, "10" and the Number 7 give 5, while "-3" and the Number -3 give 0 |

## Left out

- src/main.js is not part of this model. It builds the router (`createRouter`, `createWebHistory`), lazily imports the detail page and mounts the app into the DOM, all of it wiring over libraries and browser I/O.
- The `Number(route.params.id)` coercion in src/main.js is not modelled. It follows StringToNumber and produces IEEE-754 doubles, fractions and NaN, which are floating-point behaviour.
- eslint.config.js is lint configuration with no runtime behaviour.
- JsValues.ToString: only strings, null, undefined, booleans and the safe integers (magnitude at most 2^53 - 1, Number.MAX_SAFE_INTEGER) are modelled. Objects, arrays, BigInts, fractional Numbers and integral Numbers beyond 2^53 - 1 are left out. Above that bound Number::toString writes the shortest digits that round back to the same double, padded with zeros ((2**60).toString() is "1152921504606847000"), and from 10^21 on it uses exponential notation ("1e+21", read back as 1).
- JsValues.ToString: a Symbol is not modelled. ToString of a Symbol throws a TypeError, so normalizeRating does fail for it. The model shows no failure only for the values it covers.
- ParseInt.ParseInt10: the result is the exact integer the digits denote. ECMAScript rounds a value beyond 2^53 to the nearest double, and that rounding is not modelled.
- ParseInt.ParseInt10: the Number -0 (from "-0") is the integer 0 here, because the model has no signed zero.
- Number.NormalizeRating: the bounds are integers. A caller passing fractional or NaN bounds is not modelled.
