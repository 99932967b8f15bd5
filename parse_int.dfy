/** The global function parseInt(string, radix) of ECMAScript (section 19.2.5 of
    ECMA-262), for radix 10: leading white space is skipped, one '+' or '-' is
    accepted, and the longest run of decimal digits that follows is read. */
module ParseInt {
  import opened Decimal
  import opened JsValues

  /** None stands for the Number NaN. */
  datatype Option<T> = None | Some(value: T)

  /** The code points that TrimString removes: WhiteSpace (TAB, VT, FF, ZWNBSP and
      every space separator of category Zs) and LineTerminator (LF, CR, LS, PS). */
  predicate IsStrWhiteSpace(c: char) {
    || c == '\t' || c == '\U{000B}' || c == '\U{000C}' || c == '\U{FEFF}'
    || c == ' ' || c == '\U{00A0}' || c == '\U{1680}' || '\U{2000}' <= c <= '\U{200A}'
    || c == '\U{202F}' || c == '\U{205F}' || c == '\U{3000}'
    || c == '\n' || c == '\r' || c == '\U{2028}' || c == '\U{2029}'
  }

  predicate AllWhiteSpace(s: string) {
    forall i :: 0 <= i < |s| ==> IsStrWhiteSpace(s[i])
  }

  predicate IsSign(c: char) {
    c == '+' || c == '-'
  }

  /** TrimString(s, start): what is left once the leading white space is removed. */
  function TrimStart(s: string): (r: string)
    ensures |r| <= |s|
  {
    if s != [] && IsStrWhiteSpace(s[0]) then TrimStart(s[1..]) else s
  }

  /** The length of the longest prefix of s made of decimal digits. */
  function DigitRun(s: string): (n: nat)
    ensures n <= |s|
  {
    if s != [] && IsDecimalDigit(s[0]) then 1 + DigitRun(s[1..]) else 0
  }

  /** parseInt(s, 10) for a string s. With radix 10 a "0x" prefix is not stripped. */
  function ParseInt10(s: string): Option<int> {
    ParseSigned(TrimStart(s))
  }

  /** The steps of parseInt after the white space: the sign, then the digits. */
  function ParseSigned(t: string): (r: Option<int>)
    ensures r.Some? && r.value < 0 ==> t != [] && t[0] == '-'
    ensures t != [] && IsDecimalDigit(t[0]) ==> r.Some? && r.value >= 0
  {
    if t != [] && t[0] == '-' then Negate(ParseDigits(t[1..]))
    else if t != [] && t[0] == '+' then ParseDigits(t[1..])
    else ParseDigits(t)
  }

  /** The longest run of leading digits, or NaN when there is none. */
  function ParseDigits(u: string): (r: Option<int>)
    ensures r.None? <==> u == [] || !IsDecimalDigit(u[0])
    ensures r.Some? ==> r.value >= 0
  {
    var n := DigitRun(u);
    DigitRunIsMaximal(u);
    if n == 0 then None else Some(DigitsValue(u[..n]))
  }

  function Negate(r: Option<int>): Option<int> {
    match r
    case None => None
    case Some(k) => Some(-k)
  }

  /** parseInt(value, 10) for any value: the value is first converted by ToString. */
  function ParseIntValue(v: JsValue): Option<int> {
    ParseInt10(ToString(v))
  }

  /** s is the white space ws followed by t, and t does not start with white space. */
  ghost predicate SpaceScan(s: string, ws: string, t: string) {
    s == ws + t && AllWhiteSpace(ws) && (t == [] || !IsStrWhiteSpace(t[0]))
  }

  /** t is at most one sign followed by u; a sign is never left in front of u. */
  ghost predicate SignScan(t: string, sign: string, u: string) {
    && t == sign + u
    && (sign == "" || sign == "+" || sign == "-")
    && (sign == "" ==> u == [] || !IsSign(u[0]))
  }

  /** u is the digits followed by a rest that does not start with a digit. */
  ghost predicate DigitScan(u: string, digits: string, rest: string) {
    u == digits + rest && AllDigits(digits) && (rest == [] || !IsDecimalDigit(rest[0]))
  }

  /** s splits into leading white space, an optional sign, the digits that are read
      and the rest, each piece as long as the rules allow. */
  ghost predicate Scans(s: string, ws: string, sign: string, digits: string, rest: string) {
    && SpaceScan(s, ws, sign + (digits + rest))
    && SignScan(sign + (digits + rest), sign, digits + rest)
    && DigitScan(digits + rest, digits, rest)
  }

  /** The value a scan denotes: NaN without digits, otherwise the signed digit value. */
  function ScanValue(sign: string, digits: string): Option<int>
    requires AllDigits(digits)
  {
    if digits == [] then None
    else if sign == "-" then Some(-(DigitsValue(digits) as int))
    else Some(DigitsValue(digits))
  }

  /** TrimStart removes a prefix made of white space, and all of it. */
  lemma {:induction false} TrimStartRemovesWhiteSpace(s: string)
    ensures |TrimStart(s)| <= |s| && TrimStart(s) == s[|s| - |TrimStart(s)|..]
    ensures AllWhiteSpace(s[..|s| - |TrimStart(s)|])
    ensures TrimStart(s) == [] || !IsStrWhiteSpace(TrimStart(s)[0])
  {
    if s != [] && IsStrWhiteSpace(s[0]) {
      TrimStartRemovesWhiteSpace(s[1..]);
      var k := |s| - |TrimStart(s)|;
      assert s[..k] == [s[0]] + s[1..][..k - 1];
    }
  }

  /** DigitRun measures a prefix of digits that cannot be extended. */
  lemma {:induction false} DigitRunIsMaximal(s: string)
    ensures AllDigits(s[..DigitRun(s)])
    ensures DigitRun(s) == |s| || !IsDecimalDigit(s[DigitRun(s)])
  {
    if s != [] && IsDecimalDigit(s[0]) {
      DigitRunIsMaximal(s[1..]);
      assert s[..DigitRun(s)] == [s[0]] + s[1..][..DigitRun(s[1..])];
    }
  }

  lemma {:induction false} TrimStartOfSpaceScan(s: string, ws: string, t: string)
    requires SpaceScan(s, ws, t)
    ensures TrimStart(s) == t
  {
    if ws != [] {
      assert s[1..] == ws[1..] + t;
      TrimStartOfSpaceScan(s[1..], ws[1..], t);
    }
  }

  lemma {:induction false} DigitRunOfDigitScan(u: string, digits: string, rest: string)
    requires DigitScan(u, digits, rest)
    ensures DigitRun(u) == |digits|
  {
    if digits != [] {
      assert u[1..] == digits[1..] + rest;
      DigitRunOfDigitScan(u[1..], digits[1..], rest);
    }
  }

  lemma ParseSignedOfSignScan(t: string, sign: string, u: string)
    requires SignScan(t, sign, u)
    ensures ParseSigned(t) == if sign == "-" then Negate(ParseDigits(u)) else ParseDigits(u)
  {
    if sign == "" {
      assert t == u;
    } else {
      assert t[0] == sign[0] && t[1..] == u;
    }
  }

  lemma ParseDigitsOfDigitScan(u: string, digits: string, rest: string)
    requires DigitScan(u, digits, rest)
    ensures ParseDigits(u) == ScanValue("", digits)
  {
    DigitRunOfDigitScan(u, digits, rest);
    assert u[..|digits|] == digits;
  }

  /** parseInt agrees with the declarative reading of its input. */
  lemma ParseIntOfScan(s: string, ws: string, sign: string, digits: string, rest: string)
    requires Scans(s, ws, sign, digits, rest)
    ensures ParseInt10(s) == ScanValue(sign, digits)
  {
    TrimStartOfSpaceScan(s, ws, sign + (digits + rest));
    ParseSignedOfSignScan(sign + (digits + rest), sign, digits + rest);
    ParseDigitsOfDigitScan(digits + rest, digits, rest);
  }

  lemma SpaceScanOfTrimStart(s: string)
    ensures SpaceScan(s, s[..|s| - |TrimStart(s)|], TrimStart(s))
  {
    TrimStartRemovesWhiteSpace(s);
    assert s == s[..|s| - |TrimStart(s)|] + s[|s| - |TrimStart(s)|..];
  }

  lemma SignScanExists(t: string)
    ensures var sign := if t != [] && IsSign(t[0]) then t[..1] else ""; SignScan(t, sign, t[|sign|..])
  {
  }

  lemma DigitScanOfDigitRun(u: string)
    ensures DigitScan(u, u[..DigitRun(u)], u[DigitRun(u)..])
  {
  }

  lemma ScansOfParts(s: string, ws: string, t: string, sign: string, u: string, digits: string, rest: string)
    requires SpaceScan(s, ws, t) && SignScan(t, sign, u) && DigitScan(u, digits, rest)
    ensures Scans(s, ws, sign, digits, rest)
  {
  }

  lemma ScanWitness(s: string, ws: string, sign: string, digits: string, rest: string)
    requires Scans(s, ws, sign, digits, rest)
    ensures exists ws', sign', digits', rest' :: Scans(s, ws', sign', digits', rest')
  {
  }

  /** Every string has such a reading, so ParseIntOfScan determines parseInt everywhere. */
  lemma ScanExists(s: string)
    ensures exists ws, sign, digits, rest :: Scans(s, ws, sign, digits, rest)
  {
    var t := TrimStart(s);
    var ws := s[..|s| - |t|];
    SpaceScanOfTrimStart(s);
    var sign := if t != [] && IsSign(t[0]) then t[..1] else "";
    var u := t[|sign|..];
    SignScanExists(t);
    var n := DigitRun(u);
    var digits, rest := u[..n], u[n..];
    DigitScanOfDigitRun(u);
    ScansOfParts(s, ws, t, sign, u, digits, rest);
    ScanWitness(s, ws, sign, digits, rest);
  }

  /** A numeral with an optional '-' and nothing around it is read whole. */
  lemma ScansOfNumeral(sign: string, digits: string)
    requires sign == "" || sign == "-"
    requires digits != [] && AllDigits(digits)
    ensures Scans(sign + digits, "", sign, digits, "")
  {
  }

  /** parseInt reads back the string form of every integer. */
  lemma ParseDecimalString(k: int)
    ensures ParseInt10(DecimalString(k)) == Some(k)
  {
    var m: nat := if k < 0 then -k else k;
    var sign := if k < 0 then "-" else "";
    var digits := NatDigits(m);
    assert DecimalString(k) == sign + digits;
    ScansOfNumeral(sign, digits);
    ParseIntOfScan(sign + digits, "", sign, digits, "");
    DigitsValueOfNatDigits(m);
  }

  /** Reading stops at the first character that is not a digit after the digits
      start. */
  lemma ParseIntStopsAtNonDigit()
    ensures ParseInt10("4.9 stars") == Some(4)
  {
  }

  /** Leading spaces and one '+' are skipped before the digits. */
  lemma ParseIntSkipsSpaceAndPlus()
    ensures ParseInt10("  +3x") == Some(3)
  {
  }

  /** With radix 10 the "0x" prefix is not stripped: "0x10" is read as the digit 0. */
  lemma ParseIntKeepsHexPrefix()
    ensures ParseInt10("0x10") == Some(0)
  {
  }

  /** Line terminators count as leading white space before the sign. */
  lemma ParseIntSignedAfterSpace()
    ensures ParseInt10("\t\n-12ab") == Some(-12)
  {
    assert DigitsValue("12") == 12 by {
      assert "12"[..1] == "1";
    }
    ParseIntOfScan("\t\n-12ab", "\t\n", "-", "12", "ab");
  }

  /** "-0" reads as the integer 0 (the Number -0 is not distinguished here). */
  lemma ParseIntNegativeZero()
    ensures ParseInt10("-0") == Some(0)
  {
  }

  /** Without a digit after the white space and one sign the result is NaN. */
  lemma ParseIntWithoutDigits()
    ensures ParseInt10("") == None
    ensures ParseInt10("abc") == None
    ensures ParseInt10("-") == None
  {
  }

  /** Only one sign is accepted, and white space ends before a non-digit: still NaN. */
  lemma ParseIntNoDigitAfterSignOrSpace()
    ensures ParseInt10("+-3") == None
    ensures ParseInt10(" \U{00A0}.5") == None
  {
  }

  /** The string forms of null and undefined have no digits either. */
  lemma ParseIntOfNullAndUndefined()
    ensures ParseIntValue(Null) == None
    ensures ParseIntValue(Undefined) == None
  {
  }
}
