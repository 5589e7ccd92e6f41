/**
 * The slice of JavaScript value semantics that the reforma routes and
 * components rely on: JSON values, truthiness and `||`, `String.prototype.trim`,
 * `Number.parseFloat`, `Number(string)` and what `JSON.stringify` does to a value.
 * Numbers are exact reals; `NaN` is a value of its own.
 */
module Js {
  import opened Wrappers

  /** A value that can sit under a key of a parsed request or response body. */
  datatype Val =
    | Undefined          // the key is absent
    | Null
    | Bool(b: bool)
    | Num(x: real)       // a finite number
    | NaN
    | Str(s: string)
    | Obj                // any object; always truthy

  /** ECMAScript ToBoolean: every value but the six falsy ones is truthy. */
  function Truthy(v: Val): (b: bool)
    ensures b <==> !(v == Undefined || v == Null || v == Bool(false) || v == Num(0.0) || v == NaN || v == Str(""))
  {
    match v
    case Undefined => false
    case Null => false
    case Bool(b) => b
    case Num(x) => x != 0.0
    case NaN => false
    case Str(s) => s != ""
    case Obj => true
  }

  /** `a || b`: the first operand when it is truthy, the second otherwise. */
  function Or(a: Val, b: Val): (r: Val)
    ensures Truthy(a) ==> r == a
    ensures !Truthy(a) ==> r == b
  {
    if Truthy(a) then a else b
  }

  /** `typeof v === "number"`; NaN is a number too. */
  predicate IsNumber(v: Val) {
    v.Num? || v.NaN?
  }

  /** What a value becomes after `JSON.stringify` and `JSON.parse`: NaN turns into null. */
  function JsonValue(v: Val): (r: Val)
    ensures v != NaN ==> r == v
    ensures v == NaN ==> r == Null
  {
    if v.NaN? then Null else v
  }

  // ---------------------------------------------------------------------------
  // Whitespace and trim

  /** The WhiteSpace and LineTerminator code points of ECMAScript. */
  predicate IsJsSpace(c: char) {
    c == '\t' || c == '\n' || c == '\U{B}' || c == '\U{C}' || c == '\r' || c == ' '
    || c == '\U{A0}' || c == '\U{1680}' || ('\U{2000}' <= c <= '\U{200A}')
    || c == '\U{2028}' || c == '\U{2029}' || c == '\U{202F}' || c == '\U{205F}'
    || c == '\U{3000}' || c == '\U{FEFF}'
  }

  /** Drops leading whitespace. */
  function TrimStart(s: string): (r: string)
    ensures |r| <= |s| && r == s[|s| - |r|..]
    ensures r != [] ==> !IsJsSpace(r[0])
    ensures forall i :: 0 <= i < |s| - |r| ==> IsJsSpace(s[i])
  {
    if |s| > 0 && IsJsSpace(s[0]) then
      var r := TrimStart(s[1..]);
      assert forall i :: 1 <= i < |s| - |r| ==> s[i] == s[1..][i - 1];
      r
    else s
  }

  /** Drops trailing whitespace. */
  function TrimEnd(s: string): (r: string)
    ensures |r| <= |s| && r == s[..|r|]
    ensures r != [] ==> !IsJsSpace(r[|r| - 1])
    ensures forall i :: |r| <= i < |s| ==> IsJsSpace(s[i])
  {
    if |s| > 0 && IsJsSpace(s[|s| - 1]) then TrimEnd(s[..|s| - 1]) else s
  }

  /** `s.trim()`: the slice of `s` between its leading and its trailing whitespace. */
  function Trim(s: string): (r: string)
    ensures |r| <= |TrimStart(s)| <= |s|
    ensures r != [] ==> !IsJsSpace(r[0]) && !IsJsSpace(r[|r| - 1])
    ensures forall i :: 0 <= i < |r| ==> r[i] == s[|s| - |TrimStart(s)| + i]
    ensures forall i :: 0 <= i < |s| - |TrimStart(s)| ==> IsJsSpace(s[i])
    ensures forall i :: |s| - |TrimStart(s)| + |r| <= i < |s| ==> IsJsSpace(s[i])
  {
    TrimEnd(TrimStart(s))
  }

  /** `!s.trim()` holds exactly when every character of `s` is whitespace. */
  lemma TrimEmptyIffBlank(s: string)
    ensures Trim(s) == "" <==> forall i :: 0 <= i < |s| ==> IsJsSpace(s[i])
  {
    var t := TrimStart(s);
    if t != "" {
      assert !IsJsSpace(s[|s| - |t|]);
    }
  }

  // ---------------------------------------------------------------------------
  // Decimal literals

  predicate IsDigit(c: char) {
    '0' <= c <= '9'
  }

  predicate AllDigits(s: string) {
    forall i :: 0 <= i < |s| ==> IsDigit(s[i])
  }

  /** The value of a string of decimal digits, most significant first. */
  function DigitsValue(ds: string): nat
    requires AllDigits(ds)
  {
    if |ds| == 0 then 0
    else DigitsValue(ds[..|ds| - 1]) * 10 + (ds[|ds| - 1] as int - '0' as int)
  }

  /** Length of the longest prefix of `s` made of digits. */
  function LeadingDigits(s: string): (n: nat)
    ensures n <= |s|
    ensures AllDigits(s[..n])
    ensures n < |s| ==> !IsDigit(s[n])
  {
    if |s| == 0 || !IsDigit(s[0]) then 0
    else
      var n := 1 + LeadingDigits(s[1..]);
      assert s[..n] == [s[0]] + s[1..][..n - 1];
      n
  }

  /** A sign prefix of a StrDecimalLiteral. */
  predicate IsSign(sign: string) {
    sign == "" || sign == "+" || sign == "-"
  }

  /** A magnitude with its sign applied. */
  function Signed(sign: string, m: real): real {
    if sign == "-" then -m else m
  }

  /**
   * The parts of a StrDecimalLiteral: whether it is negative, the digits
   * before and after the '.', and the sign and digits of its exponent (no
   * digits: no exponent).
   */
  datatype Numeral = Numeral(negative: bool, intDigits: string, fracDigits: string,
                             expNegative: bool, expDigits: string)

  predicate WellFormed(n: Numeral) {
    AllDigits(n.intDigits) && AllDigits(n.fracDigits) && AllDigits(n.expDigits)
  }

  /** The value `0.d1d2...dn` of the digits `ds` after a '.'. */
  function FractionValue(ds: string): (r: real)
    requires AllDigits(ds)
    ensures 0.0 <= r < 1.0
  {
    if |ds| == 0 then 0.0
    else ((ds[0] as int - '0' as int) as real + FractionValue(ds[1..])) / 10.0
  }

  /** The decimal value of the fixed-point literal `a.b`. */
  function FixedPointValue(a: string, b: string): real
    requires AllDigits(a) && AllDigits(b)
  {
    DigitsValue(a) as real + FractionValue(b)
  }

  /** `m` with the decimal point moved `k` places: `m * 10^k`, or `m / 10^k` when `negative`. */
  function ShiftPoint(m: real, negative: bool, k: nat): real {
    if k == 0 then m
    else if negative then ShiftPoint(m, negative, k - 1) / 10.0
    else ShiftPoint(m, negative, k - 1) * 10.0
  }

  /** The mathematical value of a numeral: its fixed-point value, shifted by its exponent, with its sign. */
  function NumeralValue(n: Numeral): real
    requires WellFormed(n)
  {
    var m := ShiftPoint(FixedPointValue(n.intDigits, n.fracDigits), n.expNegative, DigitsValue(n.expDigits));
    if n.negative then -m else m
  }

  /**
   * `s` does not start an ExponentPart: it does not start with `e` or `E`,
   * or the `e` is not followed by a digit, after an optional sign.
   */
  predicate NoExponentStart(s: string) {
    s == "" || (s[0] != 'e' && s[0] != 'E') ||
    var after := if |s| > 1 && (s[1] == '+' || s[1] == '-') then s[2..] else s[1..];
    after == "" || !IsDigit(after[0])
  }

  /**
   * The optional ExponentPart at the start of `s`: whether it is negative,
   * its digits and its length (no digits and length 0 when absent).
   */
  function ScanExponent(s: string): (r: (bool, string, nat))
    ensures r.2 <= |s| && AllDigits(r.1)
    ensures r.2 == 0 <==> r.1 == ""
    ensures r.2 > 0 ==> s[0] == 'e' || s[0] == 'E'
    ensures r.2 == 0 <==> NoExponentStart(s)
  {
    if |s| < 2 || (s[0] != 'e' && s[0] != 'E') then (false, "", 0)
    else
      var signLen := if s[1] == '+' || s[1] == '-' then 1 else 0;
      var digits := LeadingDigits(s[1 + signLen..]);
      if digits == 0 then (false, "", 0)
      else (signLen == 1 && s[1] == '-', s[1 + signLen..][..digits], 1 + signLen + digits)
  }

  /**
   * The longest prefix of `body` made of digits with an optional fraction:
   * the digits before and after the '.', and the prefix's length; `None`
   * when there are no digits on either side.
   */
  function ScanMantissaPart(body: string): (r: Option<(string, string, nat)>)
    ensures r.Some? ==> AllDigits(r.value.0) && AllDigits(r.value.1) && 0 < r.value.2 <= |body|
  {
    var intLen := LeadingDigits(body);
    var hasDot := intLen < |body| && body[intLen] == '.';
    var fracLen := if hasDot then LeadingDigits(body[intLen + 1..]) else 0;
    if intLen == 0 && fracLen == 0 then None
    else if hasDot then Some((body[..intLen], body[intLen + 1..][..fracLen], intLen + 1 + fracLen))
    else Some((body[..intLen], "", intLen))
  }

  /**
   * The longest prefix of `body` that is a StrUnsignedDecimalLiteral (the
   * digits-and-dot part, then an optional exponent), recorded as a numeral
   * with the sign read before it: its parts and its length; `None` when no
   * prefix is one.
   */
  function ScanUnsigned(negative: bool, body: string): (r: Option<(Numeral, nat)>)
    ensures r.Some? ==> WellFormed(r.value.0) && r.value.0.negative == negative
    ensures r.Some? ==> 0 < r.value.1 <= |body|
  {
    match ScanMantissaPart(body)
    case None => None
    case Some((a, b, n)) =>
      var e := ScanExponent(body[n..]);
      Some((Numeral(negative, a, b, e.0, e.1), n + e.2))
  }

  /**
   * The longest prefix of `t` that is a StrDecimalLiteral (an optional sign,
   * then an unsigned literal): its parts and its length; `None` when no
   * prefix is one.
   */
  function ScanDecimal(t: string): (r: Option<(Numeral, nat)>)
    ensures r.Some? ==> WellFormed(r.value.0) && 0 < r.value.1 <= |t|
    ensures r.Some? ==> (r.value.0.negative <==> t[0] == '-')
  {
    var signLen := if |t| > 0 && (t[0] == '+' || t[0] == '-') then 1 else 0;
    match ScanUnsigned(signLen == 1 && t[0] == '-', t[signLen..])
    case None => None
    case Some((n, len)) => Some((n, signLen + len))
  }

  /**
   * A string that starts a decimal literal: an optional sign, then a digit,
   * or a '.' followed by a digit.
   */
  predicate StartsNumeric(t: string) {
    var body := if |t| > 0 && (t[0] == '+' || t[0] == '-') then t[1..] else t;
    |body| > 0 && (IsDigit(body[0]) || (body[0] == '.' && |body| > 1 && IsDigit(body[1])))
  }

  /** The scanner finds a literal exactly when the string starts one. */
  lemma ScanDecimalNoneIff(t: string)
    ensures ScanDecimal(t).None? <==> !StartsNumeric(t)
  {
    var signLen := if |t| > 0 && (t[0] == '+' || t[0] == '-') then 1 else 0;
    var body := t[signLen..];
    assert body == if signLen == 1 then t[1..] else t;
    var intLen := LeadingDigits(body);
    assert intLen == 0 <==> |body| == 0 || !IsDigit(body[0]);
    if intLen == 0 && |body| > 0 && body[0] == '.' {
      var after := body[1..];
      assert |after| > 0 ==> after[0] == body[1];
      assert LeadingDigits(after) == 0 <==> |after| == 0 || !IsDigit(after[0]);
    }
  }

  /**
   * `Number.parseFloat(s)` on a string; `None` stands for NaN. Leading
   * whitespace is skipped and whatever follows the longest literal is ignored.
   */
  function ParseFloatString(s: string): (r: Option<real>)
    ensures r.None? <==> !StartsNumeric(TrimStart(s))
    ensures r.Some? ==> r.value == NumeralValue(ScanDecimal(TrimStart(s)).value.0)
  {
    ScanDecimalNoneIff(TrimStart(s));
    match ScanDecimal(TrimStart(s))
    case None => None
    case Some((n, _)) => Some(NumeralValue(n))
  }

  /** `Number.parseFloat(v)`: the argument is first converted to a string. */
  function ParseFloat(v: Val): (r: Option<real>)
    ensures v.Num? ==> r == Some(v.x)
    ensures v.Str? ==> r == ParseFloatString(v.s)
    ensures !v.Num? && !v.Str? ==> r == None
  {
    match v
    case Num(x) => Some(x)
    case Str(s) => ParseFloatString(s)
    case _ => None   // "undefined", "null", "true", "false", "NaN", "[object Object]"
  }

  /** `Number.parseFloat(v) || 0`: the parsed number, or 0 in place of NaN. */
  function ParseFloatOrZero(v: Val): (r: real)
    ensures ParseFloat(v).Some? ==> r == ParseFloat(v).value
    ensures ParseFloat(v).None? ==> r == 0.0
  {
    ParseFloat(v).GetOr(0.0)
  }

  /**
   * `Number(s)` on a string: the whole trimmed string must be a decimal
   * literal; the empty (or blank) string is 0; anything else is NaN.
   */
  function NumberOfString(s: string): (r: Val)
    ensures r.Num? || r.NaN?
    ensures Trim(s) == "" ==> r == Num(0.0)
    ensures Trim(s) != "" ==>
      (r.Num? <==> ScanDecimal(Trim(s)).Some? && ScanDecimal(Trim(s)).value.1 == |Trim(s)|)
    ensures Trim(s) != "" && r.Num? ==> r.x == NumeralValue(ScanDecimal(Trim(s)).value.0)
  {
    var t := Trim(s);
    if t == "" then Num(0.0)
    else match ScanDecimal(t)
      case Some((n, len)) => if len == |t| then Num(NumeralValue(n)) else NaN
      case None => NaN
  }

  // ---------------------------------------------------------------------------
  // Properties

  /** Storing `parseFloat(v) || 0` and normalising it again changes nothing. */
  lemma ParseFloatOrZeroIdempotent(v: Val)
    ensures ParseFloatOrZero(Num(ParseFloatOrZero(v))) == ParseFloatOrZero(v)
  {
  }

  /** A run of digits followed by a non-digit is read to its end and no further. */
  lemma {:induction false} LeadingDigitsOfDigits(a: string, rest: string)
    requires AllDigits(a)
    requires rest == [] || !IsDigit(rest[0])
    ensures LeadingDigits(a + rest) == |a|
  {
    if |a| > 0 {
      assert (a + rest)[1..] == a[1..] + rest;
      LeadingDigitsOfDigits(a[1..], rest);
    } else {
      assert a + rest == rest;
    }
  }

  /** The exponent scanner reads an exponent part exactly, up to the first non-digit. */
  lemma ScanExponentOf(mark: char, esign: string, ed: string, rest: string)
    requires mark == 'e' || mark == 'E'
    requires IsSign(esign)
    requires |ed| > 0 && AllDigits(ed)
    requires rest == "" || !IsDigit(rest[0])
    ensures var e := ScanExponent([mark] + esign + ed + rest);
      e.0 == (esign == "-") && e.1 == ed && e.2 == 1 + |esign| + |ed|
  {
    var s := [mark] + esign + ed + rest;
    assert s[0] == mark;
    var after := s[1 + |esign|..];
    assert after == ed + rest;
    if esign != "" {
      assert s[1] == esign[0];
    } else {
      assert s[1] == ed[0] && IsDigit(s[1]);
    }
    LeadingDigitsOfDigits(ed, rest);
    assert after[..|ed|] == ed;
  }

  /**
   * Without an `e` or `E`, or with one that no digit follows (`"e"`, `"e+"`,
   * `"ex"`), there is no exponent part.
   */
  lemma ScanExponentAbsent(rest: string)
    requires NoExponentStart(rest)
    ensures ScanExponent(rest) == (false, "", 0)
  {
  }

  /** The digits-and-dot part of a literal: `a`, or `a.b` when `hasDot`. */
  function Mantissa(a: string, hasDot: bool, b: string): string {
    if hasDot then a + "." + b else a
  }

  /** A sign in front of an unsigned literal is read once and recorded in the numeral. */
  lemma ScanSigned(sign: string, body: string)
    requires IsSign(sign)
    requires body == "" || (body[0] != '+' && body[0] != '-')
    ensures var u := ScanUnsigned(sign == "-", body);
      var d := ScanDecimal(sign + body);
      && (u.None? ==> d.None?)
      && (u.Some? ==> d.Some? && d.value.0 == u.value.0 && d.value.1 == |sign| + u.value.1)
  {
    var t := sign + body;
    if sign == "" {
      assert t == body && t[0..] == body;
    } else {
      assert t[0] == sign[0];
      assert t[1..] == body;
    }
  }

  /** Without a fraction, the digits-and-dot part is the run of digits. */
  lemma ScanMantissaInteger(a: string, tail: string)
    requires |a| > 0 && AllDigits(a)
    requires tail == "" || (!IsDigit(tail[0]) && tail[0] != '.')
    ensures var r := ScanMantissaPart(a + tail);
      r.Some? && r.value.0 == a && r.value.1 == "" && r.value.2 == |a|
  {
    var body := a + tail;
    LeadingDigitsOfDigits(a, tail);
    if |tail| > 0 { assert body[|a|] == tail[0]; }
    assert body[..|a|] == a;
  }

  /** With a fraction, the digits-and-dot part is `a.b`, up to the first non-digit. */
  lemma ScanMantissaFraction(a: string, b: string, tail: string)
    requires AllDigits(a) && AllDigits(b)
    requires |a| > 0 || |b| > 0
    requires tail == "" || !IsDigit(tail[0])
    ensures var r := ScanMantissaPart(a + "." + b + tail);
      r.Some? && r.value.0 == a && r.value.1 == b && r.value.2 == |a| + 1 + |b|
  {
    var after := b + tail;
    var rest := "." + after;
    var body := a + rest;
    LeadingDigitsOfDigits(a, rest);
    LeadingDigitsOfDigits(b, tail);
    FractionSplit(a, after, body);
    assert after[..|b|] == b;
    MantissaPartAt(body, |a|, |b|);
    FractionText(a, b, tail);
  }

  /** The pieces of `a` followed by a '.' and `after`. */
  lemma FractionSplit(a: string, after: string, body: string)
    requires body == a + ("." + after)
    ensures |a| < |body| && body[|a|] == '.'
    ensures body[..|a|] == a && body[|a| + 1..] == after
  {
  }

  /** `a.b` followed by `tail`, grouped from the right. */
  lemma FractionText(a: string, b: string, tail: string)
    ensures a + "." + b + tail == a + ("." + (b + tail))
  {
  }

  /** The scanner splits the digits-and-dot part at the '.' found after `i` digits. */
  lemma MantissaPartAt(body: string, i: nat, j: nat)
    requires LeadingDigits(body) == i && i < |body| && body[i] == '.'
    requires LeadingDigits(body[i + 1..]) == j
    requires i > 0 || j > 0
    ensures var r := ScanMantissaPart(body);
      r.Some? && r.value.0 == body[..i] && r.value.1 == body[i + 1..][..j] && r.value.2 == i + 1 + j
  {
  }

  /** Once the digits-and-dot part is known, the exponent scan starts right after it. */
  lemma ScanUnsignedAfterMantissa(negative: bool, body: string, a: string, b: string, n: nat, tail: string)
    requires var r := ScanMantissaPart(body);
      r.Some? && r.value.0 == a && r.value.1 == b && r.value.2 == n
    requires n <= |body| && body[n..] == tail
    ensures var e := ScanExponent(tail);
      var u := ScanUnsigned(negative, body);
      u.Some? && u.value.0 == Numeral(negative, a, b, e.0, e.1) && u.value.1 == n + e.2
  {
  }

  /**
   * The scanner reads the longest digits-and-dot part after the sign, then
   * whatever exponent part follows, and records exactly those parts.
   */
  lemma ScanMantissa(sign: string, a: string, hasDot: bool, b: string, tail: string)
    requires IsSign(sign) && AllDigits(a) && AllDigits(b)
    requires hasDot || b == ""
    requires |a| > 0 || |b| > 0
    requires tail == "" || (!IsDigit(tail[0]) && (!hasDot ==> tail[0] != '.'))
    ensures var e := ScanExponent(tail);
      var d := ScanDecimal(sign + Mantissa(a, hasDot, b) + tail);
      && d.Some?
      && d.value.0 == Numeral(sign == "-", a, b, e.0, e.1)
      && d.value.1 == |sign| + |Mantissa(a, hasDot, b)| + e.2
  {
    var m := Mantissa(a, hasDot, b);
    var body := m + tail;
    MantissaText(sign, a, hasDot, b, tail);
    if hasDot {
      ScanMantissaFraction(a, b, tail);
    } else {
      ScanMantissaInteger(a, tail);
    }
    ScanUnsignedAfterMantissa(sign == "-", body, a, b, |m|, tail);
    ScanSigned(sign, body);
  }

  /** How a literal's text splits into its sign, its digits-and-dot part and what follows. */
  lemma MantissaText(sign: string, a: string, hasDot: bool, b: string, tail: string)
    requires IsSign(sign) && AllDigits(a)
    requires |a| > 0 || hasDot
    ensures var m := Mantissa(a, hasDot, b);
      var body := m + tail;
      && sign + m + tail == sign + body
      && body[|m|..] == tail
      && (hasDot ==> body == a + "." + b + tail)
      && (!hasDot ==> body == a + tail)
      && body != "" && body[0] != '+' && body[0] != '-'
  {
    var m := Mantissa(a, hasDot, b);
    var body := m + tail;
    if |a| > 0 { assert body[0] == a[0]; } else { assert body[0] == '.'; }
  }

  /** Without an exponent, a numeral stands for its fixed-point value with its sign. */
  lemma NumeralValueWithoutExponent(sign: string, a: string, b: string)
    requires AllDigits(a) && AllDigits(b)
    ensures NumeralValue(Numeral(sign == "-", a, b, false, "")) == Signed(sign, FixedPointValue(a, b))
  {
  }

  /** With an exponent part, the fixed-point value is scaled by the power of ten it stands for. */
  lemma NumeralValueWithExponent(sign: string, a: string, b: string, negative: bool, ed: string)
    requires AllDigits(a) && AllDigits(b) && AllDigits(ed)
    ensures NumeralValue(Numeral(sign == "-", a, b, negative, ed))
         == Signed(sign, ShiftPoint(FixedPointValue(a, b), negative, DigitsValue(ed)))
  {
  }

  /** On a string without leading whitespace, `parseFloat` is the value of the scanned literal. */
  lemma ParseFloatOfScan(t: string)
    requires t != "" && !IsJsSpace(t[0])
    requires ScanDecimal(t).Some?
    ensures ParseFloatString(t) == Some(NumeralValue(ScanDecimal(t).value.0))
  {
    assert TrimStart(t) == t;
  }

  /**
   * On a string without surrounding whitespace, `Number` is the value of the
   * scanned literal when it covers the whole string, and NaN otherwise.
   */
  lemma NumberOfScan(t: string)
    requires t != "" && !IsJsSpace(t[0]) && !IsJsSpace(t[|t| - 1])
    requires ScanDecimal(t).Some?
    ensures NumberOfString(t)
         == if ScanDecimal(t).value.1 == |t| then Num(NumeralValue(ScanDecimal(t).value.0)) else NaN
  {
    assert TrimStart(t) == t && TrimEnd(t) == t;
    assert Trim(t) == t;
  }

  /** Without an exponent part, the scanner records the digits-and-dot part alone. */
  lemma ScanWithoutExponent(sign: string, a: string, hasDot: bool, b: string, rest: string)
    requires IsSign(sign) && AllDigits(a) && AllDigits(b)
    requires hasDot || b == ""
    requires |a| > 0 || |b| > 0
    requires rest == "" || (!IsDigit(rest[0]) && (!hasDot ==> rest[0] != '.'))
    requires NoExponentStart(rest)
    ensures var t := sign + Mantissa(a, hasDot, b) + rest;
      && t != "" && !IsJsSpace(t[0])
      && ScanDecimal(t).Some?
      && ScanDecimal(t).value.0 == Numeral(sign == "-", a, b, false, "")
      && ScanDecimal(t).value.1 == |sign| + |Mantissa(a, hasDot, b)|
  {
    LiteralStartsWithoutSpace(sign, a, hasDot, b, rest);
    ScanExponentAbsent(rest);
    ScanMantissa(sign, a, hasDot, b, rest);
  }

  /**
   * A whole literal, a sign, digits with an optional fraction, then
   * `e<esign><ed>`, followed by anything that does not extend the exponent:
   * the scanner records exactly its parts and its length.
   */
  lemma ScanLiteralWithExponent(sign: string, a: string, hasDot: bool, b: string,
                                mark: char, esign: string, ed: string, rest: string)
    requires IsSign(sign) && AllDigits(a) && AllDigits(b)
    requires hasDot || b == ""
    requires |a| > 0 || |b| > 0
    requires mark == 'e' || mark == 'E'
    requires IsSign(esign) && |ed| > 0 && AllDigits(ed)
    requires rest == "" || !IsDigit(rest[0])
    ensures var t := sign + Mantissa(a, hasDot, b) + ([mark] + esign + ed + rest);
      && t != "" && !IsJsSpace(t[0])
      && ScanDecimal(t).Some?
      && ScanDecimal(t).value.0 == Numeral(sign == "-", a, b, esign == "-", ed)
      && ScanDecimal(t).value.1 == |sign| + |Mantissa(a, hasDot, b)| + 1 + |esign| + |ed|
  {
    var tail := [mark] + esign + ed + rest;
    ScanExponentOf(mark, esign, ed, rest);
    LiteralStartsWithoutSpace(sign, a, hasDot, b, tail);
    ScanMantissa(sign, a, hasDot, b, tail);
  }

  /** A literal starts with a sign, a digit or '.', none of them whitespace. */
  lemma LiteralStartsWithoutSpace(sign: string, a: string, hasDot: bool, b: string, rest: string)
    requires IsSign(sign) && AllDigits(a)
    requires |a| > 0 || hasDot
    ensures var t := sign + Mantissa(a, hasDot, b) + rest;
      t != "" && !IsJsSpace(t[0])
  {
    var t := sign + Mantissa(a, hasDot, b) + rest;
    if sign != "" { assert t[0] == sign[0]; }
    else if |a| > 0 { assert t[0] == a[0]; }
    else { assert t[0] == '.'; }
  }

  /**
   * A literal, or a literal and a rest that does not end in whitespace, has
   * no trailing whitespace; its length is the sum of its parts.
   */
  lemma LiteralEndsWithoutSpace(sign: string, a: string, hasDot: bool, b: string, rest: string)
    requires AllDigits(a) && AllDigits(b)
    requires |a| > 0 || hasDot
    requires rest != "" ==> !IsJsSpace(rest[|rest| - 1])
    ensures var t := sign + Mantissa(a, hasDot, b) + rest;
      && t != "" && !IsJsSpace(t[|t| - 1])
      && |t| == |sign| + |Mantissa(a, hasDot, b)| + |rest|
  {
    var t := sign + Mantissa(a, hasDot, b) + rest;
    if rest != "" {
      assert t[|t| - 1] == rest[|rest| - 1];
    } else if hasDot && |b| > 0 {
      assert t[|t| - 1] == b[|b| - 1];
    } else if hasDot {
      assert t[|t| - 1] == '.';
    } else {
      assert t[|t| - 1] == a[|a| - 1];
    }
  }

  /**
   * `parseFloat` reads the longest literal at the start, a sign then digits
   * with an optional fraction, and ignores whatever follows it: `"12abc"`
   * is 12, `"12e+"` is 12 and `"-.5%"` is -0.5.
   */
  lemma ParseFloatLongestPrefix(sign: string, a: string, hasDot: bool, b: string, rest: string)
    requires IsSign(sign) && AllDigits(a) && AllDigits(b)
    requires hasDot || b == ""
    requires |a| > 0 || |b| > 0
    requires rest == "" || (!IsDigit(rest[0]) && (!hasDot ==> rest[0] != '.'))
    requires NoExponentStart(rest)
    ensures ParseFloatString(sign + Mantissa(a, hasDot, b) + rest) == Some(Signed(sign, FixedPointValue(a, b)))
  {
    var t := sign + Mantissa(a, hasDot, b) + rest;
    ScanWithoutExponent(sign, a, hasDot, b, rest);
    ParseFloatOfScan(t);
    NumeralValueWithoutExponent(sign, a, b);
    assert sign + Mantissa(a, hasDot, b) + rest == t;
  }

  /**
   * The same with an exponent part `e<esign><ed>` after the digits: the value
   * is scaled by the power of ten it stands for, so `"-1.5e2px"` is -150.
   */
  lemma ParseFloatWithExponent(sign: string, a: string, hasDot: bool, b: string,
                               mark: char, esign: string, ed: string, rest: string)
    requires IsSign(sign) && AllDigits(a) && AllDigits(b)
    requires hasDot || b == ""
    requires |a| > 0 || |b| > 0
    requires mark == 'e' || mark == 'E'
    requires IsSign(esign) && |ed| > 0 && AllDigits(ed)
    requires rest == "" || !IsDigit(rest[0])
    ensures ParseFloatString(sign + Mantissa(a, hasDot, b) + ([mark] + esign + ed + rest))
         == Some(Signed(sign, ShiftPoint(FixedPointValue(a, b), esign == "-", DigitsValue(ed))))
  {
    var t := sign + Mantissa(a, hasDot, b) + ([mark] + esign + ed + rest);
    ScanLiteralWithExponent(sign, a, hasDot, b, mark, esign, ed, rest);
    ParseFloatOfScan(t);
    NumeralValueWithExponent(sign, a, b, esign == "-", ed);
    assert sign + Mantissa(a, hasDot, b) + ([mark] + esign + ed + rest) == t;
  }

  /**
   * `Number` accepts a literal only when it is the whole trimmed string:
   * the literal alone is its value, and a literal followed by anything else
   * is NaN.
   */
  lemma NumberOfLiteral(sign: string, a: string, hasDot: bool, b: string, rest: string)
    requires IsSign(sign) && AllDigits(a) && AllDigits(b)
    requires hasDot || b == ""
    requires |a| > 0 || |b| > 0
    requires rest == "" || (!IsDigit(rest[0]) && (!hasDot ==> rest[0] != '.'))
    requires NoExponentStart(rest)
    requires rest != "" ==> !IsJsSpace(rest[|rest| - 1])
    ensures var v := NumberOfString(sign + Mantissa(a, hasDot, b) + rest);
      && (rest == "" ==> v == Num(Signed(sign, FixedPointValue(a, b))))
      && (rest != "" ==> v == NaN)
  {
    var t := sign + Mantissa(a, hasDot, b) + rest;
    LiteralEndsWithoutSpace(sign, a, hasDot, b, rest);
    ScanWithoutExponent(sign, a, hasDot, b, rest);
    NumberOfScan(t);
    NumeralValueWithoutExponent(sign, a, b);
    assert sign + Mantissa(a, hasDot, b) + rest == t;
  }

  /**
   * A fixed-point literal `a.b` (the form a numeric column is read back in)
   * parses to exactly its decimal value, both with `parseFloat` and with `Number`.
   */
  lemma FixedPointParses(a: string, b: string)
    requires |a| > 0 && AllDigits(a) && AllDigits(b)
    ensures ParseFloatString(a + "." + b) == Some(FixedPointValue(a, b))
    ensures NumberOfString(a + "." + b) == Num(FixedPointValue(a, b))
    ensures ParseFloatOrZero(Str(a + "." + b)) == FixedPointValue(a, b)
  {
    var t := a + "." + b;
    assert "" + Mantissa(a, true, b) + "" == t;
    ParseFloatLongestPrefix("", a, true, b, "");
    NumberOfLiteral("", a, true, b, "");
    assert ParseFloat(Str(t)) == ParseFloatString(t);
  }

  /**
   * A string whose first non-whitespace character is not a digit, a sign or
   * '.' (a blank string included) is not a number: `parseFloat` gives NaN,
   * so the fallback 0 is used.
   */
  lemma NonNumericFallsBackToZero(s: string)
    requires var t := TrimStart(s);
      t == "" || (!IsDigit(t[0]) && t[0] != '+' && t[0] != '-' && t[0] != '.')
    ensures ParseFloatOrZero(Str(s)) == 0.0
  {
  }
}
