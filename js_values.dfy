/**
 * The JavaScript values the application moves around untyped: numbers (with NaN),
 * plain objects with dynamic keys, truthiness, the `x <= 0` comparison, and the
 * two string-to-number conversions it uses (`parseInt` and `Number`).
 */
module JsValues {
  import opened Wrappers
  import opened Strings

  /** A JavaScript number: a finite value or NaN (infinities are not modelled). */
  datatype Number = Num(value: real) | NaN

  /** The values a record field can hold; `JOther` is any other object (truthy, NaN as a number). */
  datatype JsValue =
    | JStr(str: string)
    | JNum(num: Number)
    | JBool(flag: bool)
    | JDate(time: int)
    | JNull
    | JOther

  /** A plain object: a missing key reads as `undefined`. */
  type Record = map<string, JsValue>

  function Get(r: Record, key: string): Option<JsValue>
  {
    if key in r then Some(r[key]) else None
  }

  /** JavaScript truthiness; `None` is `undefined`. */
  predicate Truthy(v: Option<JsValue>)
  {
    match v
    case None => false
    case Some(JStr(s)) => s != ""
    case Some(JNum(Num(x))) => x != 0.0
    case Some(JNum(NaN)) => false
    case Some(JBool(b)) => b
    case Some(JNull) => false
    case Some(JDate(_)) => true
    case Some(JOther) => true
  }

  function Signed(negative: bool, v: nat): real
  {
    if negative then -(v as real) else v as real
  }

  /** The longest prefix of decimal digits. */
  function LeadingDigits(s: string): (r: string)
    ensures |r| <= |s| && r == s[..|r|]
    ensures forall i :: 0 <= i < |r| ==> IsDigit(r[i])
    ensures |r| == |s| || !IsDigit(s[|r|])
  {
    if s != [] && IsDigit(s[0]) then [s[0]] + LeadingDigits(s[1..]) else ""
  }

  predicate IsHexDigit(ch: char)
  {
    IsDigit(ch) || 'a' <= ch <= 'f' || 'A' <= ch <= 'F'
  }

  function HexDigitValue(ch: char): nat
    requires IsHexDigit(ch)
  {
    if IsDigit(ch) then DigitValue(ch)
    else if 'a' <= ch <= 'f' then (ch as int - 'a' as int + 10) as nat
    else (ch as int - 'A' as int + 10) as nat
  }

  /** The longest prefix of hexadecimal digits. */
  function LeadingHexDigits(s: string): (r: string)
    ensures |r| <= |s| && r == s[..|r|]
    ensures forall i :: 0 <= i < |r| ==> IsHexDigit(r[i])
    ensures |r| == |s| || !IsHexDigit(s[|r|])
  {
    if s != [] && IsHexDigit(s[0]) then [s[0]] + LeadingHexDigits(s[1..]) else ""
  }

  function HexValue(hs: string): nat
    requires forall i :: 0 <= i < |hs| ==> IsHexDigit(hs[i])
  {
    if hs == [] then 0 else HexValue(hs[..|hs| - 1]) * 16 + HexDigitValue(hs[|hs| - 1])
  }

  /** The digits after the sign: hexadecimal after `0x`/`0X`, decimal otherwise. */
  function ParseUnsigned(negative: bool, u: string): Number
  {
    if |u| >= 2 && u[0] == '0' && (u[1] == 'x' || u[1] == 'X') then
      var hs := LeadingHexDigits(u[2..]);
      if hs == [] then NaN else Num(Signed(negative, HexValue(hs)))
    else
      var ds := LeadingDigits(u);
      if ds == [] then NaN else Num(Signed(negative, DigitsValue(ds)))
  }

  /**
   * `parseInt(s)` with no radix: skip leading whitespace, take an optional sign, read
   * hexadecimal after a `0x`/`0X` prefix and decimal otherwise, and stop at the first
   * character that is not a digit; no digit at all gives NaN.
   */
  function ParseInt(s: string): (r: Number)
    ensures s == "" ==> r == NaN
  {
    var t := TrimStart(s);
    if t != [] && t[0] == '-' then ParseUnsigned(true, t[1..])
    else if t != [] && t[0] == '+' then ParseUnsigned(false, t[1..])
    else ParseUnsigned(false, t)
  }

  /** A canonical digit string (no leading zero) reads as its decimal value. */
  lemma ParseUnsignedOfDigits(negative: bool, ds: string)
    requires |ds| >= 1 && forall i :: 0 <= i < |ds| ==> IsDigit(ds[i])
    requires ds[0] == '0' ==> |ds| == 1
    ensures ParseUnsigned(negative, ds) == Num(Signed(negative, DigitsValue(ds)))
  {
    assert LeadingDigits(ds) == ds;
  }

  /** A string that starts with a digit is read from its first character. */
  lemma ParseIntOfDigitFirst(s: string)
    requires |s| >= 1 && IsDigit(s[0])
    ensures ParseInt(s) == ParseUnsigned(false, s)
  {
    assert TrimStart(s) == s;
  }

  /** After a leading minus sign, the rest is read as a negative number. */
  lemma ParseIntOfMinus(ds: string)
    requires |ds| >= 1 && IsDigit(ds[0])
    ensures ParseInt("-" + ds) == ParseUnsigned(true, ds)
  {
    assert TrimStart("-" + ds) == "-" + ds;
    assert ("-" + ds)[1..] == ds;
  }

  /** A canonical digit string, optionally after a minus sign, reads as its value. */
  lemma ParseIntOfCanonical(negative: bool, ds: string, m: nat)
    requires |ds| >= 1 && forall i :: 0 <= i < |ds| ==> IsDigit(ds[i])
    requires ds[0] == '0' ==> |ds| == 1
    requires DigitsValue(ds) == m
    ensures ParseInt((if negative then "-" else "") + ds) == Num(Signed(negative, m))
  {
    ParseUnsignedOfDigits(negative, ds);
    if negative {
      ParseIntOfMinus(ds);
    } else {
      ParseIntOfDigitFirst(ds);
    }
  }

  /** `parseInt` reads back what a template literal renders for an integer. */
  lemma ParseIntOfIntToString(n: int)
    ensures ParseInt(IntToString(n)) == Num(n as real)
  {
    var m: nat := if n < 0 then -n else n;
    var d := NatToString(m);
    assert d[0] == '0' ==> m == 0 && d == "0";
    NatToStringValue(m);
    ParseIntOfCanonical(n < 0, d, m);
    assert IntToString(n) == (if n < 0 then "-" else "") + d;
  }

  /**
   * `Number(s)` restricted to what the model needs: after trimming, the empty string
   * is 0 and an optional sign followed by decimal digits is their value; anything else
   * reads as NaN.
   */
  function StringToNumber(s: string): (r: Number)
    ensures Trim(s) == "" ==> r == Num(0.0)
  {
    var t := Trim(s);
    if t == "" then Num(0.0)
    else
      var negative := t[0] == '-';
      var u := if t[0] == '-' || t[0] == '+' then t[1..] else t;
      if u != [] && LeadingDigits(u) == u then Num(Signed(negative, DigitsValue(u))) else NaN
  }

  /** The number a value converts to in a relational comparison with a number. */
  function ToNumber(v: Option<JsValue>): Number
  {
    match v
    case None => NaN
    case Some(JStr(s)) => StringToNumber(s)
    case Some(JNum(n)) => n
    case Some(JBool(b)) => Num(if b then 1.0 else 0.0)
    case Some(JNull) => Num(0.0)
    case Some(JDate(t)) => Num(t as real)
    case Some(JOther) => NaN
  }

  /** `v <= 0`: false whenever `v` converts to NaN. */
  predicate AtMostZero(v: Option<JsValue>)
  {
    match ToNumber(v)
    case Num(x) => x <= 0.0
    case NaN => false
  }
}
