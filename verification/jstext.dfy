/**
 * The few JavaScript string and number built-ins the storefront's rules rely
 * on, written out: `String.prototype.trim`, the regular-expression class `\s`,
 * `toLowerCase`, `includes`, `Array.prototype.join`, `String(n)` for an
 * integer and `Number(s)` for a decimal string.
 */
module JsText {
  import opened Wrappers

  /**
   * ECMAScript WhiteSpace and LineTerminator code points: the characters
   * `trim()` removes and `\s` matches.
   */
  predicate IsSpace(c: char) {
    || c == '\t' || c == '\n' || c == '\U{000B}' || c == '\U{000C}' || c == '\r'
    || c == ' ' || c == '\U{00A0}' || c == '\U{1680}'
    || ('\U{2000}' <= c <= '\U{200A}')
    || c == '\U{2028}' || c == '\U{2029}' || c == '\U{202F}' || c == '\U{205F}'
    || c == '\U{3000}' || c == '\U{FEFF}'
  }

  predicate NoSpaces(s: string) {
    forall i :: 0 <= i < |s| ==> !IsSpace(s[i])
  }

  function TrimStart(s: string): (r: string)
    ensures |r| <= |s| && r == s[|s| - |r|..]
    ensures r == [] || !IsSpace(r[0])
    ensures forall i :: 0 <= i < |s| - |r| ==> IsSpace(s[i])
  {
    if s == [] || !IsSpace(s[0]) then s else TrimStart(s[1..])
  }

  function TrimEnd(s: string): (r: string)
    ensures |r| <= |s| && r == s[..|r|]
    ensures r == [] || !IsSpace(r[|r| - 1])
    ensures forall i :: |r| <= i < |s| ==> IsSpace(s[i])
  {
    if s == [] || !IsSpace(s[|s| - 1]) then s else TrimEnd(s[..|s| - 1])
  }

  /** `r` is `s[k..k + |r|]` and everything of `s` around it is white space. */
  predicate TrimmedAt(r: string, s: string, k: int) {
    && 0 <= k <= |s| - |r|
    && r == s[k..k + |r|]
    && (forall i :: 0 <= i < k ==> IsSpace(s[i]))
    && (forall i :: k + |r| <= i < |s| ==> IsSpace(s[i]))
  }

  /** `s.trim()`: the longest infix of `s` that neither starts nor ends with white space. */
  function Trim(s: string): (r: string)
    ensures r == [] || (!IsSpace(r[0]) && !IsSpace(r[|r| - 1]))
    ensures exists k :: TrimmedAt(r, s, k)
  {
    var e := TrimEnd(s);
    var r := TrimStart(e);
    assert TrimmedAt(r, s, |e| - |r|);
    r
  }

  lemma {:induction false} TrimOfSpaceFree(s: string)
    requires NoSpaces(s)
    ensures Trim(s) == s
  {
    if s != [] {
      assert !IsSpace(s[|s| - 1]) && !IsSpace(s[0]);
    }
  }

  /** `s.replace(/\s+/g, '')`: every white-space character removed. */
  function StripSpaces(s: string): (r: string)
    ensures NoSpaces(r)
    ensures |r| <= |s|
    ensures NoSpaces(s) ==> r == s
  {
    if s == [] then []
    else if IsSpace(s[0]) then StripSpaces(s[1..])
    else [s[0]] + StripSpaces(s[1..])
  }

  /** Removing white space keeps every other character, in order. */
  lemma {:induction false} StripSpacesConcat(a: string, b: string)
    ensures StripSpaces(a + b) == StripSpaces(a) + StripSpaces(b)
  {
    if a == [] {
      assert a + b == b;
    } else {
      assert (a + b)[0] == a[0];
      assert (a + b)[1..] == a[1..] + b;
      StripSpacesConcat(a[1..], b);
      if !IsSpace(a[0]) {
        assert StripSpaces(a + b) == [a[0]] + (StripSpaces(a[1..]) + StripSpaces(b));
      }
    }
  }

  /** `toLowerCase()` restricted to the ASCII letters A to Z. */
  function LowerChar(c: char): char {
    if 'A' <= c <= 'Z' then (c as int + 32) as char else c
  }

  function Lower(s: string): (r: string)
    ensures |r| == |s|
    ensures forall i :: 0 <= i < |s| ==> r[i] == LowerChar(s[i])
  {
    if s == [] then [] else [LowerChar(s[0])] + Lower(s[1..])
  }

  /** `s.includes(sub)`. */
  predicate Contains(s: string, sub: string) {
    exists i :: 0 <= i <= |s| - |sub| && OccursAt(s, sub, i)
  }

  predicate OccursAt(s: string, sub: string, i: int) {
    0 <= i <= |s| - |sub| && s[i..i + |sub|] == sub
  }

  /** `parts.join(sep)`. */
  function Join(parts: seq<string>, sep: string): string {
    if parts == [] then []
    else if |parts| == 1 then parts[0]
    else parts[0] + sep + Join(parts[1..], sep)
  }

  /**
   * The properties every plain object literal inherits from
   * `Object.prototype`. Reading one of them from `{}` yields a function
   * (or, for `__proto__`, the prototype object itself), which is truthy.
   */
  const ObjectPrototypeKeys: set<string> := {
    "constructor", "hasOwnProperty", "isPrototypeOf", "propertyIsEnumerable",
    "toLocaleString", "toString", "valueOf", "__proto__",
    "__defineGetter__", "__defineSetter__", "__lookupGetter__", "__lookupSetter__"
  }

  // ----- String(n) and Number(s) for integers -----

  predicate IsDigit(c: char) { '0' <= c <= '9' }

  predicate AllDigits(s: string) {
    forall i :: 0 <= i < |s| ==> IsDigit(s[i])
  }

  function DigitChar(d: nat): (c: char)
    requires d < 10
    ensures IsDigit(c) && c as int - '0' as int == d
  {
    ('0' as int + d) as char
  }

  /** Decimal spelling of a natural number, without leading zeros. */
  function NatToString(n: nat): (r: string)
    ensures |r| >= 1 && AllDigits(r)
    ensures r[0] == '0' ==> n == 0
  {
    if n < 10 then [DigitChar(n)] else NatToString(n / 10) + [DigitChar(n % 10)]
  }

  /** `String(n)` for an integer `n`. */
  function IntToString(n: int): (r: string)
    ensures |r| >= 1 && NoSpaces(r)
    ensures n >= 0 <==> r[0] != '-'
  {
    if n < 0 then "-" + NatToString(-n) else NatToString(n)
  }

  /** Value of a string of decimal digits. */
  function DigitsValue(s: string): nat
    requires AllDigits(s)
  {
    if s == [] then 0 else DigitsValue(s[..|s| - 1]) * 10 + (s[|s| - 1] as int - '0' as int)
  }

  lemma {:induction false} DigitsValueOfNatToString(n: nat)
    ensures DigitsValue(NatToString(n)) == n
  {
    if n >= 10 {
      var s := NatToString(n / 10) + [DigitChar(n % 10)];
      assert s[..|s| - 1] == NatToString(n / 10);
      DigitsValueOfNatToString(n / 10);
    }
  }

  /** JavaScript numbers restricted to the integers plus `NaN`. */
  datatype JsNum = Finite(v: int) | NaN

  /** An optional sign followed by at least one decimal digit. */
  predicate IsSignedDecimal(t: string) {
    || (|t| >= 1 && AllDigits(t))
    || (|t| >= 2 && (t[0] == '-' || t[0] == '+') && AllDigits(t[1..]))
  }

  function SignedValue(t: string): int
    requires IsSignedDecimal(t)
  {
    if AllDigits(t) then DigitsValue(t)
    else if t[0] == '-' then 0 - DigitsValue(t[1..])
    else DigitsValue(t[1..])
  }

  /**
   * `Number(s)`: surrounding white space is ignored, the empty string is 0,
   * a signed decimal integer is its value and anything else is `NaN`.
   */
  function ToNumber(s: string): JsNum {
    var t := Trim(s);
    if t == [] then Finite(0)
    else if IsSignedDecimal(t) then Finite(SignedValue(t))
    else NaN
  }

  /** `String(x)` for a number. */
  function NumToString(x: JsNum): string {
    match x
    case Finite(n) => IntToString(n)
    case NaN => "NaN"
  }

  /** Reading back the decimal spelling of an integer yields that integer. */
  lemma NumberOfIntToString(n: int)
    ensures ToNumber(IntToString(n)) == Finite(n)
  {
    var s := IntToString(n);
    TrimOfSpaceFree(s);
    if n < 0 {
      assert s[1..] == NatToString(-n);
      DigitsValueOfNatToString(-n);
    } else {
      DigitsValueOfNatToString(n);
    }
  }
}
