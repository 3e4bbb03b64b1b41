/**
 * The few pieces of JavaScript value semantics that the donation site's
 * request handlers and page scripts depend on: absent fields, truthiness,
 * string conversion of `undefined`, `Number.parseInt` and the first-match
 * `String.prototype.replace`.
 *
 * An absent request field or object property (`undefined`) is `None`; a
 * number that is `NaN` is also `None` wherever a number may be `NaN`.
 */
module JsValues {

  datatype Option<+T> = None | Some(value: T)

  /** `String(v)` for a value that is a string or `undefined`, as `+` and property lookup use it. */
  function ToJsString(v: Option<string>): string
  {
    match v
    case None => "undefined"
    case Some(s) => s
  }

  /** `!!v` for a string field: `undefined` and `""` are falsy. */
  predicate StringTruthy(v: Option<string>)
  {
    v.Some? && v.value != ""
  }

  /** `!!v` for a number field: `undefined`, `NaN` and `0` are falsy. */
  predicate NumberTruthy(v: Option<int>)
  {
    v.Some? && v.value != 0
  }

  /** `v || 0` for a number field. */
  function OrZero(v: Option<int>): (n: int)
    ensures NumberTruthy(v) ==> n == v.value
    ensures !NumberTruthy(v) ==> n == 0
  {
    if v.Some? then v.value else 0
  }

  // ---------------------------------------------------------------------------
  // Number.parseInt(s) with no radix argument
  // ---------------------------------------------------------------------------

  /** The characters `Number.parseInt` skips before the number: WhiteSpace and LineTerminator of ECMAScript. */
  predicate IsJsWhiteSpace(c: char)
  {
    || c == ' ' || c == '\t' || c == '\n' || c == '\r'
    || c == '\U{0B}' || c == '\U{0C}' || c == '\U{A0}' || c == '\U{FEFF}'
    || c == '\U{1680}' || ('\U{2000}' <= c <= '\U{200A}')
    || c == '\U{2028}' || c == '\U{2029}' || c == '\U{202F}' || c == '\U{205F}' || c == '\U{3000}'
  }

  function TrimStart(s: string): (r: string)
    ensures |r| <= |s| && r == s[|s| - |r|..]
    ensures r == [] || !IsJsWhiteSpace(r[0])
    ensures s != [] && !IsJsWhiteSpace(s[0]) ==> r == s
  {
    if s != [] && IsJsWhiteSpace(s[0]) then TrimStart(s[1..]) else s
  }

  /** The value of `c` as a digit in base `radix` (10 or 16), if it is one. */
  function DigitValue(c: char, radix: nat): (d: Option<nat>)
    ensures d.Some? ==> d.value < radix
  {
    var v :=
      if '0' <= c <= '9' then c as int - '0' as int
      else if 'a' <= c <= 'z' then c as int - 'a' as int + 10
      else if 'A' <= c <= 'Z' then c as int - 'A' as int + 10
      else radix;
    if v < radix then Some(v) else None
  }

  /** Length of the longest prefix of `s` made of digits in base `radix`. */
  function DigitRun(s: string, radix: nat): (n: nat)
    ensures n <= |s|
    ensures forall i :: 0 <= i < n ==> DigitValue(s[i], radix).Some?
    ensures n < |s| ==> DigitValue(s[n], radix).None?
  {
    if s != [] && DigitValue(s[0], radix).Some? then 1 + DigitRun(s[1..], radix) else 0
  }

  /** The number a run of digits denotes, most significant digit first. */
  function DigitsValue(s: string, radix: nat): nat
    requires forall i :: 0 <= i < |s| ==> DigitValue(s[i], radix).Some?
  {
    if s == [] then 0
    else DigitsValue(s[..|s| - 1], radix) * radix + DigitValue(s[|s| - 1], radix).value
  }

  /**
   * The unsigned part of `Number.parseInt`: base 16 after a `0x`/`0X` prefix,
   * base 10 otherwise, reading the longest run of digits; `NaN` (here `None`)
   * when that run is empty.
   */
  function ParseUnsigned(u: string): (r: Option<nat>)
  {
    var hex := |u| >= 2 && u[0] == '0' && (u[1] == 'x' || u[1] == 'X');
    var radix := if hex then 16 else 10;
    var digits := if hex then u[2..] else u;
    var n := DigitRun(digits, radix);
    if n == 0 then None else Some(DigitsValue(digits[..n], radix))
  }

  /** `Number.parseInt(s)`: skip leading white space, take an optional sign, then the unsigned part. */
  function ParseInt(s: string): (r: Option<int>)
  {
    var t := TrimStart(s);
    var negative := t != [] && t[0] == '-';
    var u := if t != [] && (t[0] == '-' || t[0] == '+') then t[1..] else t;
    match ParseUnsigned(u)
    case None => None
    case Some(m) => var v: int := m; if negative then Some(-v) else Some(v)
  }

  // ---------------------------------------------------------------------------
  // Decimal rendering, as `String(n)` and the button labels write whole numbers
  // ---------------------------------------------------------------------------

  function DigitChar(d: nat): (c: char)
    requires d < 10
    ensures '0' <= c <= '9'
    ensures DigitValue(c, 10) == Some(d)
  {
    ('0' as int + d) as char
  }

  /** `String(n)` for a non-negative integer. */
  function DecimalString(n: nat): (s: string)
    ensures |s| >= 1
    ensures forall i :: 0 <= i < |s| ==> '0' <= s[i] <= '9' && DigitValue(s[i], 10).Some?
  {
    if n < 10 then [DigitChar(n)] else DecimalString(n / 10) + [DigitChar(n % 10)]
  }

  lemma {:induction false} DecimalDigitsValue(n: nat)
    ensures DigitsValue(DecimalString(n), 10) == n
  {
    var s := DecimalString(n);
    if n >= 10 {
      DecimalDigitsValue(n / 10);
      assert s[..|s| - 1] == DecimalString(n / 10);
    }
  }

  lemma ParseUnsignedDecimal(u: string)
    requires |u| >= 1 && forall i :: 0 <= i < |u| ==> '0' <= u[i] <= '9'
    ensures forall i :: 0 <= i < |u| ==> DigitValue(u[i], 10).Some?
    ensures ParseUnsigned(u) == Some(DigitsValue(u, 10))
  {
    assert !(|u| >= 2 && u[0] == '0' && (u[1] == 'x' || u[1] == 'X'));
    var n := DigitRun(u, 10);
    assert n == |u|;
    assert u[..n] == u;
  }

  /** Reading back a rendered whole number gives the number: `parseInt(String(n)) === n`. */
  lemma ParseDecimalRoundTrip(n: nat)
    ensures ParseInt(DecimalString(n)) == Some(n)
  {
    var s := DecimalString(n);
    assert '0' <= s[0] <= '9';
    assert !IsJsWhiteSpace(s[0]);
    assert TrimStart(s) == s;
    assert s[0] != '-' && s[0] != '+';
    ParseUnsignedDecimal(s);
    DecimalDigitsValue(n);
    assert ParseUnsigned(s) == Some(n);
  }

  // ---------------------------------------------------------------------------
  // String.prototype.replace with a one-character string pattern
  // ---------------------------------------------------------------------------

  /** The position of the first `c` in `s`. */
  function FirstIndexOf(s: string, c: char): (i: nat)
    requires c in s
    ensures i < |s| && s[i] == c && c !in s[..i]
  {
    if s[0] == c then 0 else 1 + FirstIndexOf(s[1..], c)
  }

  /** `s.replace(c, "")`: drops the first occurrence of `c`, if any. */
  function RemoveFirst(s: string, c: char): (r: string)
    ensures c !in s ==> r == s
    ensures c in s ==> r == s[..FirstIndexOf(s, c)] + s[FirstIndexOf(s, c) + 1..]
    ensures c in s ==> |r| == |s| - 1
  {
    if s == [] then []
    else if s[0] == c then
      assert FirstIndexOf(s, c) == 0 && s[..0] == [];
      s[1..]
    else
      var rest := RemoveFirst(s[1..], c);
      assert s == [s[0]] + s[1..];
      if c in s[1..] then
        var i := FirstIndexOf(s[1..], c);
        assert FirstIndexOf(s, c) == i + 1;
        assert rest == s[1..][..i] + s[1..][i + 1..];
        assert s[..i + 1] == [s[0]] + s[1..][..i];
        assert s[i + 2..] == s[1..][i + 1..];
        assert [s[0]] + rest == s[..i + 1] + s[i + 2..];
        [s[0]] + rest
      else
        assert c !in s;
        assert rest == s[1..];
        [s[0]] + rest
  }
}
