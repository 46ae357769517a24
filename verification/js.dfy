/**
 * The fragment of JavaScript value semantics the gateway relies on:
 * plain objects, truthiness of optional strings, `String.prototype.startsWith`,
 * object spread with one overriding property, and `parseInt(s, 10)`.
 */
module Js {
  import opened Wrappers

  /** A JavaScript primitive. Numbers are exact reals; `NaN` is kept apart. */
  datatype JsValue = Undefined | Null | Bool(b: bool) | Num(n: real) | NaN | Str(s: string)

  /** A plain object: its own enumerable properties, by name. */
  type JsObject = map<string, JsValue>

  /** Property read `o.k`; a missing property reads as `undefined`. */
  function Get(o: JsObject, k: string): JsValue {
    if k in o then o[k] else Undefined
  }

  /** Truthiness of a string that may be `null`/`undefined`: only a non-empty string is truthy. */
  predicate Truthy(s: Option<string>) {
    s.Some? && s.value != ""
  }

  /** `s.startsWith(p)` */
  predicate StartsWith(s: string, p: string) {
    |p| <= |s| && s[..|p|] == p
  }

  /**
   * `{ ...o, k: v }`: every own property of `o` is copied, then `k` is set,
   * so `v` wins over any `k` that `o` already had.
   */
  function SpreadWith(o: JsObject, k: string, v: JsValue): (r: JsObject)
    ensures Get(r, k) == v
    ensures r.Keys == o.Keys + {k}
    ensures forall j :: j in o && j != k ==> j in r && r[j] == o[j]
  {
    o[k := v]
  }

  // ---------------------------------------------------------------------------
  // parseInt(s, 10)
  // ---------------------------------------------------------------------------

  /**
   * The characters `parseInt` skips before the number: the ECMAScript
   * WhiteSpace (TAB, VT, FF, ZWNBSP and every Zs space) and LineTerminator
   * (LF, CR, LS, PS) productions.
   */
  predicate IsWhiteSpace(c: char) {
    var u := c as int;
    u == 0x09 || u == 0x0A || u == 0x0B || u == 0x0C || u == 0x0D || u == 0x20
    || u == 0xA0 || u == 0x1680 || (0x2000 <= u <= 0x200A) || u == 0x2028 || u == 0x2029
    || u == 0x202F || u == 0x205F || u == 0x3000 || u == 0xFEFF
  }

  predicate IsDigit(c: char) {
    '0' <= c <= '9'
  }

  function DigitValue(c: char): nat
    requires IsDigit(c)
  {
    c as int - '0' as int
  }

  /** Drops the leading white space. */
  function TrimStart(s: string): (r: string)
    ensures |r| <= |s| && forall i :: 0 <= i < |r| ==> r[i] == s[|s| - |r| + i]
    ensures forall i :: 0 <= i < |s| - |r| ==> IsWhiteSpace(s[i])
    ensures r == [] || !IsWhiteSpace(r[0])
  {
    if |s| > 0 && IsWhiteSpace(s[0]) then
      var t := s[1..];
      assert forall j :: 0 <= j < |t| ==> t[j] == s[j + 1];
      TrimStart(t)
    else s
  }

  /** The length of the longest prefix of `s` made of decimal digits. */
  function DigitRun(s: string): (n: nat)
    ensures n <= |s|
    ensures forall i :: 0 <= i < n ==> IsDigit(s[i])
    ensures n < |s| ==> !IsDigit(s[n])
  {
    if |s| > 0 && IsDigit(s[0]) then 1 + DigitRun(s[1..]) else 0
  }

  predicate AllDigits(d: string) {
    forall i :: 0 <= i < |d| ==> IsDigit(d[i])
  }

  /** The value of a string of decimal digits, most significant first. */
  function DigitsValue(d: string): nat
    requires AllDigits(d)
  {
    if |d| == 0 then 0 else DigitsValue(d[..|d| - 1]) * 10 + DigitValue(d[|d| - 1])
  }

  /** What follows an optional leading `-` or `+`. */
  function Unsigned(t: string): string {
    if |t| > 0 && (t[0] == '-' || t[0] == '+') then t[1..] else t
  }

  /** -1 after a leading `-`, otherwise 1. */
  function Sign(t: string): int {
    if |t| > 0 && t[0] == '-' then -1 else 1
  }

  /**
   * `parseInt(s, 10)`: skip leading white space, read an optional sign, then
   * the longest run of decimal digits; no digit at all gives `NaN`, and
   * whatever follows the digits is ignored.
   */
  function ParseInt10(s: string): (v: JsValue)
    ensures v == NaN || (v.Num? && v.n == v.n.Floor as real)
    ensures v == NaN <==> (var u := Unsigned(TrimStart(s)); u == [] || !IsDigit(u[0]))
  {
    var t := TrimStart(s);
    var u := Unsigned(t);
    var n := DigitRun(u);
    if n == 0 then NaN else Num((Sign(t) * DigitsValue(u[..n])) as real)
  }

  /** 10^k. */
  function Pow10(k: nat): (p: nat)
    ensures p >= 1
  {
    if k == 0 then 1 else 10 * Pow10(k - 1)
  }

  /** `k` copies of the digit zero. */
  function Zeros(k: nat): (z: string)
    ensures |z| == k && AllDigits(z)
  {
    seq(k, i => '0')
  }

  /**
   * Positional notation: the digits of `a` count `10^|b|` times as much as
   * they would alone, and `b` adds its own value.
   */
  lemma {:induction false} DigitsValueAppend(a: string, b: string)
    requires AllDigits(a) && AllDigits(b)
    ensures AllDigits(a + b)
    ensures DigitsValue(a + b) == DigitsValue(a) * Pow10(|b|) + DigitsValue(b)
  {
    AllDigitsConcat(a, b);
    if |b| == 0 {
      assert a + b == a;
    } else {
      var b' := b[..|b| - 1];
      var s := a + b;
      assert s[..|s| - 1] == a + b';
      DigitsValueAppend(a, b');
      ShiftDigit(DigitsValue(a), Pow10(|b'|), DigitsValue(b'), DigitValue(b[|b| - 1]));
    }
  }

  lemma AllDigitsConcat(a: string, b: string)
    requires AllDigits(a) && AllDigits(b)
    ensures AllDigits(a + b)
  {
    assert forall i :: |a| <= i < |a + b| ==> (a + b)[i] == b[i - |a|];
  }

  /** One more digit on the right multiplies the rest by ten. */
  lemma ShiftDigit(x: int, p: int, y: int, c: int)
    ensures (x * p + y) * 10 + c == x * (10 * p) + (y * 10 + c)
  {
  }

  lemma {:induction false} ZerosValue(k: nat)
    ensures DigitsValue(Zeros(k)) == 0
  {
    if k > 0 {
      assert Zeros(k)[..k - 1] == Zeros(k - 1);
      ZerosValue(k - 1);
    }
  }

  /** Leading zeros do not change the value of a digit run. */
  lemma DigitsValueZeroPadded(k: nat, d: string)
    requires AllDigits(d)
    ensures AllDigits(Zeros(k) + d)
    ensures DigitsValue(Zeros(k) + d) == DigitsValue(d)
  {
    DigitsValueAppend(Zeros(k), d);
    ZerosValue(k);
  }

  /**
   * The value `parseInt` reads from any input in its accepted shape: white
   * space, then no sign, `+` or `-`, then a run of digits that the rest ends.
   * Only `-` negates.
   */
  lemma ParseIntOfSignedRun(ws: string, sign: string, d: string, rest: string)
    requires forall i :: 0 <= i < |ws| ==> IsWhiteSpace(ws[i])
    requires sign == "" || sign == "+" || sign == "-"
    requires |d| >= 1 && AllDigits(d)
    requires rest == [] || !IsDigit(rest[0])
    ensures ParseInt10(ws + (sign + (d + rest)))
            == Num(((if sign == "-" then -1 else 1) * DigitsValue(d)) as real)
  {
    var s := sign + (d + rest);
    SignedRunParts(sign, d, rest);
    ParseIntSkipsWhiteSpace(ws, s);
    ParseIntOfSignedDigits(s, d, rest);
  }

  /** A sign part followed by digits: what `Unsigned` and `Sign` read from it. */
  lemma SignedRunParts(sign: string, d: string, rest: string)
    requires sign == "" || sign == "+" || sign == "-"
    requires |d| >= 1 && AllDigits(d)
    ensures var s := sign + (d + rest);
            && !IsWhiteSpace(s[0])
            && Unsigned(s) == d + rest
            && Sign(s) == if sign == "-" then -1 else 1
  {
    var s := sign + (d + rest);
    if sign == "" {
      assert s == d + rest;
      assert s[0] == d[0];
    } else {
      assert s[0] == sign[0];
      assert s[1..] == d + rest;
    }
  }

  /** A `+` sign does not negate: `parseInt("+42", 10)` is 42. */
  lemma ParseIntPlusSign()
    ensures ParseInt10("+42") == Num(42.0)
  {
    var d := NatToDecimal(42);
    assert d == "42";
    DigitsValueOfDecimal(42);
    assert "" + ("+" + (d + "")) == "+42";
    ParseIntOfSignedRun("", "+", d, "");
  }

  /** Leading zeros are read as decimal: `parseInt("007", 10)` is 7. */
  lemma ParseIntLeadingZeros()
    ensures ParseInt10("007") == Num(7.0)
  {
    var d := Zeros(2) + NatToDecimal(7);
    assert d == "007";
    DigitsValueZeroPadded(2, NatToDecimal(7));
    DigitsValueOfDecimal(7);
    assert "" + ("" + (d + "")) == "007";
    ParseIntOfSignedRun("", "", d, "");
  }

  // ---------------------------------------------------------------------------
  // Decimal rendering, the inverse partner of ParseInt10
  // ---------------------------------------------------------------------------

  function DigitChar(d: nat): (c: char)
    requires d < 10
    ensures IsDigit(c) && DigitValue(c) == d
  {
    ('0' as int + d) as char
  }

  /** `String(n)` for a natural number: its decimal digits, no leading zero. */
  function NatToDecimal(n: nat): (s: string)
    ensures |s| >= 1 && AllDigits(s)
  {
    if n < 10 then [DigitChar(n)] else NatToDecimal(n / 10) + [DigitChar(n % 10)]
  }

  /** `String(n)` for an integer in the range where JavaScript prints no exponent. */
  function IntToDecimal(n: int): string {
    if n < 0 then "-" + NatToDecimal(-n) else NatToDecimal(n)
  }

  lemma {:induction false} DigitsValueOfDecimal(n: nat)
    ensures DigitsValue(NatToDecimal(n)) == n
  {
    if n >= 10 {
      var s := NatToDecimal(n);
      assert s[..|s| - 1] == NatToDecimal(n / 10);
      DigitsValueOfDecimal(n / 10);
    }
  }

  lemma DigitRunOfDigitsThenStop(d: string, rest: string)
    requires AllDigits(d)
    requires rest == [] || !IsDigit(rest[0])
    ensures DigitRun(d + rest) == |d|
  {
    var s := d + rest;
    assert forall i :: 0 <= i < |d| ==> s[i] == d[i];
    assert |d| < |s| ==> s[|d|] == rest[0];
  }

  lemma TrimStartNoOp(s: string)
    requires s == [] || !IsWhiteSpace(s[0])
    ensures TrimStart(s) == s
  {
  }

  /** Leading white space never changes what `parseInt` reads. */
  lemma {:induction false} ParseIntSkipsWhiteSpace(w: string, s: string)
    requires forall i :: 0 <= i < |w| ==> IsWhiteSpace(w[i])
    ensures ParseInt10(w + s) == ParseInt10(s)
  {
    TrimStartAppend(w, s);
  }

  lemma {:induction false} TrimStartAppend(w: string, s: string)
    requires forall i :: 0 <= i < |w| ==> IsWhiteSpace(w[i])
    ensures TrimStart(w + s) == TrimStart(s)
  {
    if |w| > 0 {
      assert (w + s)[1..] == w[1..] + s;
      TrimStartAppend(w[1..], s);
    } else {
      assert w + s == s;
    }
  }

  /** `parseInt` on text with no leading white space, a sign part, then a run of digits that the rest ends. */
  lemma ParseIntOfSignedDigits(s: string, d: string, rest: string)
    requires s == [] || !IsWhiteSpace(s[0])
    requires Unsigned(s) == d + rest
    requires |d| >= 1 && AllDigits(d)
    requires rest == [] || !IsDigit(rest[0])
    ensures ParseInt10(s) == Num((Sign(s) * DigitsValue(d)) as real)
  {
    TrimStartNoOp(s);
    DigitRunOfDigitsThenStop(d, rest);
    assert (d + rest)[..|d|] == d;
  }

  /** The rendering of `n` is a sign part followed by the digits of `|n|`. */
  lemma DecimalParts(n: int, rest: string)
    ensures var s := IntToDecimal(n) + rest;
            var m: nat := if n < 0 then -n else n;
            && (s == [] || !IsWhiteSpace(s[0]))
            && Unsigned(s) == NatToDecimal(m) + rest
            && Sign(s) * m == n
  {
    var m: nat := if n < 0 then -n else n;
    var d := NatToDecimal(m);
    var s := IntToDecimal(n) + rest;
    if n < 0 {
      assert s == "-" + (d + rest);
    } else {
      assert s == d + rest;
      assert s[0] == d[0];
    }
  }

  /**
   * Round trip: reading back the decimal rendering of any integer gives that
   * integer, even when the rendering is followed by a non-digit suffix.
   */
  lemma ParseIntOfDecimal(n: int, rest: string)
    requires rest == [] || !IsDigit(rest[0])
    ensures ParseInt10(IntToDecimal(n) + rest) == Num(n as real)
  {
    var m: nat := if n < 0 then -n else n;
    DecimalParts(n, rest);
    DigitsValueOfDecimal(m);
    ParseIntOfSignedDigits(IntToDecimal(n) + rest, NatToDecimal(m), rest);
  }
}
