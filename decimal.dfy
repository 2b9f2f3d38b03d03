/**
 * The JavaScript number/string conversions the app relies on, for integer
 * values: `Number.prototype.toString()` (and template-literal interpolation),
 * `parseInt(text, 10)` and `String.prototype.padStart(2, '0')`.
 */
module Decimal {

  /** The result of `parseInt`: an integer, or `NaN` when no digit is found. */
  datatype JsNumber = Num(value: int) | NaN

  predicate IsDigit(c: char) {
    '0' <= c <= '9'
  }

  predicate AllDigits(s: string) {
    forall i :: 0 <= i < |s| ==> IsDigit(s[i])
  }

  function DigitChar(d: int): (c: char)
    requires 0 <= d < 10
    ensures IsDigit(c) && c as int - '0' as int == d
  {
    (('0' as int) + d) as char
  }

  function DigitValue(c: char): int
    requires IsDigit(c)
  {
    c as int - '0' as int
  }

  /** Decimal rendering of a natural number, most significant digit first, with no leading zero. */
  function ShowNat(n: nat): (s: string)
    ensures 1 <= |s| && AllDigits(s)
    ensures n < 10 <==> |s| == 1
    ensures s[0] == '0' ==> n == 0
  {
    if n < 10 then [DigitChar(n)] else ShowNat(n / 10) + [DigitChar(n % 10)]
  }

  /**
   * `String(n)` for an integer `n`: a minus sign, then the digits of |n|.
   * JavaScript numbers are doubles: above 2^53 `String(n)` prints the
   * shortest digits that round-trip followed by zeros (and exponent notation
   * from 10^21), while this rendering is exact. The app's values (clock
   * readings in milliseconds, seconds, counts) stay far below 2^53.
   */
  function Show(n: int): (s: string)
    ensures 1 <= |s|
    ensures s[0] == '-' <==> n < 0
  {
    if n < 0 then "-" + ShowNat(-n) else ShowNat(n)
  }

  /** The value of a string of decimal digits (0 for the empty string). */
  function DigitsValue(s: string): nat
    requires AllDigits(s)
  {
    if s == [] then 0 else DigitsValue(s[..|s| - 1]) * 10 + DigitValue(s[|s| - 1])
  }

  lemma {:induction false} DigitsValueOfShowNat(n: nat)
    ensures DigitsValue(ShowNat(n)) == n
  {
    if n >= 10 {
      var s := ShowNat(n);
      assert s[..|s| - 1] == ShowNat(n / 10);
      DigitsValueOfShowNat(n / 10);
    }
  }

  /** `padStart(2, '0')`: prefix zeros until the text is two characters long. */
  function PadStart2(s: string): (r: string)
    ensures |s| >= 2 ==> r == s
    ensures |s| < 2 ==> |r| == 2 && r[2 - |s|..] == s && forall i :: 0 <= i < 2 - |s| ==> r[i] == '0'
  {
    if |s| == 0 then "00" else if |s| == 1 then "0" + s else s
  }

  /** Two-digit rendering used for months, days and seconds: a round trip for 0..99. */
  lemma TwoDigits(n: nat)
    requires n < 100
    ensures |PadStart2(ShowNat(n))| == 2
    ensures AllDigits(PadStart2(ShowNat(n)))
    ensures DigitsValue(PadStart2(ShowNat(n))) == n
  {
    var r := PadStart2(ShowNat(n));
    if n < 10 {
      assert r == ['0', DigitChar(n)];
      assert r[..1] == ['0'];
    } else {
      assert ShowNat(n) == ShowNat(n / 10) + [DigitChar(n % 10)];
      assert ShowNat(n / 10) == [DigitChar(n / 10)];
      assert r == [DigitChar(n / 10), DigitChar(n % 10)];
      assert r[..1] == [DigitChar(n / 10)];
      assert DigitsValue(r[..1]) == n / 10;
    }
  }

  /**
   * The characters `parseInt` skips before the number: the ECMAScript
   * WhiteSpace and LineTerminator characters.
   */
  predicate IsJsSpace(c: char) {
    var k := c as int;
    k == 0x09 || k == 0x0A || k == 0x0B || k == 0x0C || k == 0x0D || k == 0x20
    || k == 0xA0 || k == 0x1680 || (0x2000 <= k <= 0x200A) || k == 0x2028 || k == 0x2029
    || k == 0x202F || k == 0x205F || k == 0x3000 || k == 0xFEFF
  }

  function TrimStart(s: string): (r: string)
    ensures |r| <= |s| && r == s[|s| - |r|..]
    ensures r == [] || !IsJsSpace(r[0])
  {
    if s != [] && IsJsSpace(s[0]) then TrimStart(s[1..]) else s
  }

  /** The longest prefix of `s` made of decimal digits. */
  function DigitPrefix(s: string): (r: string)
    ensures AllDigits(r) && r <= s
    ensures |r| < |s| ==> !IsDigit(s[|r|])
  {
    if s != [] && IsDigit(s[0]) then [s[0]] + DigitPrefix(s[1..]) else []
  }

  /** The digit run stops at the first character that is not a digit. */
  lemma {:induction false} DigitPrefixStops(d: string, t: string)
    requires AllDigits(d)
    requires t == [] || !IsDigit(t[0])
    ensures DigitPrefix(d + t) == d
    decreases |d|
  {
    if d == [] {
      assert d + t == t;
    } else {
      assert (d + t)[1..] == d[1..] + t;
      DigitPrefixStops(d[1..], t);
    }
  }

  /** Leading white space is skipped up to the first other character. */
  lemma {:induction false} TrimStartSkips(w: string, x: string)
    requires forall i :: 0 <= i < |w| ==> IsJsSpace(w[i])
    requires x == [] || !IsJsSpace(x[0])
    ensures TrimStart(w + x) == x
    decreases |w|
  {
    if w == [] {
      assert w + x == x;
    } else {
      assert (w + x)[1..] == w[1..] + x;
      TrimStartSkips(w[1..], x);
    }
  }

  lemma {:induction false} DigitPrefixOfDigits(s: string)
    requires AllDigits(s)
    ensures DigitPrefix(s) == s
  {
    if s != [] {
      DigitPrefixOfDigits(s[1..]);
    }
  }

  /**
   * `parseInt(s, 10)`: skip leading white space, read an optional sign, then
   * the longest run of digits; no digit at all gives `NaN`. The value is
   * exact here, where JavaScript rounds it to the nearest double above 2^53.
   */
  function ParseInt(s: string): (r: JsNumber)
    ensures r.NaN? <==> DigitPrefix(SignFree(TrimStart(s))) == []
  {
    var t := TrimStart(s);
    var negative := t != [] && t[0] == '-';
    var digits := DigitPrefix(SignFree(t));
    if digits == [] then NaN
    else
      var magnitude: int := DigitsValue(digits);
      if negative then Num(-magnitude) else Num(magnitude)
  }

  /** The text after one optional leading sign. */
  function SignFree(t: string): string {
    if t != [] && (t[0] == '-' || t[0] == '+') then t[1..] else t
  }

  /**
   * `parseInt` reads the number back from text that holds it after any white
   * space and before anything that is not a digit (`" 42px"` gives 42).
   */
  lemma ParseIntPrefix(w: string, n: int, t: string)
    requires forall i :: 0 <= i < |w| ==> IsJsSpace(w[i])
    requires t == [] || !IsDigit(t[0])
    ensures ParseInt(w + Show(n) + t) == Num(n)
  {
    var m: nat := if n < 0 then -n else n;
    var x := Show(n) + t;
    assert w + Show(n) + t == w + x;
    SignFreeShow(n, t);
    TrimStartSkips(w, x);
    DigitPrefixStops(ShowNat(m), t);
    DigitsValueOfShowNat(m);
  }

  /** After its sign, the rendering of `n` is the digits of its magnitude. */
  lemma SignFreeShow(n: int, t: string)
    ensures var x := Show(n) + t;
      x != [] && !IsJsSpace(x[0]) && (x[0] == '-' <==> n < 0)
      && SignFree(x) == ShowNat(if n < 0 then -n else n) + t
  {
    var x := Show(n) + t;
    if n < 0 {
      assert x == "-" + (ShowNat(-n) + t);
    } else {
      assert IsDigit(x[0]);
    }
  }

  /** `parseInt(String(n), 10) === n` for every integer `n`. */
  lemma ParseIntShow(n: int)
    ensures ParseInt(Show(n)) == Num(n)
  {
    var m: nat := if n < 0 then -n else n;
    var digits := ShowNat(m);
    assert !IsJsSpace(Show(n)[0]);
    assert TrimStart(Show(n)) == Show(n);
    if n < 0 {
      assert SignFree(Show(n)) == digits;
    } else {
      assert SignFree(Show(n)) == digits;
    }
    DigitPrefixOfDigits(digits);
    DigitsValueOfShowNat(m);
  }
}
