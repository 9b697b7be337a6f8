/** JavaScript's `parseInt(s)` (no radix argument) and the decimal
    rendering of an integer that template literals and `toString()` use.
    Numbers are unbounded here: JavaScript's loss of precision above 2^53
    is not modelled. */
module Numbers {
  import opened Schema

  /** The characters JavaScript's StrWhiteSpaceChar admits: tab, vertical
      tab, form feed, the zero-width no-break space, the Unicode space
      separators and the four line terminators. */
  predicate IsJsWhitespace(c: char) {
    c == '\t' || c == '\n' || c == '\U{000B}' || c == '\U{000C}' || c == '\r'
    || c == ' ' || c == '\U{00A0}' || c == '\U{1680}'
    || ('\U{2000}' <= c <= '\U{200A}')
    || c == '\U{2028}' || c == '\U{2029}' || c == '\U{202F}' || c == '\U{205F}'
    || c == '\U{3000}' || c == '\U{FEFF}'
  }

  /** `s` without its leading white space. */
  function TrimStart(s: string): (t: string)
    ensures |t| <= |s| && t == s[|s| - |t|..]
    ensures t == [] || !IsJsWhitespace(t[0])
    ensures forall i :: 0 <= i < |s| - |t| ==> IsJsWhitespace(s[i])
  {
    if s != [] && IsJsWhitespace(s[0]) then TrimStart(s[1..]) else s
  }

  /** The value of `c` as a digit in base `radix` (10 or 16), if it is one. */
  function DigitValue(c: char, radix: nat): (d: Option<nat>)
    ensures d.Some? ==> d.value < radix
  {
    if '0' <= c <= '9' && (c as int - '0' as int) < radix then Some(c as int - '0' as int)
    else if radix == 16 && 'a' <= c <= 'f' then Some(c as int - 'a' as int + 10)
    else if radix == 16 && 'A' <= c <= 'F' then Some(c as int - 'A' as int + 10)
    else None
  }

  /** The length of the longest prefix of `s` made of base-`radix` digits. */
  function DigitRun(s: string, radix: nat): (n: nat)
    ensures n <= |s|
    ensures forall i :: 0 <= i < n ==> DigitValue(s[i], radix).Some?
    ensures n < |s| ==> DigitValue(s[n], radix).None?
  {
    if s != [] && DigitValue(s[0], radix).Some? then 1 + DigitRun(s[1..], radix) else 0
  }

  /** The value of a string of base-`radix` digits, most significant first. */
  function DigitsValue(s: string, radix: nat): nat
    requires forall i :: 0 <= i < |s| ==> DigitValue(s[i], radix).Some?
  {
    if s == [] then 0
    else DigitsValue(s[..|s| - 1], radix) * radix + DigitValue(s[|s| - 1], radix).value
  }

  /** The unsigned part of `parseInt`: base 16 after a `0x`/`0X` prefix,
      base 10 otherwise, then the longest run of digits; None stands for NaN
      (no digit at all). */
  function ParseUnsigned(u: string): Option<nat> {
    var hex := |u| >= 2 && u[0] == '0' && (u[1] == 'x' || u[1] == 'X');
    var radix := if hex then 16 else 10;
    var v := if hex then u[2..] else u;
    var n := DigitRun(v, radix);
    if n == 0 then None else Some(DigitsValue(v[..n], radix))
  }

  /** `parseInt(s)`: skip leading white space, read an optional sign, then
      the unsigned part. */
  function ParseInt(s: string): Option<int> {
    var t := TrimStart(s);
    if t != [] && t[0] == '-' then
      match ParseUnsigned(t[1..])
      case None => None
      case Some(m) => Some(-(m as int))
    else if t != [] && t[0] == '+' then
      match ParseUnsigned(t[1..])
      case None => None
      case Some(m) => Some(m)
    else
      match ParseUnsigned(t)
      case None => None
      case Some(m) => Some(m)
  }

  function DigitChar(d: nat): (c: char)
    requires d < 10
    ensures '0' <= c <= '9' && DigitValue(c, 10) == Some(d)
  {
    ('0' as int + d) as char
  }

  /** The decimal digits of `n`, without leading zeros. */
  function DecimalDigits(n: nat): (s: string)
    ensures |s| > 0
    ensures forall i :: 0 <= i < |s| ==> '0' <= s[i] <= '9'
    ensures n > 0 ==> s[0] != '0'
  {
    if n < 10 then [DigitChar(n)] else DecimalDigits(n / 10) + [DigitChar(n % 10)]
  }

  /** `String(n)` for an integer `n`. */
  function DecimalString(n: int): string {
    if n < 0 then "-" + DecimalDigits(-n) else DecimalDigits(n)
  }

  lemma {:induction false} DecimalDigitsValue(n: nat)
    ensures forall i :: 0 <= i < |DecimalDigits(n)| ==> DigitValue(DecimalDigits(n)[i], 10).Some?
    ensures DigitsValue(DecimalDigits(n), 10) == n
  {
    var s := DecimalDigits(n);
    if n >= 10 {
      DecimalDigitsValue(n / 10);
      assert s[..|s| - 1] == DecimalDigits(n / 10);
      assert DigitValue(s[|s| - 1], 10) == Some(n % 10);
    }
  }

  lemma ParseDecimalDigits(m: nat)
    ensures ParseUnsigned(DecimalDigits(m)) == Some(m)
  {
    var u := DecimalDigits(m);
    assert |u| >= 2 ==> u[1] != 'x' && u[1] != 'X';
    DecimalDigitsValue(m);
    assert DigitRun(u, 10) == |u|;
    assert u[..|u|] == u;
  }

  /** A rendered integer starts with a sign or a digit, so `parseInt`
      skips nothing. */
  lemma DecimalStringUntrimmed(n: int)
    ensures TrimStart(DecimalString(n)) == DecimalString(n)
  {
    var s := DecimalString(n);
    if n < 0 {
      assert s[0] == '-';
    } else {
      assert '0' <= s[0] <= '9';
    }
    assert s != [] && !IsJsWhitespace(s[0]);
  }

  /** Reading back a rendered integer gives the integer: a user id put into
      a URL by a template literal is recovered by `parseInt`. */
  lemma ParseDecimalString(n: int)
    ensures ParseInt(DecimalString(n)) == Some(n)
  {
    DecimalStringUntrimmed(n);
    if n < 0 {
      ParseNegative(DecimalString(n), -n);
    } else {
      ParseDecimalDigits(n);
      ParseUnsignedDigits(DecimalString(n), n);
    }
  }

  lemma ParseNegative(s: string, m: nat)
    requires TrimStart(s) == s && s == "-" + DecimalDigits(m)
    ensures ParseInt(s) == Some(-(m as int))
  {
    assert s[1..] == DecimalDigits(m);
    ParseDecimalDigits(m);
  }

  lemma ParseUnsignedDigits(s: string, m: nat)
    requires TrimStart(s) == s && s == DecimalDigits(m) && ParseUnsigned(s) == Some(m)
    ensures ParseInt(s) == Some(m)
  {
  }
}
