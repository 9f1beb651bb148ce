/** JavaScript `parseInt(string, 10)`, as the gateway applies it to the
    upstream `content-length` header (ECMA-262, section 19.2.5 "parseInt").

    The input's leading white space is skipped, one optional sign is taken,
    and the longest run of decimal digits that follows is read; anything
    after that run is ignored. Without a digit the result is `NaN`, here
    `None`. JavaScript numbers are doubles; here the value is an exact
    integer.
 */
module JsParseInt {
  import opened Optional

  /** StrWhiteSpaceChar: the WhiteSpace code points (tab, vertical tab, form
      feed, the byte order mark and every space separator of category Zs) and
      the LineTerminator code points. */
  predicate IsStrWhiteSpace(c: char)
  {
    || c == '\t' || c == '\U{B}' || c == '\U{C}' || c == '\U{FEFF}'
    || c == ' ' || c == '\U{A0}' || c == '\U{1680}' || ('\U{2000}' <= c <= '\U{200A}')
    || c == '\U{202F}' || c == '\U{205F}' || c == '\U{3000}'
    || c == '\n' || c == '\r' || c == '\U{2028}' || c == '\U{2029}'
  }

  predicate IsDigit(c: char)
  {
    '0' <= c <= '9'
  }

  predicate AllDigits(s: string)
  {
    forall i :: 0 <= i < |s| ==> IsDigit(s[i])
  }

  function DigitValue(c: char): nat
    requires IsDigit(c)
  {
    c as int - '0' as int
  }

  function DigitChar(k: nat): char
    requires k < 10
  {
    (k + '0' as int) as char
  }

  /** The value of a string of decimal digits, most significant first. */
  function DigitsValue(d: string): nat
    requires AllDigits(d)
  {
    if d == [] then 0 else 10 * DigitsValue(d[..|d| - 1]) + DigitValue(d[|d| - 1])
  }

  function TrimStart(s: string): string
  {
    if s != [] && IsStrWhiteSpace(s[0]) then TrimStart(s[1..]) else s
  }

  function DropSign(s: string): string
  {
    if s != [] && (s[0] == '+' || s[0] == '-') then s[1..] else s
  }

  /** The longest prefix of `s` made of decimal digits. */
  function LeadingDigits(s: string): (z: string)
    ensures AllDigits(z)
    ensures z <= s
    ensures |z| < |s| ==> !IsDigit(s[|z|])
  {
    if s != [] && IsDigit(s[0]) then [s[0]] + LeadingDigits(s[1..]) else []
  }

  /** `parseInt(s, 10)`; `None` is `NaN`. The value is a number exactly
      when a digit follows the leading white space and the optional sign,
      and it is negative only after a `-`. */
  function ParseInt(s: string): (r: Option<int>)
    ensures r.Some? <==> DropSign(TrimStart(s)) != [] && IsDigit(DropSign(TrimStart(s))[0])
    ensures r.Some? && r.value < 0 ==> TrimStart(s) != [] && TrimStart(s)[0] == '-'
  {
    var t := TrimStart(s);
    var z := LeadingDigits(DropSign(t));
    var magnitude: int := DigitsValue(z);
    if z == [] then None
    else if t[0] == '-' then Some(-magnitude)
    else Some(magnitude)
  }

  /** The canonical decimal rendering of `n`, as a server writes a
      `content-length` value. */
  function Decimal(n: nat): (d: string)
    ensures d != [] && AllDigits(d)
    ensures DigitsValue(d) == n
  {
    if n < 10 then [DigitChar(n)]
    else
      var d := Decimal(n / 10) + [DigitChar(n % 10)];
      assert d[..|d| - 1] == Decimal(n / 10);
      d
  }

  lemma {:induction false} TrimStartSkipsWhiteSpace(ws: string, x: string)
    requires forall i :: 0 <= i < |ws| ==> IsStrWhiteSpace(ws[i])
    requires x == [] || !IsStrWhiteSpace(x[0])
    ensures TrimStart(ws + x) == x
  {
    if ws == [] {
      assert ws + x == x;
    } else {
      assert (ws + x)[1..] == ws[1..] + x;
      TrimStartSkipsWhiteSpace(ws[1..], x);
    }
  }

  lemma {:induction false} LeadingDigitsStopAtNonDigit(d: string, tail: string)
    requires AllDigits(d)
    requires tail == [] || !IsDigit(tail[0])
    ensures LeadingDigits(d + tail) == d
  {
    if d == [] {
      assert d + tail == tail;
    } else {
      assert (d + tail)[1..] == d[1..] + tail;
      LeadingDigitsStopAtNonDigit(d[1..], tail);
      assert d == [d[0]] + d[1..];
    }
  }

  /** A declared length written in decimal, with any leading white space and
      any trailing text that does not start with a digit, parses back to
      that length. */
  lemma ParseIntReadsDecimal(ws: string, n: nat, tail: string)
    requires forall i :: 0 <= i < |ws| ==> IsStrWhiteSpace(ws[i])
    requires tail == [] || !IsDigit(tail[0])
    ensures ParseInt(ws + Decimal(n) + tail) == Some(n)
  {
    var d := Decimal(n);
    assert ws + d + tail == ws + (d + tail);
    assert (d + tail)[0] == d[0];
    TrimStartSkipsWhiteSpace(ws, d + tail);
    LeadingDigitsStopAtNonDigit(d, tail);
  }

  /** A value whose first character after the white space is neither a
      digit nor a sign followed by a digit is `NaN`. */
  lemma ParseIntWithoutDigitsIsNaN(ws: string, x: string)
    requires forall i :: 0 <= i < |ws| ==> IsStrWhiteSpace(ws[i])
    requires x == [] || !IsStrWhiteSpace(x[0])
    requires x == [] || (!IsDigit(x[0]) && (x[0] == '+' || x[0] == '-' ==> |x| == 1 || !IsDigit(x[1])))
    ensures ParseInt(ws + x) == None
  {
    TrimStartSkipsWhiteSpace(ws, x);
  }
}
