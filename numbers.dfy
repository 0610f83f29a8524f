/**
  The two number renderings the catalog uses: Python's `str()` of an integer
  (the stock count) and the `:.2f` format of a two-place decimal (the price,
  held as a whole number of hundredths). Each comes with a parser and the proof
  that parsing the rendering gives the number back, so no two numbers share a
  rendering.
 */
module Numbers {
  import opened Wrappers

  predicate IsDigit(c: char) {
    '0' <= c <= '9'
  }

  predicate AllDigits(s: string) {
    forall i | 0 <= i < |s| :: IsDigit(s[i])
  }

  function DigitChar(d: nat): (c: char)
    requires d < 10
    ensures IsDigit(c)
    ensures c as int - '0' as int == d
  {
    ('0' as int + d) as char
  }

  function DigitValue(c: char): (d: nat)
    requires IsDigit(c)
    ensures d < 10 && DigitChar(d) == c
  {
    c as int - '0' as int
  }

  /** Decimal digits of `n`, most significant first, with no leading zero. */
  function NatToString(n: nat): (s: string)
    ensures 0 < |s| && AllDigits(s)
    ensures n == 0 ==> s == "0"
    ensures 0 < n ==> s[0] != '0'
    decreases n
  {
    if n < 10 then [DigitChar(n)] else NatToString(n / 10) + [DigitChar(n % 10)]
  }

  /** The number a string of decimal digits denotes. */
  function DigitsValue(s: string): nat
    requires AllDigits(s)
    decreases |s|
  {
    if s == [] then 0 else DigitsValue(s[..|s| - 1]) * 10 + DigitValue(s[|s| - 1])
  }

  lemma {:induction false} NatToStringRoundTrip(n: nat)
    ensures DigitsValue(NatToString(n)) == n
  {
    if n >= 10 {
      var s := NatToString(n);
      assert s[..|s| - 1] == NatToString(n / 10);
      NatToStringRoundTrip(n / 10);
    }
  }

  /** `str(i)` of a Python integer: a minus sign when `i` is negative, then the digits with no leading zero. */
  function IntToString(i: int): (s: string)
    ensures 0 < |s|
    ensures s[0] == '-' <==> i < 0
    ensures var d := s[(if i < 0 then 1 else 0)..];
      0 < |d| && AllDigits(d) && (|d| > 1 ==> d[0] != '0')
  {
    if i < 0 then
      var s := "-" + NatToString(-i);
      assert s[1..] == NatToString(-i);
      s
    else NatToString(i)
  }

  /** Reads back an optionally signed decimal integer; `None` for anything else. */
  function ParseInt(s: string): Option<int> {
    if 0 < |s| && s[0] == '-' then
      if 1 < |s| && AllDigits(s[1..]) then Some(-(DigitsValue(s[1..]) as int)) else None
    else if 0 < |s| && AllDigits(s) then Some(DigitsValue(s))
    else None
  }

  lemma {:induction false} IntToStringRoundTrip(i: int)
    ensures ParseInt(IntToString(i)) == Some(i)
  {
    var s := IntToString(i);
    if i < 0 {
      assert s[1..] == NatToString(-i);
      NatToStringRoundTrip(-i);
    } else {
      NatToStringRoundTrip(i);
    }
  }

  /** An amount of `m` hundredths as its whole part, a point and two fractional digits. */
  function Unsigned2(m: nat): (s: string)
    ensures 4 <= |s| && AllDigits(s[..|s| - 3])
    ensures |s| > 4 ==> s[0] != '0'
    ensures s[|s| - 3] == '.' && IsDigit(s[|s| - 2]) && IsDigit(s[|s| - 1])
  {
    var whole := NatToString(m / 100);
    var s := whole + "." + [DigitChar(m % 100 / 10), DigitChar(m % 10)];
    assert s[..|s| - 3] == whole;
    s
  }

  /**
    `format(d, '.2f')` of a decimal `d` with two fractional places, given as
    `cents` hundredths: a minus sign for a negative amount, the whole part,
    a point and exactly two fractional digits. The whole part has no leading
    zero, so it is "0" for an amount below one.
   */
  function FormatCents(cents: int): (s: string)
    ensures 4 <= |s|
    ensures s[|s| - 3] == '.' && IsDigit(s[|s| - 2]) && IsDigit(s[|s| - 1])
    ensures '.' !in s[..|s| - 3]
    ensures s[0] == '-' <==> cents < 0
    ensures var w := s[(if cents < 0 then 1 else 0)..|s| - 3];
      0 < |w| && AllDigits(w) && (|w| > 1 ==> w[0] != '0')
  {
    var sign := if cents < 0 then "-" else "";
    var u := Unsigned2(if cents < 0 then -cents else cents);
    var s := sign + u;
    assert s[..|s| - 3] == sign + u[..|u| - 3];
    assert s[|sign|..|s| - 3] == u[..|u| - 3];
    s
  }

  /** Reads back a rendering of the shape `Unsigned2` produces; `None` for anything else. */
  function ParseUnsigned2(t: string): Option<nat> {
    if |t| < 4 || t[|t| - 3] != '.' then None
    else
      var whole := t[..|t| - 3];
      var frac := t[|t| - 2..];
      if AllDigits(whole) && AllDigits(frac) then
        Some(DigitsValue(whole) * 100 + DigitValue(frac[0]) * 10 + DigitValue(frac[1]))
      else None
  }

  /** Reads back a rendering of the shape `FormatCents` produces; `None` for anything else. */
  function ParseCents(s: string): Option<int> {
    var negative := 0 < |s| && s[0] == '-';
    match ParseUnsigned2(if negative then s[1..] else s)
    case None => None
    case Some(m) => var v: int := m; Some(if negative then -v else v)
  }

  lemma {:induction false} Unsigned2RoundTrip(m: nat)
    ensures ParseUnsigned2(Unsigned2(m)) == Some(m)
  {
    var t := Unsigned2(m);
    assert t[..|t| - 3] == NatToString(m / 100);
    NatToStringRoundTrip(m / 100);
    assert m == (m / 100) * 100 + (m % 100 / 10) * 10 + m % 10;
  }

  lemma {:induction false} CentsRoundTrip(cents: int)
    ensures ParseCents(FormatCents(cents)) == Some(cents)
  {
    var m := if cents < 0 then -cents else cents;
    var s := FormatCents(cents);
    assert (if cents < 0 then s[1..] else s) == Unsigned2(m);
    Unsigned2RoundTrip(m);
  }
}
