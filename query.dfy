/** Reading request query parameters: `parseInt` as JavaScript defines it, the
    `parseInt(x) || default` idiom of the list handlers, and the boolean flags. */
module QueryParams {
  import opened Base
  import opened Text

  /** A number `parseInt` can produce: an integer, or `NaN`. */
  datatype Parsed = NaN | Num(value: int)

  predicate IsHexDigit(c: char) {
    IsDigit(c) || 'a' <= c <= 'f' || 'A' <= c <= 'F'
  }

  predicate IsRadixDigit(c: char, hex: bool) {
    if hex then IsHexDigit(c) else IsDigit(c)
  }

  function DigitOf(c: char): (d: nat)
    requires IsHexDigit(c)
    ensures d < 16
    ensures IsDigit(c) ==> d < 10
  {
    if IsDigit(c) then c as int - '0' as int
    else if 'a' <= c <= 'f' then c as int - 'a' as int + 10
    else c as int - 'A' as int + 10
  }

  /** The value of a run of digits in base 10 or 16, most significant first. */
  function DigitsValue(ds: string, hex: bool): nat
    requires forall i :: 0 <= i < |ds| ==> IsRadixDigit(ds[i], hex)
  {
    if |ds| == 0 then 0
    else
      assert IsRadixDigit(ds[|ds| - 1], hex);
      var high, low := DigitsValue(ds[..|ds| - 1], hex), DigitOf(ds[|ds| - 1]);
      if hex then high * 16 + low else high * 10 + low
  }

  /** `parseInt(s)` without a radix: leading white space and one sign are skipped, a
      `0x`/`0X` prefix selects base 16, and the longest run of digits that follows is
      read; no digit at all is `NaN`. */
  function ParseInt(s: string): (r: Parsed)
    ensures r.Num? ==> exists i :: 0 <= i < |s| && IsHexDigit(s[i])
  {
    var u := Unsigned(s);
    match ParseUnsigned(u)
    case NaN => NaN
    case Num(v) =>
      assert u == s[|s| - |u|..];
      Num(if Negative(s) then -v else v)
  }

  /** The first character after the leading white space is a minus sign. */
  predicate Negative(s: string) {
    var t := TrimStart(s);
    |t| > 0 && t[0] == '-'
  }

  /** The digits after the sign: the optional `0x`/`0X` prefix and the longest run of
      digits in the base it selects. */
  function ParseUnsigned(u: string): (r: Parsed)
    ensures r.Num? ==> r.value >= 0 && exists i :: 0 <= i < |u| && IsHexDigit(u[i])
  {
    if HexPrefix(u) then
      var r := ReadDigits(u[2..], true);
      assert r.Num? ==> IsHexDigit(u[2]);
      r
    else
      ReadDigits(u, false)
  }

  predicate HexPrefix(u: string) {
    |u| >= 2 && u[0] == '0' && (u[1] == 'x' || u[1] == 'X')
  }

  /** The value of the longest run of digits that starts `body`, or `NaN` when there is none. */
  function ReadDigits(body: string, hex: bool): (r: Parsed)
    ensures r.Num? ==> r.value >= 0 && |body| > 0 && IsHexDigit(body[0])
  {
    var n := DigitRun(body, hex);
    if n == 0 then NaN else Num(DigitsValue(body[..n], hex))
  }

  /** The text after the leading white space and one sign: a suffix of `s`. */
  function Unsigned(s: string): (u: string)
    ensures |u| <= |s| && u == s[|s| - |u|..]
  {
    var t := TrimStart(s);
    TrimStartSuffix(s);
    if |t| > 0 && (t[0] == '-' || t[0] == '+') then t[1..] else t
  }

  /** The length of the run of digits that starts `s`. */
  function DigitRun(s: string, hex: bool): (n: nat)
    ensures n <= |s|
    ensures forall i :: 0 <= i < n ==> IsRadixDigit(s[i], hex)
    ensures n < |s| ==> !IsRadixDigit(s[n], hex)
  {
    if |s| == 0 || !IsRadixDigit(s[0], hex) then 0 else 1 + DigitRun(s[1..], hex)
  }

  /** What `TrimStart` leaves is a suffix of its argument. */
  lemma {:induction false} TrimStartSuffix(s: string)
    ensures TrimStart(s) == s[|s| - |TrimStart(s)|..]
  {
    if |s| > 0 && IsSpace(s[0]) {
      TrimStartSuffix(s[1..]);
    }
  }

  /** `parseInt(q as string) || fallback`: an absent parameter reads as "undefined",
      and both `NaN` and 0 fall back. */
  function IntParam(q: Option<string>, fallback: int): (r: int)
    ensures q.None? ==> r == fallback
    ensures fallback != 0 ==> r != 0
    ensures r == fallback || (q.Some? && ParseInt(q.value) == Num(r))
  {
    var p := if q.Some? then ParseInt(q.value) else ParseInt("undefined");
    UndefinedIsNaN();
    if p.Num? && p.value != 0 then p.value else fallback
  }

  /** Text that starts with neither white space nor a sign is its own unsigned part. */
  lemma UnsignedOfPlain(s: string)
    requires |s| > 0 && !IsSpace(s[0]) && s[0] != '-' && s[0] != '+'
    ensures Unsigned(s) == s && !Negative(s)
  {
    assert TrimStart(s) == s;
  }

  /** Text that starts with a character that is no digit, no sign and no space is `NaN`. */
  lemma ParseNoDigitStart(s: string)
    requires |s| > 0 && !IsSpace(s[0]) && s[0] != '-' && s[0] != '+' && !IsDigit(s[0])
    ensures ParseInt(s) == NaN
  {
    UnsignedOfPlain(s);
    assert !HexPrefix(s) && DigitRun(s, false) == 0;
  }

  /** `parseInt(undefined)` reads the text "undefined", which starts with no digit. */
  lemma UndefinedIsNaN()
    ensures ParseInt("undefined") == NaN
  {
    var s := "undefined";
    assert s[0] == 'u';
    ParseNoDigitStart(s);
  }

  /** `req.query.flag ? req.query.flag === 'true' : undefined`. */
  function FlagParam(q: Option<string>): (r: Option<bool>)
    ensures q.None? || q == Some([]) ==> r.None?
    ensures q.Some? && q.value != [] ==> r == Some(q.value == "true")
  {
    if q.None? || q.value == [] then None else Some(q.value == "true")
  }

  // ----- Decimal numerals -----

  function DigitChar(d: nat): (c: char)
    requires d < 10
    ensures IsDigit(c) && DigitOf(c) == d
  {
    ('0' as int + d) as char
  }

  /** The decimal numeral of `n`, without leading zeros. */
  function Decimal(n: nat): (s: string)
    ensures |s| > 0 && forall i :: 0 <= i < |s| ==> IsDigit(s[i])
    ensures n > 0 ==> s[0] != '0'
  {
    if n < 10 then [DigitChar(n)] else Decimal(n / 10) + [DigitChar(n % 10)]
  }

  lemma {:induction false} DecimalValue(n: nat)
    ensures DigitsValue(Decimal(n), false) == n
  {
    if n >= 10 {
      var s := Decimal(n);
      assert s[..|s| - 1] == Decimal(n / 10);
      DecimalValue(n / 10);
    }
  }

  /** A run of digits all the way to the end is read whole. */
  lemma {:induction false} DigitRunAll(s: string)
    requires forall i :: 0 <= i < |s| ==> IsDigit(s[i])
    ensures DigitRun(s, false) == |s|
  {
    if |s| > 0 {
      DigitRunAll(s[1..]);
    }
  }

  /** The digits of a string of decimal digits are read as their value. */
  lemma ParseUnsignedDigits(s: string)
    requires |s| > 0 && forall i :: 0 <= i < |s| ==> IsDigit(s[i])
    ensures ParseUnsigned(s) == Num(DigitsValue(s, false))
  {
    assert !HexPrefix(s) by {
      assert |s| >= 2 ==> IsDigit(s[1]);
    }
    DigitRunAll(s);
    assert s[..|s|] == s;
  }

  /** `parseInt` reads a string of decimal digits as their value. */
  lemma ParseDigits(s: string)
    requires |s| > 0 && forall i :: 0 <= i < |s| ==> IsDigit(s[i])
    ensures ParseInt(s) == Num(DigitsValue(s, false))
  {
    UnsignedOfPlain(s);
    ParseUnsignedDigits(s);
  }

  /** A leading minus sign is the sign, and what follows it is the unsigned part. */
  lemma UnsignedOfNegated(s: string)
    ensures Unsigned("-" + s) == s && Negative("-" + s)
  {
    var m := "-" + s;
    assert m[0] == '-';
    assert TrimStart(m) == m;
    assert m[1..] == s;
  }

  /** ... and the same string after a minus sign as the negated value. */
  lemma ParseNegatedDigits(s: string)
    requires |s| > 0 && forall i :: 0 <= i < |s| ==> IsDigit(s[i])
    ensures ParseInt("-" + s) == Num(-(DigitsValue(s, false) as int))
  {
    UnsignedOfNegated(s);
    ParseUnsignedDigits(s);
  }

  /** `parseInt` reads back every decimal numeral, with or without a minus sign. */
  lemma ParseDecimal(n: nat)
    ensures ParseInt(Decimal(n)) == Num(n)
    ensures ParseInt("-" + Decimal(n)) == Num(-(n as int))
  {
    var s := Decimal(n);
    DecimalValue(n);
    ParseDigits(s);
    ParseNegatedDigits(s);
  }

  /** A page or limit written as a positive decimal numeral is used as written, and a
      negative one too: only `NaN` and 0 fall back. */
  lemma IntParamOfNumeral(n: nat, fallback: int)
    requires n > 0
    ensures IntParam(Some(Decimal(n)), fallback) == n
    ensures IntParam(Some("-" + Decimal(n)), fallback) == -(n as int)
  {
    ParseDecimal(n);
  }

  /** "0" and text without digits fall back to the default. */
  lemma IntParamFallbacks(fallback: int)
    ensures IntParam(Some("0"), fallback) == fallback
    ensures IntParam(Some("abc"), fallback) == fallback
    ensures IntParam(Some(""), fallback) == fallback
  {
    var z, a := "0", "abc";
    assert z[0] == '0' && |z| == 1;
    ParseDigits(z);
    assert DigitsValue(z, false) == 0 by {
      assert z[..0] == [];
    }
    assert a[0] == 'a';
    ParseNoDigitStart(a);
  }
}
