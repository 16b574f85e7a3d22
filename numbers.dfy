/**
 * Numbers as text: Python's `int(s)`, a restricted `float(s)`, `str(n)` for
 * integers, fixed-point formatting `f"{v:.{p}f}"`, `round(v, p)` and the
 * truncation `int(x)` of a float.
 *
 * The decimal grammar accepted here is an optional sign, digits, and an
 * optional fractional part: `[+-]? d* (. d*)?` with at least one digit.
 */
module Numbers {
  import opened Wrappers
  import opened Text

  predicate IsDigit(c: char)
  {
    '0' <= c <= '9'
  }

  predicate AllDigits(s: string)
  {
    forall i :: 0 <= i < |s| ==> IsDigit(s[i])
  }

  function DigitValue(c: char): (d: nat)
    requires IsDigit(c)
    ensures d < 10
  {
    (c as int) - ('0' as int)
  }

  function DigitChar(d: nat): (c: char)
    requires d < 10
    ensures IsDigit(c) && DigitValue(c) == d
  {
    ('0' as int + d) as char
  }

  /** The value of a string of decimal digits, most significant first. */
  function DigitsValue(s: string): nat
    requires AllDigits(s)
  {
    if |s| == 0 then 0 else DigitsValue(s[..|s| - 1]) * 10 + DigitValue(s[|s| - 1])
  }

  function Pow10(n: nat): (r: nat)
    ensures r >= 1
  {
    if n == 0 then 1 else 10 * Pow10(n - 1)
  }

  /** A string of at most `n` digits denotes a value below `10^n`. */
  lemma {:induction false} DigitsValueBound(s: string)
    requires AllDigits(s)
    ensures DigitsValue(s) < Pow10(|s|)
  {
    if |s| > 0 {
      DigitsValueBound(s[..|s| - 1]);
    }
  }

  lemma {:induction false} DigitsValueAppend(s: string, c: char)
    requires AllDigits(s) && IsDigit(c)
    ensures AllDigits(s + [c]) && DigitsValue(s + [c]) == DigitsValue(s) * 10 + DigitValue(c)
  {
    assert (s + [c])[..|s|] == s;
  }

  /** Leading zeros do not change the value of a digit string. */
  lemma {:induction false} DigitsValueLeadingZero(s: string)
    requires AllDigits(s)
    ensures AllDigits("0" + s) && DigitsValue("0" + s) == DigitsValue(s)
  {
    if |s| > 0 {
      DigitsValueLeadingZero(s[..|s| - 1]);
      assert ("0" + s)[..|"0" + s| - 1] == "0" + s[..|s| - 1];
    } else {
      assert DigitsValue("0") == DigitsValue("") * 10 + DigitValue('0');
    }
  }

  // ---------------------------------------------------------------- int <-> text

  /** `str(n)` for a natural number: no leading zeros, `"0"` for zero. */
  function NatToString(n: nat): (s: string)
    ensures |s| > 0 && AllDigits(s)
  {
    if n < 10 then [DigitChar(n)] else NatToString(n / 10) + [DigitChar(n % 10)]
  }

  /** `str(i)` for an integer. */
  function IntToString(i: int): (s: string)
    ensures |s| > 0
  {
    if i < 0 then "-" + NatToString(-i) else NatToString(i)
  }

  lemma {:induction false} NatToStringValue(n: nat)
    ensures DigitsValue(NatToString(n)) == n
  {
    if n >= 10 {
      NatToStringValue(n / 10);
      DigitsValueAppend(NatToString(n / 10), DigitChar(n % 10));
    } else {
      assert DigitsValue([DigitChar(n)]) == DigitsValue([]) * 10 + n;
    }
  }

  lemma {:induction false} NatToStringLength(n: nat, k: nat)
    requires n < Pow10(k)
    ensures |NatToString(n)| <= k || (n == 0 && k == 0)
  {
    if n >= 10 {
      assert k >= 1;
      NatToStringLength(n / 10, k - 1);
    }
  }

  /** The text of an integer is digits, with a minus sign in front when negative. */
  lemma IntToStringChars(i: int)
    ensures forall k :: 0 <= k < |IntToString(i)| ==> IsDigit(IntToString(i)[k]) || IntToString(i)[k] == '-'
    ensures IsDigit(IntToString(i)[|IntToString(i)| - 1])
  {
    if i < 0 {
      var u := NatToString(-i);
      assert IntToString(i) == "-" + u;
      assert IntToString(i)[|IntToString(i)| - 1] == u[|u| - 1];
    }
  }

  /** `int(s)`: an optional sign followed by at least one digit. */
  function ParseInt(s: string): Option<int>
  {
    if |s| > 0 && (s[0] == '+' || s[0] == '-') then
      var d := s[1..];
      if |d| > 0 && AllDigits(d) then Some(if s[0] == '-' then -(DigitsValue(d) as int) else DigitsValue(d) as int)
      else None
    else if |s| > 0 && AllDigits(s) then Some(DigitsValue(s))
    else None
  }

  /** Python's `int(s)` of a string: surrounding whitespace is ignored. */
  function StrToInt(s: string): Option<int>
  {
    ParseInt(Strip(s))
  }

  /** A digit string, with or without a minus sign in front, parses as a number. */
  lemma ParseIntDigits(d: string)
    requires |d| > 0 && AllDigits(d)
    ensures ParseInt(d) == Some(DigitsValue(d) as int)
    ensures ParseInt("-" + d) == Some(-(DigitsValue(d) as int))
  {
    assert IsDigit(d[0]);
    assert ("-" + d)[1..] == d;
  }

  /** Parsing the text of an integer gives the integer back. */
  lemma IntToStringRoundTrip(i: int)
    ensures ParseInt(IntToString(i)) == Some(i)
  {
    var n: nat := if i < 0 then -i else i;
    NatToStringValue(n);
    ParseIntDigits(NatToString(n));
  }

  // ---------------------------------------------------------------- float(s)

  /** The position of the first `c` in `s`, or `|s|` when there is none. */
  function Find(s: string, c: char): (k: nat)
    ensures k <= |s|
    ensures k < |s| ==> s[k] == c
  {
    if |s| == 0 || s[0] == c then 0 else 1 + Find(s[1..], c)
  }

  /** `n / 10^p` as a real, one decimal place at a time. */
  function Shift(n: int, p: nat): real
  {
    if p == 0 then n as real else Shift(n, p - 1) / 10.0
  }

  lemma {:induction false} ShiftAdd(a: int, b: int, p: nat)
    ensures Shift(a + b, p) == Shift(a, p) + Shift(b, p)
  {
    if p > 0 {
      ShiftAdd(a, b, p - 1);
    }
  }

  lemma {:induction false} ShiftNonNegative(n: int, p: nat)
    requires n >= 0
    ensures Shift(n, p) >= 0.0
  {
    if p > 0 {
      ShiftNonNegative(n, p - 1);
    }
  }

  /** In digits followed by a point (or by nothing), the first point is right after the digits. */
  lemma {:induction false} FindAfterDigits(a: string, rest: string)
    requires AllDigits(a)
    requires |rest| > 0 ==> rest[0] == '.'
    ensures Find(a + rest, '.') == |a|
  {
    if |a| > 0 {
      assert (a + rest)[0] == a[0] && (a + rest)[1..] == a[1..] + rest;
      FindAfterDigits(a[1..], rest);
    } else {
      assert a + rest == rest;
    }
  }

  /** The value of a fractional digit string `b` (the digits after the point). */
  function FracValue(b: string): real
    requires AllDigits(b)
  {
    Shift(DigitsValue(b), |b|)
  }

  /** The value of whole digits `a` and fractional digits `b`, when both are digit strings
      and there is at least one digit. */
  function ReadDecimal(a: string, b: string): Option<real>
  {
    if AllDigits(a) && AllDigits(b) && |a| + |b| > 0 then
      Some(DigitsValue(a) as real + FracValue(b))
    else None
  }

  /** An unsigned decimal: digits, optionally a point and more digits, at least one digit. */
  function ParseUnsigned(s: string): Option<real>
  {
    var k := Find(s, '.');
    if k < |s| then ReadDecimal(s[..k], s[k + 1..]) else ReadDecimal(s, "")
  }

  lemma ReadDecimalValue(a: string, b: string)
    requires AllDigits(a) && AllDigits(b) && |a| + |b| > 0
    ensures ReadDecimal(a, b) == Some(DigitsValue(a) as real + FracValue(b))
  {
  }

  /** Digits alone read as a whole number. */
  lemma ParseUnsignedWhole(a: string)
    requires |a| > 0 && AllDigits(a)
    ensures ParseUnsigned(a) == Some(DigitsValue(a) as real)
  {
    assert ParseUnsigned(a) == ReadDecimal(a, "") by {
      FindAfterDigits(a, "");
      assert a + "" == a;
    }
    ReadDecimalValue(a, "");
  }

  lemma PointSplit(a: string, b: string)
    requires AllDigits(a)
    ensures ParseUnsigned(a + "." + b) == ReadDecimal(a, b)
  {
    var s := a + "." + b;
    assert s == a + ("." + b);
    FindAfterDigits(a, "." + b);
    assert s[..|a|] == a && s[|a| + 1..] == b;
  }

  /** Digits, a point and digits read as whole part plus fraction. */
  lemma ParseUnsignedPoint(a: string, b: string)
    requires AllDigits(a) && AllDigits(b) && |a| + |b| > 0
    ensures ParseUnsigned(a + "." + b) == Some(DigitsValue(a) as real + FracValue(b))
  {
    PointSplit(a, b);
    ReadDecimalValue(a, b);
  }

  /** A stripped float literal: an optional sign, then an unsigned decimal. */
  function ParseSigned(t: string): Option<real>
  {
    if |t| > 0 && t[0] == '-' then
      match ParseUnsigned(t[1..])
      case Some(v) => Some(-v)
      case None => None
    else if |t| > 0 && t[0] == '+' then ParseUnsigned(t[1..])
    else ParseUnsigned(t)
  }

  /** An accepted unsigned decimal is made of digits and a point. */
  lemma UnsignedChars(s: string)
    requires ParseUnsigned(s).Some?
    ensures |s| > 0 && forall i :: 0 <= i < |s| ==> IsDigit(s[i]) || s[i] == '.'
  {
    var k := Find(s, '.');
    if k < |s| {
      var a, b := s[..k], s[k + 1..];
      assert AllDigits(a) && AllDigits(b);
      forall i | 0 <= i < |s|
        ensures IsDigit(s[i]) || s[i] == '.'
      {
        if i < k {
          assert s[i] == a[i];
        } else if i > k {
          assert s[i] == b[i - k - 1];
        }
      }
    }
  }

  /** An accepted literal is not empty and holds no whitespace. */
  lemma SignedNoSpace(t: string)
    requires ParseSigned(t).Some?
    ensures |t| > 0 && NoSpace(t)
  {
    if |t| > 0 && (t[0] == '-' || t[0] == '+') {
      UnsignedChars(t[1..]);
      assert forall i :: 1 <= i < |t| ==> t[i] == t[1..][i - 1];
    } else {
      UnsignedChars(t);
    }
  }

  /** Python's `float(s)` on the decimal grammar above; surrounding whitespace is ignored. */
  function ParseFloat(s: string): Option<real>
  {
    ParseSigned(Strip(s))
  }

  /** Text with no whitespace at either end is parsed as it stands; in particular a
      token of `str.split()` is. */
  lemma ParseFloatUnpadded(s: string)
    requires |s| > 0 ==> !IsSpace(s[0]) && !IsSpace(s[|s| - 1])
    ensures ParseFloat(s) == ParseSigned(s)
  {
    StripUnchanged(s);
  }

  /** A minus sign in front of an unsigned literal negates its value. */
  lemma NegativeLiteral(u: string, x: real)
    requires |u| > 0 && IsDigit(u[0])
    requires ParseUnsigned(u) == Some(x)
    ensures ParseSigned("-" + u) == Some(-x)
  {
    assert ("-" + u)[1..] == u;
  }

  /** An optional minus sign in front of an unsigned literal. */
  lemma SignedLiteral(neg: bool, u: string, x: real)
    requires |u| > 0 && IsDigit(u[0])
    requires ParseUnsigned(u) == Some(x)
    ensures ParseSigned(SignText(neg, u)) == Some(Signed(neg, x))
  {
    if neg {
      NegativeLiteral(u, x);
    }
  }

  /** Every integer's text is also a valid float literal, of the same value. */
  lemma IntToStringIsFloat(i: int)
    ensures ParseSigned(IntToString(i)) == Some(i as real)
  {
    var n: nat := if i < 0 then -i else i;
    var u := NatToString(n);
    NatToStringValue(n);
    ParseUnsignedWhole(u);
    if i < 0 {
      NegativeLiteral(u, n as real);
    }
  }

  // ---------------------------------------------------------------- f"{v:.{p}f}"

  function Abs(v: real): real
  {
    if v < 0.0 then -v else v
  }

  /** `v * 10^p`, one decimal place at a time. */
  function Scale(v: real, p: nat): (r: real)
    ensures v >= 0.0 ==> r >= 0.0
  {
    if p == 0 then v else Scale(v, p - 1) * 10.0
  }

  /** `v` scaled by `10^p` and rounded half up to a whole number. */
  function Scaled(v: real, p: nat): nat
    requires v >= 0.0
  {
    (Scale(v, p) + 0.5).Floor
  }

  /** `round(v, p)`, rounding the magnitude half up. */
  function RoundTo(v: real, p: nat): real
  {
    Signed(v < 0.0, Shift(Scaled(Abs(v), p), p))
  }

  function Signed(neg: bool, m: real): real
  {
    if neg then -m else m
  }

  /** A minus sign in front of `u` when `neg`. */
  function SignText(neg: bool, u: string): string
  {
    if neg then "-" + u else u
  }

  /** Zeros in front of `s` up to width `w`. */
  function ZeroPad(s: string, w: nat): (r: string)
    ensures |r| == if |s| < w then w else |s|
    decreases w - |s|
  {
    if |s| < w then ZeroPad("0" + s, w) else s
  }

  lemma {:induction false} ZeroPadValue(s: string, w: nat)
    requires AllDigits(s)
    ensures AllDigits(ZeroPad(s, w)) && DigitsValue(ZeroPad(s, w)) == DigitsValue(s)
    decreases w - |s|
  {
    if |s| < w {
      DigitsValueLeadingZero(s);
      ZeroPadValue("0" + s, w);
    }
  }

  /** The whole part of `q / 10^p`, one decimal place at a time. */
  function Quot(q: nat, p: nat): nat
  {
    if p == 0 then q else Quot(q / 10, p - 1)
  }

  /** The last `p` decimal digits of `q`. */
  function Rem(q: nat, p: nat): (r: nat)
    ensures r < Pow10(p)
  {
    if p == 0 then 0 else Rem(q / 10, p - 1) * 10 + q % 10
  }

  /** The text of `whole` followed, when `p > 0`, by a point and `rem` as exactly `p` digits. */
  function FixedText(whole: nat, rem: nat, p: nat): (s: string)
    ensures |s| > 0
  {
    var ip := NatToString(whole);
    if p == 0 then ip else ip + "." + ZeroPad(NatToString(rem), p)
  }

  /** `f"{v:.{p}f}"`: sign, integer part, and exactly `p` fractional digits. */
  function FormatFixed(v: real, p: nat): (s: string)
    ensures |s| > 0
  {
    var q := Scaled(Abs(v), p);
    SignText(v < 0.0, FixedText(Quot(q, p), Rem(q, p), p))
  }

  lemma {:induction false} ShiftTen(a: int, p: nat)
    requires p > 0
    ensures Shift(10 * a, p) == Shift(a, p - 1)
  {
    if p > 1 {
      ShiftTen(a, p - 1);
    }
  }

  /** Whole part plus shifted remainder is the shifted number. */
  lemma {:induction false} QuotRemShift(q: nat, p: nat)
    ensures Quot(q, p) as real + Shift(Rem(q, p), p) == Shift(q, p)
  {
    if p > 0 {
      var q' := q / 10;
      var d := q % 10;
      QuotRemShift(q', p - 1);
      ShiftAdd(10 * Rem(q', p - 1), d, p);
      ShiftTen(Rem(q', p - 1), p);
      assert q == 10 * q' + d;
      ShiftAdd(10 * q', d, p);
      ShiftTen(q', p);
    }
  }

  /** A fixed-point text starts with a digit and ends with a digit. */
  lemma FixedTextShape(whole: nat, rem: nat, p: nat)
    ensures IsDigit(FixedText(whole, rem, p)[0])
    ensures IsDigit(FixedText(whole, rem, p)[|FixedText(whole, rem, p)| - 1])
  {
    var ip := NatToString(whole);
    var s := FixedText(whole, rem, p);
    assert s[0] == ip[0];
    if p == 0 {
      assert s[|s| - 1] == ip[|ip| - 1];
    } else {
      var fp := ZeroPad(NatToString(rem), p);
      ZeroPadValue(NatToString(rem), p);
      assert s[|s| - 1] == fp[|fp| - 1];
    }
  }

  /** The zero-padded remainder has exactly `p` digits and denotes `rem / 10^p`. */
  lemma FractionDigits(rem: nat, p: nat)
    requires rem < Pow10(p)
    ensures AllDigits(ZeroPad(NatToString(rem), p))
    ensures FracValue(ZeroPad(NatToString(rem), p)) == Shift(rem, p)
  {
    var frac := NatToString(rem);
    NatToStringValue(rem);
    ZeroPadValue(frac, p);
    NatToStringLength(rem, p);
  }

  /** A fixed-point text reads back as `whole + rem / 10^p`. */
  lemma FixedTextValue(whole: nat, rem: nat, p: nat)
    requires rem < Pow10(p)
    ensures ParseUnsigned(FixedText(whole, rem, p)) == Some(whole as real + Shift(rem, p))
  {
    if p == 0 {
      WholeTextValue(whole, rem);
    } else {
      PointTextValue(whole, rem, p);
    }
  }

  lemma WholeTextValue(whole: nat, rem: nat)
    requires rem < Pow10(0)
    ensures ParseUnsigned(FixedText(whole, rem, 0)) == Some(whole as real + Shift(rem, 0))
  {
    var ip := NatToString(whole);
    assert FixedText(whole, rem, 0) == ip;
    NatToStringValue(whole);
    ParseUnsignedWhole(ip);
  }

  lemma FixedTextPoint(whole: nat, rem: nat, p: nat)
    requires p > 0
    ensures FixedText(whole, rem, p) == NatToString(whole) + "." + ZeroPad(NatToString(rem), p)
  {
  }

  lemma PointTextValue(whole: nat, rem: nat, p: nat)
    requires p > 0 && rem < Pow10(p)
    ensures ParseUnsigned(FixedText(whole, rem, p)) == Some(whole as real + Shift(rem, p))
  {
    FixedTextPoint(whole, rem, p);
    NatToStringValue(whole);
    FractionDigits(rem, p);
    ParseUnsignedPoint(NatToString(whole), ZeroPad(NatToString(rem), p));
  }

  /** Reading a fixed-point text back gives the rounded value: the formatter and
      the parser agree. */
  lemma FormatFixedRoundTrip(v: real, p: nat)
    ensures ParseSigned(FormatFixed(v, p)) == Some(RoundTo(v, p))
  {
    SignedFixed(v < 0.0, Scaled(Abs(v), p), p);
  }

  /** The optionally signed fixed-point text of `q / 10^p` reads back as that value. */
  lemma SignedFixed(neg: bool, q: nat, p: nat)
    ensures ParseSigned(SignText(neg, FixedText(Quot(q, p), Rem(q, p), p))) == Some(Signed(neg, Shift(q, p)))
  {
    QuotRemShift(q, p);
    SignedFixedText(neg, Quot(q, p), Rem(q, p), p, Shift(q, p));
  }

  lemma SignedFixedText(neg: bool, whole: nat, rem: nat, p: nat, x: real)
    requires rem < Pow10(p) && x == whole as real + Shift(rem, p)
    ensures ParseSigned(SignText(neg, FixedText(whole, rem, p))) == Some(Signed(neg, x))
  {
    FixedTextShape(whole, rem, p);
    FixedTextValue(whole, rem, p);
    SignedLiteral(neg, FixedText(whole, rem, p), x);
  }

  /** `int(x)` for a float: truncation toward zero. */
  function Truncate(x: real): (n: int)
    ensures Abs(n as real) <= Abs(x) < Abs(n as real) + 1.0
    ensures (n < 0 ==> x < 0.0) && (n > 0 ==> x > 0.0)
  {
    if x >= 0.0 then x.Floor else -((-x).Floor)
  }
}
