/** The string operations the handlers and forms rely on: JavaScript's
    `String.prototype.trim`, decimal rendering of integers (`$toString`),
    `Number(string)` for plain decimal literals, the `^\d{4}-\d{2}$` month
    pattern, and the ordering used to sort by category. */
module Text {
  import opened Common

  /** ECMAScript WhiteSpace and LineTerminator code points: what `trim`
      strips and what `Number(string)` ignores around a literal. */
  predicate IsWhitespace(c: char) {
    || c == '\t' || c == '\n' || c == '\U{000B}' || c == '\U{000C}' || c == '\r'
    || c == ' ' || c == '\U{00A0}' || c == '\U{1680}'
    || ('\U{2000}' <= c <= '\U{200A}')
    || c == '\U{2028}' || c == '\U{2029}' || c == '\U{202F}' || c == '\U{205F}'
    || c == '\U{3000}' || c == '\U{FEFF}'
  }

  predicate AllWhitespace(s: string) {
    forall i :: 0 <= i < |s| ==> IsWhitespace(s[i])
  }

  function TrimStart(s: string): (r: string)
    ensures |r| <= |s| && r == s[|s| - |r|..]
    ensures AllWhitespace(s[..|s| - |r|])
    ensures r == [] || !IsWhitespace(r[0])
  {
    if s != [] && IsWhitespace(s[0]) then
      var rest := s[1..];
      var r := TrimStart(rest);
      assert r == s[|s| - |r|..] by {
        assert rest[|rest| - |r|..] == s[|s| - |r|..];
      }
      var cut := s[..|s| - |r|];
      assert AllWhitespace(cut) by {
        var cutRest := rest[..|rest| - |r|];
        forall i | 0 <= i < |cut| ensures IsWhitespace(cut[i]) {
          if i > 0 {
            assert cut[i] == cutRest[i - 1];
          }
        }
      }
      r
    else s
  }

  function TrimEnd(s: string): (r: string)
    ensures |r| <= |s| && r == s[..|r|]
    ensures AllWhitespace(s[|r|..])
    ensures r == [] || !IsWhitespace(r[|r| - 1])
  {
    if s != [] && IsWhitespace(s[|s| - 1]) then
      var init := s[..|s| - 1];
      var r := TrimEnd(init);
      assert r == s[..|r|] by {
        assert init[..|r|] == s[..|r|];
      }
      var cut := s[|r|..];
      assert AllWhitespace(cut) by {
        var cutInit := init[|r|..];
        forall i | 0 <= i < |cut| ensures IsWhitespace(cut[i]) {
          if i < |cutInit| {
            assert cut[i] == cutInit[i];
          }
        }
      }
      r
    else s
  }

  /** `r` sits in `s` at offset `i` with only whitespace before and after
      it. */
  predicate WhitespaceAround(s: string, i: nat, r: string) {
    && i + |r| <= |s| && r == s[i..i + |r|]
    && AllWhitespace(s[..i]) && AllWhitespace(s[i + |r|..])
  }

  /** `r` neither starts nor ends with whitespace. */
  predicate NoEdgeWhitespace(r: string) {
    r == [] || (!IsWhitespace(r[0]) && !IsWhitespace(r[|r| - 1]))
  }

  /** `s.trim()`: leading whitespace is dropped one character at a time,
      then trailing whitespace is cut off what remains. */
  function Trim(s: string): (r: string)
    ensures |r| <= |s|
    ensures NoEdgeWhitespace(r)
  {
    if s != [] && IsWhitespace(s[0]) then Trim(s[1..])
    else
      var r := TrimEnd(s);
      assert r != [] ==> r[0] == s[0];
      r
  }

  /** Trimming is trimming the start and then the end. */
  lemma {:induction false} TrimIsStartThenEnd(s: string)
    ensures Trim(s) == TrimEnd(TrimStart(s))
  {
    if s != [] && IsWhitespace(s[0]) {
      TrimIsStartThenEnd(s[1..]);
    }
  }

  /** What `trim` cuts off either side of its result is whitespace, and
      the result is the rest of the string in between. */
  lemma TrimInfix(s: string)
    ensures WhitespaceAround(s, |s| - |TrimStart(s)|, Trim(s))
  {
    TrimIsStartThenEnd(s);
    var t := TrimStart(s);
    TrimParts(s, t, TrimEnd(t));
  }

  /** Cutting whitespace off the start of `s`, giving `t`, and then off the
      end of `t`, giving `r`, leaves in `r` an infix of `s` with whitespace
      only on either side of it. */
  lemma TrimParts(s: string, t: string, r: string)
    requires |t| <= |s| && t == s[|s| - |t|..] && AllWhitespace(s[..|s| - |t|])
    requires t == [] || !IsWhitespace(t[0])
    requires |r| <= |t| && r == t[..|r|] && AllWhitespace(t[|r|..])
    requires r == [] || !IsWhitespace(r[|r| - 1])
    ensures WhitespaceAround(s, |s| - |t|, r)
    ensures NoEdgeWhitespace(r)
  {
    SuffixSlices(s, |s| - |t|, |r|);
    if r != [] {
      assert r[0] == t[0];
    }
  }

  /** Slicing a suffix of `s` is slicing `s` further along. */
  lemma SuffixSlices<T>(s: seq<T>, i: nat, a: nat)
    requires i + a <= |s|
    ensures s[i..][..a] == s[i..i + a]
    ensures s[i..][a..] == s[i + a..]
  {
  }

  /** The trimmed string is empty exactly when the input is all whitespace. */
  lemma {:induction false} TrimEmptyIffAllWhitespace(s: string)
    ensures Trim(s) == "" <==> AllWhitespace(s)
  {
    if s != [] {
      if IsWhitespace(s[0]) {
        TrimEmptyIffAllWhitespace(s[1..]);
        assert AllWhitespace(s) <==> AllWhitespace(s[1..]) by {
          forall i | 0 <= i < |s| - 1 ensures s[1..][i] == s[i + 1] {
          }
        }
      } else {
        assert s[0..] == s;
      }
    }
  }

  /** Trimming twice is trimming once. */
  lemma TrimIdempotent(s: string)
    ensures Trim(Trim(s)) == Trim(s)
  {
    NoEdgeWhitespaceTrim(Trim(s));
  }

  /** A string without whitespace at either end is its own trim. */
  lemma NoEdgeWhitespaceTrim(s: string)
    requires NoEdgeWhitespace(s)
    ensures Trim(s) == s
  {
    if s != [] {
      assert TrimEnd(s) == s;
    }
  }

  // ---------------------------------------------------------------------
  // Decimal digits

  predicate IsDigit(c: char) {
    '0' <= c <= '9'
  }

  predicate AllDigits(s: string) {
    forall i :: 0 <= i < |s| ==> IsDigit(s[i])
  }

  function DigitChar(d: nat): (c: char)
    requires d < 10
    ensures IsDigit(c) && c as int - '0' as int == d
  {
    ['0', '1', '2', '3', '4', '5', '6', '7', '8', '9'][d]
  }

  /** The value of a string of decimal digits, leading zeros allowed
      (`Number("0025") == 25`). */
  function DigitsValue(s: string): (n: nat)
    requires AllDigits(s)
  {
    if s == [] then 0
    else DigitsValue(s[..|s| - 1]) * 10 + (s[|s| - 1] as int - '0' as int)
  }

  lemma {:induction false} DigitsValueBound(s: string)
    requires AllDigits(s)
    ensures DigitsValue(s) < Pow10(|s|)
  {
    if s != [] {
      DigitsValueBound(s[..|s| - 1]);
    }
  }

  /** The shortest decimal rendering of a natural number. */
  function NatToString(n: nat): (s: string)
    ensures |s| >= 1 && AllDigits(s)
    ensures (s[0] == '0') <==> (n == 0)
    ensures n < 10 <==> |s| == 1
  {
    if n < 10 then [DigitChar(n)]
    else NatToString(n / 10) + [DigitChar(n % 10)]
  }

  /** `NatToString` is inverted by `DigitsValue`. */
  lemma {:induction false} NatToStringRoundTrip(n: nat)
    ensures DigitsValue(NatToString(n)) == n
  {
    if n >= 10 {
      var s := NatToString(n);
      assert s[..|s| - 1] == NatToString(n / 10);
      NatToStringRoundTrip(n / 10);
    }
  }

  lemma NatToStringInjective(a: nat, b: nat)
    requires NatToString(a) == NatToString(b)
    ensures a == b
  {
    NatToStringRoundTrip(a);
    NatToStringRoundTrip(b);
  }

  /** `$toString` of an integer: an optional minus sign and the digits. */
  function IntToString(i: int): (s: string)
    ensures |s| >= 1
    ensures s[0] == '-' <==> i < 0
  {
    if i < 0 then "-" + NatToString(-i) else NatToString(i)
  }

  lemma IntToStringInjective(a: int, b: int)
    requires IntToString(a) == IntToString(b)
    ensures a == b
  {
    if a < 0 {
      assert IntToString(a)[1..] == NatToString(-a);
      assert IntToString(b)[1..] == NatToString(-b);
      NatToStringInjective(-a, -b);
    } else {
      NatToStringInjective(a, b);
    }
  }

  // ---------------------------------------------------------------------
  // Number(string)

  function Pow10(k: nat): (p: nat)
    ensures p >= 1
  {
    if k == 0 then 1 else 10 * Pow10(k - 1)
  }

  /** An unsigned decimal literal: digits, optionally a point and more
      digits, with at least one digit in all ("5", "5.", ".5", "5.25"). */
  function UnsignedDecimal(s: string): (r: Option<real>)
    ensures r.Some? ==> r.value >= 0.0
    ensures AllDigits(s) && s != [] ==> r == Some(DigitsValue(s) as real)
  {
    if AllDigits(s) then
      if s == [] then None else Some(DigitsValue(s) as real)
    else
      var p := FirstNonDigit(s);
      var whole, frac := s[..p], s[p + 1..];
      if s[p] == '.' && AllDigits(frac) && (whole != [] || frac != []) then
        assert AllDigits(whole);
        Some(PointValue(whole, frac))
      else None
  }

  /** The value of `whole.frac`: the fraction digits count in units of
      ten to the minus their number. */
  function PointValue(whole: string, frac: string): real
    requires AllDigits(whole) && AllDigits(frac)
  {
    DigitsValue(whole) as real + DigitsValue(frac) as real / Pow10(|frac|) as real
  }

  function FirstNonDigit(s: string): (p: nat)
    requires !AllDigits(s)
    ensures p < |s| && !IsDigit(s[p]) && AllDigits(s[..p])
  {
    if !IsDigit(s[0]) then 0
    else
      var p := FirstNonDigit(s[1..]) + 1;
      assert s[..p] == [s[0]] + s[1..][..p - 1];
      p
  }

  /** JavaScript `Number(s)` for strings holding plain decimal literals:
      surrounding whitespace is ignored, a blank string is 0, an optional
      sign precedes the literal; `None` stands for NaN. */
  function ParseNumber(s: string): (r: Option<real>)
    ensures AllWhitespace(s) ==> r == Some(0.0)
  {
    var t := Trim(s);
    TrimEmptyIffAllWhitespace(s);
    if t == [] then Some(0.0)
    else if t[0] == '-' then
      match UnsignedDecimal(t[1..])
      case Some(v) => Some(-v)
      case None => None
    else if t[0] == '+' then UnsignedDecimal(t[1..])
    else UnsignedDecimal(t)
  }

  /** The decimal rendering of a natural number reads back as that number. */
  lemma ParseNatToString(n: nat)
    ensures ParseNumber(NatToString(n)) == Some(n as real)
  {
    var s := NatToString(n);
    assert !IsWhitespace(s[0]) && !IsWhitespace(s[|s| - 1]) by {
      assert IsDigit(s[0]) && IsDigit(s[|s| - 1]);
    }
    NoEdgeWhitespaceTrim(s);
    assert s[0] != '-' && s[0] != '+';
    assert UnsignedDecimal(s) == Some(DigitsValue(s) as real);
    NatToStringRoundTrip(n);
  }

  /** The first non-digit is the one after the leading run of digits. */
  lemma {:induction false} FirstNonDigitAt(s: string, k: nat)
    requires k < |s| && AllDigits(s[..k]) && !IsDigit(s[k])
    ensures !AllDigits(s) && FirstNonDigit(s) == k
  {
    if k > 0 {
      assert IsDigit(s[..k][0]);
      assert s[1..][..k - 1] == s[..k][1..];
      FirstNonDigitAt(s[1..], k - 1);
    }
  }

  /** A literal with a point: the whole digits plus the fraction digits
      over the matching power of ten (`Number("12.50") == 12.5`). */
  lemma UnsignedDecimalPoint(whole: string, frac: string)
    requires AllDigits(whole) && AllDigits(frac) && (whole != [] || frac != [])
    ensures UnsignedDecimal(whole + "." + frac) == Some(PointValue(whole, frac))
  {
    var s := whole + "." + frac;
    var p := |whole|;
    assert s[..p] == whole && s[p] == '.' && s[p + 1..] == frac;
    FirstNonDigitAt(s, p);
  }

  /** A literal `UnsignedDecimal` accepts is made of digits and points
      only, so it has no whitespace at either end. */
  lemma UnsignedDecimalShape(s: string)
    requires UnsignedDecimal(s).Some?
    ensures s != [] && forall i :: 0 <= i < |s| ==> IsDigit(s[i]) || s[i] == '.'
  {
    if !AllDigits(s) {
      var p := FirstNonDigit(s);
      assert s == s[..p] + [s[p]] + s[p + 1..];
      forall i | 0 <= i < |s| ensures IsDigit(s[i]) || s[i] == '.' {
        if i > p { assert s[i] == s[p + 1..][i - p - 1]; }
        else if i < p { assert s[i] == s[..p][i]; }
      }
    }
  }

  /** A literal `UnsignedDecimal` accepts is its own trim. */
  lemma UnsignedLiteralTrimmed(s: string)
    requires UnsignedDecimal(s).Some?
    ensures Trim(s) == s && s != [] && s[0] != '-' && s[0] != '+'
  {
    UnsignedDecimalShape(s);
    assert !IsWhitespace(s[0]) && !IsWhitespace(s[|s| - 1]);
    NoEdgeWhitespaceTrim(s);
  }

  /** `Number` reads an unsigned literal as its value. */
  lemma ParseUnsignedLiteral(s: string, v: real)
    requires UnsignedDecimal(s) == Some(v)
    ensures ParseNumber(s) == Some(v)
  {
    UnsignedLiteralTrimmed(s);
  }

  /** `Number` reads a `-` followed by an unsigned literal as its negation. */
  lemma ParseNegatedLiteral(s: string, v: real)
    requires UnsignedDecimal(s) == Some(v)
    ensures ParseNumber("-" + s) == Some(-v)
  {
    UnsignedLiteralTrimmed(s);
    var t := "-" + s;
    assert t[1..] == s && t[0] == '-' && t[|t| - 1] == s[|s| - 1];
    NoEdgeWhitespaceTrim(t);
  }

  /** `Number` reads a `+` followed by an unsigned literal as its value. */
  lemma ParsePlusLiteral(s: string, v: real)
    requires UnsignedDecimal(s) == Some(v)
    ensures ParseNumber("+" + s) == Some(v)
  {
    UnsignedLiteralTrimmed(s);
    var t := "+" + s;
    assert t[1..] == s && t[0] == '+' && t[|t| - 1] == s[|s| - 1];
    NoEdgeWhitespaceTrim(t);
  }

  /** `Number` of a literal with a point: `Number("12.50")` is 12.5. */
  lemma ParsePointLiteral(whole: string, frac: string)
    requires AllDigits(whole) && AllDigits(frac) && (whole != [] || frac != [])
    ensures ParseNumber(whole + "." + frac) == Some(PointValue(whole, frac))
  {
    UnsignedDecimalPoint(whole, frac);
    ParseUnsignedLiteral(whole + "." + frac, PointValue(whole, frac));
  }

  /** With two fraction digits the point value is units plus cents. */
  lemma PointValueCents(n: nat, d1: char, d2: char)
    requires IsDigit(d1) && IsDigit(d2)
    ensures DigitsValue([d1, d2]) < 100
    ensures PointValue(NatToString(n), [d1, d2]) == n as real + DigitsValue([d1, d2]) as real / 100.0
  {
    NatToStringRoundTrip(n);
    assert Pow10(2) == 100;
    assert [d1, d2][..1] == [d1] && [d1][..0] == [];
  }

  // ---------------------------------------------------------------------
  // The month pattern

  /** `/^\d{4}-\d{2}$/.test(s)`: `\d` is an ASCII digit and, without the
      multiline flag, `$` matches only at the very end. */
  predicate IsMonthString(s: string) {
    && |s| == 7
    && IsDigit(s[0]) && IsDigit(s[1]) && IsDigit(s[2]) && IsDigit(s[3])
    && s[4] == '-'
    && IsDigit(s[5]) && IsDigit(s[6])
  }

  /** `month.split('-').map(Number)` on a string of that pattern. */
  function SplitMonth(s: string): (ym: (nat, nat))
    requires IsMonthString(s)
    ensures ym.0 <= 9999 && ym.1 <= 99
  {
    assert AllDigits(s[..4]) && AllDigits(s[5..]);
    var y, m := s[..4], s[5..];
    DigitsValueBound(y);
    DigitsValueBound(m);
    (DigitsValue(y), DigitsValue(m))
  }

  // ---------------------------------------------------------------------
  // Ordering strings

  /** Lexicographic order on code points; it stands for `localeCompare`. */
  predicate StrLe(a: string, b: string) {
    a == [] || (b != [] && (a[0] < b[0] || (a[0] == b[0] && StrLe(a[1..], b[1..]))))
  }

  lemma {:induction false} StrLeTotal(a: string, b: string)
    ensures StrLe(a, b) || StrLe(b, a)
  {
    if a != [] && b != [] && a[0] == b[0] {
      StrLeTotal(a[1..], b[1..]);
    }
  }

  lemma {:induction false} StrLeTransitive(a: string, b: string, c: string)
    requires StrLe(a, b) && StrLe(b, c)
    ensures StrLe(a, c)
  {
    if a != [] && b != [] && c != [] && a[0] == b[0] == c[0] {
      StrLeTransitive(a[1..], b[1..], c[1..]);
    }
  }

  lemma {:induction false} StrLeAntisymmetric(a: string, b: string)
    requires StrLe(a, b) && StrLe(b, a)
    ensures a == b
  {
    if a != [] && b != [] {
      StrLeAntisymmetric(a[1..], b[1..]);
      assert a == [a[0]] + a[1..] && b == [b[0]] + b[1..];
    }
  }
}
