/**
 * The string built-ins of the JavaScript runtime that the core relies on:
 * `String.prototype.trim`, `startsWith`, `includes`, the global `parseInt`
 * (one argument, so a `0x` prefix selects base 16) and the conversion of an
 * integer to text in a template literal.
 */
module JsText {
  import opened Common

  /**
   * WhiteSpace and LineTerminator code points of ECMAScript (section 12.2 and
   * 12.3 of ECMA-262): what `trim` removes and `parseInt` skips.
   */
  predicate IsWhitespace(c: char)
  {
    c == '\t' || c == '\n' || c == '\U{B}' || c == '\U{C}' || c == '\r' || c == ' '
    || c == '\U{A0}' || c == '\U{1680}' || ('\U{2000}' <= c <= '\U{200A}')
    || c == '\U{2028}' || c == '\U{2029}' || c == '\U{202F}' || c == '\U{205F}'
    || c == '\U{3000}' || c == '\U{FEFF}'
  }

  /** `s.trimStart()`: a suffix of `s` that starts after the leading white space. */
  function TrimStart(s: string): (r: string)
    ensures |r| <= |s| && r == s[|s| - |r|..]
    ensures forall i :: 0 <= i < |s| - |r| ==> IsWhitespace(s[i])
    ensures r != [] ==> !IsWhitespace(r[0])
  {
    if s != [] && IsWhitespace(s[0]) then TrimStart(s[1..]) else s
  }

  /** `s.trimEnd()`: a prefix of `s` that ends before the trailing white space. */
  function TrimEnd(s: string): (r: string)
    ensures |r| <= |s| && r == s[..|r|]
    ensures forall i :: |r| <= i < |s| ==> IsWhitespace(s[i])
    ensures r != [] ==> !IsWhitespace(r[|r| - 1])
  {
    if s != [] && IsWhitespace(s[|s| - 1]) then TrimEnd(s[..|s| - 1]) else s
  }

  /** `s.trim()` */
  function Trim(s: string): string
  {
    TrimEnd(TrimStart(s))
  }

  /** `!s.trim()`: the text is empty once trimmed exactly when it is all white space. */
  lemma TrimEmptyIffBlank(s: string)
    ensures Trim(s) == [] <==> forall i :: 0 <= i < |s| ==> IsWhitespace(s[i])
  {
    var t := TrimStart(s);
    if Trim(s) == [] {
      forall i | 0 <= i < |s| ensures IsWhitespace(s[i]) {
        if i >= |s| - |t| {
          assert s[i] == t[i - (|s| - |t|)];
        }
      }
    } else {
      var r := Trim(s);
      assert !IsWhitespace(r[0]);
      assert r[0] == t[0] == s[|s| - |t|];
    }
  }

  /** The trimmed text starts and ends with something other than white space. */
  lemma TrimBounds(s: string)
    ensures Trim(s) != [] ==> !IsWhitespace(Trim(s)[0]) && !IsWhitespace(Trim(s)[|Trim(s)| - 1])
  {
    var t := TrimStart(s);
    var r := TrimEnd(t);
    if r != [] {
      assert r[0] == t[..|r|][0] == t[0];
    }
  }

  /** `s.startsWith(prefix)` */
  predicate StartsWith(s: string, prefix: string)
  {
    |prefix| <= |s| && s[..|prefix|] == prefix
  }

  /** `s.includes(part)`: `part` occurs somewhere in `s`. */
  predicate Includes(s: string, part: string)
    decreases |s|
  {
    StartsWith(s, part) || (s != [] && Includes(s[1..], part))
  }

  lemma {:induction false} IncludesAt(s: string, part: string)
    ensures Includes(s, part) <==> exists i :: 0 <= i <= |s| && StartsWith(s[i..], part)
    decreases |s|
  {
    if s != [] {
      IncludesAt(s[1..], part);
      if StartsWith(s, part) {
        assert s[0..] == s;
      } else if Includes(s[1..], part) {
        var i :| 0 <= i <= |s| - 1 && StartsWith(s[1..][i..], part);
        assert s[1..][i..] == s[i + 1..];
        assert StartsWith(s[i + 1..], part);
      }
      if exists i :: 0 <= i <= |s| && StartsWith(s[i..], part) {
        var i :| 0 <= i <= |s| && StartsWith(s[i..], part);
        if i > 0 {
          assert s[1..][i - 1..] == s[i..];
        } else {
          assert s[0..] == s;
        }
      }
    } else {
      assert s[0..] == s;
    }
  }

  // ---- integers as text ----

  predicate IsDecimalDigit(c: char)
  {
    '0' <= c <= '9'
  }

  /** The value of `c` as a digit in bases up to 36; 36 for anything that is not a digit. */
  function DigitValue(c: char): (d: nat)
    ensures d <= 36
    ensures d < 10 <==> IsDecimalDigit(c)
  {
    if '0' <= c <= '9' then (c as int) - ('0' as int)
    else if 'a' <= c <= 'z' then (c as int) - ('a' as int) + 10
    else if 'A' <= c <= 'Z' then (c as int) - ('A' as int) + 10
    else 36
  }

  /** How many characters at the front of `s` are digits of `radix`. */
  function LeadingDigits(s: string, radix: nat): (n: nat)
    ensures n <= |s|
    ensures forall i :: 0 <= i < n ==> DigitValue(s[i]) < radix
    ensures n < |s| ==> DigitValue(s[n]) >= radix
  {
    if s != [] && DigitValue(s[0]) < radix then 1 + LeadingDigits(s[1..], radix) else 0
  }

  /** The number written by the digits `s` in base `radix`, most significant first. */
  function DigitsValue(s: string, radix: nat): nat
    requires forall i :: 0 <= i < |s| ==> DigitValue(s[i]) < radix
  {
    if s == [] then 0
    else DigitsValue(s[..|s| - 1], radix) * radix + DigitValue(s[|s| - 1])
  }

  /**
   * `parseInt(s)`: skip leading white space, take an optional sign, then a `0x`
   * or `0X` prefix selects base 16; the longest run of digits that follows is
   * the value. No digit at all gives NaN, here None.
   */
  function ParseInt(s: string): Option<int>
  {
    ParseSigned(TrimStart(s))
  }

  /** An optional sign, then the digits. */
  function ParseSigned(t: string): Option<int>
  {
    if t != [] && (t[0] == '-' || t[0] == '+') then
      match ParseMagnitude(t[1..])
      case None => None
      case Some(m) =>
        var v: int := m;
        Some(if t[0] == '-' then -v else v)
    else
      match ParseMagnitude(t)
      case None => None
      case Some(m) => Some(m)
  }

  /** A `0x` or `0X` prefix selects base 16, otherwise base 10. */
  function ParseMagnitude(u: string): Option<nat>
  {
    if |u| >= 2 && u[0] == '0' && (u[1] == 'x' || u[1] == 'X') then ReadDigits(u[2..], 16)
    else ReadDigits(u, 10)
  }

  /** The value of the longest run of `radix` digits at the front of `s`, if there is one. */
  function ReadDigits(s: string, radix: nat): (r: Option<nat>)
    ensures r.None? <==> s == [] || DigitValue(s[0]) >= radix
  {
    var n := LeadingDigits(s, radix);
    if n == 0 then None
    else
      var run := s[..n];
      assert forall i :: 0 <= i < |run| ==> run[i] == s[i];
      Some(DigitsValue(run, radix))
  }

  /** Text without a single decimal digit is never read as a number by `parseInt`. */
  lemma ParseIntNeedsADigit(s: string)
    requires forall i :: 0 <= i < |s| ==> !IsDecimalDigit(s[i])
    ensures ParseInt(s) == None
  {
    var t := TrimStart(s);
    assert forall i :: 0 <= i < |t| ==> t[i] == s[|s| - |t| + i];
    if t != [] && (t[0] == '-' || t[0] == '+') {
      assert ParseMagnitude(t[1..]) == None by {
        if |t| > 1 {
          assert t[1..][0] == t[1];
        }
      }
    }
  }

  function DigitChar(d: nat): (c: char)
    requires d < 10
    ensures IsDecimalDigit(c) && DigitValue(c) == d
  {
    ('0' as int + d) as char
  }

  /** The decimal numeral of `n`, without leading zeros. */
  function NatToString(n: nat): (s: string)
    ensures s != []
    ensures forall i :: 0 <= i < |s| ==> IsDecimalDigit(s[i])
    ensures |s| > 1 ==> s[0] != '0'
  {
    if n < 10 then [DigitChar(n)]
    else
      var front := NatToString(n / 10);
      assert front[0] == (front + [DigitChar(n % 10)])[0];
      front + [DigitChar(n % 10)]
  }

  /** `${n}` for an integer `n`. */
  function IntToString(n: int): string
  {
    if n < 0 then "-" + NatToString(-n) else NatToString(n)
  }

  lemma {:induction false} NatToStringValue(n: nat)
    ensures forall i :: 0 <= i < |NatToString(n)| ==> DigitValue(NatToString(n)[i]) < 10
    ensures DigitsValue(NatToString(n), 10) == n
  {
    var s := NatToString(n);
    if n >= 10 {
      NatToStringValue(n / 10);
      assert s[..|s| - 1] == NatToString(n / 10);
    }
  }

  lemma ReadAllDigits(s: string)
    requires s != []
    requires forall i :: 0 <= i < |s| ==> IsDecimalDigit(s[i])
    ensures forall i :: 0 <= i < |s| ==> DigitValue(s[i]) < 10
    ensures ReadDigits(s, 10) == Some(DigitsValue(s, 10))
  {
    assert LeadingDigits(s, 10) == |s|;
    assert s[..|s|] == s;
  }

  /** A text that starts with no white space is its own `trimStart`. */
  lemma TrimStartKeeps(s: string)
    requires s != [] && !IsWhitespace(s[0])
    ensures TrimStart(s) == s
  {
  }

  /** The digits of a numeral are read back in base 10: no digit is an `x`. */
  lemma ReadNumeral(m: nat)
    ensures ParseMagnitude(NatToString(m)) == Some(m)
  {
    var digits := NatToString(m);
    NatToStringValue(m);
    ReadAllDigits(digits);
    assert !(|digits| >= 2 && (digits[1] == 'x' || digits[1] == 'X')) by {
      if |digits| >= 2 {
        assert IsDecimalDigit(digits[1]);
      }
    }
  }

  /** `parseInt` reads back every integer written by a template literal. */
  lemma ParseIntOfIntToString(n: int)
    ensures ParseInt(IntToString(n)) == Some(n)
  {
    var m: nat := if n < 0 then -n else n;
    var digits := NatToString(m);
    ReadNumeral(m);
    var s := IntToString(n);
    if n < 0 {
      assert s == "-" + digits;
      assert s[0] == '-' && s[1..] == digits;
    } else {
      assert s == digits && IsDecimalDigit(s[0]);
    }
    TrimStartKeeps(s);
  }
}
