/**
 * The parts of JavaScript's string and number semantics that the application relies on:
 * `String.prototype.trim`, the global `parseInt` (without a radix argument), and the
 * decimal rendering of a non-negative integer inside a template literal.
 */
module JsText {
  import opened Wrappers

  /** ECMAScript WhiteSpace and LineTerminator code points, the set `trim` and `parseInt` skip. */
  predicate IsJsWhitespace(c: char)
  {
    var n := c as int;
    n == 0x09 || n == 0x0A || n == 0x0B || n == 0x0C || n == 0x0D || n == 0x20 ||
    n == 0xA0 || n == 0x1680 || (0x2000 <= n <= 0x200A) || n == 0x2028 || n == 0x2029 ||
    n == 0x202F || n == 0x205F || n == 0x3000 || n == 0xFEFF
  }

  /** Every character of `s` is whitespace (so `s.trim()` is the empty, falsy string). */
  predicate AllWhitespace(s: string)
  {
    forall k :: 0 <= k < |s| ==> IsJsWhitespace(s[k])
  }

  /** Drops leading whitespace (see `TrimStartSpec`). */
  function TrimStart(s: string): string
  {
    if |s| > 0 && IsJsWhitespace(s[0]) then TrimStart(s[1..]) else s
  }

  /** `TrimStart` keeps the suffix of `s` that starts at its first non-whitespace character. */
  lemma {:induction false} TrimStartSpec(s: string)
    ensures |TrimStart(s)| <= |s| && TrimStart(s) == s[|s| - |TrimStart(s)|..]
    ensures forall k :: 0 <= k < |s| - |TrimStart(s)| ==> IsJsWhitespace(s[k])
    ensures TrimStart(s) != [] ==> !IsJsWhitespace(TrimStart(s)[0])
  {
    if |s| > 0 && IsJsWhitespace(s[0]) {
      TrimStartSpec(s[1..]);
    }
  }

  /** Drops trailing whitespace (see `TrimEndSpec`). */
  function TrimEnd(s: string): string
  {
    if |s| > 0 && IsJsWhitespace(s[|s| - 1]) then TrimEnd(s[..|s| - 1]) else s
  }

  /** `TrimEnd` keeps the prefix of `s` that ends at its last non-whitespace character. */
  lemma {:induction false} TrimEndSpec(s: string)
    ensures |TrimEnd(s)| <= |s| && TrimEnd(s) == s[..|TrimEnd(s)|]
    ensures forall k :: |TrimEnd(s)| <= k < |s| ==> IsJsWhitespace(s[k])
    ensures TrimEnd(s) != [] ==> !IsJsWhitespace(TrimEnd(s)[|TrimEnd(s)| - 1])
  {
    if |s| > 0 && IsJsWhitespace(s[|s| - 1]) {
      TrimEndSpec(s[..|s| - 1]);
    }
  }

  /** `s.trim()`: the result is empty exactly when `s` is all whitespace, and otherwise starts and ends with non-whitespace. */
  function Trim(s: string): (r: string)
    ensures r == [] <==> AllWhitespace(s)
    ensures r != [] ==> !IsJsWhitespace(r[0]) && !IsJsWhitespace(r[|r| - 1])
    ensures |r| <= |s|
  {
    var t := TrimStart(s);
    TrimStartSpec(s);
    TrimEndSpec(t);
    var r := TrimEnd(t);
    assert r != [] ==> r[0] == t[0];
    r
  }

  /** `s.trim()` is what is left of `s` after an all-whitespace prefix and an all-whitespace suffix. */
  lemma TrimSpec(s: string)
    ensures exists i, j ::
      0 <= i <= j <= |s| && Trim(s) == s[i..j] && AllWhitespace(s[..i]) && AllWhitespace(s[j..])
  {
    TrimStartSpec(s);
    var t := TrimStart(s);
    TrimEndSpec(t);
    var i := |s| - |t|;
    var j := i + |TrimEnd(t)|;
    assert Trim(s) == s[i..j];
    assert AllWhitespace(s[..i]);
    assert AllWhitespace(s[j..]) by {
      forall k | 0 <= k < |s| - j
        ensures IsJsWhitespace(s[j..][k])
      {
        assert s[j..][k] == t[|TrimEnd(t)| + k];
      }
    }
  }

  /** A string with no surrounding whitespace is its own trim. */
  lemma {:induction false} TrimOfTrimmed(s: string)
    requires s == [] || (!IsJsWhitespace(s[0]) && !IsJsWhitespace(s[|s| - 1]))
    ensures Trim(s) == s
  {
    assert TrimStart(s) == s;
    assert TrimEnd(s) == s;
  }

  /** `s.trim().trim() == s.trim()`. */
  lemma TrimIdempotent(s: string)
    ensures Trim(Trim(s)) == Trim(s)
  {
    TrimOfTrimmed(Trim(s));
  }

  /** Leading whitespace before a non-whitespace character is exactly what `TrimStart` drops. */
  lemma {:induction false} TrimStartOfPadded(padding: string, s: string)
    requires AllWhitespace(padding)
    requires s != [] && !IsJsWhitespace(s[0])
    ensures TrimStart(padding + s) == s
  {
    if padding != [] {
      assert (padding + s)[1..] == padding[1..] + s;
      TrimStartOfPadded(padding[1..], s);
    }
  }

  /** Trailing whitespace after a non-whitespace character is exactly what `TrimEnd` drops. */
  lemma {:induction false} TrimEndOfPadded(s: string, padding: string)
    requires AllWhitespace(padding)
    requires s != [] && !IsJsWhitespace(s[|s| - 1])
    ensures TrimEnd(s + padding) == s
  {
    if padding != [] {
      assert (s + padding)[..|s + padding| - 1] == s + padding[..|padding| - 1];
      TrimEndOfPadded(s, padding[..|padding| - 1]);
    }
  }

  predicate IsDecimalDigit(c: char)
  {
    '0' <= c <= '9'
  }

  /** A digit of radix 10 or 16 (the only radixes `parseInt` uses here). */
  predicate IsDigitIn(c: char, radix: nat)
  {
    IsDecimalDigit(c) || (radix == 16 && (('a' <= c <= 'f') || ('A' <= c <= 'F')))
  }

  function DigitValue(c: char): (v: nat)
    ensures IsDecimalDigit(c) ==> v == c as int - '0' as int
  {
    if IsDecimalDigit(c) then c as int - '0' as int
    else if 'a' <= c <= 'f' then c as int - 'a' as int + 10
    else if 'A' <= c <= 'F' then c as int - 'A' as int + 10
    else 0
  }

  /** The longest prefix of `s` made of digits of `radix` (see `DigitPrefixSpec`). */
  function DigitPrefix(s: string, radix: nat): string
  {
    if |s| > 0 && IsDigitIn(s[0], radix) then [s[0]] + DigitPrefix(s[1..], radix) else []
  }

  /** `DigitPrefix` is a prefix of `s`, all digits, and stops at the first non-digit. */
  lemma {:induction false} DigitPrefixSpec(s: string, radix: nat)
    ensures |DigitPrefix(s, radix)| <= |s| && DigitPrefix(s, radix) == s[..|DigitPrefix(s, radix)|]
    ensures forall k :: 0 <= k < |DigitPrefix(s, radix)| ==> IsDigitIn(DigitPrefix(s, radix)[k], radix)
    ensures |DigitPrefix(s, radix)| < |s| ==> !IsDigitIn(s[|DigitPrefix(s, radix)|], radix)
  {
    if |s| > 0 && IsDigitIn(s[0], radix) {
      DigitPrefixSpec(s[1..], radix);
    }
  }

  /** The number a digit string denotes in `radix`, most significant digit first. */
  function DigitsValue(d: string, radix: nat): nat
  {
    if d == [] then 0 else DigitsValue(d[..|d| - 1], radix) * radix + DigitValue(d[|d| - 1])
  }

  /**
   * The global `parseInt(s)` without a radix: skip leading whitespace, take an optional
   * sign, then read an unsigned number. `None` is `NaN`.
   */
  function ParseInt(s: string): (r: Option<int>)
  {
    var t := TrimStart(s);
    if |t| > 0 && t[0] == '-' then
      match ParseMagnitude(t[1..])
      case None => None
      case Some(m) => Some(-(m as int))
    else if |t| > 0 && t[0] == '+' then
      match ParseMagnitude(t[1..])
      case None => None
      case Some(m) => Some(m)
    else
      match ParseMagnitude(t)
      case None => None
      case Some(m) => Some(m)
  }

  /**
   * The unsigned part of `parseInt`: radix 16 after a `0x`/`0X` prefix, else radix 10,
   * then the longest run of digits of that radix; `None` (`NaN`) when the run is empty.
   */
  function ParseMagnitude(u: string): (r: Option<nat>)
  {
    var hex := |u| >= 2 && u[0] == '0' && (u[1] == 'x' || u[1] == 'X');
    var radix := if hex then 16 else 10;
    var digits := DigitPrefix(if hex then u[2..] else u, radix);
    if digits == [] then None else Some(DigitsValue(digits, radix))
  }

  /** A run of digits followed by a non-digit is exactly the digit prefix `parseInt` reads. */
  lemma {:induction false} DigitPrefixOfDigits(d: string, rest: string, radix: nat)
    requires forall k :: 0 <= k < |d| ==> IsDigitIn(d[k], radix)
    requires rest == [] || !IsDigitIn(rest[0], radix)
    ensures DigitPrefix(d + rest, radix) == d
  {
    if d != [] {
      assert d + rest == [d[0]] + (d[1..] + rest);
      DigitPrefixOfDigits(d[1..], rest, radix);
    }
  }

  function DigitChar(d: nat): (c: char)
    requires d < 10
    ensures IsDecimalDigit(c) && DigitValue(c) == d
  {
    (d + '0' as int) as char
  }

  /** `${n}` for a non-negative integer `n`: its decimal digits, without leading zeros. */
  function Decimal(n: nat): (r: string)
    ensures r != []
    ensures forall k :: 0 <= k < |r| ==> IsDecimalDigit(r[k])
    ensures r[0] == '0' ==> n == 0
  {
    if n < 10 then [DigitChar(n)] else Decimal(n / 10) + [DigitChar(n % 10)]
  }

  /** The digits `Decimal` writes denote `n`. */
  lemma {:induction false} DecimalValue(n: nat)
    ensures DigitsValue(Decimal(n), 10) == n
  {
    if n >= 10 {
      var d := Decimal(n);
      assert d[..|d| - 1] == Decimal(n / 10);
      DecimalValue(n / 10);
    }
  }

  /** The unsigned part of `parseInt` reads back a rendered number followed by a non-digit. */
  lemma ParseMagnitudeOfDecimal(n: nat, rest: string)
    requires rest == [] || (!IsDecimalDigit(rest[0]) && rest[0] != 'x' && rest[0] != 'X')
    ensures ParseMagnitude(Decimal(n) + rest) == Some(n)
  {
    var d := Decimal(n);
    var s := d + rest;
    assert |s| >= 2 && s[0] == '0' ==> s[1] == rest[0] by {
      if |s| >= 2 && s[0] == '0' {
        assert |Decimal(0)| == 1;
      }
    }
    DigitPrefixOfDigits(d, rest, 10);
    DecimalValue(n);
  }

  /** `parseInt` reads back a rendered number that is followed by anything but a digit (or, after `0`, an `x`). */
  lemma ParseDecimal(n: nat, rest: string)
    requires rest == [] || (!IsDecimalDigit(rest[0]) && rest[0] != 'x' && rest[0] != 'X')
    ensures ParseInt(Decimal(n) + rest) == Some(n)
  {
    var s := Decimal(n) + rest;
    assert s[0] == Decimal(n)[0];
    assert TrimStart(s) == s;
    ParseMagnitudeOfDecimal(n, rest);
  }


  /** `parseInt` skips whitespace in front of what it reads. */
  lemma ParseIntSkipsLeadingWhitespace(padding: string, s: string)
    requires AllWhitespace(padding)
    ensures ParseInt(padding + s) == ParseInt(s)
  {
    TrimStartOfWhitespace(padding, s);
  }

  /** Leading whitespace in front of any text is dropped by `TrimStart` along with the text's own. */
  lemma {:induction false} TrimStartOfWhitespace(padding: string, s: string)
    requires AllWhitespace(padding)
    ensures TrimStart(padding + s) == TrimStart(s)
  {
    if padding != [] {
      assert (padding + s)[1..] == padding[1..] + s;
      TrimStartOfWhitespace(padding[1..], s);
    } else {
      assert padding + s == s;
    }
  }

  /** A minus sign in front of a rendered number negates what `parseInt` reads. */
  lemma ParseNegativeDecimal(n: nat, rest: string)
    requires rest == [] || (!IsDecimalDigit(rest[0]) && rest[0] != 'x' && rest[0] != 'X')
    ensures ParseInt("-" + Decimal(n) + rest) == Some(-(n as int))
  {
    var s := "-" + Decimal(n) + rest;
    assert TrimStart(s) == s;
    assert s[1..] == Decimal(n) + rest;
    ParseMagnitudeOfDecimal(n, rest);
  }
}
