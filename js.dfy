/**
 * The few JavaScript built-ins the image pipeline leans on, written out on
 * mathematical integers (the approximations are listed in the README):
 * string truthiness and `||`, `String.prototype.split` with a one-character
 * separator, `Array.prototype.join`, `Number.parseInt(s, 10)` (section 19.2.5 of
 * ECMA-262) and the decimal rendering of a non-negative integer.
 */
module Js {
  import opened Wrappers

  // ---------------------------------------------------------------------------
  // Truthiness
  // ---------------------------------------------------------------------------

  /** `!!s` for a string that may be `undefined`: the empty string is falsy. */
  predicate Truthy(s: Option<string>)
  {
    s.Some? && s.value != ""
  }

  /** `s || fallback` for a string that may be `undefined`. */
  function Or(s: Option<string>, fallback: string): string
  {
    if Truthy(s) then s.value else fallback
  }

  /** `n || fallback` for a number that may be `undefined`: 0 is falsy. */
  function NumberOr(n: Option<int>, fallback: int): int
  {
    if n.Some? && n.value != 0 then n.value else fallback
  }

  // ---------------------------------------------------------------------------
  // Splitting and joining
  // ---------------------------------------------------------------------------

  /** `s.split(sep)` for a one-character separator: the pieces between separators, in order. */
  function Split(s: string, sep: char): (parts: seq<string>)
    ensures |parts| >= 1
  {
    if s == [] then [[]]
    else
      var rest := Split(s[1..], sep);
      if s[0] == sep then [[]] + rest
      else [[s[0]] + rest[0]] + rest[1..]
  }

  /** `s.split(sep)[k]`: `None` when there are not that many pieces. */
  function SplitPart(s: string, sep: char, k: nat): (part: Option<string>)
    ensures k == 0 ==> part.Some?
    ensures part.Some? ==> sep !in part.value
  {
    SplitPartsFree(s, sep);
    var parts := Split(s, sep);
    if k < |parts| then Some(parts[k]) else None
  }

  /** `parts.join(sep)`. */
  function Join(parts: seq<string>, sep: string): (joined: string)
    ensures |parts| == 1 ==> joined == parts[0]
    ensures |parts| >= 1 ==> parts[0] <= joined
    ensures |parts| >= 2 ==> parts[0] + sep <= joined
  {
    if |parts| == 0 then []
    else if |parts| == 1 then parts[0]
    else parts[0] + sep + Join(parts[1..], sep)
  }

  /** Joining the pieces of a split with the same separator gives back the string. */
  lemma {:induction false} JoinSplit(s: string, sep: char)
    ensures Join(Split(s, sep), [sep]) == s
  {
    if s != [] {
      var rest := Split(s[1..], sep);
      JoinSplit(s[1..], sep);
      if s[0] == sep {
        assert Split(s, sep) == [[]] + rest;
        assert Join([[]] + rest, [sep]) == [] + [sep] + Join(rest, [sep]);
      } else if |rest| == 1 {
        assert Split(s, sep) == [[s[0]] + rest[0]];
      } else {
        var parts := Split(s, sep);
        assert parts == [[s[0]] + rest[0]] + rest[1..];
        assert parts[1..] == rest[1..];
        assert Join(rest, [sep]) == rest[0] + [sep] + Join(rest[1..], [sep]);
        assert s == [s[0]] + s[1..];
      }
    }
  }

  /** No piece of a split contains the separator. */
  lemma {:induction false} SplitPartsFree(s: string, sep: char)
    ensures forall k :: 0 <= k < |Split(s, sep)| ==> sep !in Split(s, sep)[k]
  {
    if s != [] {
      SplitPartsFree(s[1..], sep);
      var rest := Split(s[1..], sep);
      if s[0] != sep {
        var parts := Split(s, sep);
        assert parts == [[s[0]] + rest[0]] + rest[1..];
        forall k | 0 <= k < |parts| ensures sep !in parts[k] {
          if k == 0 {
            assert sep !in rest[0];
          } else {
            assert parts[k] == rest[k];
          }
        }
      }
    }
  }

  /** A string without the separator splits into itself alone. */
  lemma {:induction false} SplitWithout(s: string, sep: char)
    requires sep !in s
    ensures Split(s, sep) == [s]
  {
    if s != [] {
      SplitWithout(s[1..], sep);
      assert s == [s[0]] + s[1..];
    }
  }

  /** The first piece runs up to the first separator; the rest is the split of what follows it. */
  lemma {:induction false} SplitAtFirst(a: string, b: string, sep: char)
    requires sep !in a
    ensures Split(a + [sep] + b, sep) == [a] + Split(b, sep)
  {
    var s := a + [sep] + b;
    if a == [] {
      assert s[1..] == b;
    } else {
      assert s[1..] == a[1..] + [sep] + b;
      SplitAtFirst(a[1..], b, sep);
      assert [a[0]] + a[1..] == a;
    }
  }

  /**
   * `s.split(sep)[1]` is the piece between the first separator and the next one
   * (or the end of the string).
   */
  lemma SplitSecondPart(a: string, b: string, tail: string, sep: char)
    requires sep !in a && sep !in b
    requires tail == [] || tail[0] == sep
    ensures SplitPart(a + [sep] + b + tail, sep, 1) == Some(b)
  {
    assert a + [sep] + b + tail == a + [sep] + (b + tail);
    SplitAtFirst(a, b + tail, sep);
    if tail == [] {
      SplitWithout(b, sep);
      assert b + tail == b;
    } else {
      assert b + tail == b + [sep] + tail[1..];
      SplitAtFirst(b, tail[1..], sep);
    }
  }

  /** Without a separator, `s.split(sep)[1]` is `undefined`. */
  lemma SplitSecondPartMissing(s: string, sep: char)
    requires sep !in s
    ensures SplitPart(s, sep, 1) == None
  {
    SplitWithout(s, sep);
  }

  // ---------------------------------------------------------------------------
  // Decimal digits
  // ---------------------------------------------------------------------------

  predicate IsDigit(c: char)
  {
    '0' <= c && c <= '9'
  }

  function DigitValue(c: char): nat
  {
    if IsDigit(c) then (c as int) - ('0' as int) else 0
  }

  function DigitChar(d: nat): (c: char)
    requires d < 10
    ensures IsDigit(c) && DigitValue(c) == d
  {
    (('0' as int) + d) as char
  }

  /** The integer a string of decimal digits denotes, most significant digit first. */
  function DigitsValue(ds: string): nat
  {
    if ds == [] then 0 else DigitsValue(ds[..|ds| - 1]) * 10 + DigitValue(ds[|ds| - 1])
  }

  /** Decimal rendering of a non-negative integer (`${n}` for an integer below 10^21). */
  function NatToString(n: nat): (s: string)
    ensures s != []
    ensures forall i :: 0 <= i < |s| ==> IsDigit(s[i])
    ensures |s| > 1 ==> s[0] != '0'
  {
    if n < 10 then [DigitChar(n)] else NatToString(n / 10) + [DigitChar(n % 10)]
  }

  /** Reading back a decimal rendering gives the number. */
  lemma {:induction false} NatToStringValue(n: nat)
    ensures DigitsValue(NatToString(n)) == n
  {
    if n >= 10 {
      var s := NatToString(n);
      assert s[..|s| - 1] == NatToString(n / 10);
      NatToStringValue(n / 10);
    }
  }

  /** Distinct numbers have distinct renderings. */
  lemma NatToStringInjective(m: nat, n: nat)
    requires NatToString(m) == NatToString(n)
    ensures m == n
  {
    NatToStringValue(m);
    NatToStringValue(n);
  }

  // ---------------------------------------------------------------------------
  // Number.parseInt(s, 10)
  // ---------------------------------------------------------------------------

  /** A JavaScript Number, as far as parseInt can produce one. */
  datatype Number = NaN | Infinity(negative: bool) | Finite(value: int)

  /** Number.isFinite. */
  predicate IsFinite(n: Number)
  {
    n.Finite?
  }

  /** The code points TrimString removes: WhiteSpace and LineTerminator of ECMA-262. */
  predicate IsStrWhiteSpaceChar(c: char)
  {
    || c == '\t' || c == '\U{000B}' || c == '\U{000C}' || c == ' ' || c == '\U{00A0}'
    || c == '\U{FEFF}' || c == '\U{1680}' || ('\U{2000}' <= c && c <= '\U{200A}')
    || c == '\U{202F}' || c == '\U{205F}' || c == '\U{3000}'
    || c == '\n' || c == '\r' || c == '\U{2028}' || c == '\U{2029}'
  }

  function TrimStart(s: string): string
  {
    if s != [] && IsStrWhiteSpaceChar(s[0]) then TrimStart(s[1..]) else s
  }

  /** The longest prefix made of decimal digits. */
  function DigitPrefix(s: string): string
  {
    if s != [] && IsDigit(s[0]) then [s[0]] + DigitPrefix(s[1..]) else []
  }

  function Pow2(k: nat): nat
  {
    if k == 0 then 1 else 2 * Pow2(k - 1)
  }

  /** 2^54 - 1: together with 2^970 it gives the least magnitude that rounds to Infinity. */
  const OverflowMantissa: nat := 0x3F_FFFF_FFFF_FFFF

  /**
   * The Number nearest to an integer, as far as finiteness goes: magnitudes of at
   * least 2^1024 - 2^970 round to an Infinity.
   */
  function ToNumber(i: int): Number
  {
    var magnitude := if i < 0 then -i else i;
    if magnitude >= OverflowMantissa * Pow2(970) then Infinity(i < 0) else Finite(i)
  }

  /**
   * Number.parseInt(s, 10): skip leading white space, take an optional sign, then
   * the longest run of decimal digits; no digits gives NaN.
   */
  function ParseInt(s: string): (n: Number)
    ensures var t := TrimStart(s);
            var unsigned := if t != [] && (t[0] == '+' || t[0] == '-') then t[1..] else t;
            n.NaN? <==> unsigned == [] || !IsDigit(unsigned[0])
    ensures n.Finite? && n.value < 0 ==> TrimStart(s) != [] && TrimStart(s)[0] == '-'
    ensures n.Infinity? ==> TrimStart(s) != [] && (n.negative <==> TrimStart(s)[0] == '-')
  {
    Pow2Positive(970);
    var t := TrimStart(s);
    var negative := t != [] && t[0] == '-';
    var unsigned := if t != [] && (t[0] == '+' || t[0] == '-') then t[1..] else t;
    var digits := DigitPrefix(unsigned);
    if digits == [] then NaN
    else ToNumber(if negative then -(DigitsValue(digits) as int) else DigitsValue(digits))
  }

  lemma {:induction false} Pow2Positive(k: nat)
    ensures Pow2(k) >= 1
  {
    if k > 0 {
      Pow2Positive(k - 1);
    }
  }

  /** Integers of moderate magnitude stay finite. */
  lemma ToNumberFinite(i: int)
    requires -(OverflowMantissa as int) < i < OverflowMantissa
    ensures ToNumber(i) == Finite(i)
  {
    Pow2Positive(970);
  }

  /** A digit string followed by a non-digit: parseInt stops at the first non-digit. */
  lemma {:induction false} DigitPrefixOfDigits(ds: string, rest: string)
    requires forall i :: 0 <= i < |ds| ==> IsDigit(ds[i])
    requires rest == [] || !IsDigit(rest[0])
    ensures DigitPrefix(ds + rest) == ds
  {
    if ds != [] {
      assert (ds + rest)[1..] == ds[1..] + rest;
      DigitPrefixOfDigits(ds[1..], rest);
      assert [ds[0]] + ds[1..] == ds;
    } else {
      assert ds + rest == rest;
    }
  }

  /**
   * parseInt reads back the decimal rendering of a number, and ignores whatever
   * follows the digits when that does not start with a digit ("768px" gives 768).
   */
  lemma ParseIntDecimal(n: nat, rest: string)
    requires n < OverflowMantissa
    requires rest == [] || !IsDigit(rest[0])
    ensures ParseInt(NatToString(n) + rest) == Finite(n)
  {
    var s := NatToString(n) + rest;
    assert s[0] == NatToString(n)[0];
    assert TrimStart(s) == s;
    DigitPrefixOfDigits(NatToString(n), rest);
    NatToStringValue(n);
    ToNumberFinite(n);
  }

  /** A leading minus sign negates ("-5" gives -5). */
  lemma ParseIntNegative(n: nat, rest: string)
    requires n < OverflowMantissa
    requires rest == [] || !IsDigit(rest[0])
    ensures ParseInt("-" + NatToString(n) + rest) == Finite(-(n as int))
  {
    ParseIntMinusDigits(NatToString(n), rest);
    assert "-" + NatToString(n) + rest == "-" + (NatToString(n) + rest);
    NatToStringValue(n);
    ToNumberFinite(-(n as int));
  }

  /**
   * parseInt of any run of digits (leading zeros included) followed by a tail that
   * does not start with a digit: the value of the digits.
   */
  lemma ParseIntDigits(ds: string, rest: string)
    requires ds != [] && forall i :: 0 <= i < |ds| ==> IsDigit(ds[i])
    requires rest == [] || !IsDigit(rest[0])
    ensures ParseInt(ds + rest) == ToNumber(DigitsValue(ds))
  {
    var s := ds + rest;
    DigitPrefixOfDigits(ds, rest);
    assert s[0] == ds[0] && IsDigit(s[0]);
    assert !IsStrWhiteSpaceChar(s[0]);
    assert TrimStart(s) == s;
  }

  /** The same after an explicit `+` ("+0768" gives 768). */
  lemma ParseIntPlusDigits(ds: string, rest: string)
    requires ds != [] && forall i :: 0 <= i < |ds| ==> IsDigit(ds[i])
    requires rest == [] || !IsDigit(rest[0])
    ensures ParseInt("+" + (ds + rest)) == ToNumber(DigitsValue(ds))
  {
    DigitPrefixOfDigits(ds, rest);
    ParseIntAfterPlus(ds + rest, ds);
  }

  /** After `-`, the value of the digits is negated ("-0768" gives -768). */
  lemma ParseIntMinusDigits(ds: string, rest: string)
    requires ds != [] && forall i :: 0 <= i < |ds| ==> IsDigit(ds[i])
    requires rest == [] || !IsDigit(rest[0])
    ensures ParseInt("-" + (ds + rest)) == ToNumber(-(DigitsValue(ds) as int))
  {
    DigitPrefixOfDigits(ds, rest);
    ParseIntAfterMinus(ds + rest, ds);
  }

  /** After `+`, parseInt reads the digit prefix of what follows. */
  lemma ParseIntAfterPlus(s: string, ds: string)
    requires ds != [] && DigitPrefix(s) == ds
    ensures ParseInt("+" + s) == ToNumber(DigitsValue(ds))
  {
    var t := "+" + s;
    assert t[0] == '+' && t[1..] == s;
    assert TrimStart(t) == t;
  }

  /** After `-`, parseInt reads the digit prefix of what follows and negates it. */
  lemma ParseIntAfterMinus(s: string, ds: string)
    requires ds != [] && DigitPrefix(s) == ds
    ensures ParseInt("-" + s) == ToNumber(-(DigitsValue(ds) as int))
  {
    var t := "-" + s;
    assert t[0] == '-' && t[1..] == s;
    assert TrimStart(t) == t;
  }

  /** Leading white space is skipped. */
  lemma ParseIntSkipsWhiteSpace(c: char, s: string)
    requires IsStrWhiteSpaceChar(c)
    ensures ParseInt([c] + s) == ParseInt(s)
  {
    assert ([c] + s)[1..] == s;
  }

  /** A string that starts with anything but white space, a sign or a digit is NaN ("abc"). */
  lemma ParseIntNaN(s: string)
    requires s != [] && !IsStrWhiteSpaceChar(s[0]) && !IsDigit(s[0])
    requires s[0] != '+' && s[0] != '-'
    ensures ParseInt(s) == NaN
  {
  }
}
