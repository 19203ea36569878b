/**
 * JavaScript numbers as the query translator uses them: `parseInt` with no
 * radix argument (section 19.2.5 of ECMA-262), and the integer arithmetic the
 * `/movies` handler does on its results. The model's numbers are NaN or an
 * unbounded integer: the `Infinity` and `-0` that JavaScript's `parseInt`
 * can also yield are not represented.
 */
module JsNumbers {

  /** A JavaScript number that is NaN or holds an integer value. */
  datatype Number = NaN | Int(value: int)

  /** `a + b`; NaN is contagious. */
  function Add(a: Number, b: Number): (r: Number)
    ensures r.Int? <==> a.Int? && b.Int?
    ensures r.Int? ==> r.value == a.value + b.value
  {
    if a.Int? && b.Int? then Int(a.value + b.value) else NaN
  }

  /** `a - b`; NaN is contagious. */
  function Sub(a: Number, b: Number): (r: Number)
    ensures r.Int? <==> a.Int? && b.Int?
    ensures r.Int? ==> r.value == a.value - b.value
  {
    if a.Int? && b.Int? then Int(a.value - b.value) else NaN
  }

  /** `a * b`; NaN is contagious. */
  function Mul(a: Number, b: Number): (r: Number)
    ensures r.Int? <==> a.Int? && b.Int?
    ensures r.Int? ==> r.value == a.value * b.value
  {
    if a.Int? && b.Int? then Int(a.value * b.value) else NaN
  }

  /**
   * The characters `parseInt` skips at the start of its argument: the
   * WhiteSpace and LineTerminator code points of ECMA-262 (tab, vertical tab,
   * form feed, the byte order mark, line feed, carriage return, the line and
   * paragraph separators, and the space separators of Unicode category Zs).
   */
  predicate IsStrWhiteSpace(c: char)
    ensures IsStrWhiteSpace(c) ==> DigitValue(c) == 36 && c != '+' && c != '-'
  {
    || c == '\t' || c == '\n' || c == '\U{B}' || c == '\U{C}' || c == '\r'
    || c == ' ' || c == '\U{A0}' || c == '\U{1680}'
    || ('\U{2000}' <= c <= '\U{200A}')
    || c == '\U{2028}' || c == '\U{2029}' || c == '\U{202F}' || c == '\U{205F}'
    || c == '\U{3000}' || c == '\U{FEFF}'
  }

  /** The string with its leading white space removed. */
  function TrimStart(s: string): (r: string)
    ensures |r| <= |s| && r == s[|s| - |r|..]
    ensures forall i :: 0 <= i < |s| - |r| ==> IsStrWhiteSpace(s[i])
    ensures r == [] || !IsStrWhiteSpace(r[0])
    decreases |s|
  {
    if s != [] && IsStrWhiteSpace(s[0]) then TrimStart(s[1..]) else s
  }

  /**
   * The value of a character as a digit: 0-9 for the decimal digits, 10-35
   * for the letters a-z in either case, and 36 (no digit in any radix) for
   * everything else.
   */
  function DigitValue(c: char): (d: nat)
    ensures d <= 36
    ensures d < 10 <==> '0' <= c <= '9'
    ensures d < 36 <==> ('0' <= c <= '9' || 'a' <= c <= 'z' || 'A' <= c <= 'Z')
  {
    if '0' <= c <= '9' then c as int - '0' as int
    else if 'a' <= c <= 'z' then c as int - 'a' as int + 10
    else if 'A' <= c <= 'Z' then c as int - 'A' as int + 10
    else 36
  }

  /** Whether `c` is a digit in `radix`: for 10 the decimal digits, for 16 also `a`-`f` in either case. */
  predicate IsDigit(c: char, radix: nat)
    ensures radix == 10 ==> (IsDigit(c, radix) <==> '0' <= c <= '9')
    ensures radix == 16 ==> (IsDigit(c, radix) <==> '0' <= c <= '9' || 'a' <= c <= 'f' || 'A' <= c <= 'F')
  {
    DigitValue(c) < radix
  }

  /** The longest prefix of `s` made of digits in `radix`. */
  function DigitPrefix(s: string, radix: nat): (r: string)
    ensures r <= s
    ensures forall i :: 0 <= i < |r| ==> IsDigit(r[i], radix)
    ensures |r| < |s| ==> !IsDigit(s[|r|], radix)
    decreases |s|
  {
    if s == [] || !IsDigit(s[0], radix) then [] else [s[0]] + DigitPrefix(s[1..], radix)
  }

  /** The integer a digit string denotes in `radix`, most significant digit first. */
  function DigitsValue(ds: string, radix: nat): (r: nat)
    ensures (forall i :: 0 <= i < |ds| ==> ds[i] == '0') ==> r == 0
    decreases |ds|
  {
    if ds == [] then 0
    else DigitsValue(ds[..|ds| - 1], radix) * radix + DigitValue(ds[|ds| - 1])
  }

  /**
   * `parseInt(s)` with the radix argument left out: skip leading white space,
   * take one optional sign, read a `0x`/`0X` prefix as radix 16 (radix 10
   * otherwise), and take the longest run of digits that follows. No digit at
   * all gives NaN; anything after the digits is ignored.
   */
  function ParseInt(s: string): (n: Number)
    ensures TrimStart(s) == [] ==> n == NaN
    ensures n.Int? && TrimStart(s)[0] != '-' ==> n.value >= 0
  {
    ParseSigned(TrimStart(s))
  }

  /** The sign step of `parseInt`, on a string whose white space is gone. */
  function ParseSigned(t: string): (n: Number)
    ensures t == [] ==> n == NaN
    ensures n.Int? && t[0] != '-' ==> n.value >= 0
    ensures n.Int? && t[0] == '-' ==> n.value <= 0
  {
    if t != [] && t[0] == '-' then Sub(Int(0), ParseUnsigned(t[1..]))
    else if t != [] && t[0] == '+' then ParseUnsigned(t[1..])
    else ParseUnsigned(t)
  }

  /** The radix and digit steps of `parseInt`, after the sign. */
  function ParseUnsigned(u: string): (n: Number)
    ensures u == [] ==> n == NaN
    ensures n.Int? ==> n.value >= 0
  {
    if |u| >= 2 && u[0] == '0' && (u[1] == 'x' || u[1] == 'X') then ParseDigits(u[2..], 16)
    else ParseDigits(u, 10)
  }

  /** The longest digit prefix read in `radix`, NaN when there is none. */
  function ParseDigits(u: string, radix: nat): (n: Number)
    ensures n.NaN? <==> DigitPrefix(u, radix) == []
    ensures n.Int? ==> n.value >= 0
  {
    var digits := DigitPrefix(u, radix);
    if digits == [] then NaN else Int(DigitsValue(digits, radix))
  }

  /** The decimal digit character for `d`. */
  function DigitChar(d: nat): (c: char)
    requires d < 10
    ensures IsDigit(c, 10) && DigitValue(c) == d
  {
    ('0' as int + d) as char
  }

  /** The decimal numeral of `n`: its digits, most significant first, with no leading zero. */
  function ToDecimal(n: nat): (s: string)
    ensures s != []
    ensures forall i :: 0 <= i < |s| ==> IsDigit(s[i], 10)
    ensures |s| >= 2 ==> s[0] != '0'
    ensures s[0] == '0' <==> n == 0
  {
    if n < 10 then [DigitChar(n)] else ToDecimal(n / 10) + [DigitChar(n % 10)]
  }

  /** Leading zeros do not change the value: `parseInt("007")` is 7. */
  lemma {:induction false} LeadingZeroIgnored(ds: string, radix: nat)
    ensures DigitsValue("0" + ds, radix) == DigitsValue(ds, radix)
    decreases |ds|
  {
    var z := "0" + ds;
    if ds == [] {
      assert z[..0] == [];
    } else {
      assert z[..|z| - 1] == "0" + ds[..|ds| - 1];
      assert z[|z| - 1] == ds[|ds| - 1];
      LeadingZeroIgnored(ds[..|ds| - 1], radix);
    }
  }

  /** A decimal numeral denotes the number it was written from. */
  lemma {:induction false} DecimalValue(n: nat)
    ensures DigitsValue(ToDecimal(n), 10) == n
  {
    if n >= 10 {
      var s := ToDecimal(n);
      assert s[..|s| - 1] == ToDecimal(n / 10);
      DecimalValue(n / 10);
    }
  }

  /** A run of digits followed by a non-digit (or nothing) is exactly the digit prefix. */
  lemma {:induction false} DigitPrefixOfConcat(a: string, b: string, radix: nat)
    requires forall i :: 0 <= i < |a| ==> IsDigit(a[i], radix)
    requires b == [] || !IsDigit(b[0], radix)
    ensures DigitPrefix(a + b, radix) == a
    decreases |a|
  {
    if a == [] {
      assert a + b == b;
    } else {
      assert (a + b)[1..] == a[1..] + b;
      DigitPrefixOfConcat(a[1..], b, radix);
    }
  }

  lemma {:induction false} TrimStartOfConcat(ws: string, s: string)
    requires forall i :: 0 <= i < |ws| ==> IsStrWhiteSpace(ws[i])
    ensures TrimStart(ws + s) == TrimStart(s)
    decreases |ws|
  {
    if ws != [] {
      assert (ws + s)[1..] == ws[1..] + s;
      TrimStartOfConcat(ws[1..], s);
    } else {
      assert ws + s == s;
    }
  }

  /** Leading white space does not change what `parseInt` reads. */
  lemma ParseIntSkipsWhiteSpace(ws: string, s: string)
    requires forall i :: 0 <= i < |ws| ==> IsStrWhiteSpace(ws[i])
    ensures ParseInt(ws + s) == ParseInt(s)
  {
    TrimStartOfConcat(ws, s);
  }

  /** The digits of a decimal numeral, then a tail that is not a digit, read back as the number. */
  lemma UnsignedDecimalRoundTrip(n: nat, tail: string)
    requires tail == [] || (!IsDigit(tail[0], 10) && (n == 0 ==> tail[0] != 'x' && tail[0] != 'X'))
    ensures ParseUnsigned(ToDecimal(n) + tail) == Int(n)
  {
    var d := ToDecimal(n);
    var u := d + tail;
    assert |u| >= 2 && u[0] == '0' ==> u[1] != 'x' && u[1] != 'X' by {
      if |u| >= 2 && u[0] == '0' {
        assert d[0] == '0' && |d| == 1;
        assert u[1] == tail[0];
      }
    }
    DigitPrefixOfConcat(d, tail, 10);
    DecimalValue(n);
  }

  /**
   * `parseInt` reads back the model's decimal numeral of every natural `n`
   * (a plain digit string; JavaScript's `String` writes exponent form from
   * 1e21 on, which this numeral does not): the numeral followed by any tail
   * that does not start with a digit reads back as `n`. For `n == 0` the tail
   * must not start with `x` either, since `0x` starts a hexadecimal prefix.
   */
  lemma DecimalRoundTrip(n: nat, tail: string)
    requires tail == [] || (!IsDigit(tail[0], 10) && (n == 0 ==> tail[0] != 'x' && tail[0] != 'X'))
    ensures ParseInt(ToDecimal(n) + tail) == Int(n)
  {
    var d := ToDecimal(n);
    UnsignedDecimalRoundTrip(n, tail);
    DigitIsNotWhiteSpace(d[0]);
    assert (d + tail)[0] == d[0];
    assert TrimStart(d + tail) == d + tail;
  }

  /** With a leading minus sign the same numeral reads back as `-n`. */
  lemma NegativeDecimalRoundTrip(n: nat, tail: string)
    requires tail == [] || (!IsDigit(tail[0], 10) && (n == 0 ==> tail[0] != 'x' && tail[0] != 'X'))
    ensures ParseInt("-" + (ToDecimal(n) + tail)) == Int(-(n as int))
  {
    UnsignedDecimalRoundTrip(n, tail);
    MinusSign(ToDecimal(n) + tail);
  }

  /** A leading minus sign negates what follows it. */
  lemma MinusSign(u: string)
    ensures ParseInt("-" + u) == Sub(Int(0), ParseUnsigned(u))
  {
    var s := "-" + u;
    assert s[1..] == u;
    assert TrimStart(s) == s;
  }

  /** Proof step: a decimal digit is neither white space nor a sign. */
  lemma DigitIsNotWhiteSpace(c: char)
    requires IsDigit(c, 10)
    ensures !IsStrWhiteSpace(c) && c != '+' && c != '-'
  {
    assert '0' <= c <= '9';
  }

  /** A string with no digit after its sign is NaN. */
  lemma NoDigitsExample()
    ensures ParseInt("abc") == NaN
  {
    assert !IsStrWhiteSpace("abc"[0]);
    assert TrimStart("abc") == "abc";
    assert DigitPrefix("abc", 10) == [];
  }

  /** Digits stop at the first non-digit: `12px` reads as 12. */
  lemma TrailingTextExample()
    ensures ParseInt("12px") == Int(12)
  {
    assert ToDecimal(12) == "12";
    assert "12px" == ToDecimal(12) + "px";
    DecimalRoundTrip(12, "px");
  }

  /** An `x` after a nonzero numeral is only trailing text: `12x` reads as 12. */
  lemma TrailingXExample()
    ensures ParseInt("12x") == Int(12)
  {
    assert ToDecimal(12) == "12";
    assert "12x" == ToDecimal(12) + "x";
    DecimalRoundTrip(12, "x");
  }

  /** Without a radix argument a `0x` prefix means hexadecimal: `0x1A` reads as 26. */
  lemma HexPrefixExample()
    ensures ParseInt("0x1A") == Int(26)
  {
    var s := "0x1A";
    assert !IsStrWhiteSpace(s[0]);
    assert TrimStart(s) == s;
    assert ParseSigned(s) == ParseUnsigned(s);
    assert s[2..] == "1A";
    assert DigitPrefix("1A", 16) == "1A" by {
      assert IsDigit('1', 16) && IsDigit('A', 16);
      assert DigitPrefix("A", 16) == "A";
    }
    assert DigitsValue("1A", 16) == 26 by {
      assert "1A"[..1] == "1";
      assert DigitsValue("1", 16) == 1 by { assert "1"[..0] == ""; }
    }
  }

  /** `parseInt` of the numeral of `n` is `n`. */
  lemma ParseNumeral(n: nat, s: string)
    requires s == ToDecimal(n)
    ensures ParseInt(s) == Int(n)
  {
    assert s + "" == s;
    DecimalRoundTrip(n, "");
  }

  /** A minus sign in front of a numeral: `-5` reads as -5. */
  lemma NegativeNumeralExample()
    ensures ParseInt("-5") == Int(-5)
  {
    assert ToDecimal(5) == "5";
    assert "-5" == "-" + (ToDecimal(5) + "");
    NegativeDecimalRoundTrip(5, "");
  }

  /** A two-digit numeral: `90` reads as 90. */
  lemma TwoDigitExample()
    ensures ParseInt("90") == Int(90)
  {
    assert ToDecimal(90) == "90";
    ParseNumeral(90, "90");
  }

  /** The numerals of a few small numbers. */
  lemma SmallNumerals()
    ensures ToDecimal(1) == "1" && ToDecimal(2) == "2" && ToDecimal(3) == "3"
    ensures ToDecimal(5) == "5"
  {
  }
}
