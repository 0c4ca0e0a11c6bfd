/**
 * The pieces of Python's string handling that the bot's messages and the
 * sensor's mode names rely on: `sep.join(parts)`, `'{}'.format(n)` for a
 * non-negative `int`, and `str.endswith`. A reader for decimal numerals
 * (`ParseDecimal`, `DigitPrefix`) is the partner that shows the formatting
 * loses nothing.
 */
module Text {

  predicate IsDigit(c: char) {
    '0' <= c <= '9'
  }

  predicate AllDigits(s: string) {
    forall i :: 0 <= i < |s| ==> IsDigit(s[i])
  }

  function DigitChar(d: nat): (c: char)
    requires d < 10
    ensures IsDigit(c) && DigitValue(c) == d
  {
    (('0' as int) + d) as char
  }

  function DigitValue(c: char): (d: nat)
    requires IsDigit(c)
    ensures d < 10
  {
    (c as int) - ('0' as int)
  }

  /** `'{}'.format(n)` for an `int` n >= 0: its decimal numeral, without leading zeros. */
  function Decimal(n: nat): (s: string)
    ensures |s| >= 1 && AllDigits(s)
    ensures (s[0] == '0') == (n == 0)
  {
    if n < 10 then [DigitChar(n)] else Decimal(n / 10) + [DigitChar(n % 10)]
  }

  /** The value of a decimal numeral. */
  function ParseDecimal(s: string): nat
    requires AllDigits(s)
  {
    if s == [] then 0 else 10 * ParseDecimal(s[..|s| - 1]) + DigitValue(s[|s| - 1])
  }

  /** Reading back a formatted number gives the number. */
  lemma {:induction false} ParseDecimalInverts(n: nat)
    ensures ParseDecimal(Decimal(n)) == n
  {
    if n >= 10 {
      var s := Decimal(n);
      assert s[..|s| - 1] == Decimal(n / 10);
      ParseDecimalInverts(n / 10);
    }
  }

  /**
   * `Decimal(n)` is the only numeral for n without a leading zero: any such
   * numeral is the formatting of its own value.
   */
  lemma {:induction false} DecimalOfParse(d: string)
    requires |d| >= 1 && AllDigits(d) && (d[0] == '0' ==> |d| == 1)
    ensures Decimal(ParseDecimal(d)) == d
  {
    var last := d[|d| - 1];
    if |d| == 1 {
      assert d[..0] == [];
      assert ParseDecimal(d) == DigitValue(last);
      assert DigitChar(DigitValue(last)) == last;
    } else {
      var front := d[..|d| - 1];
      assert front[0] == d[0];
      DecimalOfParse(front);
      ParseDecimalPositive(front);
      var n := ParseDecimal(d);
      assert n == 10 * ParseDecimal(front) + DigitValue(last);
      assert n / 10 == ParseDecimal(front) && n % 10 == DigitValue(last);
      assert DigitChar(DigitValue(last)) == last;
      assert d == front + [last];
    }
  }

  /** A numeral that does not start with '0' has a positive value. */
  lemma {:induction false} ParseDecimalPositive(s: string)
    requires |s| > 0 && AllDigits(s) && s[0] != '0'
    ensures ParseDecimal(s) > 0
  {
    if |s| > 1 {
      ParseDecimalPositive(s[..|s| - 1]);
    }
  }

  /** The longest prefix of `s` made of digits. */
  function DigitPrefix(s: string): (p: string)
    ensures p <= s && AllDigits(p)
    ensures |p| < |s| ==> !IsDigit(s[|p|])
  {
    if s == [] || !IsDigit(s[0]) then [] else [s[0]] + DigitPrefix(s[1..])
  }

  /** A numeral followed by anything that does not start with a digit is read off whole. */
  lemma {:induction false} DigitPrefixOfNumeral(d: string, rest: string)
    requires AllDigits(d)
    requires rest == [] || !IsDigit(rest[0])
    ensures DigitPrefix(d + rest) == d
  {
    if d != [] {
      assert (d + rest)[1..] == d[1..] + rest;
      DigitPrefixOfNumeral(d[1..], rest);
    }
  }

  /**
   * Reads a non-empty numeral at the start of `s` that is followed by
   * `literal`; gives its value and what follows `literal`.
   */
  function ReadNumberThen(s: string, literal: string): (r: (nat, string))
    requires |DigitPrefix(s)| > 0 && literal <= s[|DigitPrefix(s)|..]
  {
    var d := DigitPrefix(s);
    (ParseDecimal(d), s[|d| + |literal|..])
  }

  predicate NumberThen(s: string, literal: string) {
    |DigitPrefix(s)| > 0 && literal <= s[|DigitPrefix(s)|..]
  }

  /** `ReadNumberThen` undoes `Decimal(n) + literal + rest` whenever `literal` does not start with a digit. */
  lemma ReadNumberThenDecimal(n: nat, literal: string, rest: string)
    requires literal != [] && !IsDigit(literal[0])
    ensures NumberThen(Decimal(n) + literal + rest, literal)
    ensures ReadNumberThen(Decimal(n) + literal + rest, literal) == (n, rest)
  {
    ReadNumberThenNumeral(Decimal(n), literal, rest);
    ParseDecimalInverts(n);
  }

  /** `ReadNumberThen` reads any non-empty numeral off `numeral + literal + rest`. */
  lemma ReadNumberThenNumeral(numeral: string, literal: string, rest: string)
    requires |numeral| >= 1 && AllDigits(numeral)
    requires literal != [] && !IsDigit(literal[0])
    ensures NumberThen(numeral + literal + rest, literal)
    ensures ReadNumberThen(numeral + literal + rest, literal) == (ParseDecimal(numeral), rest)
  {
    var s := numeral + literal + rest;
    assert s == numeral + (literal + rest);
    DigitPrefixOfNumeral(numeral, literal + rest);
    assert s[|numeral|..] == literal + rest;
    assert s[|numeral| + |literal|..] == rest;
  }

  /** Python's `sep.join(parts)`. */
  function JoinWith(sep: string, parts: seq<string>): string {
    if |parts| == 0 then ""
    else if |parts| == 1 then parts[0]
    else parts[0] + sep + JoinWith(sep, parts[1..])
  }

  lemma JoinWithTwo(sep: string, a: string, b: string)
    ensures JoinWith(sep, [a, b]) == a + sep + b
  {
    assert [a, b][1..] == [b];
  }

  lemma JoinWithThree(sep: string, a: string, b: string, c: string)
    ensures JoinWith(sep, [a, b, c]) == a + sep + b + sep + c
  {
    assert [a, b, c][1..] == [b, c];
    JoinWithTwo(sep, b, c);
  }

  /** Python's `s.endswith(suffix)`. */
  predicate EndsWith(s: string, suffix: string) {
    |suffix| <= |s| && s[|s| - |suffix|..] == suffix
  }
}
