/** Decimal renderings of numbers, as Python's str() and format() produce them. */
module Numerals {

  predicate IsDigit(c: char) { '0' <= c <= '9' }

  predicate AllDigits(s: string) { forall i :: 0 <= i < |s| ==> IsDigit(s[i]) }

  function DigitChar(d: nat): (c: char)
    requires d < 10
    ensures IsDigit(c) && DigitValue(c) == d
  {
    ('0' as int + d) as char
  }

  function DigitValue(c: char): nat
    requires IsDigit(c)
  {
    c as int - '0' as int
  }

  /** The number a string of decimal digits denotes, most significant digit first. */
  function DigitsValue(s: string): nat
    requires AllDigits(s)
  {
    if s == [] then 0 else 10 * DigitsValue(s[..|s| - 1]) + DigitValue(s[|s| - 1])
  }

  /** str(n) for a non-negative int: its decimal digits, without leading zeros. */
  function NatToString(n: nat): (s: string)
    ensures |s| >= 1 && AllDigits(s)
    ensures (|s| == 1) == (n < 10)
    ensures (s[0] == '0') == (n == 0)
  {
    if n < 10 then [DigitChar(n)] else NatToString(n / 10) + [DigitChar(n % 10)]
  }

  /** Reading the digits of str(n) back gives n. */
  lemma {:induction false} NatToStringValue(n: nat)
    ensures DigitsValue(NatToString(n)) == n
  {
    if n >= 10 {
      var s := NatToString(n);
      assert s[..|s| - 1] == NatToString(n / 10);
      NatToStringValue(n / 10);
    }
  }

  /** str(i) for any int. */
  function IntToString(i: int): (s: string)
  {
    if i < 0 then "-" + NatToString(-i) else NatToString(i)
  }

  /** f"{i:02d}": str(i) with zeros inserted after the sign up to a width of two. */
  function ZeroPad2(i: int): (s: string)
  {
    if 0 <= i < 10 then "0" + NatToString(i) else IntToString(i)
  }

  /** Every value of a clock field (0 to 99) pads to exactly two digits that read back as the value. */
  lemma ZeroPad2TwoDigits(n: int)
    requires 0 <= n < 100
    ensures |ZeroPad2(n)| == 2 && AllDigits(ZeroPad2(n)) && DigitsValue(ZeroPad2(n)) == n
  {
    var s := ZeroPad2(n);
    if n < 10 {
      assert s == ['0', DigitChar(n)];
      assert s[..1] == ['0'];
      assert ['0'][..0] == [];
      assert DigitsValue(s[..1]) == 0;
    } else {
      assert s == NatToString(n / 10) + [DigitChar(n % 10)];
      assert NatToString(n / 10) == [DigitChar(n / 10)];
      assert s[..1] == [DigitChar(n / 10)];
      assert [DigitChar(n / 10)][..0] == [];
      assert DigitsValue(s[..1]) == n / 10;
    }
  }

  /** For two or more digits, and for a negative value, the padding adds nothing: f"{i:02d}" is str(i). */
  lemma ZeroPad2Wide(i: int)
    requires i >= 10 || i < 0
    ensures ZeroPad2(i) == IntToString(i)
  {
  }

  function Abs(i: int): nat { if i < 0 then -i else i }

  function Sign(i: int): string { if i < 0 then "-" else "" }

  /** format(x, '.2f') for the number x == cents / 100. */
  function Fixed2(cents: int): (s: string)
  {
    var a := Abs(cents);
    Sign(cents) + NatToString(a / 100) + "." + [DigitChar(a % 100 / 10), DigitChar(a % 10)]
  }

  /** Two digits read back as the two-digit number they write. */
  lemma TwoDigitsValue(x: nat, y: nat)
    requires x < 10 && y < 10
    ensures AllDigits([DigitChar(x), DigitChar(y)])
    ensures DigitsValue([DigitChar(x), DigitChar(y)]) == 10 * x + y
  {
    var f := [DigitChar(x), DigitChar(y)];
    assert f[..1] == [DigitChar(x)];
    assert f[..1][..0] == [];
    assert DigitsValue(f[..1]) == x;
  }

  /** The text before and after the point of w + "." + f, when f has two characters. */
  lemma SplitAtPoint(w: string, f: string)
    requires |f| == 2
    ensures var s := w + "." + f;
      && |s| == |w| + 3 && s[|s| - 3] == '.' && s[..|s| - 3] == w && s[|s| - 2..] == f
  {
    var s := w + "." + f;
    assert s[..|s| - 3] == w;
    assert s[|s| - 2..] == f;
  }

  /** A negative amount is written as the positive one with a minus sign in front. */
  lemma Fixed2Negative(cents: int)
    requires cents < 0
    ensures Fixed2(cents) == "-" + Fixed2(-cents)
  {
    assert Abs(cents) == Abs(-cents) && Sign(-cents) == "";
  }

  /** Whole units, tenths and hundredths make up the amount. */
  lemma CentsDigits(a: nat)
    ensures 100 * (a / 100) + 10 * (a % 100 / 10) + a % 10 == a
  {
  }

  /** Fixed2 writes whole units, a point and exactly two decimals, and they read back as the amount. */
  lemma Fixed2Value(cents: int)
    ensures var s := Fixed2(Abs(cents));
      && |s| >= 4 && s[|s| - 3] == '.'
      && AllDigits(s[..|s| - 3]) && AllDigits(s[|s| - 2..])
      && 100 * DigitsValue(s[..|s| - 3]) + DigitsValue(s[|s| - 2..]) == Abs(cents)
  {
    var a := Abs(cents);
    var w := NatToString(a / 100);
    var f := [DigitChar(a % 100 / 10), DigitChar(a % 10)];
    assert Fixed2(a) == w + "." + f;
    SplitAtPoint(w, f);
    TwoDigitsValue(a % 100 / 10, a % 10);
    NatToStringValue(a / 100);
    CentsDigits(a);
  }

  /**
   * repr(x) of a float x == cents / 100 that Python prints positionally (|x| < 1e16):
   * the shortest decimal that reads back as x, so trailing zeros of the fraction go,
   * down to one digit.
   */
  function FloatRepr(cents: int): (s: string)
  {
    var a := Abs(cents);
    var fraction :=
      if a % 100 == 0 then "0"
      else if a % 10 == 0 then [DigitChar(a % 100 / 10)]
      else [DigitChar(a % 100 / 10), DigitChar(a % 10)];
    Sign(cents) + NatToString(a / 100) + "." + fraction
  }

  /** repr of such a float is its two-decimal rendering with one trailing zero dropped, when there is one. */
  lemma FloatReprTrimsFixed2(cents: int)
    ensures Fixed2(cents) == FloatRepr(cents) + (if Abs(cents) % 10 == 0 then "0" else "")
    ensures var r := FloatRepr(cents); r[|r| - 1] == '0' ==> Abs(cents) % 100 == 0
  {
    var a := Abs(cents);
    assert DigitChar(0) == '0';
    if a % 10 != 0 {
      assert a % 100 != 0;
    }
  }
}
