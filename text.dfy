/**
 * Decimal text of integers, as JavaScript's template literals write them
 * (`${n}` for an integral number n with fewer than 22 digits; from 10^21
 * on JavaScript switches to exponent notation, which is not modelled), and a
 * reader that takes it back.
 * Both components put numbers into text: the viewer into the canvas filter
 * string, the crop component into the overlay's CSS pixel lengths.
 */
module NumberText {
  import opened Wrappers

  predicate IsDigit(c: char) {
    '0' <= c <= '9'
  }

  predicate AllDigits(s: string) {
    forall i :: 0 <= i < |s| ==> IsDigit(s[i])
  }

  function DigitChar(d: int): (c: char)
    requires 0 <= d < 10
    ensures IsDigit(c)
  {
    ('0' as int + d) as char
  }

  function DigitValue(c: char): (d: int)
    requires IsDigit(c)
    ensures 0 <= d < 10 && DigitChar(d) == c
  {
    c as int - '0' as int
  }

  /** The decimal digits of n, most significant first, without leading zeros. */
  function Digits(n: nat): (s: string)
    ensures |s| >= 1 && AllDigits(s)
    ensures s[0] == '0' ==> n == 0
    decreases n
  {
    if n < 10 then [DigitChar(n)] else Digits(n / 10) + [DigitChar(n % 10)]
  }

  /** `${i}` for an integer i: a minus sign for negative values, then the digits of the magnitude. */
  function IntText(i: int): string {
    if i < 0 then "-" + Digits(-i) else Digits(i)
  }

  /** The longest prefix of s made of digits. */
  function DigitRun(s: string): (r: string)
    ensures |r| <= |s| && r == s[..|r|] && AllDigits(r)
    ensures |r| < |s| ==> !IsDigit(s[|r|])
  {
    if |s| > 0 && IsDigit(s[0]) then [s[0]] + DigitRun(s[1..]) else []
  }

  /** The number a run of decimal digits denotes. */
  function ValueOf(ds: string): nat
    requires AllDigits(ds)
  {
    if |ds| == 0 then 0 else ValueOf(ds[..|ds| - 1]) * 10 + DigitValue(ds[|ds| - 1])
  }

  /** Reads a non-empty run of digits from the front of s: its value and the text after it. */
  function ReadNat(s: string): Option<(nat, string)> {
    var run := DigitRun(s);
    if |run| == 0 then None else Some((ValueOf(run), s[|run|..]))
  }

  /**
   * Reads an optional minus sign and a non-empty run of digits from the front
   * of s; gives the integer and the text after it, or None when s does not
   * start with a number.
   */
  function ReadInt(s: string): Option<(int, string)> {
    if |s| > 0 && s[0] == '-' then
      match ReadNat(s[1..])
      case None => None
      case Some((n, rest)) => Some((-(n as int), rest))
    else
      match ReadNat(s)
      case None => None
      case Some((n, rest)) => Some((n as int, rest))
  }

  /** s with the literal prefix lit removed, or None when s does not start with lit. */
  function Expect(lit: string, s: string): (r: Option<string>)
    ensures r.Some? <==> |lit| <= |s| && s[..|lit|] == lit
    ensures r.Some? ==> s == lit + r.value
  {
    if |lit| <= |s| && s[..|lit|] == lit then Some(s[|lit|..]) else None
  }

  /** Text that cannot continue a number: it is empty or starts with something other than a digit. */
  predicate EndsNumber(rest: string) {
    |rest| == 0 || !IsDigit(rest[0])
  }

  lemma {:induction false} ValueOfDigits(n: nat)
    ensures ValueOf(Digits(n)) == n
    decreases n
  {
    if n >= 10 {
      var ds := Digits(n);
      assert ds[..|ds| - 1] == Digits(n / 10);
      ValueOfDigits(n / 10);
    }
  }

  lemma {:induction false} DigitRunOfDigits(u: string, rest: string)
    requires AllDigits(u) && EndsNumber(rest)
    ensures DigitRun(u + rest) == u
    decreases |u|
  {
    if |u| > 0 {
      assert (u + rest)[1..] == u[1..] + rest;
      DigitRunOfDigits(u[1..], rest);
    } else {
      assert u + rest == rest;
    }
  }

  /** A run of digits followed by text that ends the number is read as its value. */
  lemma ReadNatDigits(ds: string, rest: string)
    requires |ds| >= 1 && AllDigits(ds) && EndsNumber(rest)
    ensures ReadNat(ds + rest) == Some((ValueOf(ds), rest))
  {
    DigitRunOfDigits(ds, rest);
    assert (ds + rest)[|ds|..] == rest;
  }

  /** The text of a negative integer is a minus sign and the digits of its magnitude. */
  lemma ReadNegativeText(i: int, rest: string)
    requires i < 0 && EndsNumber(rest)
    ensures ReadInt(IntText(i) + rest) == Some((i, rest))
  {
    var tail := Digits(-i) + rest;
    assert IntText(i) + rest == ['-'] + tail;
    assert (['-'] + tail)[1..] == tail;
    assert ReadNat(tail) == Some((-i, rest)) by {
      ReadNatDigits(Digits(-i), rest);
      ValueOfDigits(-i);
    }
  }

  /** The text of a non-negative integer is its digits. */
  lemma ReadNonNegativeText(i: int, rest: string)
    requires i >= 0 && EndsNumber(rest)
    ensures ReadInt(IntText(i) + rest) == Some((i, rest))
  {
    assert IsDigit(Digits(i)[0]);
    assert ReadNat(Digits(i) + rest) == Some((i, rest)) by {
      ReadNatDigits(Digits(i), rest);
      ValueOfDigits(i);
    }
  }

  /** The number text is read back as the same integer, and the reader stops exactly where the number ends. */
  lemma ReadIntText(i: int, rest: string)
    requires EndsNumber(rest)
    ensures ReadInt(IntText(i) + rest) == Some((i, rest))
  {
    if i < 0 {
      ReadNegativeText(i, rest);
    } else {
      ReadNonNegativeText(i, rest);
    }
  }

  /** Different integers have different texts. */
  lemma IntTextInjective(i: int, j: int)
    requires IntText(i) == IntText(j)
    ensures i == j
  {
    ReadIntText(i, "");
    ReadIntText(j, "");
    assert IntText(i) + "" == IntText(j) + "";
  }

  lemma ExpectLiteral(lit: string, s: string)
    ensures Expect(lit, lit + s) == Some(s)
  {
    assert (lit + s)[..|lit|] == lit;
    assert (lit + s)[|lit|..] == s;
  }
}
