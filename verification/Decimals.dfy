// Base-10 text: printing integers, and reading digit strings back.
module Decimals {
  predicate IsDigit(c: char) {
    '0' <= c <= '9'
  }

  predicate AllDigits(t: string) {
    forall k :: 0 <= k < |t| ==> IsDigit(t[k])
  }

  function Digit(n: nat): (c: char)
    requires n < 10
    ensures IsDigit(c) && DigitValue(c) == n
  {
    ('0' as int + n) as char
  }

  function DigitValue(c: char): nat
    requires IsDigit(c)
  {
    c as int - '0' as int
  }

  function Digits(n: nat): (t: string)
    ensures |t| >= 1 && AllDigits(t)
  {
    if n < 10 then [Digit(n)] else Digits(n / 10) + [Digit(n % 10)]
  }

  function Decimal(n: int): (t: string)
    ensures |t| >= 1 && (t[0] == '-' || IsDigit(t[0]))
  {
    if n < 0 then "-" + Digits(-n) else Digits(n)
  }

  // The value of a digit string, leading zeros allowed; the empty string is zero.
  function Value(t: string): nat
    requires AllDigits(t)
  {
    if t == "" then 0 else 10 * Value(t[..|t| - 1]) + DigitValue(t[|t| - 1])
  }

  lemma ValueAppend(t: string, c: char)
    requires AllDigits(t) && IsDigit(c)
    ensures AllDigits(t + [c]) && Value(t + [c]) == 10 * Value(t) + DigitValue(c)
  {
    assert (t + [c])[..|t|] == t;
  }

  lemma {:induction false} DigitsValue(n: nat)
    ensures Value(Digits(n)) == n
  {
    if n < 10 {
      ValueAppend("", Digit(n));
      assert "" + [Digit(n)] == [Digit(n)];
    } else {
      DigitsValue(n / 10);
      ValueAppend(Digits(n / 10), Digit(n % 10));
    }
  }

  // How many digits a text begins with.
  function DigitSpan(t: string): (n: nat)
    ensures n <= |t| && AllDigits(t[..n]) && (n < |t| ==> !IsDigit(t[n]))
  {
    if t != "" && IsDigit(t[0]) then
      var n := DigitSpan(t[1..]);
      assert forall k :: 1 <= k <= n ==> t[k] == t[1..][..n][k - 1];
      n + 1
    else 0
  }

  function ReadDecimal(t: string): (int, string) {
    if t != "" && t[0] == '-' then
      var n := DigitSpan(t[1..]);
      (0 - Value(t[1..][..n]), t[1..][n..])
    else
      var n := DigitSpan(t);
      (Value(t[..n]), t[n..])
  }

  lemma {:induction false} SpanOf(d: string, rest: string)
    requires AllDigits(d) && (rest == "" || !IsDigit(rest[0]))
    ensures DigitSpan(d + rest) == |d|
  {
    if d == "" {
      assert d + rest == rest;
    } else {
      SpanOf(d[1..], rest);
      assert (d + rest)[1..] == d[1..] + rest;
    }
  }

  lemma DigitsRead(n: nat, rest: string)
    requires rest == "" || !IsDigit(rest[0])
    ensures var t, k := Digits(n) + rest, |Digits(n)|; DigitSpan(t) == k && Value(t[..k]) == n && t[k..] == rest
  {
    var d := Digits(n);
    SpanOf(d, rest);
    DigitsValue(n);
    assert (d + rest)[..|d|] == d && (d + rest)[|d|..] == rest;
  }

  lemma NegativeRead(n: nat, t: string, rest: string)
    requires t == Digits(n) + rest && (rest == "" || !IsDigit(rest[0]))
    ensures ReadDecimal("-" + t) == (0 - n, rest)
  {
    DigitsRead(n, rest);
    assert ("-" + t)[1..] == t;
  }

  lemma MinusSplit(d: string, rest: string)
    ensures "-" + d + rest == "-" + (d + rest)
  {
  }

  lemma DecimalRead(n: int, rest: string)
    requires rest == "" || !IsDigit(rest[0])
    ensures ReadDecimal(Decimal(n) + rest) == (n, rest)
  {
    if n < 0 {
      var t := Digits(-n) + rest;
      NegativeRead(-n, t, rest);
      MinusSplit(Digits(-n), rest);
    } else {
      DigitsRead(n, rest);
      assert (Digits(n) + rest)[0] == Digits(n)[0];
    }
  }

  lemma DecimalInjective(a: int, b: int)
    requires Decimal(a) == Decimal(b)
    ensures a == b
  {
    DecimalRead(a, "");
    DecimalRead(b, "");
  }
}
