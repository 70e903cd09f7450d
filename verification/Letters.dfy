// Hexadecimal digits and lower case, as the programs' own texts use them.
module Letters {
  import opened Wrappers

  function HexValue(c: char): Option<nat> {
    if '0' <= c <= '9' then Some(c as int - '0' as int)
    else if 'a' <= c <= 'f' then Some(c as int - 'a' as int + 10)
    else if 'A' <= c <= 'F' then Some(c as int - 'A' as int + 10)
    else None
  }

  function HexDigit(n: nat): (c: char)
    requires n < 16
    ensures HexValue(c) == Some(n)
  {
    if n < 10 then ('0' as int + n) as char else ('a' as int + n - 10) as char
  }

  function LowerChar(c: char): char {
    if 'A' <= c <= 'Z' then (c as int + 32) as char else c
  }

  // A digit read is the digit written, in lower case, and lower case reads the same.
  lemma HexDigitRead(c: char)
    requires HexValue(c).Some?
    ensures HexValue(c).value < 16 && HexDigit(HexValue(c).value) == LowerChar(c)
  {
  }

  lemma LowerHex(c: char)
    ensures HexValue(LowerChar(c)) == HexValue(c)
  {
  }

  function Lower(s: string): string {
    seq(|s|, k requires 0 <= k < |s| => LowerChar(s[k]))
  }
}
