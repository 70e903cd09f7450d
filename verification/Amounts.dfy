// The exact USDC parsers and printer: parseUSDC (daemon/internal/agents/manifest.go),
// principalMicros (daemon/internal/advancing/advancing.go), and usdcMicros with formatMicros
// (daemon/cmd/chainops/main.go).
module Amounts {
  import opened Wrappers
  import opened Decimals

  newtype int64 = x: int | -0x8000_0000_0000_0000 <= x < 0x8000_0000_0000_0000

  const MICROS: int := 1_000_000
  // (1 << 62) / 1_000_000
  const MAX_WHOLE: int := 4_611_686_018_427

  // ----- Text -----

  predicate IsSpace(c: char) {
    || '\t' <= c <= '\r' || c == ' ' || c == '\U{85}' || c == '\U{a0}' || c == '\U{1680}'
    || '\U{2000}' <= c <= '\U{200a}' || c == '\U{2028}' || c == '\U{2029}' || c == '\U{202f}'
    || c == '\U{205f}' || c == '\U{3000}'
  }

  function TrimFront(s: string): string {
    if s != "" && IsSpace(s[0]) then TrimFront(s[1..]) else s
  }

  function TrimBack(s: string): string {
    if s != "" && IsSpace(s[|s| - 1]) then TrimBack(s[..|s| - 1]) else s
  }

  function Trim(s: string): string {
    TrimBack(TrimFront(s))
  }

  // The white space of the Unicode standard, character by character.
  const SPACES: set<char> := {
    '\t', '\n', '\U{b}', '\U{c}', '\r', ' ', '\U{85}', '\U{a0}', '\U{1680}', '\U{2000}', '\U{2001}', '\U{2002}',
    '\U{2003}', '\U{2004}', '\U{2005}', '\U{2006}', '\U{2007}', '\U{2008}', '\U{2009}', '\U{200a}', '\U{2028}',
    '\U{2029}', '\U{202f}', '\U{205f}', '\U{3000}'}

  lemma SpacesAreListed(c: char)
    ensures IsSpace(c) <==> c in SPACES
  {
  }

  predicate AllSpace(s: string) {
    forall k :: 0 <= k < |s| ==> s[k] in SPACES
  }

  lemma {:induction false} FrontTrimmed(s: string) returns (front: string)
    ensures s == front + TrimFront(s) && AllSpace(front)
    ensures TrimFront(s) != "" ==> TrimFront(s)[0] !in SPACES
  {
    front := "";
    if s != "" {
      SpacesAreListed(s[0]);
      if IsSpace(s[0]) {
        front := FrontTrimmed(s[1..]);
        front := [s[0]] + front;
        assert s == [s[0]] + s[1..];
      }
    }
  }

  lemma {:induction false} BackTrimmed(s: string) returns (back: string)
    ensures s == TrimBack(s) + back && AllSpace(back)
    ensures TrimBack(s) != "" ==> TrimBack(s)[|TrimBack(s)| - 1] !in SPACES && TrimBack(s)[0] == s[0]
  {
    back := "";
    if s != "" {
      SpacesAreListed(s[|s| - 1]);
      if IsSpace(s[|s| - 1]) {
        back := BackTrimmed(s[..|s| - 1]);
        back := back + [s[|s| - 1]];
        assert s == s[..|s| - 1] + [s[|s| - 1]];
      }
    }
  }

  // Trimming takes all the white space at either end and nothing else.
  lemma TrimsExactly(s: string) returns (front: string, back: string)
    ensures s == front + Trim(s) + back && AllSpace(front) && AllSpace(back)
    ensures Trim(s) != "" ==> Trim(s)[0] !in SPACES && Trim(s)[|Trim(s)| - 1] !in SPACES
  {
    front := FrontTrimmed(s);
    back := BackTrimmed(TrimFront(s));
  }

  // Where the first dot stands, or the length.
  function Dot(s: string): (k: nat)
    ensures k <= |s| && (k < |s| ==> s[k] == '.') && forall j :: 0 <= j < k ==> s[j] != '.'
  {
    if s == "" || s[0] == '.' then 0 else 1 + Dot(s[1..])
  }

  function Whole(s: string): string {
    s[..Dot(s)]
  }

  function Fraction(s: string): string {
    if Dot(s) < |s| then s[Dot(s) + 1..] else ""
  }

  predicate HasDot(s: string) {
    Dot(s) < |s|
  }

  function Zeros(n: nat): (t: string)
    ensures |t| == n && AllDigits(t)
  {
    if n == 0 then "" else Zeros(n - 1) + "0"
  }

  // A fraction filled out to six digits.
  function Six(frac: string): string
    requires |frac| <= 6
  {
    frac + Zeros(6 - |frac|)
  }

  lemma SixDigits(frac: string)
    requires |frac| <= 6
    ensures |Six(frac)| == 6 && (AllDigits(Six(frac)) <==> AllDigits(frac))
  {
    assert forall k :: 0 <= k < |frac| ==> Six(frac)[k] == frac[k];
  }

  // ----- parseUSDC -----

  datatype Why = Empty | Negative | TooPrecise | NotDecimal | TooLarge

  function WholeOrZero(whole: string): string {
    if whole == "" then "0" else whole
  }

  // What it accepts and what it answers: digits, an optional fraction of at most six, and a whole
  // part within the bound.
  function ParseUSDC(text: string): Result<int, Why> {
    var s := Trim(text);
    if s == "" then Err(Empty)
    else if s[0] == '-' then Err(Negative)
    else ParseParts(WholeOrZero(Whole(s)), Fraction(s))
  }

  function ParseParts(whole: string, frac: string): Result<int, Why> {
    if |frac| > 6 then Err(TooPrecise)
    else if !AllDigits(whole) || !AllDigits(Six(frac)) then Err(NotDecimal)
    else if Value(whole) > MAX_WHOLE then Err(TooLarge)
    else Ok(Value(whole) * MICROS + Value(Six(frac)))
  }

  // Each refusal by its cause, and what is accepted: digits on both sides of one dot, at most six
  // after it, a whole part within the bound.
  lemma ParsesOrRefuses(text: string)
    ensures var s, r := Trim(text), ParseUSDC(text);
            var signed := s != "" && s[0] == '-';
            && (r == Err(Empty) <==> s == "")
            && (r == Err(Negative) <==> signed)
            && (r == Err(TooPrecise) <==> s != "" && !signed && |Fraction(s)| > 6)
            && (r == Err(NotDecimal) <==>
                  s != "" && !signed && |Fraction(s)| <= 6 && (!AllDigits(Whole(s)) || !AllDigits(Fraction(s))))
            && (r.Ok? <==>
                  && s != "" && AllDigits(Whole(s)) && AllDigits(Fraction(s)) && |Fraction(s)| <= 6
                  && Value(Whole(s)) <= MAX_WHOLE)
            && (r.Ok? ==> r.value == Value(Whole(s)) * 1_000_000 + Value(Six(Fraction(s))))
  {
    var s := Trim(text);
    if |Fraction(s)| <= 6 { SixDigits(Fraction(s)); }
    assert AllDigits(WholeOrZero(Whole(s))) <==> AllDigits(Whole(s));
    assert Value("") == 0;
    if s != "" && s[0] == '-' { assert Whole(s) != "" && Whole(s)[0] == '-'; }
  }

  lemma {:induction false} ValueGrows(t: string, k: nat)
    requires AllDigits(t) && k <= |t|
    ensures Value(t[..k]) <= Value(t)
    decreases |t| - k
  {
    if k < |t| {
      assert t[..k + 1][..k] == t[..k];
      ValueGrows(t, k + 1);
    } else {
      assert t[..k] == t;
    }
  }

  function Power10(k: nat): nat {
    if k == 0 then 1 else 10 * Power10(k - 1)
  }

  lemma {:induction false} ValueBound(t: string)
    requires AllDigits(t)
    ensures Value(t) < Power10(|t|)
  {
    if t != "" {
      ValueBound(t[..|t| - 1]);
    }
  }

  lemma SixBound(t: string)
    requires AllDigits(t) && |t| <= 6
    ensures Value(t) < MICROS
  {
    ValueBound(t);
    PowerGrows(|t|, 6);
    assert Power10(6) == MICROS;
  }

  lemma {:induction false} PowerGrows(j: nat, k: nat)
    requires j <= k
    ensures Power10(j) <= Power10(k)
  {
    if j < k {
      PowerGrows(j, k - 1);
    }
  }

  lemma TakeDigit(t: string, k: nat)
    requires AllDigits(t) && k < |t|
    ensures Value(t[..k + 1]) == 10 * Value(t[..k]) + DigitValue(t[k])
  {
    assert t[..k + 1][..k] == t[..k];
  }

  // The digit loops on int64, whose every intermediate fits.
  method ParseUSDCInt64(text: string) returns (r: Result<int64, Why>)
    ensures match ParseUSDC(text)
            case Ok(n) => r.Ok? && r.value as int == n
            case Err(e) => r == Err(e)
  {
    var s := Trim(text);
    if s == "" {
      return Err(Empty);
    }
    if s[0] == '-' {
      return Err(Negative);
    }
    var whole, frac := WholeOrZero(Whole(s)), Fraction(s);
    if |frac| > 6 {
      return Err(TooPrecise);
    }
    frac := Six(frac);
    SixDigits(Fraction(s));
    if !AllDigits(whole) || !AllDigits(frac) {
      return Err(NotDecimal);
    }
    var micros: int64 := 0;
    for k := 0 to |whole|
      invariant micros as int == Value(whole[..k]) <= MAX_WHOLE
    {
      TakeDigit(whole, k);
      micros := micros * 10 + (DigitValue(whole[k]) as int64);
      if micros > 4_611_686_018_427 {
        ValueGrows(whole, k + 1);
        return Err(TooLarge);
      }
    }
    assert whole[..|whole|] == whole;
    micros := micros * 1_000_000;
    var fracVal: int64 := 0;
    for k := 0 to |frac|
      invariant fracVal as int == Value(frac[..k]) < MICROS
    {
      TakeDigit(frac, k);
      SixBound(frac[..k + 1]);
      fracVal := fracVal * 10 + (DigitValue(frac[k]) as int64);
    }
    assert frac[..|frac|] == frac;
    return Ok(micros + fracVal);
  }

  // ----- principalMicros and usdcMicros -----

  // Base-ten text with an optional sign, as a big integer reads it.
  function SetString(t: string): Option<int> {
    var digits := if t != "" && (t[0] == '-' || t[0] == '+') then t[1..] else t;
    if digits == "" || !AllDigits(digits) then None
    else Some(if t[0] == '-' then 0 - Value(digits) else Value(digits))
  }

  function UsdcMicros(text: string): Option<int> {
    var s := Trim(text);
    UsdcParts(Whole(s), if HasDot(s) then Some(Fraction(s)) else None)
  }

  function UsdcParts(whole: string, frac: Option<string>): Option<int> {
    match SetString(whole)
    case None => None
    case Some(n) =>
      if n < 0 then None
      else if frac.None? then Some(n * MICROS)
      else if frac.value == "" || |frac.value| > 6 then None
      else
        match SetString(Six(frac.value))
        case None => None
        case Some(f) => Some(n * MICROS + f)
  }

  // Division rounds to the nearest lower, as for a positive divisor.
  function PrincipalMicros(text: string, rateBps: int): Option<int> {
    if rateBps <= 0 || rateBps > 10_000 then None
    else
      match UsdcMicros(text)
      case None => None
      case Some(micros) =>
        var principal := micros * rateBps / 10_000;
        if 0 < principal < 0x8000_0000_0000_0000 then Some(principal) else None
  }

  // The principal is the quote's share in hundredths of a percent, rounded down to a micro: at a rate
  // from one to the whole, of a readable quote, and a positive int64. So never more than the quote.
  lemma PrincipalExactly(text: string, rateBps: int, p: int)
    ensures PrincipalMicros(text, rateBps) == Some(p) <==>
              && 1 <= rateBps <= 10_000 && UsdcMicros(text).Some?
              && 1 <= p <= 0x7fff_ffff_ffff_ffff
              && p * 10_000 <= UsdcMicros(text).value * rateBps < (p + 1) * 10_000
    ensures PrincipalMicros(text, rateBps) == Some(p) ==> p <= UsdcMicros(text).value
  {
    if 1 <= rateBps <= 10_000 && UsdcMicros(text).Some? {
      var micros := UsdcMicros(text).value;
      FloorOf(micros * rateBps, p);
      if p >= 1 && p * 10_000 <= micros * rateBps { ShareWithin(micros, rateBps, p); }
    }
  }

  lemma FloorOf(n: int, p: int)
    ensures n / 10_000 == p <==> p * 10_000 <= n < (p + 1) * 10_000
  {
  }

  lemma ShareWithin(micros: int, rateBps: int, p: int)
    requires 1 <= rateBps <= 10_000 && p >= 1 && p * 10_000 <= micros * rateBps
    ensures p <= micros
  {
    assert micros <= 0 ==> micros * rateBps <= 0;
    assert micros > 0 ==> micros * rateBps <= micros * 10_000;
  }

  method UsdcMicrosInPlace(text: string) returns (r: Option<int>)
    ensures r == UsdcMicros(text)
  {
    var s := Trim(text);
    var whole := SetString(Whole(s));
    if whole.None? || whole.value < 0 {
      return None;
    }
    var out := whole.value * MICROS;
    if HasDot(s) {
      var frac := Fraction(s);
      if frac == "" || |frac| > 6 {
        return None;
      }
      var f := SetString(Six(frac));
      if f.None? {
        return None;
      }
      out := out + f.value;
    }
    return Some(out);
  }

  lemma SetStringDigits(t: string)
    requires t != "" && AllDigits(t)
    ensures SetString(t) == Some(Value(t))
  {
  }

  lemma PartsAgree(whole: string, frac: Option<string>)
    requires ParseParts(WholeOrZero(whole), match frac case Some(f) => f case None => "").Ok?
    ensures UsdcParts(whole, frac) ==
            if whole == "" || frac == Some("") then None
            else Some(ParseParts(whole, match frac case Some(f) => f case None => "").value)
  {
    match frac {
      case Some(f) =>
        SixDigits(f);
        if f != "" { SetStringDigits(Six(f)); }
      case None =>
        ZerosValue(6);
        assert Six("") == Zeros(6);
    }
  }

  // What usdcMicros makes of a string that parseUSDC accepts.
  lemma UsdcOfParsed(text: string)
    requires ParseUSDC(text).Ok?
    ensures var s := Trim(text);
            UsdcMicros(text) == if Whole(s) == "" || (HasDot(s) && Fraction(s) == "") then None
                                else Some(ParseUSDC(text).value)
  {
    var s := Trim(text);
    PartsAgree(Whole(s), if HasDot(s) then Some(Fraction(s)) else None);
  }

  lemma ParsedBound(text: string)
    requires ParseUSDC(text).Ok?
    ensures 0 <= ParseUSDC(text).value < 0x8000_0000_0000_0000
  {
    SixDigits(Fraction(Trim(text)));
    SixBound(Six(Fraction(Trim(text))));
  }

  // Where parseUSDC accepts a string, the full-rate principal is its value, except where the whole
  // part or the fraction after a dot is missing or the value is zero.
  lemma FullRateAgrees(text: string)
    requires ParseUSDC(text).Ok?
    ensures var s := Trim(text);
            PrincipalMicros(text, 10_000) == Some(ParseUSDC(text).value) <==>
              Whole(s) != "" && (HasDot(s) ==> Fraction(s) != "") && ParseUSDC(text).value > 0
    ensures PrincipalMicros(text, 10_000).Some? ==> PrincipalMicros(text, 10_000).value == ParseUSDC(text).value
  {
    UsdcOfParsed(text);
    ParsedBound(text);
  }

  lemma {:induction false} ZerosValue(n: nat)
    ensures Value(Zeros(n)) == 0
  {
    if n > 0 {
      ZerosValue(n - 1);
      ValueAppend(Zeros(n - 1), '0');
    }
  }

  // A sign in the fraction is accepted and shifts its digits: text that is no decimal at all.
  lemma SignedFractionAccepted()
    ensures UsdcMicros("1.+5") == Some(1_050_000) && ParseUSDC("1.+5") == Err(NotDecimal)
  {
    Cut("1", "+5", "1.+5");
    OnePointPlusFive();
  }

  lemma OnePointPlusFive()
    ensures UsdcParts("1", Some("+5")) == Some(1_050_000) && ParseParts("1", "+5") == Err(NotDecimal)
  {
    ZerosText();
    assert Six("+5") == "+50000";
    assert "+50000"[1..] == "50000";
    assert !IsDigit(Six("+5")[0]);
    FiveDigits();
    ValueAppend("", '1');
    assert "" + ['1'] == "1";
  }

  lemma ZerosText()
    ensures Zeros(4) == "0000"
  {
    assert Zeros(1) == "0" && Zeros(2) == "00" && Zeros(3) == "000";
  }

  lemma FiveDigits()
    ensures AllDigits("50000") && Value("50000") == 50000
  {
    ValueAppend("", '5');
    ValueAppend("5", '0');
    ValueAppend("50", '0');
    ValueAppend("500", '0');
    ValueAppend("5000", '0');
    assert "" + ['5'] == "5" && "5" + ['0'] == "50" && "50" + ['0'] == "500";
    assert "500" + ['0'] == "5000" && "5000" + ['0'] == "50000";
  }

  lemma ParsesExactly(whole: string, f: string)
    requires |f| <= 6
    ensures ParseParts(whole, f).Ok? <==> AllDigits(whole) && AllDigits(f) && Value(whole) <= MAX_WHOLE
  {
    SixDigits(f);
  }

  lemma PartsExact(whole: string, frac: Option<string>, f: string)
    requires UsdcParts(whole, frac).Some? && f == match frac case Some(x) => x case None => ""
    ensures ParseParts(whole, f) == Ok(UsdcParts(whole, frac).value) <==>
              AllDigits(whole) && AllDigits(f) && Value(whole) <= MAX_WHOLE
  {
    ParsesExactly(whole, f);
    assert whole != "" && WholeOrZero(whole) == whole;
    if ParseParts(whole, f).Ok? {
      PartsAgree(whole, frac);
    }
  }

  // What usdcMicros accepts, parseUSDC accepts with the same value exactly when neither part
  // carries a sign and the whole part is within the bound.
  lemma ExactWithoutSigns(text: string)
    requires UsdcMicros(text).Some?
    ensures var s := Trim(text);
            ParseUSDC(text) == Ok(UsdcMicros(text).value) <==>
              AllDigits(Whole(s)) && AllDigits(Fraction(s)) && Value(Whole(s)) <= MAX_WHOLE
  {
    var s := Trim(text);
    PartsExact(Whole(s), if HasDot(s) then Some(Fraction(s)) else None, Fraction(s));
    assert Whole(s) != "";
    assert s[0] == Whole(s)[0];
  }

  // ----- formatMicros -----

  // The quotient and remainder of a truncating division, so the remainder takes the sign.
  function Quo(v: int, d: int): int
    requires d > 0
  {
    if v >= 0 then v / d else -(-v / d)
  }

  function Rem(v: int, d: int): int
    requires d > 0
  {
    v - Quo(v, d) * d
  }

  // %06d: zeros to a width of six, the sign included.
  function Pad6(r: int): string {
    var digits := Digits(if r < 0 then -r else r);
    var width := if r < 0 then 5 else 6;
    (if r < 0 then "-" else "") + Zeros(if |digits| < width then width - |digits| else 0) + digits
  }

  function FormatMicros(v: int): string {
    Decimal(Quo(v, MICROS)) + "." + Pad6(Rem(v, MICROS))
  }

  lemma {:induction false} DigitsLength(n: nat, k: nat)
    requires k >= 1
    ensures |Digits(n)| <= k <==> n < Power10(k)
    decreases k
  {
    if n < 10 {
      PowerGrows(1, k);
    } else if k == 1 {
    } else {
      DigitsLength(n / 10, k - 1);
      assert n < 10 * Power10(k - 1) <==> n / 10 < Power10(k - 1);
    }
  }

  lemma {:induction false} PaddedValue(z: nat, t: string)
    requires AllDigits(t)
    ensures AllDigits(Zeros(z) + t) && Value(Zeros(z) + t) == Value(t)
  {
    if t == "" {
      assert Zeros(z) + t == Zeros(z);
      ZerosValue(z);
    } else {
      var init, last := t[..|t| - 1], t[|t| - 1];
      PaddedValue(z, init);
      assert Zeros(z) + t == (Zeros(z) + init) + [last];
      ValueAppend(Zeros(z) + init, last);
      ValueAppend(init, last);
      assert t == init + [last];
    }
  }

  // Digits padded to a width they fit in fill it, and keep their value.
  lemma PadBody(n: nat, width: nat)
    requires 5 <= width <= 6
    ensures var digits := Digits(n);
            var body := Zeros(if |digits| < width then width - |digits| else 0) + digits;
            && AllDigits(body) && Value(body) == n
            && |body| == (if |digits| < width then width else |digits|)
            && (|digits| <= 5 <==> n < 100_000) && (|digits| <= 6 <==> n < MICROS)
  {
    DigitsLength(n, 5);
    DigitsLength(n, 6);
    assert Power10(5) == 100_000 && Power10(6) == MICROS;
    DigitsValue(n);
    PaddedValue(if |Digits(n)| < width then width - |Digits(n)| else 0, Digits(n));
  }

  lemma SetStringSigned(body: string)
    requires body != "" && AllDigits(body)
    ensures SetString("-" + body) == Some(0 - Value(body))
  {
    assert ("-" + body)[1..] == body;
  }

  // The padded remainder: six characters unless it is negative with six digits, and its value.
  lemma PadRead(r: int)
    requires -MICROS < r < MICROS
    ensures |Pad6(r)| == (if r <= -100_000 then 7 else 6)
    ensures SetString(Pad6(r)) == Some(r)
  {
    var n := if r < 0 then -r else r;
    var width := if r < 0 then 5 else 6;
    PadBody(n, width);
    var body := Zeros(if |Digits(n)| < width then width - |Digits(n)| else 0) + Digits(n);
    PadIs(r, n, body);
    if r < 0 { SetStringSigned(body); } else { SetStringDigits(body); }
  }

  lemma PadIs(r: int, n: nat, body: string)
    requires n == if r < 0 then -r else r
    requires var width := if r < 0 then 5 else 6;
             body == Zeros(if |Digits(n)| < width then width - |Digits(n)| else 0) + Digits(n)
    ensures Pad6(r) == if r < 0 then "-" + body else body
  {
  }

  lemma {:induction false} DotAfterDigits(whole: string, frac: string)
    requires forall k :: 0 <= k < |whole| ==> whole[k] != '.'
    ensures Dot(whole + "." + frac) == |whole|
  {
    var s := whole + "." + frac;
    if whole != "" {
      assert s[1..] == whole[1..] + "." + frac;
      DotAfterDigits(whole[1..], frac);
    }
  }

  // Text of two parts around a dot, with no space at either end.
  lemma Cut(whole: string, frac: string, s: string)
    requires s == whole + "." + frac && whole != "" && frac != ""
    requires forall k :: 0 <= k < |whole| ==> whole[k] != '.'
    requires !IsSpace(whole[0]) && !IsSpace(frac[|frac| - 1])
    ensures Trim(s) == s && HasDot(s) && Whole(s) == whole && Fraction(s) == frac
  {
    DotAfterDigits(whole, frac);
    assert s[0] == whole[0] && s[|s| - 1] == frac[|frac| - 1];
    assert s[..|whole|] == whole && s[|whole| + 1..] == frac;
  }

  lemma DecimalHasNoDot(n: int)
    ensures forall k :: 0 <= k < |Decimal(n)| ==> Decimal(n)[k] == '-' || IsDigit(Decimal(n)[k])
  {
  }

  lemma Formatted(v: int)
    ensures var s := FormatMicros(v);
            && Trim(s) == s && HasDot(s)
            && Whole(s) == Decimal(Quo(v, MICROS)) && Fraction(s) == Pad6(Rem(v, MICROS))
  {
    DecimalHasNoDot(Quo(v, MICROS));
    LastOfPad(Rem(v, MICROS));
    Cut(Decimal(Quo(v, MICROS)), Pad6(Rem(v, MICROS)), FormatMicros(v));
  }

  lemma RemBound(v: int)
    ensures -MICROS < Rem(v, MICROS) < MICROS && v == Quo(v, MICROS) * MICROS + Rem(v, MICROS)
    ensures Quo(v, MICROS) < 0 <==> v <= -MICROS
    ensures -MICROS < v < 0 ==> Rem(v, MICROS) == v
    ensures v >= 0 ==> Rem(v, MICROS) >= 0
  {
  }

  lemma LastOfPad(r: int)
    ensures |Pad6(r)| >= 1 && IsDigit(Pad6(r)[|Pad6(r)| - 1])
  {
    var digits := Digits(if r < 0 then -r else r);
    assert Pad6(r)[|Pad6(r)| - 1] == digits[|digits| - 1];
  }

  lemma SetStringDecimal(n: int)
    ensures SetString(Decimal(n)) == Some(n)
  {
    DigitsValue(if n < 0 then -n else n);
    if n < 0 {
      assert Decimal(n)[1..] == Digits(-n);
    }
  }

  // A fraction of six characters needs no filling.
  lemma UsdcOfParts(text: string, q: int, r: int)
    requires Trim(text) == text && HasDot(text) && |Fraction(text)| >= 6
    requires SetString(Whole(text)) == Some(q) && SetString(Fraction(text)) == Some(r)
    ensures UsdcMicros(text) == if q < 0 || |Fraction(text)| > 6 then None else Some(q * MICROS + r)
  {
    if |Fraction(text)| == 6 {
      SixOfSix(Fraction(text));
    }
  }

  lemma SixOfSix(frac: string)
    requires |frac| == 6
    ensures Six(frac) == frac
  {
  }

  lemma ParsedBack(v: int, s: string, q: int, r: int)
    requires s == FormatMicros(v) && q == Quo(v, MICROS) && r == Rem(v, MICROS)
    ensures UsdcMicros(s) == if q < 0 || r <= -100_000 then None else Some(q * MICROS + r)
  {
    Formatted(v);
    RemBound(v);
    PadRead(r);
    SetStringDecimal(q);
    UsdcOfParts(s, q, r);
  }

  lemma ReadsItself(v: int, u: Option<int>, q: int, r: int)
    requires q == Quo(v, MICROS) && r == Rem(v, MICROS)
    requires u == if q < 0 || r <= -100_000 then None else Some(q * MICROS + r)
    ensures u == Some(v) <==> v > -100_000
  {
    RemBound(v);
  }

  // What the printer prints, the parser reads back exactly when the value is above minus a tenth
  // of a USDC: for every amount that is not negative, and for the few that are small.
  lemma FormatRoundTrip(v: int)
    ensures UsdcMicros(FormatMicros(v)) == Some(v) <==> v > -100_000
  {
    var q, r := Quo(v, MICROS), Rem(v, MICROS);
    ParsedBack(v, FormatMicros(v), q, r);
    ReadsItself(v, UsdcMicros(FormatMicros(v)), q, r);
  }
}
