// JSON string text in two languages: Go's encoder with the daemon's separator rewrite
// (daemon/internal/approval/hash.go) against QuoteJSONString (section 25.5.2 of ECMA-262), and a
// reader that inverts them (section 7 of RFC 8259). Text is a sequence of Unicode scalar values.
module JsonText {
  import opened Wrappers
  import opened Letters

  const BACKSLASH: char := '\\'
  const QUOTE: char := '"'
  const LINE_SEPARATOR: char := '\U{2028}'
  const PARAGRAPH_SEPARATOR: char := '\U{2029}'

  // ----- The two encoders -----

  // Go's encoding/json without HTML escaping.
  function GoEscape(c: char): string {
    if c == BACKSLASH || c == QUOTE then [BACKSLASH, c]
    else if c == '\U{8}' then "\\b"
    else if c == '\U{c}' then "\\f"
    else if c == '\n' then "\\n"
    else if c == '\r' then "\\r"
    else if c == '\t' then "\\t"
    else if c < ' ' then "\\u00" + [HexDigit(c as int / 16), HexDigit(c as int % 16)]
    else if c == LINE_SEPARATOR || c == PARAGRAPH_SEPARATOR then "\\u202" + [HexDigit(c as int % 16)]
    else [c]
  }

  function GoBody(s: string): string {
    if s == "" then "" else GoEscape(s[0]) + GoBody(s[1..])
  }

  function GoQuote(s: string): string {
    [QUOTE] + GoBody(s) + [QUOTE]
  }

  // Four lower-case hex digits.
  function UnicodeEscape(n: nat): string
    requires n < 0x10000
  {
    "\\u" + [HexDigit(n / 4096), HexDigit(n / 256 % 16), HexDigit(n / 16 % 16), HexDigit(n % 16)]
  }

  // QuoteJSONString: the escapes of its table, then other control characters, then the rest.
  function JsEscape(c: char): string {
    match c
    case '\U{8}' => "\\b"
    case '\t' => "\\t"
    case '\n' => "\\n"
    case '\U{c}' => "\\f"
    case '\r' => "\\r"
    case '"' => "\\\""
    case '\\' => "\\\\"
    case _ => if c as int < 0x20 then UnicodeEscape(c as int) else [c]
  }

  function JsBody(s: string): string {
    if s == "" then "" else JsEscape(s[0]) + JsBody(s[1..])
  }

  function JsQuote(s: string): string {
    [QUOTE] + JsBody(s) + [QUOTE]
  }

  // ----- The separator rewrite -----

  predicate SpellsSeparator(s: string) {
    |s| >= 5 && s[0] == 'u' && s[1] == '2' && s[2] == '0' && s[3] == '2' && (s[4] == '8' || s[4] == '9')
  }

  function SeparatorSpelled(s: string): char
    requires SpellsSeparator(s)
  {
    if s[4] == '8' then LINE_SEPARATOR else PARAGRAPH_SEPARATOR
  }

  // What the rewrite means, read one escape at a time: an escaped backslash is a pair and passes
  // through; an escape spelling a separator becomes the separator.
  function Rewritten(s: string): string
    decreases |s|
  {
    if s == "" then ""
    else if s[0] != BACKSLASH then [s[0]] + Rewritten(s[1..])
    else if |s| > 1 && s[1] == BACKSLASH then [BACKSLASH, BACKSLASH] + Rewritten(s[2..])
    else if SpellsSeparator(s[1..]) then [SeparatorSpelled(s[1..])] + Rewritten(s[6..])
    else [BACKSLASH] + Rewritten(s[1..])
  }

  lemma PlainPasses(c: char, t: string)
    requires c != BACKSLASH
    ensures Rewritten([c] + t) == [c] + Rewritten(t)
  {
    assert ([c] + t)[1..] == t;
  }

  lemma PairPasses(t: string)
    ensures Rewritten([BACKSLASH, BACKSLASH] + t) == [BACKSLASH, BACKSLASH] + Rewritten(t)
  {
    var s := [BACKSLASH, BACKSLASH] + t;
    assert s[2..] == t;
  }

  lemma LonePasses(t: string)
    requires (t == "" || t[0] != BACKSLASH) && !SpellsSeparator(t)
    ensures Rewritten([BACKSLASH] + t) == [BACKSLASH] + Rewritten(t)
  {
    assert ([BACKSLASH] + t)[1..] == t;
  }

  lemma SeparatorAppears(t: string)
    requires SpellsSeparator(t)
    ensures Rewritten([BACKSLASH] + t) == [SeparatorSpelled(t)] + Rewritten(t[5..])
  {
    var s := [BACKSLASH] + t;
    assert s[1..] == t && s[6..] == t[5..];
    assert t[0] == 'u';
  }

  lemma Assoc(a: string, b: string, c: string)
    ensures a + (b + c) == a + b + c
  {
  }

  function Backslashes(n: nat): (r: string)
    ensures |r| == n && forall k :: 0 <= k < n ==> r[k] == BACKSLASH
  {
    if n == 0 then "" else [BACKSLASH] + Backslashes(n - 1)
  }

  // A maximal run of backslashes is what the rewrite decides by, through its parity.
  lemma {:induction false} RunParity(n: nat, rest: string)
    requires rest == "" || rest[0] != BACKSLASH
    ensures Rewritten(Backslashes(n) + rest) ==
            if n % 2 == 1 && SpellsSeparator(rest)
            then Backslashes(n - 1) + [SeparatorSpelled(rest)] + Rewritten(rest[5..])
            else Backslashes(n) + Rewritten(rest)
    decreases n
  {
    if n == 0 {
      assert Backslashes(0) + rest == rest;
    } else if n == 1 {
      assert Backslashes(0) == "" && Backslashes(1) == [BACKSLASH];
      if SpellsSeparator(rest) { SeparatorAppears(rest); } else { LonePasses(rest); }
    } else {
      var fewer := Backslashes(n - 2) + rest;
      assert Backslashes(n) == [BACKSLASH, BACKSLASH] + Backslashes(n - 2);
      assert Backslashes(n) + rest == [BACKSLASH, BACKSLASH] + fewer;
      PairPasses(fewer);
      RunParity(n - 2, rest);
      if n % 2 == 1 && SpellsSeparator(rest) {
        var tail := Rewritten(rest[5..]);
        var sep := [SeparatorSpelled(rest)];
        assert Backslashes(n - 1) == [BACKSLASH, BACKSLASH] + Backslashes(n - 3);
        Assoc([BACKSLASH, BACKSLASH], Backslashes(n - 3), sep);
        Assoc([BACKSLASH, BACKSLASH], Backslashes(n - 3) + sep, tail);
      } else {
        Assoc([BACKSLASH, BACKSLASH], Backslashes(n - 2), Rewritten(rest));
      }
    }
  }

  // A run read off the text, and where the scan resumes after it.
  lemma RunRewritten(s: string, i: nat, j: nat)
    requires i < j <= |s| && (forall k :: i <= k < j ==> s[k] == BACKSLASH) && (j < |s| ==> s[j] != BACKSLASH)
    ensures if (j - i) % 2 == 1 && SpellsSeparator(s[j..])
            then |s| >= j + 5
                 && Rewritten(s[i..]) == Backslashes(j - i - 1) + [SeparatorSpelled(s[j..])] + Rewritten(s[j + 5..])
            else Rewritten(s[i..]) == s[i..j] + Rewritten(s[j..])
  {
    var rest := s[j..];
    assert s[i..j] == Backslashes(j - i);
    assert s[i..] == Backslashes(j - i) + rest;
    RunParity(j - i, rest);
    if SpellsSeparator(rest) { assert rest[5..] == s[j + 5..]; }
  }

  // One move of the scan: the text from `i` to `k` comes out as `piece`.
  lemma Scanned(s: string, b: string, i: nat, piece: string, k: nat)
    requires i <= k <= |s| && Rewritten(s) == b + Rewritten(s[i..]) && Rewritten(s[i..]) == piece + Rewritten(s[k..])
    ensures Rewritten(s) == b + piece + Rewritten(s[k..])
  {
  }

  // The scan as the daemon runs it, over maximal runs of backslashes.
  method NormalizeLineSeparators(s: string) returns (b: string)
    ensures b == Rewritten(s)
  {
    b := "";
    var i := 0;
    while i < |s|
      invariant 0 <= i <= |s|
      invariant Rewritten(s) == b + Rewritten(s[i..])
    {
      if s[i] != BACKSLASH {
        assert s[i..] == [s[i]] + s[i + 1..];
        PlainPasses(s[i], s[i + 1..]);
        Scanned(s, b, i, [s[i]], i + 1);
        b := b + [s[i]];
        i := i + 1;
        continue;
      }
      var j := i;
      while j < |s| && s[j] == BACKSLASH
        invariant i <= j <= |s|
        invariant forall k :: i <= k < j ==> s[k] == BACKSLASH
      {
        j := j + 1;
      }
      var run, rest := j - i, s[j..];
      RunRewritten(s, i, j);
      var piece, next := s[i..j], j;
      if run % 2 == 1 && SpellsSeparator(rest) {
        piece, next := Backslashes(run - 1) + [SeparatorSpelled(rest)], j + 5;
      }
      Scanned(s, b, i, piece, next);
      b := b + piece;
      i := next;
    }
  }

  // ----- The daemon's string text is the sidecar's -----

  lemma EscapesAgree(c: char)
    requires c != LINE_SEPARATOR && c != PARAGRAPH_SEPARATOR
    ensures GoEscape(c) == JsEscape(c)
  {
  }

  lemma ShortPasses(x: char, t: string)
    requires x != 'u' && x != BACKSLASH
    ensures Rewritten([BACKSLASH, x] + t) == [BACKSLASH, x] + Rewritten(t)
  {
    assert [BACKSLASH, x] + t == [BACKSLASH] + ([x] + t);
    LonePasses([x] + t);
    PlainPasses(x, t);
  }

  lemma {:induction false} LiteralPasses(e: string, t: string)
    requires forall k :: 0 <= k < |e| ==> e[k] != BACKSLASH
    ensures Rewritten(e + t) == e + Rewritten(t)
  {
    if e == "" {
      assert e + t == t;
    } else {
      assert e + t == [e[0]] + (e[1..] + t);
      PlainPasses(e[0], e[1..] + t);
      LiteralPasses(e[1..], t);
    }
  }

  lemma ControlPasses(n: nat, t: string)
    requires n < 0x20
    ensures Rewritten(UnicodeEscape(n) + t) == UnicodeEscape(n) + Rewritten(t)
  {
    var e := UnicodeEscape(n)[1..];
    assert UnicodeEscape(n) + t == [BACKSLASH] + (e + t);
    assert (e + t)[1] == '0';
    LonePasses(e + t);
    LiteralPasses(e, t);
  }

  lemma SeparatorPasses(c: char, t: string)
    requires c == LINE_SEPARATOR || c == PARAGRAPH_SEPARATOR
    ensures Rewritten(GoEscape(c) + t) == [c] + Rewritten(t)
  {
    var spelled := GoEscape(c)[1..] + t;
    assert GoEscape(c) + t == [BACKSLASH] + spelled;
    assert spelled[..5] == if c == LINE_SEPARATOR then "u2028" else "u2029";
    SeparatorAppears(spelled);
    assert spelled[5..] == t;
  }

  lemma EscapeRewritten(c: char, t: string)
    ensures Rewritten(GoEscape(c) + t) == JsEscape(c) + Rewritten(t)
  {
    if c == LINE_SEPARATOR || c == PARAGRAPH_SEPARATOR {
      SeparatorPasses(c, t);
    } else {
      EscapesAgree(c);
      var e := JsEscape(c);
      if c == BACKSLASH {
        PairPasses(t);
      } else if |e| == 1 {
        PlainPasses(c, t);
      } else if |e| == 2 {
        assert e == [BACKSLASH, e[1]];
        ShortPasses(e[1], t);
      } else {
        ControlPasses(c as int, t);
      }
    }
  }

  lemma {:induction false} BodyRewritten(s: string)
    ensures Rewritten(GoBody(s) + [QUOTE]) == JsBody(s) + [QUOTE]
  {
    if s == "" {
      assert GoBody(s) + [QUOTE] == [QUOTE];
    } else {
      BodyRewritten(s[1..]);
      assert GoBody(s) + [QUOTE] == GoEscape(s[0]) + (GoBody(s[1..]) + [QUOTE]);
      EscapeRewritten(s[0], GoBody(s[1..]) + [QUOTE]);
    }
  }

  // For every Unicode string, the rewrite of Go's encoding is what JSON.stringify produces.
  lemma EncodersAgree(s: string)
    ensures Rewritten(GoQuote(s)) == JsQuote(s)
  {
    assert GoQuote(s) == [QUOTE] + (GoBody(s) + [QUOTE]);
    assert GoQuote(s)[1..] == GoBody(s) + [QUOTE];
    BodyRewritten(s);
  }

  method JsonString(s: string) returns (text: string)
    ensures text == JsQuote(s)
  {
    EncodersAgree(s);
    text := NormalizeLineSeparators(GoQuote(s));
  }

  // Replacing every separator escape wherever its text stands, without counting backslashes.
  function BlindlyReplaced(s: string): string
    decreases |s|
  {
    if s == "" then ""
    else if s[0] == BACKSLASH && SpellsSeparator(s[1..]) then [SeparatorSpelled(s[1..])] + BlindlyReplaced(s[6..])
    else [s[0]] + BlindlyReplaced(s[1..])
  }

  // Counting them is needed: text that spells an escape comes out wrong without it.
  lemma BlindReplacementIsWrong(t: string)
    requires SpellsSeparator(t) && forall k :: 0 <= k < |t| ==> '0' <= t[k] <= '9' || 'a' <= t[k] <= 'z'
    ensures BlindlyReplaced(GoQuote([BACKSLASH] + t)) != JsQuote([BACKSLASH] + t)
  {
    var text := [BACKSLASH] + t;
    assert text[1..] == t;
    GoLiteral(t);
    BlindOnSpelledEscape(t);
    assert GoQuote(text) == [QUOTE, BACKSLASH, BACKSLASH] + t + [QUOTE];
    assert JsQuote(text) == [QUOTE] + ([BACKSLASH, BACKSLASH] + JsBody(t)) + [QUOTE];
    assert JsQuote(text)[2] == BACKSLASH;
  }

  lemma BlindOnSpelledEscape(t: string)
    requires SpellsSeparator(t)
    ensures var r := BlindlyReplaced([QUOTE, BACKSLASH, BACKSLASH] + t + [QUOTE]);
            |r| >= 3 && r[..3] == [QUOTE, BACKSLASH, SeparatorSpelled(t)]
  {
    var tail := t + [QUOTE];
    assert [QUOTE, BACKSLASH, BACKSLASH] + t + [QUOTE] == [QUOTE] + ([BACKSLASH] + ([BACKSLASH] + tail));
    BlindStep(QUOTE, [BACKSLASH] + ([BACKSLASH] + tail));
    BlindStep(BACKSLASH, [BACKSLASH] + tail);
    BlindSeparator(tail);
  }

  lemma BlindStep(c: char, t: string)
    requires c != BACKSLASH || !SpellsSeparator(t)
    ensures BlindlyReplaced([c] + t) == [c] + BlindlyReplaced(t)
  {
    assert ([c] + t)[1..] == t;
  }

  lemma BlindSeparator(t: string)
    requires SpellsSeparator(t)
    ensures BlindlyReplaced([BACKSLASH] + t) == [SeparatorSpelled(t)] + BlindlyReplaced(t[5..])
  {
    var s := [BACKSLASH] + t;
    assert s[1..] == t && s[6..] == t[5..];
  }

  lemma {:induction false} GoLiteral(s: string)
    requires forall k :: 0 <= k < |s| ==> '0' <= s[k] <= '9' || 'a' <= s[k] <= 'z'
    ensures GoBody(s) == s
  {
    if s != "" {
      GoLiteral(s[1..]);
      assert s == [s[0]] + s[1..];
    }
  }

  // ----- Reading it back -----

  function ReadHex(t: string): Option<nat> {
    if t == "" then Some(0)
    else
      match (ReadHex(t[..|t| - 1]), HexValue(t[|t| - 1]))
      case (Some(high), Some(low)) => Some(16 * high + low)
      case _ => None
  }

  function Unescaped(c: char): Option<char> {
    match c
    case 'b' => Some('\U{8}')
    case 't' => Some('\t')
    case 'n' => Some('\n')
    case 'f' => Some('\U{c}')
    case 'r' => Some('\r')
    case '"' => Some('"')
    case '\\' => Some('\\')
    case '/' => Some('/')
    case _ => None
  }

  type Reading = Option<(string, string)>

  function Prepend(c: char, r: Reading): Reading {
    match r
    case Some((s, rest)) => Some(([c] + s, rest))
    case None => None
  }

  // The string up to its closing quote, and the text after it.
  function ReadBody(t: string): (r: Reading)
    ensures r.Some? ==> |r.value.1| < |t|
    decreases |t|
  {
    if t == "" then None
    else if t[0] == QUOTE then Some(("", t[1..]))
    else if t[0] != BACKSLASH then Prepend(t[0], ReadBody(t[1..]))
    else if |t| < 2 then None
    else if Unescaped(t[1]).Some? then Prepend(Unescaped(t[1]).value, ReadBody(t[2..]))
    else if t[1] != 'u' || |t| < 6 then None
    else
      match ReadHex(t[2..6])
      case Some(n) => if n < 0xd800 then Prepend(n as char, ReadBody(t[6..])) else None
      case None => None
  }

  lemma ReadHexAppend(t: string, c: char)
    ensures ReadHex(t + [c]) ==
            if ReadHex(t).Some? && HexValue(c).Some? then Some(16 * ReadHex(t).value + HexValue(c).value) else None
  {
    assert (t + [c])[..|t|] == t;
  }

  lemma ControlRoundTrip(n: nat)
    requires n < 0x20
    ensures ReadHex(UnicodeEscape(n)[2..6]) == Some(n)
  {
    var a, b, c, d := HexDigit(0), HexDigit(0), HexDigit(n / 16), HexDigit(n % 16);
    ReadHexAppend([], a);
    ReadHexAppend([] + [a], b);
    ReadHexAppend([] + [a] + [b], c);
    ReadHexAppend([] + [a] + [b] + [c], d);
    assert 0 == n / 4096 && 0 == n / 256 % 16 && n / 16 % 16 == n / 16;
    assert UnicodeEscape(n)[2..6] == [a, b, c, d] == [] + [a] + [b] + [c] + [d];
  }

  lemma ShortRead(x: char, t: string)
    requires Unescaped(x).Some?
    ensures ReadBody([BACKSLASH, x] + t) == Prepend(Unescaped(x).value, ReadBody(t))
  {
    assert ([BACKSLASH, x] + t)[2..] == t;
  }

  lemma ControlRead(n: nat, t: string)
    requires n < 0x20
    ensures ReadBody(UnicodeEscape(n) + t) == Prepend(n as char, ReadBody(t))
  {
    var s := UnicodeEscape(n) + t;
    ControlRoundTrip(n);
    assert s[0] == BACKSLASH && s[1] == 'u';
    assert s[2..6] == UnicodeEscape(n)[2..6] && s[6..] == t;
  }

  lemma PlainRead(c: char, t: string)
    requires c != BACKSLASH && c != QUOTE
    ensures ReadBody([c] + t) == Prepend(c, ReadBody(t))
  {
    assert ([c] + t)[1..] == t;
  }

  lemma EscapeRead(c: char, t: string)
    ensures ReadBody(JsEscape(c) + t) == Prepend(c, ReadBody(t))
  {
    var e := JsEscape(c);
    if |e| == 1 {
      PlainRead(c, t);
    } else if |e| == 2 {
      assert e == [BACKSLASH, e[1]];
      ShortRead(e[1], t);
    } else {
      ControlRead(c as int, t);
    }
  }

  lemma {:induction false} BodyRead(s: string, rest: string)
    ensures ReadBody(JsBody(s) + ([QUOTE] + rest)) == Some((s, rest))
  {
    var end := [QUOTE] + rest;
    if s == "" {
      assert JsBody(s) + end == end;
      assert end[1..] == rest;
    } else {
      BodyRead(s[1..], rest);
      Assoc(JsEscape(s[0]), JsBody(s[1..]), end);
      EscapeRead(s[0], JsBody(s[1..]) + end);
      assert s == [s[0]] + s[1..];
    }
  }

  lemma QuoteSplit(s: string, rest: string)
    ensures JsQuote(s) + rest == [QUOTE] + (JsBody(s) + ([QUOTE] + rest))
  {
    Assoc([QUOTE] + JsBody(s), [QUOTE], rest);
    Assoc([QUOTE], JsBody(s), [QUOTE] + rest);
  }

  // A quoted string reads back, whatever follows it.
  lemma QuotedRead(s: string, rest: string)
    ensures var t := JsQuote(s) + rest; t[0] == QUOTE && ReadBody(t[1..]) == Some((s, rest))
  {
    QuoteSplit(s, rest);
    BodyRead(s, rest);
    var body := JsBody(s) + ([QUOTE] + rest);
    assert ([QUOTE] + body)[1..] == body;
  }
}
