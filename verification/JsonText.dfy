// JSON texts (RFC 8259): strings and numbers, as the encoder writes them and the decoder reads them.
module JsonText {
  import opened Prelude
  import Utf8

  // ---------------------------------------------------------------------------------------------
  // Strings.

  function Hex(n: nat): char
    requires n < 16
  {
    if n < 10 then '0' + n as char else 'a' + (n - 10) as char
  }

  function HexValue(c: char): (r: Option<nat>)
    ensures r.Some? ==> r.value < 16
  {
    if '0' <= c <= '9' then Some(c as int - '0' as int)
    else if 'a' <= c <= 'f' then Some(c as int - 'a' as int + 10)
    else if 'A' <= c <= 'F' then Some(c as int - 'A' as int + 10)
    else None
  }

  function Hex4(n: nat): (r: string)
    requires n < 0x10000
    ensures |r| == 4
  {
    var tens := n / 16;
    var hundreds := tens / 16;
    [Hex(hundreds / 16), Hex(hundreds % 16), Hex(tens % 16), Hex(n % 16)]
  }

  function Hex4Value(s: string): (r: Option<nat>)
    ensures r.Some? ==> r.value < 0x10000 && 4 <= |s|
  {
    if |s| < 4 then None
    else
      match (HexValue(s[0]), HexValue(s[1]), HexValue(s[2]), HexValue(s[3]))
      case (Some(a), Some(b), Some(c), Some(d)) => Some(((a * 16 + b) * 16 + c) * 16 + d)
      case _ => None
  }

  // Control characters, quote and backslash, the three characters HTML cares about, and the two line
  // separators JavaScript does not allow in strings.
  function EscapeChar(c: char): string {
    if c == '"' || c == '\\' then ['\\', c]
    else if c == '\n' then "\\n"
    else if c == '\r' then "\\r"
    else if c == '\t' then "\\t"
    else if c as int == 8 then "\\b"
    else if c as int == 12 then "\\f"
    else if c as int < 0x20 || c == '<' || c == '>' || c == '&' || c as int == 0x2028 || c as int == 0x2029 then
      "\\u" + Hex4(c as int)
    else [c]
  }

  function Escape(s: string): string {
    if s == "" then "" else EscapeChar(s[0]) + Escape(s[1..])
  }

  // One character of a string, and how many characters of text it takes. A \u escape of half a
  // surrogate pair takes the other half with it, or counts as a bad character.
  function ReadChar(s: string): (r: Option<(char, nat)>)
    ensures r.Some? ==> 1 <= r.value.1 <= |s|
  {
    if s == "" || s[0] == '"' || (s[0] as int) < 0x20 then None
    else if s[0] != '\\' then Some((s[0], 1))
    else if |s| < 2 then None
    else if s[1] == '"' || s[1] == '\\' || s[1] == '/' then Some((s[1], 2))
    else if s[1] == 'n' then Some(('\n', 2))
    else if s[1] == 'r' then Some(('\r', 2))
    else if s[1] == 't' then Some(('\t', 2))
    else if s[1] == 'b' then Some((8 as char, 2))
    else if s[1] == 'f' then Some((12 as char, 2))
    else if s[1] != 'u' then None
    else
      match Hex4Value(s[2..])
      case None => None
      case Some(n) =>
        if Utf8.IsScalar(n) then Some((n as char, 6))
        else if n < 0xDC00 && |s| >= 12 && s[6] == '\\' && s[7] == 'u' && LowHalf(Hex4Value(s[8..])).Some? then
          Some((((n - 0xD800) * 0x400 + LowHalf(Hex4Value(s[8..])).value + 0x10000) as char, 12))
        else Some((Utf8.REPLACEMENT, 6))
  }

  function LowHalf(n: Option<nat>): (r: Option<nat>)
    ensures r.Some? ==> r.value < 0x400
  {
    match n
    case Some(m) => if 0xDC00 <= m < 0xE000 then Some(m - 0xDC00) else None
    case None => None
  }

  // The rest of a string after its opening quote, up to its closing one.
  function ReadString(s: string): (r: Option<(string, string)>)
    ensures r.Some? ==> |r.value.1| < |s|
  {
    if s != "" && s[0] == '"' then Some(("", s[1..]))
    else
      match ReadChar(s)
      case None => None
      case Some((c, n)) =>
        match ReadString(s[n..])
        case None => None
        case Some((text, rest)) => Some(([c] + text, rest))
  }

  // Ordinary characters stand for themselves; the others do not occur in the text of a string at all, quote
  // and backslash apart.
  lemma {:induction false} OrdinaryStays(s: string)
    requires forall i :: 0 <= i < |s| ==>
      s[i] as int >= 0x20 && s[i] !in {'"', '\\', '<', '>', '&'} && s[i] as int != 0x2028 && s[i] as int != 0x2029
    ensures Escape(s) == s
  {
    if s != "" {
      OrdinaryStays(s[1..]);
      assert [s[0]] + s[1..] == s;
    }
  }

  predicate IsSafe(c: char) {
    c as int >= 0x20 && c !in {'<', '>', '&'} && c as int != 0x2028 && c as int != 0x2029
  }

  lemma {:induction false} OnlySafe(s: string)
    ensures forall i :: 0 <= i < |Escape(s)| ==> IsSafe(Escape(s)[i])
  {
    if s != "" {
      OnlySafe(s[1..]);
      var e := EscapeChar(s[0]);
      assert forall i :: 0 <= i < |e| ==> IsSafe(e[i]);
    }
  }

  lemma HexRoundTrip(n: nat)
    requires n < 16
    ensures HexValue(Hex(n)) == Some(n)
  {
  }

  lemma Hex4RoundTrip(n: nat, rest: string)
    requires n < 0x10000
    ensures Hex4Value(Hex4(n) + rest) == Some(n)
  {
    var tens := n / 16;
    var hundreds := tens / 16;
    var a, b, c, d := hundreds / 16, hundreds % 16, tens % 16, n % 16;
    assert hundreds == a * 16 + b && tens == hundreds * 16 + c && n == tens * 16 + d;
    HexRoundTrip(a);
    HexRoundTrip(b);
    HexRoundTrip(c);
    HexRoundTrip(d);
    var s := Hex4(n) + rest;
    assert s[0] == Hex(a) && s[1] == Hex(b) && s[2] == Hex(c) && s[3] == Hex(d);
  }

  lemma CharRoundTrip(c: char, rest: string)
    ensures ReadChar(EscapeChar(c) + rest) == Some((c, |EscapeChar(c)|))
    ensures EscapeChar(c) != "" && EscapeChar(c)[0] != '"'
  {
    var e := EscapeChar(c);
    if |e| == 6 {
      Hex4RoundTrip(c as int, rest);
      assert (e + rest)[2..] == Hex4(c as int) + rest;
    }
  }

  lemma {:induction false} StringRoundTrip(s: string, rest: string)
    ensures ReadString(Escape(s) + "\"" + rest) == Some((s, rest))
  {
    var text := Escape(s) + "\"" + rest;
    if s == "" {
      assert text == "\"" + rest && text[1..] == rest;
    } else {
      var tail := Escape(s[1..]) + "\"" + rest;
      var n := |EscapeChar(s[0])|;
      assert text == EscapeChar(s[0]) + tail;
      CharRoundTrip(s[0], tail);
      assert text[0] == EscapeChar(s[0])[0];
      assert text[n..] == tail;
      StringRoundTrip(s[1..], rest);
      assert [s[0]] + s[1..] == s;
    }
  }

  // ---------------------------------------------------------------------------------------------
  // Numbers.

  predicate IsDigit(c: char) {
    '0' <= c <= '9'
  }

  function PrintNat(n: nat): (r: string)
    ensures r != "" && forall i :: 0 <= i < |r| ==> IsDigit(r[i])
    ensures n > 0 ==> r[0] != '0'
    ensures n == 0 ==> r == "0"
  {
    var last := ['0' + (n % 10) as char];
    if n < 10 then last else PrintNat(n / 10) + last
  }

  function PrintInt(n: int): string {
    if n < 0 then "-" + PrintNat(-n) else PrintNat(n)
  }

  function ReadNat(s: string): Option<nat> {
    if s == "" then None
    else if !IsDigit(s[|s| - 1]) then None
    else
      var d := s[|s| - 1] as int - '0' as int;
      if |s| == 1 then Some(d)
      else
        match ReadNat(s[..|s| - 1])
        case None => None
        case Some(n) => Some(n * 10 + d)
  }

  // The integer a number literal stands for; one with a fraction or an exponent stands for none.
  function ReadInt(s: string): Option<int> {
    if s != "" && s[0] == '-' then
      match ReadNat(s[1..])
      case None => None
      case Some(n) => Some(0 as int - n)
    else ReadNat(s)
  }

  lemma {:induction false} NatRoundTrip(n: nat)
    ensures ReadNat(PrintNat(n)) == Some(n)
  {
    if n >= 10 {
      NatRoundTrip(n / 10);
      var s := PrintNat(n);
      assert s[..|s| - 1] == PrintNat(n / 10);
    }
  }

  lemma DecimalSample()
    ensures PrintInt(-1205) == "-1205"
  {
    assert PrintNat(1) == "1" && PrintNat(12) == "12" && PrintNat(120) == "120" && PrintNat(1205) == "1205";
  }

  lemma IntRoundTrip(n: int)
    ensures ReadInt(PrintInt(n)) == Some(n)
  {
    NatRoundTrip(if n < 0 then -n else n);
    if n < 0 {
      assert PrintInt(n)[1..] == PrintNat(-n);
    }
  }

  // The number of digits s starts with.
  function Digits(s: string): (n: nat)
    ensures n <= |s|
  {
    if s == "" || !IsDigit(s[0]) then 0 else 1 + Digits(s[1..])
  }

  // Length of the integer part, of a fraction, of an exponent; None where the grammar is broken.
  function IntPart(s: string): (r: Option<nat>)
    ensures r.Some? ==> 0 < r.value <= |s|
  {
    var sign: nat := if s != "" && s[0] == '-' then 1 else 0;
    var d := Digits(s[sign..]);
    if d == 0 then None
    else if s[sign] == '0' then Some(sign + 1)
    else Some(sign + d)
  }

  function Fraction(s: string): (r: Option<nat>)
    ensures r.Some? ==> r.value <= |s|
  {
    if s == "" || s[0] != '.' then Some(0)
    else if Digits(s[1..]) == 0 then None
    else Some(1 + Digits(s[1..]))
  }

  function Exponent(s: string): (r: Option<nat>)
    ensures r.Some? ==> r.value <= |s|
  {
    if s == "" || (s[0] != 'e' && s[0] != 'E') then Some(0)
    else
      var sign: nat := if |s| > 1 && (s[1] == '+' || s[1] == '-') then 2 else 1;
      if Digits(s[sign..]) == 0 then None else Some(sign + Digits(s[sign..]))
  }

  // A number literal, and what follows it.
  function ReadNumber(s: string): (r: Option<(string, string)>)
    ensures r.Some? ==> |r.value.1| < |s|
  {
    match IntPart(s)
    case None => None
    case Some(i) =>
      match Fraction(s[i..])
      case None => None
      case Some(f) =>
        match Exponent(s[i + f..])
        case None => None
        case Some(e) => Some((s[..i + f + e], s[i + f + e..]))
  }

  // What may follow a value: nothing, space, or punctuation.
  predicate Stops(rest: string) {
    || rest == ""
    || rest[0] == ',' || rest[0] == ']' || rest[0] == '}' || rest[0] == ':'
    || rest[0] == ' ' || rest[0] == '\t' || rest[0] == '\n' || rest[0] == '\r'
  }

  lemma {:induction false} DigitsOf(s: string, rest: string)
    requires forall i :: 0 <= i < |s| ==> IsDigit(s[i])
    requires Stops(rest)
    ensures Digits(s + rest) == |s|
  {
    if s == "" {
      assert s + rest == rest;
    } else {
      assert (s + rest)[1..] == s[1..] + rest;
      DigitsOf(s[1..], rest);
    }
  }

  lemma IntPartOf(n: int, rest: string)
    requires Stops(rest)
    ensures IntPart(PrintInt(n) + rest) == Some(|PrintInt(n)|)
  {
    var s := PrintInt(n) + rest;
    var digits := PrintNat(if n < 0 then -n else n);
    DigitsOf(digits, rest);
    if n < 0 {
      assert s[0] == '-' && s[1] == digits[0] && s[1..] == digits + rest;
    } else {
      assert s[0] == digits[0] != '-' && s[0..] == digits + rest;
    }
  }

  lemma NumberRoundTrip(n: int, rest: string)
    requires Stops(rest)
    ensures ReadNumber(PrintInt(n) + rest) == Some((PrintInt(n), rest))
  {
    var s, k := PrintInt(n) + rest, |PrintInt(n)|;
    IntPartOf(n, rest);
    assert s[k..] == rest && s[..k] == PrintInt(n);
    assert Fraction(rest) == Some(0);
    assert Exponent(rest) == Some(0);
  }
}
