// Base64 with padding, section 4 of RFC 4648.
module Base64 {
  import opened Prelude

  type Sextet = x: int | 0 <= x < 64

  function Digit(x: Sextet): char {
    if x < 26 then 'A' + x as char
    else if x < 52 then 'a' + (x - 26) as char
    else if x < 62 then '0' + (x - 52) as char
    else if x == 62 then '+' else '/'
  }

  function DigitValue(c: char): Option<Sextet> {
    if 'A' <= c <= 'Z' then Some(c as int - 'A' as int)
    else if 'a' <= c <= 'z' then Some(c as int - 'a' as int + 26)
    else if '0' <= c <= '9' then Some(c as int - '0' as int + 52)
    else if c == '+' then Some(62)
    else if c == '/' then Some(63)
    else None
  }

  lemma DigitRoundTrip(x: Sextet)
    ensures DigitValue(Digit(x)) == Some(x) && Digit(x) != '='
    ensures Digit(x) != '\n' && Digit(x) != '\r'
  {
  }

  // Four digits for three bytes.
  function Sextets(a: byte, b: byte, c: byte): (Sextet, Sextet, Sextet, Sextet) {
    var (a, b, c) := (a as int, b as int, c as int);
    (a / 4, a % 4 * 16 + b / 16, b % 16 * 4 + c / 64, c % 64)
  }

  function Quad(a: byte, b: byte, c: byte): (r: string)
    ensures |r| == 4
  {
    var (w, x, y, z) := Sextets(a, b, c);
    [Digit(w), Digit(x), Digit(y), Digit(z)]
  }

  function Encode(bs: seq<byte>): string {
    if bs == [] then ""
    else if |bs| == 1 then Quad(bs[0], 0, 0)[..2] + "=="
    else if |bs| == 2 then Quad(bs[0], bs[1], 0)[..3] + "="
    else Quad(bs[0], bs[1], bs[2]) + Encode(bs[3..])
  }

  // Three bytes from four digits.
  function Triple(w: Sextet, x: Sextet, y: Sextet, z: Sextet): (r: seq<byte>)
    ensures |r| == 3
  {
    [(w * 4 + x / 16) as byte, (x % 16 * 16 + y / 4) as byte, (y % 4 * 64 + z) as byte]
  }

  function DecodeDigits(s: string): Option<seq<byte>> {
    if s == "" then Some([])
    else if |s| < 4 then None
    else
      match (DigitValue(s[0]), DigitValue(s[1]))
      case (Some(w), Some(x)) =>
        if |s| == 4 && s[3] == '=' then
          if s[2] == '=' then Some(Triple(w, x, 0, 0)[..1])
          else
            match DigitValue(s[2])
            case Some(y) => Some(Triple(w, x, y, 0)[..2])
            case None => None
        else
          (match (DigitValue(s[2]), DigitValue(s[3]), DecodeDigits(s[4..]))
           case (Some(y), Some(z), Some(rest)) => Some(Triple(w, x, y, z) + rest)
           case _ => None)
      case _ => None
  }

  function WithoutNewlines(s: string): string {
    if s == "" then ""
    else (if s[0] == '\n' || s[0] == '\r' then "" else [s[0]]) + WithoutNewlines(s[1..])
  }

  // Line breaks are skipped, and bits left over in the last digit are not looked at.
  function Decode(s: string): Option<seq<byte>> {
    DecodeDigits(WithoutNewlines(s))
  }

  // The alphabet of section 4 of RFC 4648.
  lemma AlphabetExactly()
    ensures Digit(0) == 'A' && Digit(25) == 'Z' && Digit(26) == 'a' && Digit(51) == 'z'
    ensures Digit(52) == '0' && Digit(61) == '9' && Digit(62) == '+' && Digit(63) == '/'
    ensures forall x: Sextet :: x < 61 && x != 25 && x != 51 ==> Digit(x + 1) as int == Digit(x) as int + 1
  {
  }

  // Three bytes are 24 bits, and so are four digits: the same ones.
  lemma SextetsExactly(a: byte, b: byte, c: byte)
    ensures var (w, x, y, z) := Sextets(a, b, c);
      ((w * 64 + x) * 64 + y) * 64 + z == (a as int * 0x100 + b as int) * 0x100 + c as int
  {
  }

  // Samples of section 10 of RFC 4648, one for each padding.
  lemma Samples()
    ensures Encode([]) == ""
    ensures Encode([0x66]) == "Zg=="
    ensures Encode([0x66, 0x6F]) == "Zm8="
    ensures Encode([0x66, 0x6F, 0x6F]) == "Zm9v"
  {
    assert [0x66 as byte, 0x6F, 0x6F][3..] == [];
    assert Quad(0x66, 0, 0)[..2] == "Zg";
    assert Quad(0x66, 0x6F, 0)[..3] == "Zm8";
  }

  predicate IsForeign(c: char) {
    DigitValue(c).None? && c !in {'=', '\n', '\r'}
  }

  lemma {:induction false} DigitsReject(s: string, i: nat)
    requires i < |s| && IsForeign(s[i])
    ensures DecodeDigits(s) == None
  {
    if i >= 4 {
      DigitsReject(s[4..], i - 4);
    }
  }

  lemma {:induction false} KeptWithoutNewlines(s: string, i: nat) returns (j: nat)
    requires i < |s| && IsForeign(s[i])
    ensures j < |WithoutNewlines(s)| && WithoutNewlines(s)[j] == s[i]
  {
    if i == 0 {
      j := 0;
    } else {
      j := KeptWithoutNewlines(s[1..], i - 1);
      if s[0] != '\n' && s[0] != '\r' {
        j := j + 1;
      }
    }
  }

  // A text with any character that is no digit, padding or line break is rejected.
  lemma ForeignRejected(s: string, i: nat)
    requires i < |s| && IsForeign(s[i])
    ensures Decode(s) == None
  {
    var j := KeptWithoutNewlines(s, i);
    DigitsReject(WithoutNewlines(s), j);
  }

  lemma HighLow(high: nat, low: nat, base: nat)
    requires low < base && (base == 4 || base == 16)
    ensures (high * base + low) / base == high && (high * base + low) % base == low
  {
    if base == 4 {
      assert (high * 4 + low) / 4 == high;
    } else {
      assert (high * 16 + low) / 16 == high;
    }
  }

  lemma TripleOfSextets(a: byte, b: byte, c: byte)
    ensures var (w, x, y, z) := Sextets(a, b, c); Triple(w, x, y, z) == [a, b, c]
    ensures c == 0 ==> Sextets(a, b, c).3 == 0
    ensures b == 0 && c == 0 ==> Sextets(a, b, c).2 == 0
  {
    var (x, y) := (Sextets(a, b, c).1, Sextets(a, b, c).2);
    HighLow(a as int % 4, b as int / 16, 16);
    HighLow(b as int % 16, c as int / 64, 4);
    assert x / 16 == a as int % 4 && x % 16 == b as int / 16;
    assert y / 4 == b as int % 16 && y % 4 == c as int / 64;
  }

  lemma QuadDigits(a: byte, b: byte, c: byte)
    ensures var q, (w, x, y, z) := Quad(a, b, c), Sextets(a, b, c);
      && DigitValue(q[0]) == Some(w) && DigitValue(q[1]) == Some(x)
      && DigitValue(q[2]) == Some(y) && DigitValue(q[3]) == Some(z)
    ensures forall i :: 0 <= i < 4 ==> Quad(a, b, c)[i] != '=' && Quad(a, b, c)[i] != '\n' && Quad(a, b, c)[i] != '\r'
  {
    var (w, x, y, z) := Sextets(a, b, c);
    DigitRoundTrip(w);
    DigitRoundTrip(x);
    DigitRoundTrip(y);
    DigitRoundTrip(z);
  }

  lemma {:induction false} NoNewlines(s: string)
    requires forall i :: 0 <= i < |s| ==> s[i] != '\n' && s[i] != '\r'
    ensures WithoutNewlines(s) == s
  {
    if s != "" {
      NoNewlines(s[1..]);
      assert [s[0]] + s[1..] == s;
    }
  }

  lemma {:induction false} EncodeHasNoNewlines(bs: seq<byte>)
    ensures forall i :: 0 <= i < |Encode(bs)| ==> Encode(bs)[i] != '\n' && Encode(bs)[i] != '\r'
  {
    if bs != [] {
      QuadDigits(bs[0], if |bs| > 1 then bs[1] else 0, if |bs| > 2 then bs[2] else 0);
      if |bs| > 2 {
        EncodeHasNoNewlines(bs[3..]);
      }
    }
  }

  // One group of digits, and what is left of the text.
  lemma QuadRoundTrip(a: byte, b: byte, c: byte, more: string)
    requires DecodeDigits(more).Some?
    ensures DecodeDigits(Quad(a, b, c) + more) == Some([a, b, c] + DecodeDigits(more).value)
  {
    TripleOfSextets(a, b, c);
    QuadDigits(a, b, c);
    var s := Quad(a, b, c) + more;
    assert s[..4] == Quad(a, b, c) && s[4..] == more;
    assert forall i :: 0 <= i < 4 ==> s[i] == Quad(a, b, c)[i];
  }

  lemma OneByteRoundTrip(a: byte)
    ensures DecodeDigits(Encode([a])) == Some([a])
  {
    TripleOfSextets(a, 0, 0);
    QuadDigits(a, 0, 0);
    var q, s := Quad(a, 0, 0), Encode([a]);
    assert s == [q[0], q[1], '=', '='];
    assert [a, 0, 0][..1] == [a];
  }

  lemma TwoBytesRoundTrip(a: byte, b: byte)
    ensures DecodeDigits(Encode([a, b])) == Some([a, b])
  {
    TripleOfSextets(a, b, 0);
    QuadDigits(a, b, 0);
    var q, s := Quad(a, b, 0), Encode([a, b]);
    assert s == [q[0], q[1], q[2], '='];
    assert [a, b, 0][..2] == [a, b];
  }

  lemma {:induction false} DigitsRoundTrip(bs: seq<byte>)
    ensures DecodeDigits(Encode(bs)) == Some(bs)
  {
    if |bs| >= 3 {
      DigitsRoundTrip(bs[3..]);
      QuadRoundTrip(bs[0], bs[1], bs[2], Encode(bs[3..]));
      assert [bs[0], bs[1], bs[2]] + bs[3..] == bs;
    } else if |bs| == 2 {
      assert bs == [bs[0], bs[1]];
      TwoBytesRoundTrip(bs[0], bs[1]);
    } else if |bs| == 1 {
      assert bs == [bs[0]];
      OneByteRoundTrip(bs[0]);
    }
  }

  // Decoding gives back every list of bytes.
  lemma RoundTrip(bs: seq<byte>)
    ensures Decode(Encode(bs)) == Some(bs)
  {
    DigitsRoundTrip(bs);
    EncodeHasNoNewlines(bs);
    NoNewlines(Encode(bs));
  }
}
