// UTF-8. Characters are Unicode scalar values, so every string has an encoding.
module Utf8 {
  import opened Prelude

  const REPLACEMENT: char := '\U{FFFD}'

  function EncodeChar(c: char): (bs: seq<byte>)
    ensures 1 <= |bs| <= 4
  {
    var n0 := c as int;
    var n1 := n0 / 0x40;
    var n2 := n1 / 0x40;
    var n3 := n2 / 0x40;
    if n0 < 0x80 then [n0 as byte]
    else if n0 < 0x800 then [(0xC0 + n1) as byte, Continuation(n0)]
    else if n0 < 0x10000 then [(0xE0 + n2) as byte, Continuation(n1), Continuation(n0)]
    else [(0xF0 + n3) as byte, Continuation(n2), Continuation(n1), Continuation(n0)]
  }

  function Continuation(n: nat): byte {
    (0x80 + n % 0x40) as byte
  }

  function Encode(s: string): seq<byte> {
    if s == "" then [] else EncodeChar(s[0]) + Encode(s[1..])
  }

  predicate IsScalar(n: int) {
    0 <= n < 0xD800 || 0xE000 <= n < 0x11_0000
  }

  // Byte i of bs, if it is a continuation byte.
  function Tail(bs: seq<byte>, i: nat): Option<int> {
    if i < |bs| && 0x80 <= bs[i] < 0xC0 then Some(bs[i] as int - 0x80) else None
  }

  // The first character and the number of its bytes. What is not the shortest encoding of a scalar
  // value counts as one bad byte.
  function DecodeChar(bs: seq<byte>): (r: (char, nat))
    requires bs != []
    ensures 1 <= r.1 <= |bs|
  {
    var b := bs[0] as int;
    if b < 0x80 then (b as char, 1)
    else
      match (Tail(bs, 1), Tail(bs, 2), Tail(bs, 3))
      case (Some(x), _, _) =>
        if 0xC2 <= b < 0xE0 then ((((b - 0xC0) * 0x40 + x) as char), 2)
        else
          (match (Tail(bs, 2), Tail(bs, 3))
           case (Some(y), t3) =>
             if 0xE0 <= b < 0xF0 then
               var n := (b - 0xE0) * 0x1000 + x * 0x40 + y;
               if n >= 0x800 && IsScalar(n) then (n as char, 3) else (REPLACEMENT, 1)
             else if 0xF0 <= b < 0xF5 && t3.Some? then
               var n := (b - 0xF0) * 0x40000 + x * 0x1000 + y * 0x40 + t3.value;
               if n >= 0x10000 && IsScalar(n) then (n as char, 4) else (REPLACEMENT, 1)
             else (REPLACEMENT, 1)
           case _ => (REPLACEMENT, 1))
      case _ => (REPLACEMENT, 1)
  }

  function Decode(bs: seq<byte>): string {
    if bs == [] then ""
    else
      var (c, n) := DecodeChar(bs);
      [c] + Decode(bs[n..])
  }

  // One sample of each length.
  lemma Samples()
    ensures EncodeChar('A') == [0x41]
    ensures EncodeChar('\U{00E9}') == [0xC3, 0xA9]
    ensures EncodeChar('\U{20AC}') == [0xE2, 0x82, 0xAC]
    ensures EncodeChar('\U{1F600}') == [0xF0, 0x9F, 0x98, 0x80]
  {
  }

  lemma TwoBytes(c: char, rest: seq<byte>)
    requires 0x80 <= c as int < 0x800
    ensures DecodeChar(EncodeChar(c) + rest) == (c, 2)
  {
    var n, bs := c as int, EncodeChar(c) + rest;
    assert Tail(bs, 1) == Some(n % 0x40);
  }

  lemma ThreeBytes(c: char, rest: seq<byte>)
    requires 0x800 <= c as int < 0x10000
    ensures DecodeChar(EncodeChar(c) + rest) == (c, 3)
  {
    var n0, bs := c as int, EncodeChar(c) + rest;
    var n1 := n0 / 0x40;
    assert Tail(bs, 1) == Some(n1 % 0x40) && Tail(bs, 2) == Some(n0 % 0x40);
  }

  lemma FourBytes(c: char, rest: seq<byte>)
    requires 0x10000 <= c as int
    ensures DecodeChar(EncodeChar(c) + rest) == (c, 4)
  {
    var n0, bs := c as int, EncodeChar(c) + rest;
    var n1 := n0 / 0x40;
    var n2 := n1 / 0x40;
    assert bs[0] as int == 0xF0 + n2 / 0x40;
    assert Tail(bs, 1) == Some(n2 % 0x40) && Tail(bs, 2) == Some(n1 % 0x40) && Tail(bs, 3) == Some(n0 % 0x40);
    assert n2 == n2 / 0x40 * 0x40 + n2 % 0x40 && n1 == n2 * 0x40 + n1 % 0x40 && n0 == n1 * 0x40 + n0 % 0x40;
  }

  lemma CharRoundTrip(c: char, rest: seq<byte>)
    ensures DecodeChar(EncodeChar(c) + rest) == (c, |EncodeChar(c)|)
  {
    if 0x80 <= c as int < 0x800 {
      TwoBytes(c, rest);
    } else if 0x800 <= c as int < 0x10000 {
      ThreeBytes(c, rest);
    } else if 0x10000 <= c as int {
      FourBytes(c, rest);
    }
  }

  lemma {:induction false} RoundTrip(s: string)
    ensures Decode(Encode(s)) == s
  {
    if s != "" {
      CharRoundTrip(s[0], Encode(s[1..]));
      assert (EncodeChar(s[0]) + Encode(s[1..]))[|EncodeChar(s[0])|..] == Encode(s[1..]);
      RoundTrip(s[1..]);
    }
  }
}
