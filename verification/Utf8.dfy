/** UTF-8 (section 3 of RFC 3629): texts of Unicode scalar values as bytes. */
module Utf8 {
  import opened Common

  function EncodeChar(c: char): (b: Bytes)
    ensures 1 <= |b| <= 4
  {
    var n := c as int;
    if n < 0x80 then [n]
    else if n < 0x800 then [0xc0 + n / 0x40, 0x80 + n % 0x40]
    else if n < 0x1_0000 then [0xe0 + n / 0x1000, 0x80 + n / 0x40 % 0x40, 0x80 + n % 0x40]
    else [0xf0 + n / 0x4_0000, 0x80 + n / 0x1000 % 0x40, 0x80 + n / 0x40 % 0x40, 0x80 + n % 0x40]
  }

  function Encode(s: string): Bytes {
    if s == "" then [] else EncodeChar(s[0]) + Encode(s[1..])
  }

  /** The payload of a byte above its tag. */
  function Payload(b: byte, tag: int): int {
    b - tag
  }

  predicate IsTail(b: byte) {
    0x80 <= b < 0xc0
  }

  /** One character and the bytes after it; None for stray, cut, overlong or out-of-range sequences. */
  function DecodeChar(b: Bytes): (r: Option<(char, Bytes)>)
    requires b != []
    ensures r.Some? ==> |r.value.1| < |b|
  {
    if b[0] < 0x80 then Some((b[0] as char, b[1..]))
    else if 0xc2 <= b[0] < 0xe0 && |b| >= 2 && IsTail(b[1]) then
      Some(((Payload(b[0], 0xc0) * 0x40 + Payload(b[1], 0x80)) as char, b[2..]))
    else if 0xe0 <= b[0] < 0xf0 && |b| >= 3 && IsTail(b[1]) && IsTail(b[2]) then
      var n := Payload(b[0], 0xe0) * 0x1000 + Payload(b[1], 0x80) * 0x40 + Payload(b[2], 0x80);
      if n < 0x800 || 0xd800 <= n < 0xe000 then None else Some((n as char, b[3..]))
    else if 0xf0 <= b[0] < 0xf8 && |b| >= 4 && IsTail(b[1]) && IsTail(b[2]) && IsTail(b[3]) then
      var n := Payload(b[0], 0xf0) * 0x4_0000 + Payload(b[1], 0x80) * 0x1000 + Payload(b[2], 0x80) * 0x40
               + Payload(b[3], 0x80);
      if n < 0x1_0000 || n > 0x10_ffff then None else Some((n as char, b[4..]))
    else None
  }

  function Decode(b: Bytes): Option<string>
    decreases |b|
  {
    if b == [] then Some("") else
      match DecodeChar(b)
      case None => None
      case Some((c, rest)) =>
        match Decode(rest)
        case None => None
        case Some(s) => Some([c] + s)
  }

  lemma CharRoundTrip(c: char, rest: Bytes)
    ensures DecodeChar(EncodeChar(c) + rest) == Some((c, rest))
  {
    var n := c as int;
    var e := EncodeChar(c);
    var b := e + rest;
    assert b[|e|..] == rest;
    if n < 0x80 {
    } else if n < 0x800 {
      assert Payload(e[0], 0xc0) * 0x40 + Payload(e[1], 0x80) == n;
    } else if n < 0x1_0000 {
      assert n / 0x40 / 0x40 == n / 0x1000;
      assert Payload(e[0], 0xe0) * 0x1000 + Payload(e[1], 0x80) * 0x40 + Payload(e[2], 0x80) == n;
    } else {
      assert n / 0x40 / 0x40 == n / 0x1000 && n / 0x1000 / 0x40 == n / 0x4_0000;
      assert Payload(e[0], 0xf0) * 0x4_0000 + Payload(e[1], 0x80) * 0x1000 + Payload(e[2], 0x80) * 0x40
             + Payload(e[3], 0x80) == n;
    }
  }

  /** The number a sequence stands for, by the table of section 3 of RFC 3629. */
  function Number(b: Bytes): int
    requires 1 <= |b| <= 4
  {
    if |b| == 1 then b[0]
    else if |b| == 2 then Payload(b[0], 0xc0) * 0x40 + Payload(b[1], 0x80)
    else if |b| == 3 then (Payload(b[0], 0xe0) * 0x40 + Payload(b[1], 0x80)) * 0x40 + Payload(b[2], 0x80)
    else
      ((Payload(b[0], 0xf0) * 0x40 + Payload(b[1], 0x80)) * 0x40 + Payload(b[2], 0x80)) * 0x40 + Payload(b[3], 0x80)
  }

  /** A character's bytes stand for its number, with tails after the first, and are as few as can be. */
  lemma CharMeaning(c: char)
    ensures var b := EncodeChar(c);
            && Number(b) == c as int
            && (forall i :: 1 <= i < |b| ==> IsTail(b[i])) && !IsTail(b[0])
            && (|b| > 1 ==> c as int >= 0x80) && (|b| > 2 ==> c as int >= 0x800) && (|b| > 3 ==> c as int >= 0x1_0000)
  {
    var n := c as int;
    if n < 0x800 {
    } else if n < 0x1_0000 {
      assert n / 0x40 / 0x40 == n / 0x1000;
    } else {
      assert n / 0x40 / 0x40 == n / 0x1000 && n / 0x1000 / 0x40 == n / 0x4_0000;
    }
  }

  lemma {:induction false} RoundTrip(s: string)
    ensures Decode(Encode(s)) == Some(s)
  {
    if s != "" {
      CharRoundTrip(s[0], Encode(s[1..]));
      RoundTrip(s[1..]);
      assert s == [s[0]] + s[1..];
    }
  }
}
