/** Padded base64 (sections 4 and 5 of RFC 4648) and the gzip sniff on its first four characters. */
module Base64 {
  import opened Common

  /** `url` selects the URL-safe alphabet of section 5 of RFC 4648. */
  function Symbol(url: bool, v: nat): (c: char)
    requires v < 64
    ensures c != '=' && !IsNewline(c)
  {
    if v < 26 then ('A' as int + v) as char
    else if v < 52 then ('a' as int + v - 26) as char
    else if v < 62 then ('0' as int + v - 52) as char
    else if v == 62 then (if url then '-' else '+')
    else (if url then '_' else '/')
  }

  function SymbolValue(url: bool, c: char): (v: int)
    ensures -1 <= v < 64
    ensures v >= 0 ==> c != '='
  {
    if 'A' <= c <= 'Z' then c as int - 'A' as int
    else if 'a' <= c <= 'z' then c as int - 'a' as int + 26
    else if '0' <= c <= '9' then c as int - '0' as int + 52
    else if c == (if url then '-' else '+') then 62
    else if c == (if url then '_' else '/') then 63
    else -1
  }

  lemma SymbolRoundTrip(url: bool, v: nat)
    requires v < 64
    ensures SymbolValue(url, Symbol(url, v)) == v
  {
  }

  function EncodeGroup(url: bool, d: Bytes): (s: string)
    requires 1 <= |d| <= 3
    ensures |s| == 4
  {
    var d1, d2 := if |d| > 1 then d[1] else 0, if |d| > 2 then d[2] else 0;
    [Symbol(url, d[0] / 4), Symbol(url, d[0] % 4 * 16 + d1 / 16),
     if |d| > 1 then Symbol(url, d1 % 16 * 4 + d2 / 64) else '=',
     if |d| > 2 then Symbol(url, d2 % 64) else '=']
  }

  function Encode(url: bool, d: Bytes): (s: string)
    ensures |d| > 0 ==> |s| >= 4
  {
    if |d| == 0 then ""
    else if |d| <= 3 then EncodeGroup(url, d)
    else EncodeGroup(url, d[..3]) + Encode(url, d[3..])
  }

  predicate IsNewline(c: char) {
    c == '\r' || c == '\n'
  }

  /** The decoder ignores line breaks wherever they stand. */
  function Strip(s: string): (t: string)
    ensures |t| <= |s|
  {
    if s == "" then "" else (if IsNewline(s[0]) then "" else [s[0]]) + Strip(s[1..])
  }

  function DecodeGroup(url: bool, q: string): (r: Option<Bytes>)
    requires |q| == 4
    ensures r.Some? ==> 1 <= |r.value| <= 3
  {
    var v0, v1 := SymbolValue(url, q[0]), SymbolValue(url, q[1]);
    var v2, v3 := SymbolValue(url, q[2]), SymbolValue(url, q[3]);
    if v0 < 0 || v1 < 0 then None
    else if q[2] == '=' then (if q[3] == '=' then Some([v0 * 4 + v1 / 16]) else None)
    else if v2 < 0 then None
    else if q[3] == '=' then Some([v0 * 4 + v1 / 16, v1 % 16 * 16 + v2 / 4])
    else if v3 < 0 then None
    else Some([v0 * 4 + v1 / 16, v1 % 16 * 16 + v2 / 4, v2 % 4 * 64 + v3])
  }

  /** Whole groups of four; a padded group only closes the text. */
  function DecodeQuads(url: bool, s: string): Option<Bytes> {
    if s == "" then Some([])
    else if |s| < 4 then None
    else
      match DecodeGroup(url, s[..4])
      case None => None
      case Some(g) =>
        if |s| == 4 then Some(g)
        else if |g| < 3 then None
        else
          match DecodeQuads(url, s[4..])
          case None => None
          case Some(rest) => Some(g + rest)
  }

  function Decode(url: bool, s: string): Option<Bytes> {
    DecodeQuads(url, Strip(s))
  }

  lemma OneRoundTrip(url: bool, a: byte)
    ensures DecodeGroup(url, EncodeGroup(url, [a])) == Some([a])
  {
    SymbolRoundTrip(url, a / 4);
    SymbolRoundTrip(url, a % 4 * 16);
  }

  lemma TwoRoundTrip(url: bool, a: byte, b: byte)
    ensures DecodeGroup(url, EncodeGroup(url, [a, b])) == Some([a, b])
  {
    SymbolRoundTrip(url, a / 4);
    SymbolRoundTrip(url, a % 4 * 16 + b / 16);
    SymbolRoundTrip(url, b % 16 * 4);
  }

  /** A byte cut in two and put together again from two neighbouring symbols. */
  lemma Cut(x: nat, beside: nat)
    requires beside < 16
    ensures x / 4 * 4 + (x % 4 * 16 + beside) / 16 == x && (x % 4 * 16 + beside) % 16 == beside
  {
  }

  lemma CutSmall(x: nat, beside: nat)
    requires beside < 4
    ensures x / 16 * 16 + (x % 16 * 4 + beside) / 4 == x && (x % 16 * 4 + beside) % 4 == beside
  {
  }

  /** Four symbols that are not padding decode to the three bytes their values spell. */
  lemma FullGroup(url: bool, v0: nat, v1: nat, v2: nat, v3: nat, a: byte, b: byte, c: byte)
    requires v0 < 64 && v1 < 64 && v2 < 64 && v3 < 64
    requires a == v0 * 4 + v1 / 16 && b == v1 % 16 * 16 + v2 / 4 && c == v2 % 4 * 64 + v3
    ensures DecodeGroup(url, [Symbol(url, v0), Symbol(url, v1), Symbol(url, v2), Symbol(url, v3)]) == Some([a, b, c])
  {
    SymbolRoundTrip(url, v0);
    SymbolRoundTrip(url, v1);
    SymbolRoundTrip(url, v2);
    SymbolRoundTrip(url, v3);
  }

  lemma ThreeBytes(a: byte, b: byte, c: byte, v1: nat, v2: nat)
    requires v1 == a % 4 * 16 + b / 16 && v2 == b % 16 * 4 + c / 64
    ensures a == a / 4 * 4 + v1 / 16 && b == v1 % 16 * 16 + v2 / 4 && c == v2 % 4 * 64 + c % 64
    ensures v1 < 64 && v2 < 64
  {
    Cut(a, b / 16);
    CutSmall(b, c / 64);
  }

  lemma ThreeRoundTrip(url: bool, a: byte, b: byte, c: byte)
    ensures DecodeGroup(url, EncodeGroup(url, [a, b, c])) == Some([a, b, c])
  {
    var v1, v2 := a % 4 * 16 + b / 16, b % 16 * 4 + c / 64;
    ThreeBytes(a, b, c, v1, v2);
    FullGroup(url, a / 4, v1, v2, c % 64, a, b, c);
  }

  lemma GroupRoundTrip(url: bool, d: Bytes)
    requires 1 <= |d| <= 3
    ensures DecodeGroup(url, EncodeGroup(url, d)) == Some(d)
  {
    if |d| == 1 {
      OneRoundTrip(url, d[0]);
      assert d == [d[0]];
    } else if |d| == 2 {
      TwoRoundTrip(url, d[0], d[1]);
      assert d == [d[0], d[1]];
    } else {
      ThreeRoundTrip(url, d[0], d[1], d[2]);
      assert d == [d[0], d[1], d[2]];
    }
  }

  lemma {:induction false} QuadsRoundTrip(url: bool, d: Bytes)
    ensures DecodeQuads(url, Encode(url, d)) == Some(d)
  {
    var s := Encode(url, d);
    if 0 < |d| <= 3 {
      GroupRoundTrip(url, d);
      assert s[..4] == s;
    } else if |d| > 3 {
      GroupRoundTrip(url, d[..3]);
      QuadsRoundTrip(url, d[3..]);
      assert s[..4] == EncodeGroup(url, d[..3]) && s[4..] == Encode(url, d[3..]);
      assert d == d[..3] + d[3..];
    }
  }

  predicate IsEncodedChar(url: bool, c: char) {
    c == '=' || (SymbolValue(url, c) >= 0 && !IsNewline(c))
  }

  lemma GroupAlphabet(url: bool, d: Bytes)
    requires 1 <= |d| <= 3
    ensures forall i :: 0 <= i < 4 ==> IsEncodedChar(url, EncodeGroup(url, d)[i])
  {
    var d1: int, d2: int := if |d| > 1 then d[1] else 0, if |d| > 2 then d[2] else 0;
    SymbolRoundTrip(url, d[0] / 4);
    SymbolRoundTrip(url, d[0] % 4 * 16 + d1 / 16);
    SymbolRoundTrip(url, d1 % 16 * 4 + d2 / 64);
    SymbolRoundTrip(url, d2 % 64);
  }

  /** An encoding consists of alphabet characters and padding. */
  lemma {:induction false} EncodedAlphabet(url: bool, d: Bytes)
    ensures forall i :: 0 <= i < |Encode(url, d)| ==> IsEncodedChar(url, Encode(url, d)[i])
  {
    if 0 < |d| <= 3 {
      GroupAlphabet(url, d);
    } else if |d| > 3 {
      GroupAlphabet(url, d[..3]);
      EncodedAlphabet(url, d[3..]);
    }
  }

  lemma {:induction false} StripClean(s: string)
    requires forall i :: 0 <= i < |s| ==> !IsNewline(s[i])
    ensures Strip(s) == s
  {
    if s != "" {
      StripClean(s[1..]);
      assert s == [s[0]] + s[1..];
    }
  }

  lemma {:induction false} StripAppend(a: string, b: string)
    ensures Strip(a + b) == Strip(a) + Strip(b)
  {
    if a == "" {
      assert a + b == b;
    } else {
      assert (a + b)[1..] == a[1..] + b;
      StripAppend(a[1..], b);
    }
  }

  lemma {:induction false} StripShortens(s: string, i: nat)
    requires i < |s| && IsNewline(s[i])
    ensures |Strip(s)| < |s|
  {
    if i > 0 {
      StripShortens(s[1..], i - 1);
    }
  }

  /** Decoding undoes encoding, in either alphabet. */
  lemma RoundTrip(url: bool, d: Bytes)
    ensures Decode(url, Encode(url, d)) == Some(d)
  {
    EncodedAlphabet(url, d);
    StripClean(Encode(url, d));
    QuadsRoundTrip(url, d);
  }

  // ----- What an encoding says

  const UPPER := "ABCDEFGHIJKLMNOPQRSTUVWXYZ"
  const LOWER := "abcdefghijklmnopqrstuvwxyz"
  const DIGITS := "0123456789"

  /** Table 1 of RFC 4648; table 2, the URL-safe one, differs in its last two characters. */
  lemma SymbolMeaning(url: bool, v: nat)
    requires v < 64
    ensures v < 26 ==> Symbol(url, v) == UPPER[v]
    ensures 26 <= v < 52 ==> Symbol(url, v) == LOWER[v - 26]
    ensures 52 <= v < 62 ==> Symbol(url, v) == DIGITS[v - 52]
    ensures v >= 62 ==> Symbol(url, v) == (if url then "-_" else "+/")[v - 62]
  {
  }

  /** The number that bytes, or symbols, spell, the first most significant. */
  function Spelled(values: seq<int>, base: int): int {
    if values == [] then 0 else Spelled(values[..|values| - 1], base) * base + values[|values| - 1]
  }

  function ValuesOf(url: bool, s: string): seq<int> {
    seq(|s|, i requires 0 <= i < |s| => if s[i] == '=' then 0 else SymbolValue(url, s[i]))
  }

  lemma SpelledThree(a: int, b: int, c: int, base: int)
    ensures Spelled([a, b, c], base) == (a * base + b) * base + c
  {
    assert Spelled([a], base) == 0 * base + a by { assert [a][..0] == []; }
    assert Spelled([a, b], base) == a * base + b by { assert [a, b][..1] == [a]; }
    assert [a, b, c][..2] == [a, b];
  }

  lemma SpelledFour(a: int, b: int, c: int, d: int, base: int)
    ensures Spelled([a, b, c, d], base) == ((a * base + b) * base + c) * base + d
  {
    assert [a, b, c, d][..3] == [a, b, c];
    SpelledThree(a, b, c, base);
  }

  /** Four symbols spell the same number as the three bytes they stand for; a missing byte counts as zero. */
  lemma GroupMeaning(url: bool, d: Bytes)
    requires 1 <= |d| <= 3
    ensures Spelled(ValuesOf(url, EncodeGroup(url, d)), 64) == Spelled((d + [0, 0])[..3], 256)
    ensures forall i :: 0 <= i < 4 ==> (EncodeGroup(url, d)[i] == '=' <==> i > |d|)
  {
    var a, b, c := d[0], if |d| > 1 then d[1] else 0, if |d| > 2 then d[2] else 0;
    SymbolRoundTrip(url, a / 4);
    SymbolRoundTrip(url, a % 4 * 16 + b / 16);
    SymbolRoundTrip(url, b % 16 * 4 + c / 64);
    SymbolRoundTrip(url, c % 64);
    assert ValuesOf(url, EncodeGroup(url, d)) == [a / 4, a % 4 * 16 + b / 16, b % 16 * 4 + c / 64, c % 64];
    SpelledFour(a / 4, a % 4 * 16 + b / 16, b % 16 * 4 + c / 64, c % 64, 64);
    assert (d + [0, 0])[..3] == [a, b, c];
    SpelledThree(a, b, c, 256);
  }

  /** Three bytes at the front are encoded on their own, before the others. */
  lemma GroupFirst(url: bool, g: Bytes, d: Bytes)
    requires |g| == 3
    ensures Encode(url, g + d) == EncodeGroup(url, g) + Encode(url, d)
  {
    if d == [] {
      assert g + d == g;
    } else {
      assert (g + d)[..3] == g && (g + d)[3..] == d;
    }
  }

  // ----- The sniff

  /** The identification bytes of section 2.3.1 of RFC 1952. */
  predicate StartsGzip(d: Bytes) {
    |d| >= 2 && d[0] == 0x1f && d[1] == 0x8b
  }

  /** Decodes the first four characters into a zeroed three-byte header and compares two bytes of it. */
  predicate IsBase64Gzip(val: string) {
    if |val| >= 4 then
      match Decode(false, val[..4])
      case None => false
      case Some(decoded) =>
        var hdr := decoded + [0, 0, 0];
        hdr[..2] == [0x1f, 0x8b]
    else false
  }

  /** The first four characters decode to the start of the whole, and to all of it when they end in padding. */
  lemma FirstQuad(s: string, d: Bytes)
    requires |s| >= 4 && DecodeQuads(false, s) == Some(d)
    ensures match DecodeQuads(false, s[..4])
            case None => false
            case Some(h) => 1 <= |h| <= 3 && h <= d && (|h| < 3 ==> h == d)
  {
    assert s[..4][..4] == s[..4];
    assert DecodeQuads(false, s[..4]) == DecodeGroup(false, s[..4]);
  }

  predicate CleanStart(val: string) {
    forall i :: 0 <= i < 4 && i < |val| ==> !IsNewline(val[i])
  }

  /** For any text that decodes, the sniff tells whether the data is gzip, unless a line break is in its way. */
  lemma SniffIff(val: string, d: Bytes)
    requires Decode(false, val) == Some(d)
    ensures IsBase64Gzip(val) <==> StartsGzip(d) && CleanStart(val)
  {
    if |val| < 4 {
      assert d == [];
    } else {
      var head := val[..4];
      assert val == head + val[4..];
      StripAppend(head, val[4..]);
      if CleanStart(val) {
        StripClean(head);
        assert Strip(val)[..4] == head;
        FirstQuad(Strip(val), d);
        var h := DecodeQuads(false, head).value;
        assert (h + [0, 0, 0])[..2] == [(h + [0, 0, 0])[0], (h + [0, 0, 0])[1]];
      } else {
        var i :| 0 <= i < 4 && IsNewline(val[i]);
        StripShortens(head, i);
        var nothing: Bytes := [];
        assert (nothing + [0, 0, 0])[..2][0] == 0;
      }
    }
  }

  /** On standard encodings there is no exception: the sniff is exact. */
  lemma SniffEncoded(d: Bytes)
    ensures IsBase64Gzip(Encode(false, d)) <==> StartsGzip(d)
  {
    RoundTrip(false, d);
    SniffIff(Encode(false, d), d);
    EncodedAlphabet(false, d);
  }
}
