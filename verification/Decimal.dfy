/** Decimal integers as printed by the `%d` and JSON formatters, and reading them back. */
module Decimal {
  import opened Common

  predicate IsDigit(c: char) {
    '0' <= c <= '9'
  }

  predicate AllDigits(s: string) {
    forall i :: 0 <= i < |s| ==> IsDigit(s[i])
  }

  function DigitChar(d: nat): (c: char)
    requires d < 10
    ensures IsDigit(c) && c as int - '0' as int == d
  {
    ('0' as int + d) as char
  }

  function Digits(n: nat): (s: string)
    ensures |s| > 0 && AllDigits(s)
    ensures s[0] == '0' ==> |s| == 1
    ensures n > 0 ==> s[0] != '0'
  {
    if n < 10 then [DigitChar(n)] else Digits(n / 10) + [DigitChar(n % 10)]
  }

  function DigitsValue(s: string): nat
    requires AllDigits(s)
  {
    if s == "" then 0 else 10 * DigitsValue(s[..|s| - 1]) + (s[|s| - 1] as int - '0' as int)
  }

  function Itoa(n: int): (s: string)
    ensures |s| > 0
  {
    if n < 0 then "-" + Digits(-n) else Digits(n)
  }

  function DigitPrefix(s: string): (n: nat)
    ensures n <= |s| && AllDigits(s[..n]) && (n < |s| ==> !IsDigit(s[n]))
  {
    if s == "" || !IsDigit(s[0]) then 0 else
      var n := 1 + DigitPrefix(s[1..]);
      assert forall i :: 0 < i < n ==> s[i] == s[1..][i - 1];
      n
  }

  /** Reads an optional minus sign and the longest run of digits; None without any digit. */
  function ReadInt(s: string): (r: Option<(int, string)>)
    ensures r.Some? ==> |r.value.1| < |s|
  {
    var negative := s != "" && s[0] == '-';
    var t := if negative then s[1..] else s;
    var n := DigitPrefix(t);
    if n == 0 then None else
      var v: int := DigitsValue(t[..n]);
      Some((if negative then -v else v, t[n..]))
  }

  lemma {:induction false} DigitsRoundTrip(n: nat)
    ensures DigitsValue(Digits(n)) == n
  {
    if n >= 10 {
      DigitsRoundTrip(n / 10);
      var s := Digits(n);
      assert s[..|s| - 1] == Digits(n / 10);
    }
  }

  lemma {:induction false} DigitPrefixOf(ds: string, rest: string)
    requires AllDigits(ds) && (rest == "" || !IsDigit(rest[0]))
    ensures DigitPrefix(ds + rest) == |ds|
  {
    if ds == "" {
      assert ds + rest == rest;
    } else {
      assert (ds + rest)[1..] == ds[1..] + rest;
      DigitPrefixOf(ds[1..], rest);
    }
  }

  lemma ReadDigits(n: nat, rest: string)
    requires rest == "" || !IsDigit(rest[0])
    ensures var t := Digits(n) + rest; var k := DigitPrefix(t);
            k == |Digits(n)| && DigitsValue(t[..k]) == n && t[k..] == rest
  {
    var ds := Digits(n);
    DigitsRoundTrip(n);
    DigitPrefixOf(ds, rest);
    assert (ds + rest)[..|ds|] == ds && (ds + rest)[|ds|..] == rest;
  }

  lemma ReadNegative(n: int, rest: string)
    requires n < 0 && (rest == "" || !IsDigit(rest[0]))
    ensures ReadInt("-" + Digits(-n) + rest) == Some((n, rest))
  {
    var s := "-" + Digits(-n) + rest;
    ReadDigits(-n, rest);
    assert s[0] == '-' && s[1..] == Digits(-n) + rest;
  }

  lemma ReadNonNegative(n: nat, rest: string)
    requires rest == "" || !IsDigit(rest[0])
    ensures ReadInt(Digits(n) + rest) == Some((n, rest))
  {
    var s := Digits(n) + rest;
    ReadDigits(n, rest);
    assert s[0] == Digits(n)[0] && IsDigit(s[0]);
  }

  lemma ReadIntItoa(n: int, rest: string)
    requires rest == "" || !IsDigit(rest[0])
    ensures ReadInt(Itoa(n) + rest) == Some((n, rest))
  {
    if n < 0 {
      ReadNegative(n, rest);
    } else {
      ReadNonNegative(n, rest);
    }
  }

  /** A printed number followed by a non-digit determines the number and what follows it. */
  lemma ItoaPrefixUnique(a: int, x: string, b: int, y: string)
    requires x == "" || !IsDigit(x[0])
    requires y == "" || !IsDigit(y[0])
    requires Itoa(a) + x == Itoa(b) + y
    ensures a == b && x == y
  {
    ReadIntItoa(a, x);
    ReadIntItoa(b, y);
  }
}
