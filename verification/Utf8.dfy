/** UTF-8 as Rust strings use it: `as_bytes`, `len` and `String::from_utf8`. */
module Utf8 {
  import opened Prelude

  predicate IsScalar(n: int) {
    0 <= n < 0xD800 || 0xE000 <= n < 0x11_0000
  }

  function CharBytes(c: char): (b: Bytes)
    ensures 1 <= |b| <= 4
  {
    var n := c as int;
    if n < 0x80 then [n]
    else if n < 0x800 then [0xC0 + n / 64, 0x80 + n % 64]
    else if n < 0x1_0000 then [0xE0 + n / 4096, 0x80 + n / 64 % 64, 0x80 + n % 64]
    else [0xF0 + n / 262144, 0x80 + n / 4096 % 64, 0x80 + n / 64 % 64, 0x80 + n % 64]
  }

  /** `str::as_bytes` */
  function Encode(s: string): Bytes {
    if s == "" then [] else CharBytes(s[0]) + Encode(s[1..])
  }

  function Tail(b: byte): int {
    b - 0x80
  }

  /** The code point and length a well-formed sequence starting at `b[0]` would have. */
  function Lead(b: Bytes): (int, nat)
    requires b != []
  {
    var lead: int := b[0];
    if lead < 0xC0 then (lead, 1)
    else if lead < 0xE0 && |b| >= 2 then ((lead - 0xC0) * 64 + Tail(b[1]), 2)
    else if lead < 0xF0 && |b| >= 3 then ((lead - 0xE0) * 4096 + Tail(b[1]) * 64 + Tail(b[2]), 3)
    else if |b| >= 4 then ((lead - 0xF0) * 262144 + Tail(b[1]) * 4096 + Tail(b[2]) * 64 + Tail(b[3]), 4)
    else (-1, 1)
  }

  /** Section 3 of RFC 3629: as few bytes as the range asks for, led and continued by bytes of their own ranges. */
  lemma ShortestForm(c: char)
    ensures var n, b := c as int, CharBytes(c);
            && |b| == (if n <= 0x7F then 1 else if n <= 0x7FF then 2 else if n <= 0xFFFF then 3 else 4)
            && (|b| == 1 ==> b[0] == n)
            && (|b| == 2 ==> 0xC2 <= b[0] <= 0xDF) && (|b| == 3 ==> 0xE0 <= b[0] <= 0xEF)
            && (|b| == 4 ==> 0xF0 <= b[0] <= 0xF4)
            && forall i | 1 <= i < |b| :: 0x80 <= b[i] <= 0xBF
  {
  }

  /** Reads code points while they last; malformed input stops the scan. */
  function Scan(b: Bytes): string {
    if b == [] then ""
    else
      var (n, k) := Lead(b);
      if IsScalar(n) then [n as char] + Scan(b[k..]) else ""
  }

  /** `String::from_utf8` */
  function Decode(b: Bytes): Option<string> {
    var s := Scan(b);
    if Encode(s) == b then Some(s) else None
  }

  lemma LeadOfShortChar(c: char, rest: Bytes)
    requires c as int < 0x1_0000
    ensures Lead(CharBytes(c) + rest) == (c as int, |CharBytes(c)|)
  {
  }

  lemma LeadOfLongChar(c: char, rest: Bytes)
    requires c as int >= 0x1_0000
    ensures Lead(CharBytes(c) + rest) == (c as int, |CharBytes(c)|)
  {
    var n := c as int;
    var b := CharBytes(c) + rest;
    assert b[0] == 0xF0 + n / 262144 && b[1] == 0x80 + n / 4096 % 64;
    assert b[2] == 0x80 + n / 64 % 64 && b[3] == 0x80 + n % 64;
    assert n / 4096 == n / 262144 * 64 + n / 4096 % 64;
    assert n / 64 == n / 4096 * 64 + n / 64 % 64;
  }

  lemma LeadOfChar(c: char, rest: Bytes)
    ensures Lead(CharBytes(c) + rest) == (c as int, |CharBytes(c)|)
  {
    if c as int < 0x1_0000 {
      LeadOfShortChar(c, rest);
    } else {
      LeadOfLongChar(c, rest);
    }
  }

  lemma {:induction false} ScanOfEncode(s: string)
    ensures Scan(Encode(s)) == s
  {
    hide Lead, CharBytes;
    if s != "" {
      var head, rest := CharBytes(s[0]), Encode(s[1..]);
      LeadOfChar(s[0], rest);
      assert (head + rest)[|head|..] == rest;
      ScanOfEncode(s[1..]);
    }
  }

  /** Decoding accepts exactly the encodings, and inverts them. */
  lemma DecodeIff(b: Bytes, s: string)
    ensures Decode(b) == Some(s) <==> Encode(s) == b
  {
    ScanOfEncode(s);
  }

  predicate IsAscii(s: string) {
    forall i | 0 <= i < |s| :: s[i] as int < 0x80
  }

  /** An ASCII string is its own encoding, one byte per character. */
  lemma {:induction false} EncodeAscii(s: string)
    requires IsAscii(s)
    ensures |Encode(s)| == |s|
    ensures forall i | 0 <= i < |s| :: Encode(s)[i] == s[i] as int
  {
    if s != "" {
      EncodeAscii(s[1..]);
      assert Encode(s) == [s[0] as int] + Encode(s[1..]);
    }
  }
}
