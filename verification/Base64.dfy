/** base64url without padding (section 5 of RFC 4648), as `wire::b64` and `wire::unb64` use it. */
module Base64 {
  import opened Prelude

  type Sextet = v: int | 0 <= v < 64

  function Digit(v: Sextet): char {
    if v < 26 then (65 + v) as char
    else if v < 52 then (97 + v - 26) as char
    else if v < 62 then (48 + v - 52) as char
    else if v == 62 then '-'
    else '_'
  }

  predicate InAlphabet(c: char) {
    'A' <= c <= 'Z' || 'a' <= c <= 'z' || '0' <= c <= '9' || c == '-' || c == '_'
  }

  function Value(c: char): Sextet
    requires InAlphabet(c)
  {
    if 'A' <= c <= 'Z' then c as int - 65
    else if 'a' <= c <= 'z' then c as int - 97 + 26
    else if '0' <= c <= '9' then c as int - 48 + 52
    else if c == '-' then 62
    else 63
  }

  lemma DigitValue(v: Sextet)
    ensures InAlphabet(Digit(v)) && Value(Digit(v)) == v
  {
  }

  lemma ValueDigit(c: char)
    requires InAlphabet(c)
    ensures Digit(Value(c)) == c
  {
  }

  /** The sextets of a byte string, the last one padded with zero bits. */
  function Sextets(b: Bytes): seq<Sextet> {
    if b == [] then []
    else if |b| == 1 then Quad(b[0], 0, 0)[..2]
    else if |b| == 2 then Quad(b[0], b[1], 0)[..3]
    else Quad(b[0], b[1], b[2]) + Sextets(b[3..])
  }

  function Quad(b0: byte, b1: byte, b2: byte): (q: seq<Sextet>)
    ensures |q| == 4
  {
    [b0 / 4, b0 % 4 * 16 + b1 / 16, b1 % 16 * 4 + b2 / 64, b2 % 64]
  }

  /** The inverse of `Sextets`; a lone trailing sextet or non-zero spare bits fail. */
  function Join(v: seq<Sextet>): Option<Bytes> {
    if v == [] then Some([])
    else if |v| == 1 then None
    else if |v| == 2 then
      if v[1] % 16 == 0 then Some(Group(v[0], v[1], 0, 0)[..1]) else None
    else if |v| == 3 then
      if v[2] % 4 == 0 then Some(Group(v[0], v[1], v[2], 0)[..2]) else None
    else
      match Join(v[4..])
      case None => None
      case Some(rest) => Some(Group(v[0], v[1], v[2], v[3]) + rest)
  }

  function Group(v0: int, v1: int, v2: int, v3: int): (g: Bytes)
    requires 0 <= v0 < 64 && 0 <= v1 < 64 && 0 <= v2 < 64 && 0 <= v3 < 64
    ensures |g| == 3
  {
    [v0 * 4 + v1 / 16, v1 % 16 * 16 + v2 / 4, v2 % 4 * 64 + v3]
  }

  function Digits(v: seq<Sextet>): (s: string)
    ensures |s| == |v| && forall i | 0 <= i < |s| :: s[i] == Digit(v[i])
  {
    seq(|v|, i requires 0 <= i < |v| => Digit(v[i]))
  }

  function Values(s: string): (v: seq<Sextet>)
    requires forall c | c in s :: InAlphabet(c)
    ensures |v| == |s| && forall i | 0 <= i < |v| :: v[i] == Value(s[i])
  {
    seq(|s|, i requires 0 <= i < |s| => Value(s[i]))
  }

  function Encode(b: Bytes): string {
    Digits(Sextets(b))
  }

  /** A strict decoder: foreign characters, a lone trailing character and non-zero spare bits all fail. */
  function Decode(s: string): Option<Bytes> {
    if forall c | c in s :: InAlphabet(c) then Join(Values(s)) else None
  }

  /** Number of characters that `n` bytes take. */
  function Len(n: nat): nat {
    (4 * n + 2) / 3
  }

  lemma {:induction false} EncodeLen(b: Bytes)
    ensures |Encode(b)| == |Sextets(b)| == Len(|b|)
  {
    if |b| >= 3 {
      EncodeLen(b[3..]);
    }
  }

  lemma EncodeAlphabet(b: Bytes)
    ensures forall c | c in Encode(b) :: InAlphabet(c)
  {
    forall v | v in Sextets(b)
      ensures InAlphabet(Digit(v))
    {
      DigitValue(v);
    }
  }

  lemma Pack(hi: int, lo: int)
    ensures 0 <= lo < 4 ==> (hi * 4 + lo) / 4 == hi && (hi * 4 + lo) % 4 == lo
    ensures 0 <= lo < 16 ==> (hi * 16 + lo) / 16 == hi && (hi * 16 + lo) % 16 == lo
  {
  }

  /** Three bytes and four sextets carry the same 24 bits. */
  lemma GroupOfQuad(b0: byte, b1: byte, b2: byte)
    ensures var q := Quad(b0, b1, b2);
            && Group(q[0], q[1], q[2], q[3]) == [b0, b1, b2]
            && (b1 == 0 ==> q[1] % 16 == 0) && (b1 == b2 == 0 ==> q[2] == 0)
            && (b2 == 0 ==> q[2] % 4 == 0 && q[3] == 0)
  {
    Pack(b0 % 4, b1 / 16);
    Pack(b1 % 16, b2 / 64);
  }

  lemma QuadOfGroup(v0: Sextet, v1: Sextet, v2: Sextet, v3: Sextet)
    ensures var g := Group(v0, v1, v2, v3);
            && Quad(g[0], g[1], g[2]) == [v0, v1, v2, v3]
            && (v1 % 16 == 0 && v2 == v3 == 0 ==> g[1] == g[2] == 0)
            && (v2 % 4 == 0 && v3 == 0 ==> g[2] == 0)
  {
    var g := Group(v0, v1, v2, v3);
    assert g[0] / 4 == v0 && g[0] % 4 * 16 + g[1] / 16 == v1;
    assert g[1] % 16 * 4 + g[2] / 64 == v2 && g[2] % 64 == v3;
  }

  lemma {:induction false} JoinOfSextets(b: Bytes)
    ensures Join(Sextets(b)) == Some(b)
  {
    hide Quad, Group;
    if b != [] {
      var b1, b2 := if |b| > 1 then b[1] else 0, if |b| > 2 then b[2] else 0;
      GroupOfQuad(b[0], b1, b2);
      if |b| >= 3 {
        JoinOfSextets(b[3..]);
        assert Sextets(b)[4..] == Sextets(b[3..]);
        assert b == [b[0], b[1], b[2]] + b[3..];
      } else {
        assert b == [b[0], b1, b2][..|b|];
      }
    }
  }

  lemma {:induction false} SextetsOfJoin(v: seq<Sextet>)
    requires Join(v).Some?
    ensures Sextets(Join(v).value) == v
  {
    hide Quad, Group;
    if v != [] {
      var v2, v3 := if |v| > 2 then v[2] else 0, if |v| > 3 then v[3] else 0;
      QuadOfGroup(v[0], v[1], v2, v3);
      if |v| >= 4 {
        SextetsOfJoin(v[4..]);
        assert Join(v).value[3..] == Join(v[4..]).value;
        assert v == [v[0], v[1], v[2], v[3]] + v[4..];
      } else {
        assert v == [v[0], v[1], v2, v3][..|v|];
      }
    }
  }

  /** Decoding accepts exactly the encodings, and inverts them. */
  lemma DecodeIff(s: string, b: Bytes)
    ensures Decode(s) == Some(b) <==> Encode(b) == s
  {
    if Encode(b) == s {
      EncodeAlphabet(b);
      forall i | 0 <= i < |s|
        ensures Values(s)[i] == Sextets(b)[i]
      {
        DigitValue(Sextets(b)[i]);
      }
      assert Values(s) == Sextets(b);
      JoinOfSextets(b);
    }
    if Decode(s) == Some(b) {
      SextetsOfJoin(Values(s));
      forall i | 0 <= i < |s|
        ensures Digits(Values(s))[i] == s[i]
      {
        ValueDigit(s[i]);
      }
    }
  }

  lemma RoundTrip(b: Bytes)
    ensures Decode(Encode(b)) == Some(b)
  {
    DecodeIff(Encode(b), b);
  }
}
