/** Identity tokens (src/token.rs). */
module Token {
  import opened Prelude
  import opened Wire
  import opened Env
  import Base64
  import Crc32
  import Text
  import Utf8

  const PREFIX_V1 := "agentmsg-id-v1."
  const PREFIX_V2 := "agentmsg-id-v2."
  const PUBLIC_KEY_LEN := 1952

  datatype IdentityToken = IdentityToken(name: string, publicKey: Bytes, kemPublicKey: Option<Bytes>)

  datatype TokenError = InvalidToken | TokenCorrupt

  type Decoded = Result<IdentityToken, TokenError>

  /** The base64 text both the checksum and the decoder work on. */
  function Body(e: Env, t: IdentityToken): string {
    var kem := match t.kemPublicKey { case None => None case Some(k) => Option.Some(Base64.Encode(k)) };
    Base64.Encode(e.token.write(TokenBody(t.name, Base64.Encode(t.publicKey), kem)))
  }

  function Checksum(b64body: string): string {
    Base64.Encode(Crc32.BeBytes(Crc32.Hash(Utf8.Encode(b64body))))
  }

  function Encode(e: Env, t: IdentityToken): string {
    PREFIX_V2 + Body(e, t) + "." + Checksum(Body(e, t))
  }

  predicate KeyLengthOk(publicKey: Bytes) {
    |publicKey| == PUBLIC_KEY_LEN
  }

  function DecodeV1(e: Env, rest: string): Decoded {
    match Base64.Decode(rest)
    case None => Err(InvalidToken)
    case Some(json) =>
      match e.token.parse(json)
      case None => Err(InvalidToken)
      case Some(body) =>
        if body.name == "" then Err(InvalidToken)
        else
          match Base64.Decode(body.pk)
          case None => Err(InvalidToken)
          case Some(pk) =>
            if !KeyLengthOk(pk) then Err(TokenCorrupt) else Ok(IdentityToken(body.name, pk, None))
  }

  /** What a v2 body decodes to once its checksum has matched. */
  function DecodeBody(e: Env, b64body: string): Decoded {
    match Base64.Decode(b64body)
    case None => Err(TokenCorrupt)
    case Some(json) =>
      match e.token.parse(json)
      case None => Err(TokenCorrupt)
      case Some(body) =>
        if body.name == "" then Err(InvalidToken)
        else
          match Base64.Decode(body.pk)
          case None => Err(InvalidToken)
          case Some(pk) =>
            if !KeyLengthOk(pk) then Err(TokenCorrupt)
            else
              match body.kemPk
              case None => Ok(IdentityToken(body.name, pk, None))
              case Some(k) =>
                match Base64.Decode(k)
                case None => Err(InvalidToken)
                case Some(kem) => Ok(IdentityToken(body.name, pk, Some(kem)))
  }

  function DecodeV2(e: Env, rest: string): Decoded {
    match Text.SplitLast(rest, '.')
    case None => Err(TokenCorrupt)
    case Some((b64body, b64crc)) =>
      match Base64.Decode(b64crc)
      case None => Err(TokenCorrupt)
      case Some(crc) =>
        if |crc| != 4 then Err(TokenCorrupt)
        else if Crc32.BeBytes(Crc32.Hash(Utf8.Encode(b64body))) != crc then Err(TokenCorrupt)
        else DecodeBody(e, b64body)
  }

  function Decode(e: Env, s: string): Decoded {
    var t := Text.Trim(s);
    if PREFIX_V2 <= t then DecodeV2(e, t[|PREFIX_V2|..])
    else if PREFIX_V1 <= t then DecodeV1(e, t[|PREFIX_V1|..])
    else Err(InvalidToken)
  }

  // ---------------------------------------------------------------- round trip

  predicate Sound(t: IdentityToken) {
    t.name != "" && |t.publicKey| == 1952
  }

  lemma BodyDecodes(e: Env, t: IdentityToken)
    requires Laws(e)
    ensures DecodeBody(e, Body(e, t)) == Ok(t) <==> Sound(t)
  {
    Base64.RoundTrip(t.publicKey);
    if t.kemPublicKey.Some? {
      Base64.RoundTrip(t.kemPublicKey.value);
    }
    var kem := match t.kemPublicKey { case None => None case Some(k) => Option.Some(Base64.Encode(k)) };
    Base64.RoundTrip(e.token.write(TokenBody(t.name, Base64.Encode(t.publicKey), kem)));
  }

  /** No digit of the alphabet is the separator or white space. */
  lemma Digits(b: Bytes)
    ensures '.' !in Base64.Encode(b) && forall c | c in Base64.Encode(b) :: !Text.IsWhitespace(c)
  {
    Base64.EncodeAlphabet(b);
  }

  /** A v2 text with any body decodes to what `DecodeV2` makes of the part after the prefix. */
  lemma DecodeOfV2(e: Env, b64body: string, crc: Bytes, before: string, after: string)
    requires Text.IsBlank(before) && Text.IsBlank(after) && |crc| == 4
    ensures Decode(e, before + (PREFIX_V2 + b64body + "." + Base64.Encode(crc)) + after)
         == if Crc32.BeBytes(Crc32.Hash(Utf8.Encode(b64body))) != crc then Err(TokenCorrupt) else DecodeBody(e, b64body)
  {
    hide DecodeBody, Crc32.BeBytes, Crc32.Hash;
    var tail := Base64.Encode(crc);
    var t := PREFIX_V2 + b64body + "." + tail;
    Digits(crc);
    assert t[|t| - 1] == '.' || t[|t| - 1] in tail;
    Text.TrimOf(before, t, after);
    assert t[|PREFIX_V2|..] == b64body + "." + tail;
    Text.SplitLastOf(b64body, '.', tail);
    Base64.RoundTrip(crc);
  }

  /** Decoding inverts encoding through surrounding white space, for exactly the tokens the decoder accepts. */
  lemma RoundTrip(e: Env, t: IdentityToken, before: string, after: string)
    requires Laws(e) && Text.IsBlank(before) && Text.IsBlank(after)
    ensures Decode(e, before + Encode(e, t) + after) == Ok(t) <==> Sound(t)
    ensures "agentmsg-id-v2." <= Encode(e, t)
  {
    hide DecodeBody, Body, Crc32.BeBytes, Crc32.Hash;
    DecodeOfV2(e, Body(e, t), Crc32.BeBytes(Crc32.Hash(Utf8.Encode(Body(e, t)))), before, after);
    BodyDecodes(e, t);
  }

  /** What the first version of the tool printed: name and signing key, without a checksum. */
  function EncodeV1(e: Env, name: string, publicKey: Bytes): string {
    "agentmsg-id-v1." + Base64.Encode(e.token.write(TokenBody(name, Base64.Encode(publicKey), None)))
  }

  /** A first-version token decodes, through white space, exactly if it has a name and a key of 1952 bytes. */
  lemma RoundTripV1(e: Env, name: string, publicKey: Bytes, before: string, after: string)
    requires Laws(e) && Text.IsBlank(before) && Text.IsBlank(after)
    ensures Decode(e, before + EncodeV1(e, name, publicKey) + after) == Ok(IdentityToken(name, publicKey, None))
       <==> name != "" && |publicKey| == 1952
  {
    hide DecodeV2, DecodeV1;
    var json := e.token.write(TokenBody(name, Base64.Encode(publicKey), None));
    var t := EncodeV1(e, name, publicKey);
    Digits(json);
    assert t[|t| - 1] == '.' || t[|t| - 1] in Base64.Encode(json);
    Text.TrimOf(before, t, after);
    assert t[|PREFIX_V1|..] == Base64.Encode(json);
    assert t[13] != PREFIX_V2[13];
    assert Decode(e, before + t + after) == DecodeV1(e, Base64.Encode(json));
    BodyDecodesV1(e, name, publicKey);
  }

  lemma BodyDecodesV1(e: Env, name: string, publicKey: Bytes)
    requires Laws(e)
    ensures DecodeV1(e, Base64.Encode(e.token.write(TokenBody(name, Base64.Encode(publicKey), None))))
         == Ok(IdentityToken(name, publicKey, None))
       <==> name != "" && |publicKey| == 1952
  {
    Base64.RoundTrip(e.token.write(TokenBody(name, Base64.Encode(publicKey), None)));
    Base64.RoundTrip(publicKey);
  }

  // ---------------------------------------------------------------- what is accepted

  /** The JSON names this identity and its signing key. */
  predicate Names(e: Env, json: Bytes, t: IdentityToken) {
    && e.token.parse(json).Some? && Sound(t)
    && e.token.parse(json).value.name == t.name && Base64.Decode(e.token.parse(json).value.pk) == Some(t.publicKey)
  }

  predicate NamesKem(e: Env, json: Bytes, kem: Option<Bytes>) {
    && e.token.parse(json).Some?
    && var k := e.token.parse(json).value.kemPk;
       if kem.Some? then k.Some? && Base64.Decode(k.value) == kem else k == None
  }

  /** Body and checksum, the last separator between them. */
  ghost predicate Parts(e: Env, rest: string, t: IdentityToken, b64body: string, b64crc: string, json: Bytes) {
    && rest == b64body + "." + b64crc && '.' !in b64crc
    && Base64.Decode(b64crc) == Some(Crc32.BeBytes(Crc32.Hash(Utf8.Encode(b64body))))
    && Base64.Decode(b64body) == Some(json) && Names(e, json, t) && NamesKem(e, json, t.kemPublicKey)
  }

  ghost predicate IsV2(e: Env, text: string, t: IdentityToken) {
    exists rest, b64body, b64crc, json ::
      text == "agentmsg-id-v2." + rest && Parts(e, rest, t, b64body, b64crc, json)
  }

  ghost predicate IsV1(e: Env, text: string, t: IdentityToken) {
    exists rest, json ::
      && text == "agentmsg-id-v1." + rest && Base64.Decode(rest) == Some(json)
      && Names(e, json, t) && t.kemPublicKey == None
  }

  /** A text decodes exactly if, trimmed, it is a version 2 token whose checksum holds, or a version 1 one. */
  lemma DecodeIff(e: Env, s: string, t: IdentityToken)
    ensures Decode(e, s) == Ok(t) <==> IsV2(e, Text.Trim(s), t) || IsV1(e, Text.Trim(s), t)
  {
    hide DecodeV2, DecodeV1, IsV1, IsV2;
    var text := Text.Trim(s);
    if PREFIX_V2 <= text {
      var rest := text[|PREFIX_V2|..];
      assert text == PREFIX_V2 + rest;
      assert text[13] != PREFIX_V1[13];
      V2Iff(e, rest, t);
      assert !IsV1(e, text, t) by { V1HasPrefix(e, text, t); }
    } else {
      assert !IsV2(e, text, t) by { V2HasPrefix(e, text, t); }
      if PREFIX_V1 <= text {
        var rest := text[|PREFIX_V1|..];
        assert text == PREFIX_V1 + rest;
        V1Iff(e, rest, t);
      } else {
        assert !IsV1(e, text, t) by { V1HasPrefix(e, text, t); }
      }
    }
  }

  lemma V1HasPrefix(e: Env, text: string, t: IdentityToken)
    ensures IsV1(e, text, t) ==> PREFIX_V1 <= text
  {
  }

  lemma V2HasPrefix(e: Env, text: string, t: IdentityToken)
    ensures IsV2(e, text, t) ==> PREFIX_V2 <= text
  {
  }

  lemma SameRest(prefix: string, rest: string, other: string)
    requires prefix + rest == prefix + other
    ensures rest == other
  {
    assert (prefix + rest)[|prefix|..] == rest && (prefix + other)[|prefix|..] == other;
  }

  lemma V1Iff(e: Env, rest: string, t: IdentityToken)
    ensures DecodeV1(e, rest) == Ok(t) <==> IsV1(e, PREFIX_V1 + rest, t)
  {
    forall other: string | PREFIX_V1 + rest == "agentmsg-id-v1." + other
      ensures other == rest
    {
      SameRest(PREFIX_V1, rest, other);
    }
  }

  lemma V2Iff(e: Env, rest: string, t: IdentityToken)
    ensures DecodeV2(e, rest) == Ok(t) <==> IsV2(e, PREFIX_V2 + rest, t)
  {
    hide Parts, DecodeV2;
    if IsV2(e, PREFIX_V2 + rest, t) {
      var other: string, b64body: string, b64crc: string, json :|
        PREFIX_V2 + rest == "agentmsg-id-v2." + other && Parts(e, other, t, b64body, b64crc, json);
      SameRest(PREFIX_V2, rest, other);
      PartsDecode(e, rest, t, b64body, b64crc, json);
    }
    if DecodeV2(e, rest) == Ok(t) {
      var b64body, b64crc, json := DecodedParts(e, rest, t);
      assert PREFIX_V2 + rest == "agentmsg-id-v2." + rest;
    }
  }

  lemma PartsDecode(e: Env, rest: string, t: IdentityToken, b64body: string, b64crc: string, json: Bytes)
    requires Parts(e, rest, t, b64body, b64crc, json)
    ensures DecodeV2(e, rest) == Ok(t)
  {
    hide DecodeBody, Names, NamesKem, Crc32.BeBytes, Crc32.Hash;
    Text.SplitLastOf(b64body, '.', b64crc);
    BodyIff(e, b64body, t);
  }

  lemma DecodedParts(e: Env, rest: string, t: IdentityToken) returns (b64body: string, b64crc: string, json: Bytes)
    requires DecodeV2(e, rest) == Ok(t)
    ensures Parts(e, rest, t, b64body, b64crc, json)
  {
    hide DecodeBody, Names, NamesKem, Crc32.BeBytes, Crc32.Hash;
    Text.SplitLastParts(rest, '.');
    b64body, b64crc := Text.SplitLast(rest, '.').value.0, Text.SplitLast(rest, '.').value.1;
    BodyIff(e, b64body, t);
    json := Base64.Decode(b64body).value;
  }

  lemma BodyIff(e: Env, b64body: string, t: IdentityToken)
    ensures DecodeBody(e, b64body) == Ok(t)
       <==> Base64.Decode(b64body).Some?
            && var json := Base64.Decode(b64body).value; Names(e, json, t) && NamesKem(e, json, t.kemPublicKey)
  {
  }

  /** The record a base64 text holds. */
  function Read(e: Env, b64: string): Option<TokenBody> {
    if Base64.Decode(b64).Some? then e.token.parse(Base64.Decode(b64).value) else None
  }

  predicate Nameless(body: TokenBody) {
    body.name == "" || Base64.Decode(body.pk) == None
  }

  /** Intact by its checksum, but without a name or with a key that is not base64. */
  ghost predicate IntactButInvalid(e: Env, rest: string, b64body: string, b64crc: string) {
    && rest == b64body + "." + b64crc && '.' !in b64crc
    && Base64.Decode(b64crc) == Some(Crc32.BeBytes(Crc32.Hash(Utf8.Encode(b64body))))
    && Read(e, b64body).Some?
    && var body := Read(e, b64body).value;
       Nameless(body)
       || (|Base64.Decode(body.pk).value| == 1952 && body.kemPk.Some? && Base64.Decode(body.kemPk.value) == None)
  }

  /** A text is invalid, not corrupt, for a missing prefix, or for what an intact body holds. */
  lemma InvalidIff(e: Env, s: string)
    ensures var text := Text.Trim(s);
            Decode(e, s) == Err(InvalidToken)
            <==> if "agentmsg-id-v2." <= text then exists b, crc :: IntactButInvalid(e, text[15..], b, crc)
                 else if "agentmsg-id-v1." <= text
                   then Read(e, text[15..]) == None || Nameless(Read(e, text[15..]).value)
                 else true
  {
    hide IntactButInvalid, DecodeV2;
    var text := Text.Trim(s);
    if PREFIX_V2 <= text {
      V2InvalidIff(e, text[15..]);
    }
  }

  lemma V2InvalidIff(e: Env, rest: string)
    ensures DecodeV2(e, rest) == Err(InvalidToken) <==> exists b, crc :: IntactButInvalid(e, rest, b, crc)
  {
    hide Crc32.BeBytes, Crc32.Hash;
    if b, crc :| IntactButInvalid(e, rest, b, crc) {
      Text.SplitLastOf(b, '.', crc);
    }
    if DecodeV2(e, rest) == Err(InvalidToken) {
      Text.SplitLastParts(rest, '.');
      var (b, crc) := Text.SplitLast(rest, '.').value;
      assert IntactButInvalid(e, rest, b, crc);
    }
  }

  // ---------------------------------------------------------------- corruption

  /** Changing any one byte of the encoded body is detected, whatever the byte becomes. */
  lemma OneByteIsRejected(e: Env, t: IdentityToken, i: nat, c: char, before: string, after: string)
    requires Text.IsBlank(before) && Text.IsBlank(after)
    requires i < |Body(e, t)| && c as int < 128 && c != Body(e, t)[i]
    ensures Decode(e, before + (PREFIX_V2 + Body(e, t)[i := c] + "." + Checksum(Body(e, t))) + after)
         == Err(TokenCorrupt)
  {
    var body := Body(e, t);
    hide Body, DecodeBody, Decode, Crc32.BeBytes, Crc32.Hash;
    var changed := body[i := c];
    BodyIsAscii(e, t);
    Utf8.EncodeAscii(body);
    Utf8.EncodeAscii(changed);
    assert Utf8.Encode(changed) == Utf8.Encode(body)[i := c as int];
    Crc32.OneByteChangesHash(Utf8.Encode(body), i, c as int);
    Crc32.BeBytesInjective(Crc32.Hash(Utf8.Encode(changed)), Crc32.Hash(Utf8.Encode(body)));
    DecodeOfV2(e, changed, Crc32.BeBytes(Crc32.Hash(Utf8.Encode(body))), before, after);
  }

  lemma BodyIsAscii(e: Env, t: IdentityToken)
    ensures Utf8.IsAscii(Body(e, t))
  {
    var kem := match t.kemPublicKey { case None => None case Some(k) => Option.Some(Base64.Encode(k)) };
    Base64.EncodeAlphabet(e.token.write(TokenBody(t.name, Base64.Encode(t.publicKey), kem)));
    assert forall i | 0 <= i < |Body(e, t)| :: Body(e, t)[i] in Body(e, t);
  }

  /** A v2 token relabelled as v1, to skip the checksum, is rejected: the separator is not a base64 digit. */
  lemma RelabelledIsRejected(e: Env, t: IdentityToken, before: string, after: string)
    requires Text.IsBlank(before) && Text.IsBlank(after)
    ensures Decode(e, before + (PREFIX_V1 + Encode(e, t)[|PREFIX_V2|..]) + after) == Err(InvalidToken)
  {
    hide Body, Crc32.BeBytes, Crc32.Hash;
    var body, tail := Body(e, t), Checksum(Body(e, t));
    var rest := Encode(e, t)[|PREFIX_V2|..];
    assert rest == body + "." + tail;
    assert rest[|body|] == '.';
    var s := PREFIX_V1 + rest;
    Digits(Crc32.BeBytes(Crc32.Hash(Utf8.Encode(body))));
    assert s[|s| - 1] == '.' || s[|s| - 1] in tail;
    Text.TrimOf(before, s, after);
    assert s[|PREFIX_V1|..] == rest;
    assert s[13] != PREFIX_V2[13];
    assert '.' in rest && !Base64.InAlphabet('.');
  }
}
