/**
  One ideal instance of the library code: a signature is the pair of key and message, sealing appends an empty tag,
  and records print as escaped fields. It satisfies every law the proofs assume.
 */
module Ideal {
  import opened Prelude
  import opened Wire
  import opened Env
  import Base64
  import Utf8

  // ---------------------------------------------------------------- fields

  /** Every character is announced; a dot ends the field. */
  function Field(f: string): string {
    if f == "" then "." else ['x', f[0]] + Field(f[1..])
  }

  function Join(fs: seq<string>): string {
    if fs == [] then "" else Field(fs[0]) + Join(fs[1..])
  }

  function Split(s: string, field: string): seq<string>
    decreases |s|
  {
    if s == "" then []
    else if s[0] == 'x' && |s| > 1 then Split(s[2..], field + [s[1]])
    else [field] + Split(s[1..], "")
  }

  lemma {:induction false} SplitField(f: string, rest: string, field: string)
    ensures Split(Field(f) + rest, field) == [field + f] + Split(rest, "")
    decreases |f|
  {
    if f == "" {
      assert (Field(f) + rest)[1..] == rest;
      assert field + f == field;
    } else {
      assert (Field(f) + rest)[2..] == Field(f[1..]) + rest;
      SplitField(f[1..], rest, field + [f[0]]);
      assert field + [f[0]] + f[1..] == field + f;
    }
  }

  lemma {:induction false} SplitJoin(fs: seq<string>)
    ensures Split(Join(fs), "") == fs
  {
    if fs != [] {
      SplitField(fs[0], Join(fs[1..]), "");
      SplitJoin(fs[1..]);
      assert "" + fs[0] == fs[0];
    }
  }

  function Opt(o: Option<string>): string {
    match o
    case None => ""
    case Some(s) => "s" + s
  }

  function UnOpt(s: string): (o: Option<string>)
    ensures s == "" ==> o == None
  {
    if s == "" then None else Some(s[1..])
  }

  lemma OptRoundTrip(o: Option<string>)
    ensures UnOpt(Opt(o)) == o
  {
    if o.Some? {
      assert Opt(o)[1..] == o.value;
    }
  }

  function IntText(n: int): string {
    if n >= 0 then "+" + seq(n, i => '1') else "-" + seq(-n, i => '1')
  }

  function TextInt(s: string): int {
    if s == "" then 0 else if s[0] == '-' then 1 - |s| else |s| - 1
  }

  lemma IntRoundTrip(n: int)
    ensures TextInt(IntText(n)) == n
  {
  }

  function At(fs: seq<string>, i: nat): string {
    if i < |fs| then fs[i] else ""
  }

  // ---------------------------------------------------------------- records

  function WriteEnc(x: EncInfo): string {
    Join([x.alg, x.kemCt, x.recipientKid, x.nonce, x.ptype])
  }

  function ReadEnc(s: string): EncInfo {
    var fs := Split(s, "");
    EncInfo(At(fs, 0), At(fs, 1), At(fs, 2), At(fs, 3), At(fs, 4))
  }

  function WriteSigned(x: SignedGrant): string {
    Join([x.alg, x.authorityKid, x.grant, x.sig])
  }

  function ReadSigned(s: string): SignedGrant {
    var fs := Split(s, "");
    SignedGrant(At(fs, 0), At(fs, 1), At(fs, 2), At(fs, 3))
  }

  function WriteReceipt(x: ReceiptInfo): string {
    Join([x.refId, if x.status.Delivered? then "d" else "r"])
  }

  function ReadReceipt(s: string): ReceiptInfo {
    var fs := Split(s, "");
    ReceiptInfo(At(fs, 0), if At(fs, 1) == "d" then Delivered else ReceiptStatus.Read)
  }

  function WriteKind(k: MsgKind): string {
    match k
    case Message => "1"
    case Command => "2"
    case Query => "3"
    case Result => "4"
    case Ack => "5"
    case Error => "6"
    case Grant => "7"
    case Receipt => "8"
  }

  function ReadKind(s: string): MsgKind {
    if s == "1" then Message else if s == "2" then Command else if s == "3" then Query
    else if s == "4" then MsgKind.Result else if s == "5" then Ack else if s == "6" then Error
    else if s == "7" then Grant else Receipt
  }

  function MapOpt<T>(o: Option<T>, f: T -> string): Option<string> {
    match o
    case None => None
    case Some(x) => Some(f(x))
  }

  function UnMapOpt<T>(o: Option<string>, f: string -> T): Option<T> {
    match o
    case None => None
    case Some(x) => Some(f(x))
  }

  function WriteInner(x: Inner): string {
    Join([x.id, IntText(x.v), x.from, x.to, x.ts, x.nonce, x.ctype, Opt(x.inReplyTo), x.body, WriteKind(x.kind),
          Opt(x.correlationId), Opt(x.supersedes), Opt(MapOpt(x.enc, WriteEnc)), Opt(MapOpt(x.grant, WriteSigned)),
          Opt(MapOpt(x.receipt, WriteReceipt))])
  }

  function ByteOf(n: int): byte {
    if 0 <= n < 256 then n else 0
  }

  function ReadInner(s: string): Inner {
    var fs := Split(s, "");
    Inner(At(fs, 0), ByteOf(TextInt(At(fs, 1))), At(fs, 2), At(fs, 3), At(fs, 4), At(fs, 5), At(fs, 6),
          UnOpt(At(fs, 7)), At(fs, 8), ReadKind(At(fs, 9)), UnOpt(At(fs, 10)), UnOpt(At(fs, 11)),
          UnMapOpt(UnOpt(At(fs, 12)), ReadEnc),
          UnMapOpt(UnOpt(At(fs, 13)), ReadSigned), UnMapOpt(UnOpt(At(fs, 14)), ReadReceipt))
  }

  lemma EncRoundTrip(x: EncInfo)
    ensures ReadEnc(WriteEnc(x)) == x
  {
    hide Split, Join;
    SplitJoin([x.alg, x.kemCt, x.recipientKid, x.nonce, x.ptype]);
  }

  lemma SignedRoundTrip(x: SignedGrant)
    ensures ReadSigned(WriteSigned(x)) == x
  {
    hide Split, Join;
    SplitJoin([x.alg, x.authorityKid, x.grant, x.sig]);
  }

  lemma ReceiptRoundTrip(x: ReceiptInfo)
    ensures ReadReceipt(WriteReceipt(x)) == x
  {
    hide Split, Join;
    SplitJoin([x.refId, if x.status.Delivered? then "d" else "r"]);
  }

  lemma KindRoundTrip(k: MsgKind)
    ensures ReadKind(WriteKind(k)) == k
  {
  }

  lemma InnerRoundTrip(x: Inner)
    ensures ReadInner(WriteInner(x)) == x
  {
    hide Split, Join, Opt, UnOpt, IntText, TextInt, ReadKind, WriteKind, ReadEnc, WriteEnc, ReadSigned, WriteSigned,
      ReadReceipt, WriteReceipt;
    SplitJoin([x.id, IntText(x.v), x.from, x.to, x.ts, x.nonce, x.ctype, Opt(x.inReplyTo), x.body, WriteKind(x.kind),
               Opt(x.correlationId), Opt(x.supersedes), Opt(MapOpt(x.enc, WriteEnc)), Opt(MapOpt(x.grant, WriteSigned)),
               Opt(MapOpt(x.receipt, WriteReceipt))]);
    IntRoundTrip(x.v);
    KindRoundTrip(x.kind);
    OptRoundTrip(x.inReplyTo);
    OptRoundTrip(x.correlationId);
    OptRoundTrip(x.supersedes);
    OptRoundTrip(MapOpt(x.enc, WriteEnc));
    OptRoundTrip(MapOpt(x.grant, WriteSigned));
    OptRoundTrip(MapOpt(x.receipt, WriteReceipt));
    if x.enc.Some? {
      EncRoundTrip(x.enc.value);
    }
    if x.grant.Some? {
      SignedRoundTrip(x.grant.value);
    }
    if x.receipt.Some? {
      ReceiptRoundTrip(x.receipt.value);
    }
  }

  function WriteWrapper(x: Wrapper): string {
    Join([IntText(x.v), x.alg, Opt(x.kid), x.msg, Opt(x.sig)])
  }

  function ReadWrapper(s: string): Wrapper {
    var fs := Split(s, "");
    Wrapper(ByteOf(TextInt(At(fs, 0))), At(fs, 1), UnOpt(At(fs, 2)), At(fs, 3), UnOpt(At(fs, 4)))
  }

  lemma WrapperRoundTrip(x: Wrapper)
    ensures ReadWrapper(WriteWrapper(x)) == x
  {
    hide Split, Join, Opt, UnOpt, IntText, TextInt;
    SplitJoin([IntText(x.v), x.alg, Opt(x.kid), x.msg, Opt(x.sig)]);
    IntRoundTrip(x.v);
    OptRoundTrip(x.kid);
    OptRoundTrip(x.sig);
  }

  function WriteClaims(x: GrantClaims): string {
    Join([x.id, x.action, x.scope, x.subject, x.expiry, x.nonce])
  }

  function ReadClaims(s: string): GrantClaims {
    var fs := Split(s, "");
    GrantClaims(At(fs, 0), At(fs, 1), At(fs, 2), At(fs, 3), At(fs, 4), At(fs, 5))
  }

  lemma ClaimsRoundTrip(x: GrantClaims)
    ensures ReadClaims(WriteClaims(x)) == x
  {
    hide Split, Join;
    SplitJoin([x.id, x.action, x.scope, x.subject, x.expiry, x.nonce]);
  }

  function WriteToken(x: TokenBody): string {
    Join([x.name, x.pk, Opt(x.kemPk)])
  }

  function ReadToken(s: string): TokenBody {
    var fs := Split(s, "");
    TokenBody(At(fs, 0), At(fs, 1), UnOpt(At(fs, 2)))
  }

  lemma TokenBodyRoundTrip(x: TokenBody)
    ensures ReadToken(WriteToken(x)) == x
  {
    hide Split, Join, Opt, UnOpt;
    SplitJoin([x.name, x.pk, Opt(x.kemPk)]);
    OptRoundTrip(x.kemPk);
  }

  function WritePair(x: PairBody): string {
    Join([x.name, x.pk, Opt(x.kemPk)])
  }

  function ReadPair(s: string): PairBody {
    var fs := Split(s, "");
    PairBody(At(fs, 0), At(fs, 1), UnOpt(At(fs, 2)))
  }

  lemma PairRoundTrip(x: PairBody)
    ensures ReadPair(WritePair(x)) == x
  {
    hide Split, Join, Opt, UnOpt;
    SplitJoin([x.name, x.pk, Opt(x.kemPk)]);
    OptRoundTrip(x.kemPk);
  }

  function WriteBeacon(x: PresenceBeacon): string {
    Join([x.state, x.source, IntText(x.ttlSecs), IntText(x.beat), Opt(x.detail)])
  }

  function ReadBeacon(s: string): PresenceBeacon {
    var fs := Split(s, "");
    PresenceBeacon(At(fs, 0), At(fs, 1), TextInt(At(fs, 2)), TextInt(At(fs, 3)), UnOpt(At(fs, 4)))
  }

  lemma BeaconRoundTrip(x: PresenceBeacon)
    ensures ReadBeacon(WriteBeacon(x)) == x
  {
    hide Split, Join, Opt, UnOpt, IntText, TextInt;
    SplitJoin([x.state, x.source, IntText(x.ttlSecs), IntText(x.beat), Opt(x.detail)]);
    IntRoundTrip(x.ttlSecs);
    IntRoundTrip(x.beat);
    OptRoundTrip(x.detail);
  }

  // ---------------------------------------------------------------- the instance

  function InBytes<T>(write: T -> string, read: string -> T): Codec<T, Bytes> {
    Codec(x => Utf8.Encode(write(x)),
          b => match Utf8.Decode(b) case Some(s) => Some(read(s)) case None => None)
  }

  function InText<T>(write: T -> string, read: string -> T): Codec<T, string> {
    Codec(write, s => Some(read(s)))
  }

  lemma BytesInvert<T(!new)>(write: T -> string, read: string -> T)
    requires forall x :: read(write(x)) == x
    ensures Inverts(InBytes(write, read))
  {
    forall x: T
      ensures InBytes(write, read).parse(InBytes(write, read).write(x)) == Some(x)
    {
      Utf8.DecodeIff(Utf8.Encode(write(x)), write(x));
    }
  }

  const TAG: Bytes := seq(16, i => 0)

  function Signature(pk: Bytes, m: Bytes): Bytes {
    Utf8.Encode(Join([Base64.Encode(pk), Base64.Encode(m)]))
  }

  function Unseal(ct: Bytes): Option<Bytes> {
    if |ct| < 16 then None else Some(ct[..|ct| - 16])
  }

  function ParseTime(s: string): Option<int> {
    if s == IntText(TextInt(s)) then Some(TextInt(s)) else None
  }

  function Instance(): Env {
    Env(sk => sk, (sk, m) => Signature(sk, m), (pk, m, sig) => sig == Signature(pk, m),
        dk => dk, (ek, r) => Some((r, ek + r)), (dk, ct) => Some(dk + ct),
        (k, n, a, p) => p + TAG, (k, n, a, ct) => Unseal(ct),
        pk => Base64.Encode(pk), (a, b) => Base64.Encode(a + b),
        t => Some(IntText(t)), s => ParseTime(s),
        InBytes(WriteInner, ReadInner), InBytes(WriteWrapper, ReadWrapper), InBytes(WriteClaims, ReadClaims),
        InBytes(WriteSigned, ReadSigned), InBytes(WriteToken, ReadToken), InText(WritePair, ReadPair),
        InText(WriteBeacon, ReadBeacon))
  }

  /** The laws can be met. */
  lemma InstanceIsLawful()
    ensures Laws(Instance())
  {
    assert AeadLaw(Instance()) by { SealingIsLawful(); }
    assert TimeLaw(Instance()) by { TimeIsLawful(); }
    assert JsonLaw(Instance()) by { JsonIsLawful(); }
    assert SignatureLaw(Instance()) && KemLaw(Instance());
  }

  lemma SealingIsLawful()
    ensures AeadLaw(Instance())
  {
    forall p: Bytes
      ensures |p + TAG| == |p| + 16 && Unseal(p + TAG) == Some(p)
    {
      assert (p + TAG)[..|p|] == p;
    }
  }

  lemma TimeIsLawful()
    ensures TimeLaw(Instance())
  {
    forall t: int
      ensures ParseTime(IntText(t)) == Some(t)
    {
      IntRoundTrip(t);
    }
  }

  lemma JsonIsLawful()
    ensures JsonLaw(Instance())
  {
    hide ReadInner, WriteInner, ReadWrapper, WriteWrapper, ReadClaims, WriteClaims, ReadSigned, WriteSigned, ReadToken,
      WriteToken, ReadPair, WritePair, ReadBeacon, WriteBeacon;
    forall x { InnerRoundTrip(x); }
    forall x { WrapperRoundTrip(x); }
    forall x { ClaimsRoundTrip(x); }
    forall x { SignedRoundTrip(x); }
    forall x { TokenBodyRoundTrip(x); }
    forall x { PairRoundTrip(x); }
    forall x { BeaconRoundTrip(x); }
    BytesInvert(WriteInner, ReadInner);
    BytesInvert(WriteWrapper, ReadWrapper);
    BytesInvert(WriteClaims, ReadClaims);
    BytesInvert(WriteSigned, ReadSigned);
    BytesInvert(WriteToken, ReadToken);
  }
}
