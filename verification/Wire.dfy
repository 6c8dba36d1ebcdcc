/** Envelope types and key ids (src/wire.rs, src/error.rs). */
module Wire {
  import opened Prelude
  import Text

  const PROTOCOL_VERSION: byte := 2
  const ALG_ML_DSA_65 := "ML-DSA-65"
  const ALG_NONE := "none"
  const ALG_KEM_AEAD := "ML-KEM-768.AES-256-GCM"
  const BROADCAST := "*"
  const CTYPE_PRESENCE := "application/agentmsg-presence"
  const CTYPE_RECEIPT := "application/agentmsg-receipt"
  const CTYPE_PAIR := "application/agentmsg-pair"

  datatype MsgKind = Message | Command | Query | Result | Ack | Error | Grant | Receipt

  datatype ReceiptStatus = Delivered | Read

  datatype ReceiptInfo = ReceiptInfo(refId: string, status: ReceiptStatus)

  datatype EncInfo = EncInfo(alg: string, kemCt: string, recipientKid: string, nonce: string, ptype: string)

  datatype SignedGrant = SignedGrant(alg: string, authorityKid: string, grant: string, sig: string)

  datatype Wrapper = Wrapper(v: byte, alg: string, kid: Option<string>, msg: string, sig: Option<string>)

  datatype Inner = Inner(
    id: string, v: byte, from: string, to: string, ts: string, nonce: string, ctype: string,
    inReplyTo: Option<string>, body: string, kind: MsgKind, correlationId: Option<string>,
    supersedes: Option<string>, enc: Option<EncInfo>, grant: Option<SignedGrant>, receipt: Option<ReceiptInfo>)

  datatype GrantClaims = GrantClaims(
    id: string, action: string, scope: string, subject: string, expiry: string, nonce: string)

  datatype PairBody = PairBody(name: string, pk: string, kemPk: Option<string>)

  datatype PairHello = PairHello(name: string, publicKey: Bytes, kemPublicKey: Option<Bytes>)

  datatype TokenBody = TokenBody(name: string, pk: string, kemPk: Option<string>)

  datatype PresenceBeacon = PresenceBeacon(
    state: string, source: string, ttlSecs: int, beat: int, detail: Option<string>)

  datatype RejectReason =
    | MalformedWrapper | UnsupportedVersion(v: byte) | UnsupportedAlg(alg: string) | UnknownSigner | KidMismatch
    | InvalidSignature | Stale | TooLarge | UnsignedNotAllowed | DowngradeRejected | UnknownAuthority
    | InvalidGrant | GrantExpired | GrantSubjectMismatch | DecryptFailed | UnknownRecipientKey
    | EncBroadcastUnsupported | ReplayedGrant | PairSelfSigInvalid

  datatype RejectInfo = RejectInfo(reason: RejectReason, claimedSender: Option<string>)

  /** `make_kid`, given the fingerprint of the public key. */
  function MakeKid(name: string, fingerprint: string): string {
    name + "#" + fingerprint
  }

  function SplitKid(kid: string): Option<(string, string)> {
    Text.SplitFirst(kid, '#')
  }

  /** A key id splits back into its parts exactly when the name is free of the separator. */
  lemma KidRoundTrip(name: string, fp: string)
    ensures SplitKid(MakeKid(name, fp)) == Some((name, fp)) <==> '#' !in name
  {
    Text.SplitFirstIff(MakeKid(name, fp), '#', name, fp);
  }

  /** A valid name makes key ids that split back, so that its keys are found under it. */
  lemma ValidNamesSplit(name: string, fp: string)
    requires ValidName(name)
    ensures name != "" && SplitKid(MakeKid(name, fp)) == Some((name, fp))
    ensures forall c | c in name :: '!' <= c && !('\U{007F}' <= c <= '\U{00A0}')
  {
    KidRoundTrip(name, fp);
  }

  /** Printable ASCII without a separator is a valid name. */
  lemma PlainNamesAreValid(name: string)
    requires name != "" && forall c | c in name :: '!' <= c <= '~' && c != '#'
    ensures ValidName(name)
  {
  }

  predicate IsControl(c: char) {
    var n := c as int;
    n < 0x20 || 0x7F <= n < 0xA0
  }

  /** `validate_name` */
  predicate ValidName(name: string) {
    name != "" && '#' !in name && forall c | c in name :: !Text.IsWhitespace(c) && !IsControl(c)
  }
}
