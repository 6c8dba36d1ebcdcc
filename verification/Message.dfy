/** Building outbound messages and verifying inbound ones (src/message.rs). */
module Message {
  import opened Prelude
  import opened Wire
  import opened Env
  import Base64
  import Grant
  import Trust
  import Utf8

  type Nonce12 = b: Bytes | |b| == 12 witness [0, 0, 0, 0, 0, 0, 0, 0, 0, 0, 0, 0]

  /** The configuration values the ingest path reads (src/config.rs). */
  datatype Config = Config(
    freshnessSecs: int, maxPayload: nat, allowUnsigned: bool, acceptV1: bool, autoReceipts: bool,
    maxMessages: nat, maxBytes: nat)

  datatype BuildOpts = BuildOpts(
    to: string, ctype: string, body: string, kind: MsgKind, inReplyTo: Option<string>,
    correlationId: Option<string>, supersedes: Option<string>, grant: Option<SignedGrant>,
    receipt: Option<ReceiptInfo>, encryptTo: Option<Bytes>, unsigned: bool)

  /** What `build` draws from the clock and the random generator. */
  datatype Draw = Draw(id: string, now: int, nonce: Bytes, kemSeed: Bytes, aeadNonce: Nonce12)

  function DefaultOpts(to: string, ctype: string, body: string): BuildOpts {
    BuildOpts(to, ctype, body, Message, None, None, None, None, None, None, false)
  }

  function Timestamp(e: Env, now: int): string {
    match e.formatTime(now)
    case Some(s) => s
    case None => "1970-01-01T00:00:00Z"
  }

  function Aad(inner: Inner): string {
    inner.id + "|" + inner.from + "|" + inner.to + "|" + inner.ts
  }

  /** The message before encryption. */
  function Draft(e: Env, me: Identity, opts: BuildOpts, d: Draw): Inner {
    Inner(d.id, PROTOCOL_VERSION, me.name, opts.to, Timestamp(e, d.now), Base64.Encode(d.nonce), opts.ctype,
          opts.inReplyTo, opts.body, opts.kind, opts.correlationId, opts.supersedes, None, opts.grant, opts.receipt)
  }

  function Sealed(e: Env, inner: Inner, ek: Bytes, kemCt: Bytes, secret: Bytes, nonce: Nonce12): Inner {
    var ct := e.seal(secret, nonce, Utf8.Encode(Aad(inner)), Utf8.Encode(inner.body));
    inner.(enc := Some(EncInfo(ALG_KEM_AEAD, Base64.Encode(kemCt), e.fingerprint(ek), Base64.Encode(nonce),
                               inner.ctype)),
           ctype := ALG_KEM_AEAD,
           body := Base64.Encode(ct))
  }

  /** The message as transmitted. */
  function BuildInner(e: Env, me: Identity, opts: BuildOpts, d: Draw): Result<Inner, RejectReason> {
    var inner := Draft(e, me, opts, d);
    match opts.encryptTo
    case None => Ok(inner)
    case Some(ek) =>
      if opts.to == BROADCAST then Err(EncBroadcastUnsupported)
      else
        match e.encapsulate(ek, d.kemSeed)
        case None => Err(UnknownRecipientKey)
        case Some((kemCt, secret)) => Ok(Sealed(e, inner, ek, kemCt, secret, d.aeadNonce))
  }

  /** The wrapper over the exact inner bytes, signed or not. */
  function Wrap(e: Env, me: Identity, inner: Inner, unsigned: bool): Wrapper {
    var bytes := e.inner.write(inner);
    if unsigned then Wrapper(PROTOCOL_VERSION, ALG_NONE, None, Base64.Encode(bytes), None)
    else
      Wrapper(PROTOCOL_VERSION, ALG_ML_DSA_65, Some(MakeKid(me.name, e.fingerprint(e.pkOf(me.sk)))),
              Base64.Encode(bytes), Some(Base64.Encode(e.sign(me.sk, bytes))))
  }

  /** `build`, which fills in the message and then overwrites body, content type and encryption data when sealing. */
  method Build(e: Env, me: Identity, opts: BuildOpts, d: Draw) returns (r: Result<(Inner, Wrapper), RejectReason>)
    ensures match BuildInner(e, me, opts, d)
            case Err(reason) => r == Err(reason)
            case Ok(inner) => r == Ok((inner, Wrap(e, me, inner, opts.unsigned)))
  {
    if opts.encryptTo.Some? && opts.to == BROADCAST {
      return Err(EncBroadcastUnsupported);
    }
    var inner := Inner(d.id, PROTOCOL_VERSION, me.name, opts.to, Timestamp(e, d.now), Base64.Encode(d.nonce),
                       opts.ctype, opts.inReplyTo, opts.body, opts.kind, opts.correlationId, opts.supersedes, None,
                       opts.grant, opts.receipt);
    if opts.encryptTo.Some? {
      var ek := opts.encryptTo.value;
      var encapsulated := e.encapsulate(ek, d.kemSeed);
      if encapsulated.None? {
        return Err(UnknownRecipientKey);
      }
      var (kemCt, secret) := encapsulated.value;
      var ct := e.seal(secret, d.aeadNonce, Utf8.Encode(Aad(inner)), Utf8.Encode(opts.body));
      inner := inner.(enc := Some(EncInfo(ALG_KEM_AEAD, Base64.Encode(kemCt), e.fingerprint(ek),
                                          Base64.Encode(d.aeadNonce), opts.ctype)));
      inner := inner.(ctype := ALG_KEM_AEAD);
      inner := inner.(body := Base64.Encode(ct));
    }
    return Ok((inner, Wrap(e, me, inner, opts.unsigned)));
  }

  const NANOS := 1_000_000_000

  /** `Duration::whole_seconds`: truncation toward zero. */
  function WholeSeconds(nanos: int): int {
    if nanos >= 0 then nanos / NANOS else -(-nanos / NANOS)
  }

  predicate FreshEnough(e: Env, ts: string, freshnessSecs: int, now: int) {
    freshnessSecs <= 0 ||
    match e.parseTime(ts)
    case Some(t) => Abs(WholeSeconds(now - t)) <= freshnessSecs
    case None => false
  }

  /** Whole-second truncation widens the window by almost a second on each side. */
  lemma FreshIff(e: Env, ts: string, freshnessSecs: int, now: int)
    requires freshnessSecs > 0
    ensures FreshEnough(e, ts, freshnessSecs, now)
       <==> e.parseTime(ts).Some? && Abs(now - e.parseTime(ts).value) < (freshnessSecs + 1) * NANOS
  {
  }

  /** The clock readings of one ingest: freshness, grant expiry, and the daemon's second grant check. */
  datatype Readings = Readings(freshAt: int, grantAt: int, guardAt: int)

  function Decrypt(e: Env, me: Identity, inner: Inner, enc: EncInfo): Result<Inner, RejectReason> {
    if enc.recipientKid != e.fingerprint(e.ekOf(me.dk)) then Err(UnknownRecipientKey)
    else
      match Base64.Decode(enc.kemCt)
      case None => Err(DecryptFailed)
      case Some(kemCt) =>
        match (e.decapsulate(me.dk, kemCt), Base64.Decode(enc.nonce), Base64.Decode(inner.body))
        case (Some(secret), Some(nonce), Some(ct)) =>
          if |nonce| != 12 then Err(DecryptFailed)
          else
            (match e.unseal(secret, nonce, Utf8.Encode(Aad(inner)), ct)
             case None => Err(DecryptFailed)
             case Some(pt) =>
               match Utf8.Decode(pt)
               case None => Err(DecryptFailed)
               case Some(body) => Ok(inner.(body := body, ctype := enc.ptype)))
        case (_, _, _) => Err(DecryptFailed)
  }

  predicate WithinLimit(inner: Inner, cfg: Config) {
    |Utf8.Encode(inner.body)| <= cfg.maxPayload
  }

  /** The post-verification pipeline as a chain of decisions. */
  function Finalized(e: Env, inner: Inner, me: Identity, trust: Trust.Trust, cfg: Config, t: Readings)
    : Result<Inner, RejectReason>
  {
    if !WithinLimit(inner, cfg) then Err(TooLarge)
    else if !FreshEnough(e, inner.ts, cfg.freshnessSecs, t.freshAt) then Err(Stale)
    else
      match (if inner.enc.Some? then Decrypt(e, me, inner, inner.enc.value) else Ok(inner))
      case Err(reason) => Err(reason)
      case Ok(plain) =>
        match plain.grant
        case None => Ok(plain)
        case Some(sg) =>
          match Grant.Verify(e, sg, trust, t.grantAt)
          case Err(reason) => Err(reason)
          case Ok(claims) => if claims.subject != plain.from then Err(GrantSubjectMismatch) else Ok(plain)
  }

  /** `finalize`, which replaces body and content type of the message it was given. */
  method Finalize(e: Env, received: Inner, me: Identity, trust: Trust.Trust, cfg: Config, t: Readings)
    returns (r: Result<Inner, RejectReason>)
    ensures r == Finalized(e, received, me, trust, cfg, t)
  {
    var inner := received;
    if |Utf8.Encode(inner.body)| > cfg.maxPayload {
      return Err(TooLarge);
    }
    if !FreshEnough(e, inner.ts, cfg.freshnessSecs, t.freshAt) {
      return Err(Stale);
    }
    if inner.enc.Some? {
      var enc := inner.enc.value;
      if enc.recipientKid != e.fingerprint(e.ekOf(me.dk)) {
        return Err(UnknownRecipientKey);
      }
      var kemCt := Base64.Decode(enc.kemCt);
      if kemCt.None? {
        return Err(DecryptFailed);
      }
      var secret := e.decapsulate(me.dk, kemCt.value);
      var nonce := Base64.Decode(enc.nonce);
      if secret.None? || nonce.None? || |nonce.value| != 12 {
        return Err(DecryptFailed);
      }
      var ct := Base64.Decode(inner.body);
      if ct.None? {
        return Err(DecryptFailed);
      }
      var pt := e.unseal(secret.value, nonce.value, Utf8.Encode(Aad(inner)), ct.value);
      if pt.None? || Utf8.Decode(pt.value).None? {
        return Err(DecryptFailed);
      }
      inner := inner.(body := Utf8.Decode(pt.value).value);
      inner := inner.(ctype := enc.ptype);
    }
    if inner.grant.Some? {
      var checked := Grant.Verify(e, inner.grant.value, trust, t.grantAt);
      if checked.Err? {
        return Err(checked.error);
      }
      if checked.value.subject != inner.from {
        return Err(GrantSubjectMismatch);
      }
    }
    return Ok(inner);
  }

  /** The inner message a payload carries, if both layers parse. */
  function Unwrap(e: Env, raw: Bytes): Option<Inner> {
    match e.wrapper.parse(raw)
    case None => None
    case Some(w) => UnwrapInner(e, w)
  }

  function UnwrapInner(e: Env, w: Wrapper): Option<Inner> {
    match Base64.Decode(w.msg)
    case None => None
    case Some(bytes) => e.inner.parse(bytes)
  }

  function ClaimedSender(w: Wrapper): Option<string> {
    if w.kid.Some? && SplitKid(w.kid.value).Some? then Some(SplitKid(w.kid.value).value.0) else None
  }

  /** The signature checks on a parsed wrapper: version, algorithm, signer, signature, sender. */
  function Authenticate(e: Env, w: Wrapper, trust: Trust.Trust, cfg: Config): Result<Inner, RejectReason> {
    if w.v == 1 && !cfg.acceptV1 then Err(UnsupportedVersion(1))
    else if w.v != 1 && w.v != PROTOCOL_VERSION then Err(UnsupportedVersion(w.v))
    else if w.alg == ALG_NONE then
      if !cfg.allowUnsigned then Err(UnsignedNotAllowed)
      else
        match UnwrapInner(e, w)
        case None => Err(MalformedWrapper)
        case Some(inner) =>
          if Trust.PublicKey(trust, inner.from).Some? then Err(DowngradeRejected) else Ok(inner)
    else if w.alg == ALG_ML_DSA_65 then
      if w.kid.None? || SplitKid(w.kid.value).None? then Err(MalformedWrapper)
      else
        var (name, fp) := SplitKid(w.kid.value).value;
        match Trust.PublicKey(trust, name)
        case None => Err(UnknownSigner)
        case Some(pk) =>
          if fp != e.fingerprint(pk) then Err(KidMismatch)
          else
            match (Base64.Decode(w.msg), if w.sig.Some? then Base64.Decode(w.sig.value) else None)
            case (Some(bytes), Some(sig)) =>
              if !e.verify(pk, bytes, sig) then Err(InvalidSignature)
              else
                (match e.inner.parse(bytes)
                 case None => Err(MalformedWrapper)
                 case Some(inner) => if inner.from != name then Err(KidMismatch) else Ok(inner))
            case (_, _) => Err(MalformedWrapper)
    else Err(UnsupportedAlg(w.alg))
  }

  function VerifyIncoming(e: Env, raw: Bytes, me: Identity, trust: Trust.Trust, cfg: Config, t: Readings)
    : Result<Inner, RejectInfo>
  {
    match e.wrapper.parse(raw)
    case None => Err(RejectInfo(MalformedWrapper, None))
    case Some(w) =>
      match Authenticate(e, w, trust, cfg)
      case Err(reason) => Err(RejectInfo(reason, ClaimedSender(w)))
      case Ok(inner) =>
        match Finalized(e, inner, me, trust, cfg, t)
        case Err(reason) => Err(RejectInfo(reason, ClaimedSender(w)))
        case Ok(plain) => Ok(plain)
  }

  /** `build_pair` */
  function PairOpts(e: Env, me: Identity): BuildOpts {
    DefaultOpts(BROADCAST, CTYPE_PAIR,
                e.pair.write(PairBody(me.name, Base64.Encode(e.pkOf(me.sk)), Some(Base64.Encode(e.ekOf(me.dk))))))
  }

  function VerifyPair(e: Env, raw: Bytes): Result<PairHello, RejectReason> {
    match e.wrapper.parse(raw)
    case None => Err(MalformedWrapper)
    case Some(w) =>
      if w.alg != ALG_ML_DSA_65 then Err(PairSelfSigInvalid)
      else
        match Base64.Decode(w.msg)
        case None => Err(MalformedWrapper)
        case Some(bytes) =>
          match e.inner.parse(bytes)
          case None => Err(MalformedWrapper)
          case Some(inner) =>
            if inner.ctype != CTYPE_PAIR then Err(MalformedWrapper)
            else
              match e.pair.parse(inner.body)
              case None => Err(MalformedWrapper)
              case Some(body) => VerifyPairBody(e, w, bytes, inner, body)
  }

  function VerifyPairBody(e: Env, w: Wrapper, bytes: Bytes, inner: Inner, body: PairBody)
    : Result<PairHello, RejectReason>
  {
    match (Base64.Decode(body.pk), if w.sig.Some? then Base64.Decode(w.sig.value) else None)
    case (Some(pk), Some(sig)) =>
      if !e.verify(pk, bytes, sig) then Err(PairSelfSigInvalid)
      else if w.kid.None? || SplitKid(w.kid.value).None? then Err(MalformedWrapper)
      else
        var (name, fp) := SplitKid(w.kid.value).value;
        if fp != e.fingerprint(pk) then Err(PairSelfSigInvalid)
        else if name != body.name || inner.from != body.name then Err(MalformedWrapper)
        else
          (match body.kemPk
           case None => Ok(PairHello(body.name, pk, None))
           case Some(k) =>
             match Base64.Decode(k)
             case None => Err(MalformedWrapper)
             case Some(kem) => Ok(PairHello(body.name, pk, Some(kem))))
    case (_, _) => Err(MalformedWrapper)
  }
}
