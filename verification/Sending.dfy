/** What a send request is turned into, and what it asked for (src/daemon.rs:815-910). */
module Sending {
  import opened Prelude
  import opened Wire
  import opened Env
  import opened Message
  import opened MessageProofs
  import Grant
  import Trust
  import Utf8

  datatype SendParams = SendParams(
    to: string, ctype: string, body: string, inReplyTo: Option<string>, topic: Option<string>, kind: MsgKind,
    correlationId: Option<string>, supersedes: Option<string>, encrypt: bool, grant: Option<string>, unsigned: bool)

  datatype SendFailure =
    | UnknownTopic | NoTopic | BodyTooLarge | BadGrantToken | NoRecipientKey
    | BuildFailed(reason: RejectReason)

  datatype SendReply = Sent(id: string, published: bool) | Refusal(failure: SendFailure)

  function ChooseTopic(topic: Option<string>, topics: seq<string>): Result<string, SendFailure> {
    match topic
    case Some(t) => if t in topics then Ok(t) else Err(UnknownTopic)
    case None => if topics == [] then Err(NoTopic) else Ok(topics[0])
  }

  function ResolveGrant(e: Env, token: Option<string>): Result<Option<SignedGrant>, SendFailure> {
    match token
    case None => Ok(None)
    case Some(t) =>
      match Grant.DecodeToken(e, t)
      case Some(sg) => Ok(Some(sg))
      case None => Err(BadGrantToken)
  }

  function ResolveKey(p: SendParams, trust: Trust.Trust): Result<Option<Bytes>, SendFailure> {
    if !p.encrypt then Ok(None)
    else
      match Trust.KemPublicKey(trust, p.to)
      case Some(ek) => Ok(Some(ek))
      case None => Err(NoRecipientKey)
  }

  function SendOpts(p: SendParams, grant: Option<SignedGrant>, ek: Option<Bytes>): BuildOpts {
    BuildOpts(p.to, p.ctype, p.body, p.kind, p.inReplyTo, p.correlationId, p.supersedes, grant, None, ek, p.unsigned)
  }

  /** Topic and options of a send that gets as far as building, or the first obstacle, in the order they are checked. */
  function Prepared(e: Env, p: SendParams, topics: seq<string>, cfg: Config, trust: Trust.Trust)
    : Result<(string, BuildOpts), SendFailure>
  {
    match ChooseTopic(p.topic, topics)
    case Err(f) => Err(f)
    case Ok(topic) =>
      if |Utf8.Encode(p.body)| > cfg.maxPayload then Err(BodyTooLarge)
      else
        match ResolveGrant(e, p.grant)
        case Err(f) => Err(f)
        case Ok(grant) =>
          match ResolveKey(p, trust)
          case Err(f) => Err(f)
          case Ok(ek) => Ok((topic, SendOpts(p, grant, ek)))
  }

  // ---------------------------------------------------------------- what the caller may expect

  predicate TopicOk(p: SendParams, topics: seq<string>) {
    if p.topic.Some? then p.topic.value in topics else topics != []
  }

  predicate BodyOk(p: SendParams, cfg: Config) {
    |Utf8.Encode(p.body)| <= cfg.maxPayload
  }

  predicate GrantOk(e: Env, p: SendParams) {
    p.grant.Some? ==> Grant.DecodeToken(e, p.grant.value).Some?
  }

  predicate KeyOk(p: SendParams, trust: Trust.Trust) {
    p.encrypt ==> Trust.KemPublicKey(trust, p.to).Some?
  }

  /** Sealing is for one recipient, under a key that encapsulates. */
  predicate SealOk(e: Env, p: SendParams, trust: Trust.Trust, seed: Bytes) {
    p.encrypt ==>
      p.to != "*" && Trust.KemPublicKey(trust, p.to).Some?
      && e.encapsulate(Trust.KemPublicKey(trust, p.to).value, seed).Some?
  }

  /** The given topic if it is configured, else the first one. */
  predicate TopicChosen(asked: Option<string>, topics: seq<string>, topic: string) {
    if asked.Some? then topic == asked.value && topic in topics else topics != [] && topic == topics[0]
  }

  /** Whoever holds the decapsulation key of the key trusted under the recipient's name reads what was to be sent. */
  ghost predicate SealedForRecipient(e: Env, p: SendParams, trust: Trust.Trust, inner: Inner) {
    && inner.enc.Some? && inner.ctype == "ML-KEM-768.AES-256-GCM" && Trust.KemPublicKey(trust, p.to).Some?
    && forall bob: Identity | Trust.KemPublicKey(trust, p.to) == Some(e.ekOf(bob.dk)) ::
         Decrypt(e, bob, inner, inner.enc.value) == Ok(inner.(body := p.body, ctype := p.ctype))
  }

  /** The message says what the request asked for. */
  ghost predicate Honours(e: Env, me: Identity, p: SendParams, trust: Trust.Trust, inner: Inner) {
    && inner.from == me.name && inner.to == p.to && inner.kind == p.kind
    && inner.inReplyTo == p.inReplyTo && inner.correlationId == p.correlationId && inner.supersedes == p.supersedes
    && inner.receipt == None
    && (if p.grant.Some? then inner.grant.Some? && Grant.DecodeToken(e, p.grant.value) == inner.grant
        else inner.grant == None)
    && (if p.encrypt then SealedForRecipient(e, p, trust, inner)
        else inner.enc == None && inner.body == p.body && inner.ctype == p.ctype)
  }

  /** The payload carries the message, signed unless asked otherwise. */
  ghost predicate Carries(e: Env, me: Identity, p: SendParams, payload: Bytes, inner: Inner) {
    && Unwrap(e, payload) == Some(inner) && e.wrapper.parse(payload).Some?
    && var w := e.wrapper.parse(payload).value;
       if p.unsigned then w.alg == "none" && w.sig == None
       else w.alg == "ML-DSA-65"
            && forall trust, cfg | SenderRecognised(e, me, false, trust, cfg) ::
                 Authenticate(e, w, trust, cfg) == Ok(inner)
  }

  /** A send is refused for the first of these obstacles, and only for them. */
  lemma PreparedIff(e: Env, p: SendParams, topics: seq<string>, cfg: Config, trust: Trust.Trust)
    ensures var r := Prepared(e, p, topics, cfg, trust);
            && (r == Err(UnknownTopic) <==> p.topic.Some? && p.topic.value !in topics)
            && (r == Err(NoTopic) <==> p.topic.None? && topics == [])
            && (r == Err(BodyTooLarge) <==> TopicOk(p, topics) && !BodyOk(p, cfg))
            && (r == Err(BadGrantToken) <==> TopicOk(p, topics) && BodyOk(p, cfg) && !GrantOk(e, p))
            && (r == Err(NoRecipientKey) <==> TopicOk(p, topics) && BodyOk(p, cfg) && GrantOk(e, p) && !KeyOk(p, trust))
            && (r.Ok? <==> TopicOk(p, topics) && BodyOk(p, cfg) && GrantOk(e, p) && KeyOk(p, trust))
            && (r.Ok? ==> TopicChosen(p.topic, topics, r.value.0))
  {
    hide Grant.DecodeToken, Trust.KemPublicKey, Utf8.Encode;
  }

  lemma PreparedSeals(e: Env, me: Identity, p: SendParams, topics: seq<string>, cfg: Config, trust: Trust.Trust,
                      d: Draw)
    requires Prepared(e, p, topics, cfg, trust).Ok?
    ensures BuildInner(e, me, Prepared(e, p, topics, cfg, trust).value.1, d).Ok? <==> SealOk(e, p, trust, d.kemSeed)
  {
    hide Grant.DecodeToken, Trust.KemPublicKey, Utf8.Encode, Draft, Sealed;
  }

  /** What gets built honours the request. */
  lemma PreparedHonours(e: Env, me: Identity, p: SendParams, topics: seq<string>, cfg: Config, trust: Trust.Trust,
                        d: Draw)
    requires Laws(e) && Prepared(e, p, topics, cfg, trust).Ok?
    requires BuildInner(e, me, Prepared(e, p, topics, cfg, trust).value.1, d).Ok?
    ensures Honours(e, me, p, trust, BuildInner(e, me, Prepared(e, p, topics, cfg, trust).value.1, d).value)
  {
    hide Grant.DecodeToken, Trust.KemPublicKey, Utf8.Encode, Decrypt, Laws;
    var opts := Prepared(e, p, topics, cfg, trust).value.1;
    var inner := BuildInner(e, me, opts, d).value;
    if p.encrypt {
      var ek := Trust.KemPublicKey(trust, p.to).value;
      forall bob: Identity | ek == e.ekOf(bob.dk)
        ensures Decrypt(e, bob, inner, inner.enc.value) == Ok(inner.(body := p.body, ctype := p.ctype))
      {
        DecryptOfSealed(e, Draft(e, me, opts, d), bob, d.kemSeed, d.aeadNonce);
      }
    }
  }

  lemma PayloadCarries(e: Env, me: Identity, p: SendParams, inner: Inner)
    requires Laws(e) && inner.from == me.name
    ensures Carries(e, me, p, Payload(e, me, inner, p.unsigned), inner)
  {
    hide Authenticate, SenderRecognised, Laws;
    UnwrapOfPayload(e, me, inner, p.unsigned);
    PayloadParses(e, me, inner, p.unsigned);
    if !p.unsigned {
      forall trust, cfg | SenderRecognised(e, me, false, trust, cfg)
        ensures Authenticate(e, Wrap(e, me, inner, false), trust, cfg) == Ok(inner)
      {
        BuiltAuthenticates(e, me, inner, false, trust, cfg);
      }
    }
  }

  lemma PayloadParses(e: Env, me: Identity, inner: Inner, unsigned: bool)
    requires Laws(e)
    ensures e.wrapper.parse(Payload(e, me, inner, unsigned)) == Some(Wrap(e, me, inner, unsigned))
  {
  }

  // ---------------------------------------------------------------- announcements

  function PresenceOpts(e: Env, beacon: PresenceBeacon): BuildOpts {
    DefaultOpts(BROADCAST, CTYPE_PRESENCE, e.beacon.write(beacon))
  }

  /** The payload broadcasts exactly this beacon. */
  ghost predicate Beacons(e: Env, me: Identity, payload: Bytes, beacon: PresenceBeacon) {
    && Unwrap(e, payload).Some?
    && var inner := Unwrap(e, payload).value;
       && inner.from == me.name && inner.to == "*" && inner.ctype == "application/agentmsg-presence"
       && inner.kind != Receipt && inner.enc == None && e.beacon.parse(inner.body) == Some(beacon)
  }

  lemma PresenceBeacons(e: Env, me: Identity, beacon: PresenceBeacon, d: Draw)
    requires Laws(e)
    ensures Beacons(e, me, Payload(e, me, Draft(e, me, PresenceOpts(e, beacon), d), false), beacon)
  {
    hide Payload, Unwrap;
    UnwrapOfPayload(e, me, Draft(e, me, PresenceOpts(e, beacon), d), false);
  }
}
