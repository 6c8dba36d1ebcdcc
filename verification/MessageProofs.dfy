/** What building and verifying promise each other, for every option set, trust store and clock. */
module MessageProofs {
  import opened Prelude
  import opened Wire
  import opened Env
  import opened Message
  import Base64
  import Grant
  import Text
  import Trust
  import Utf8

  // ---------------------------------------------------------------- authenticity

  /** The inner bytes carry a valid signature by the key trusted under the sender's name, and the key id names both. */
  ghost predicate SignedByTrusted(e: Env, w: Wrapper, trust: Trust.Trust, inner: Inner) {
    exists pk, fp, bytes, sig ::
      && w.alg == ALG_ML_DSA_65
      && w.kid.Some? && SplitKid(w.kid.value) == Some((inner.from, fp))
      && Trust.PublicKey(trust, inner.from) == Some(pk) && fp == e.fingerprint(pk)
      && Base64.Decode(w.msg) == Some(bytes) && w.sig.Some? && Base64.Decode(w.sig.value) == Some(sig)
      && e.verify(pk, bytes, sig)
      && e.inner.parse(bytes) == Some(inner)
  }

  /** Unsigned mode is on and no usable key is trusted under the sender's name. */
  ghost predicate UnsignedAllowed(e: Env, w: Wrapper, trust: Trust.Trust, cfg: Config, inner: Inner) {
    && w.alg == ALG_NONE && cfg.allowUnsigned && Trust.PublicKey(trust, inner.from) == None
    && UnwrapInner(e, w) == Some(inner)
  }

  predicate VersionAccepted(w: Wrapper, cfg: Config) {
    w.v == 2 || (w.v == 1 && cfg.acceptV1)
  }

  /** Authentication succeeds exactly on these two grounds. */
  lemma AuthenticateIff(e: Env, w: Wrapper, trust: Trust.Trust, cfg: Config, inner: Inner)
    ensures Authenticate(e, w, trust, cfg) == Ok(inner)
       <==> VersionAccepted(w, cfg) && (SignedByTrusted(e, w, trust, inner) || UnsignedAllowed(e, w, trust, cfg, inner))
  {
  }

  /** Decryption and grant checks leave everything but body and content type as transmitted. */
  lemma VerifyKeepsEnvelope(e: Env, raw: Bytes, me: Identity, trust: Trust.Trust, cfg: Config, t: Readings)
    requires VerifyIncoming(e, raw, me, trust, cfg, t).Ok?
    ensures Unwrap(e, raw).Some?
    ensures var sent, got := Unwrap(e, raw).value, VerifyIncoming(e, raw, me, trust, cfg, t).value;
            got == sent.(body := got.body, ctype := got.ctype) && (sent.enc.None? ==> got == sent)
  {
  }

  /** The reasons for refusing a wrapper, each with its exact cause, in the order they are looked for. */
  lemma RefusedIff(e: Env, w: Wrapper, trust: Trust.Trust, cfg: Config)
    ensures var r := Authenticate(e, w, trust, cfg);
            var accepted := VersionAccepted(w, cfg);
            var signed := accepted && w.alg == "ML-DSA-65";
            && (r == Err(UnsupportedVersion(w.v)) <==> !accepted)
            && (r == Err(UnsupportedAlg(w.alg)) <==> accepted && w.alg != "none" && w.alg != "ML-DSA-65")
            && (r == Err(UnsignedNotAllowed) <==> accepted && w.alg == "none" && !cfg.allowUnsigned)
            && (r == Err(DowngradeRejected)
                <==> accepted && w.alg == "none" && cfg.allowUnsigned && UnwrapInner(e, w).Some?
                     && Trust.PublicKey(trust, UnwrapInner(e, w).value.from).Some?)
            && (r == Err(UnknownSigner)
                <==> signed && Signer(w).Some? && Trust.PublicKey(trust, Signer(w).value.0) == None)
            && (r == Err(InvalidSignature)
                <==> signed && KeyMatches(e, w, trust) && Signed(w).Some? && !SignatureHolds(e, w, trust))
            && (r == Err(KidMismatch)
                <==> signed && Signer(w).Some? && Trust.PublicKey(trust, Signer(w).value.0).Some?
                     && (!KeyMatches(e, w, trust) || ForeignSender(e, w, trust)))
            && (r.Err? ==> !r.error.GrantExpired? && !r.error.Stale? && !r.error.TooLarge? && !r.error.DecryptFailed?)
  {
  }

  function Signer(w: Wrapper): Option<(string, string)> {
    if w.kid.Some? then SplitKid(w.kid.value) else None
  }

  /** The message bytes and the signature over them. */
  function Signed(w: Wrapper): Option<(Bytes, Bytes)> {
    if w.sig.Some? && Base64.Decode(w.msg).Some? && Base64.Decode(w.sig.value).Some?
    then Some((Base64.Decode(w.msg).value, Base64.Decode(w.sig.value).value)) else None
  }

  predicate KeyMatches(e: Env, w: Wrapper, trust: Trust.Trust) {
    && Signer(w).Some? && Trust.PublicKey(trust, Signer(w).value.0).Some?
    && Signer(w).value.1 == e.fingerprint(Trust.PublicKey(trust, Signer(w).value.0).value)
  }

  predicate SignatureHolds(e: Env, w: Wrapper, trust: Trust.Trust)
    requires KeyMatches(e, w, trust) && Signed(w).Some?
  {
    var (bytes, sig) := Signed(w).value;
    e.verify(Trust.PublicKey(trust, Signer(w).value.0).value, bytes, sig)
  }

  /** Properly signed, but under another name than the key id's. */
  predicate ForeignSender(e: Env, w: Wrapper, trust: Trust.Trust) {
    && KeyMatches(e, w, trust) && Signed(w).Some? && SignatureHolds(e, w, trust)
    && e.inner.parse(Signed(w).value.0).Some? && e.inner.parse(Signed(w).value.0).value.from != Signer(w).value.0
  }

  /** Freshness is off, or the time parses and lies within the window. */
  predicate Fresh(e: Env, ts: string, freshnessSecs: int, now: int) {
    freshnessSecs <= 0
    || (e.parseTime(ts).Some? && Abs(now - e.parseTime(ts).value) < (freshnessSecs + 1) * 1_000_000_000)
  }

  ghost predicate OpensWith(e: Env, me: Identity, sent: Inner, enc: EncInfo, got: Inner,
                            kemCt: Bytes, secret: Bytes, nonce: Bytes, ct: Bytes, pt: Bytes) {
    && Base64.Decode(enc.kemCt) == Some(kemCt) && e.decapsulate(me.dk, kemCt) == Some(secret)
    && Base64.Decode(enc.nonce) == Some(nonce) && |nonce| == 12
    && Base64.Decode(sent.body) == Some(ct)
    && e.unseal(secret, nonce, Utf8.Encode(sent.id + "|" + sent.from + "|" + sent.to + "|" + sent.ts), ct) == Some(pt)
    && Utf8.Decode(pt) == Some(got.body)
    && got == sent.(body := got.body, ctype := enc.ptype)
  }

  /** The body opens, under the secret this reader's key decapsulates, to the text and content type sealed in it. */
  ghost predicate Opens(e: Env, me: Identity, sent: Inner, got: Inner) {
    && sent.enc.Some? && sent.enc.value.recipientKid == e.fingerprint(e.ekOf(me.dk))
    && exists kemCt, secret, nonce, ct, pt :: OpensWith(e, me, sent, sent.enc.value, got, kemCt, secret, nonce, ct, pt)
  }

  /** If a grant is carried, a trusted authority signed it for this sender and it is in force. */
  ghost predicate GrantHolds(e: Env, got: Inner, trust: Trust.Trust, now: int) {
    got.grant.Some? ==>
      exists claims ::
        && Grant.SignedBy(e, got.grant.value, trust, claims) && Grant.InForce(e, claims, now)
        && claims.subject == got.from
  }

  /** Everything that must hold of a parsed wrapper for its message to be accepted as `got`. */
  ghost predicate Acceptable(e: Env, w: Wrapper, me: Identity, trust: Trust.Trust, cfg: Config, t: Readings,
                             got: Inner)
  {
    exists sent: Inner ::
      && VersionAccepted(w, cfg)
      && (SignedByTrusted(e, w, trust, sent) || UnsignedAllowed(e, w, trust, cfg, sent))
      && |Utf8.Encode(sent.body)| <= cfg.maxPayload && Fresh(e, sent.ts, cfg.freshnessSecs, t.freshAt)
      && (if sent.enc.None? then got == sent else Opens(e, me, sent, got))
      && GrantHolds(e, got, trust, t.grantAt)
  }

  lemma OpenedDecrypts(e: Env, me: Identity, sent: Inner, enc: EncInfo, got: Inner,
                       kemCt: Bytes, secret: Bytes, nonce: Bytes, ct: Bytes, pt: Bytes)
    requires OpensWith(e, me, sent, enc, got, kemCt, secret, nonce, ct, pt)
    requires enc.recipientKid == e.fingerprint(e.ekOf(me.dk))
    ensures Decrypt(e, me, sent, enc) == Ok(got)
  {
    hide Base64.Decode, Utf8.Decode, Utf8.Encode;
  }

  lemma DecryptedOpens(e: Env, me: Identity, sent: Inner, enc: EncInfo, got: Inner)
    requires Decrypt(e, me, sent, enc) == Ok(got)
    ensures enc.recipientKid == e.fingerprint(e.ekOf(me.dk))
    ensures exists kemCt, secret, nonce, ct, pt :: OpensWith(e, me, sent, enc, got, kemCt, secret, nonce, ct, pt)
  {
    hide Base64.Decode, Utf8.Decode, Utf8.Encode;
    var kemCt, nonce := Base64.Decode(enc.kemCt).value, Base64.Decode(enc.nonce).value;
    var ct := Base64.Decode(sent.body).value;
    var secret := e.decapsulate(me.dk, kemCt).value;
    var pt := e.unseal(secret, nonce, Utf8.Encode(Aad(sent)), ct).value;
    assert OpensWith(e, me, sent, enc, got, kemCt, secret, nonce, ct, pt);
  }

  lemma DecryptIff(e: Env, me: Identity, sent: Inner, got: Inner)
    requires sent.enc.Some?
    ensures Decrypt(e, me, sent, sent.enc.value) == Ok(got) <==> Opens(e, me, sent, got)
  {
    hide OpensWith, Decrypt;
    if Decrypt(e, me, sent, sent.enc.value) == Ok(got) {
      DecryptedOpens(e, me, sent, sent.enc.value, got);
    }
    if Opens(e, me, sent, got) {
      var kemCt, secret, nonce, ct, pt :| OpensWith(e, me, sent, sent.enc.value, got, kemCt, secret, nonce, ct, pt);
      OpenedDecrypts(e, me, sent, sent.enc.value, got, kemCt, secret, nonce, ct, pt);
    }
  }

  lemma GrantCheckIff(e: Env, got: Inner, trust: Trust.Trust, now: int)
    requires got.grant.Some?
    ensures var checked := Grant.Verify(e, got.grant.value, trust, now);
            checked.Ok? && checked.value.subject == got.from <==> GrantHolds(e, got, trust, now)
  {
    hide Grant.Verify, Grant.SignedBy, Grant.InForce;
    forall claims
      ensures Grant.Verify(e, got.grant.value, trust, now) == Ok(claims)
         <==> Grant.SignedBy(e, got.grant.value, trust, claims) && Grant.InForce(e, claims, now)
    {
      Grant.VerifyIff(e, got.grant.value, trust, now, claims);
    }
  }

  lemma FinalizedIff(e: Env, sent: Inner, me: Identity, trust: Trust.Trust, cfg: Config, t: Readings, got: Inner)
    ensures Finalized(e, sent, me, trust, cfg, t) == Ok(got)
       <==> |Utf8.Encode(sent.body)| <= cfg.maxPayload && Fresh(e, sent.ts, cfg.freshnessSecs, t.freshAt)
            && (if sent.enc.None? then got == sent else Opens(e, me, sent, got))
            && GrantHolds(e, got, trust, t.grantAt)
  {
    assert FreshEnough(e, sent.ts, cfg.freshnessSecs, t.freshAt) <==> Fresh(e, sent.ts, cfg.freshnessSecs, t.freshAt);
    hide FreshEnough, Fresh, Decrypt, Opens, Grant.Verify, GrantHolds;
    if sent.enc.Some? {
      DecryptIff(e, me, sent, got);
    }
    if got.grant.Some? {
      GrantCheckIff(e, got, trust, t.grantAt);
    } else {
      assert GrantHolds(e, got, trust, t.grantAt) by { NoGrantHolds(e, got, trust, t.grantAt); }
    }
  }

  lemma NoGrantHolds(e: Env, got: Inner, trust: Trust.Trust, now: int)
    requires got.grant.None?
    ensures GrantHolds(e, got, trust, now)
  {
  }

  /** A payload is accepted exactly if it is authentic, small and fresh, opens for this reader, and its grant holds. */
  lemma AcceptedIff(e: Env, raw: Bytes, me: Identity, trust: Trust.Trust, cfg: Config, t: Readings, got: Inner)
    ensures VerifyIncoming(e, raw, me, trust, cfg, t) == Ok(got)
       <==> e.wrapper.parse(raw).Some? && Acceptable(e, e.wrapper.parse(raw).value, me, trust, cfg, t, got)
    ensures VerifyIncoming(e, raw, me, trust, cfg, t).Err? && e.wrapper.parse(raw).Some? ==>
              var signer := Signer(e.wrapper.parse(raw).value);
              VerifyIncoming(e, raw, me, trust, cfg, t).error.claimedSender
              == if signer.Some? then Some(signer.value.0) else None
  {
    hide Authenticate, Finalized, SignedByTrusted, UnsignedAllowed, VersionAccepted, Fresh, Opens, GrantHolds;
    if e.wrapper.parse(raw).Some? {
      var w := e.wrapper.parse(raw).value;
      forall sent
        ensures Authenticate(e, w, trust, cfg) == Ok(sent)
           <==> VersionAccepted(w, cfg)
                && (SignedByTrusted(e, w, trust, sent) || UnsignedAllowed(e, w, trust, cfg, sent))
        ensures Finalized(e, sent, me, trust, cfg, t) == Ok(got)
           <==> |Utf8.Encode(sent.body)| <= cfg.maxPayload && Fresh(e, sent.ts, cfg.freshnessSecs, t.freshAt)
                && (if sent.enc.None? then got == sent else Opens(e, me, sent, got))
                && GrantHolds(e, got, trust, t.grantAt)
      {
        AuthenticateIff(e, w, trust, cfg, sent);
        FinalizedIff(e, sent, me, trust, cfg, t, got);
      }
    }
  }

  /** What does not parse names no sender, and what is not authentic is rejected for the reason authentication gives. */
  lemma UnauthenticRejected(e: Env, raw: Bytes, me: Identity, trust: Trust.Trust, cfg: Config, t: Readings)
    ensures var w, r := e.wrapper.parse(raw), VerifyIncoming(e, raw, me, trust, cfg, t);
            && (w == None ==> r == Err(RejectInfo(MalformedWrapper, None)))
            && (w.Some? && Authenticate(e, w.value, trust, cfg).Err? ==>
                  r.Err? && r.error.reason == Authenticate(e, w.value, trust, cfg).error)
  {
    hide Authenticate, Finalized;
  }

  lemma DecryptWhy(e: Env, me: Identity, sent: Inner)
    requires sent.enc.Some?
    ensures var r := Decrypt(e, me, sent, sent.enc.value);
            && (r == Err(UnknownRecipientKey) <==> sent.enc.value.recipientKid != e.fingerprint(e.ekOf(me.dk)))
            && (r.Err? ==> r.error == UnknownRecipientKey || r.error == DecryptFailed)
            && (r.Ok? <==> exists got :: Opens(e, me, sent, got))
            && (r.Ok? ==> r.value.grant == sent.grant && r.value.from == sent.from)
  {
    hide Opens;
    var r := Decrypt(e, me, sent, sent.enc.value);
    forall got
      ensures r == Ok(got) <==> Opens(e, me, sent, got)
    {
      DecryptIff(e, me, sent, got);
    }
    if r.Ok? {
      assert Opens(e, me, sent, r.value);
    }
  }

  /** A trusted authority signed the grant the message carries, for this subject, and it is in force. */
  ghost predicate Granted(e: Env, inner: Inner, trust: Trust.Trust, now: int, claims: GrantClaims) {
    inner.grant.Some? && Grant.SignedBy(e, inner.grant.value, trust, claims) && Grant.InForce(e, claims, now)
  }

  lemma GrantWhy(e: Env, inner: Inner, trust: Trust.Trust, now: int)
    requires inner.grant.Some?
    ensures var r := Grant.Verify(e, inner.grant.value, trust, now);
            && (r.Ok? <==> exists claims :: Granted(e, inner, trust, now, claims))
            && (forall claims :: Granted(e, inner, trust, now, claims) <==> r == Ok(claims))
            && (r.Err? ==> r.error in {UnknownAuthority, InvalidGrant, GrantExpired})
  {
    hide Grant.Verify, Grant.SignedBy, Grant.InForce;
    var r := Grant.Verify(e, inner.grant.value, trust, now);
    forall claims
      ensures Granted(e, inner, trust, now, claims) <==> r == Ok(claims)
    {
      Grant.VerifyIff(e, inner.grant.value, trust, now, claims);
    }
    Grant.RefusalIff(e, inner.grant.value, trust, now);
    if r.Ok? {
      assert Granted(e, inner, trust, now, r.value);
    }
  }

  lemma FreshMeans(e: Env, ts: string, freshnessSecs: int, now: int)
    ensures FreshEnough(e, ts, freshnessSecs, now) <==> Fresh(e, ts, freshnessSecs, now)
  {
  }

  /** Why an authentic message is rejected: the first of these that applies, each with its exact cause. */
  lemma RejectedIff(e: Env, raw: Bytes, me: Identity, trust: Trust.Trust, cfg: Config, t: Readings, sent: Inner)
    requires e.wrapper.parse(raw).Some?
    requires Authenticate(e, e.wrapper.parse(raw).value, trust, cfg) == Ok(sent)
    ensures var r := VerifyIncoming(e, raw, me, trust, cfg, t);
            var small := |Utf8.Encode(sent.body)| <= cfg.maxPayload;
            var timely := small && Fresh(e, sent.ts, cfg.freshnessSecs, t.freshAt);
            var mine := sent.enc.Some? ==> sent.enc.value.recipientKid == e.fingerprint(e.ekOf(me.dk));
            var readable := timely && (sent.enc.Some? ==> exists got :: Opens(e, me, sent, got));
            && (r.Err? && r.error.reason == TooLarge <==> !small)
            && (r.Err? && r.error.reason == Stale <==> small && !timely)
            && (r.Err? && r.error.reason == UnknownRecipientKey <==> timely && !mine)
            && (r.Err? && r.error.reason == DecryptFailed <==> timely && mine && !readable)
            && (r.Err? && r.error.reason == GrantSubjectMismatch
                <==> readable
                     && exists claims :: Granted(e, sent, trust, t.grantAt, claims) && claims.subject != sent.from)
            && (r.Err? && r.error.reason in {UnknownAuthority, InvalidGrant, GrantExpired}
                <==> readable && sent.grant.Some? && forall claims :: !Granted(e, sent, trust, t.grantAt, claims))
  {
    hide Authenticate, Decrypt, Grant.Verify, FreshEnough, Fresh, Opens, Granted;
    FreshMeans(e, sent.ts, cfg.freshnessSecs, t.freshAt);
    if sent.enc.Some? {
      DecryptWhy(e, me, sent);
    }
    if sent.grant.Some? {
      GrantWhy(e, sent, trust, t.grantAt);
    } else {
      assert forall claims :: !Granted(e, sent, trust, t.grantAt, claims) by { NoneGranted(e, sent, trust, t.grantAt); }
    }
  }

  lemma NoneGranted(e: Env, inner: Inner, trust: Trust.Trust, now: int)
    requires inner.grant.None?
    ensures forall claims :: !Granted(e, inner, trust, now, claims)
  {
  }

  /** Every accepted payload is authentic, and a grant it carries was signed for the sender by a trusted authority. */
  lemma AcceptedIsAuthentic(e: Env, raw: Bytes, me: Identity, trust: Trust.Trust, cfg: Config, t: Readings)
    requires VerifyIncoming(e, raw, me, trust, cfg, t).Ok?
    ensures Unwrap(e, raw).Some?
    ensures var w, sent := e.wrapper.parse(raw).value, Unwrap(e, raw).value;
            && VersionAccepted(w, cfg)
            && (SignedByTrusted(e, w, trust, sent) || UnsignedAllowed(e, w, trust, cfg, sent))
    ensures var got := VerifyIncoming(e, raw, me, trust, cfg, t).value;
            && FreshEnough(e, got.ts, cfg.freshnessSecs, t.freshAt)
            && GrantHolds(e, got, trust, t.grantAt)
            && (got.grant.Some? ==>
                  var claims := Grant.Verify(e, got.grant.value, trust, t.grantAt);
                  claims.Ok? && claims.value.subject == got.from
                  && Grant.SignedBy(e, got.grant.value, trust, claims.value)
                  && Grant.InForce(e, claims.value, t.grantAt))
  {
    AuthenticateIff(e, e.wrapper.parse(raw).value, trust, cfg, Unwrap(e, raw).value);
    var got := VerifyIncoming(e, raw, me, trust, cfg, t).value;
    hide Grant.Verify, Grant.SignedBy, Grant.InForce, SignedByTrusted, UnsignedAllowed;
    if got.grant.Some? {
      GrantCheckIff(e, got, trust, t.grantAt);
      Grant.VerifyIff(e, got.grant.value, trust, t.grantAt, Grant.Verify(e, got.grant.value, trust, t.grantAt).value);
    }
  }

  // ---------------------------------------------------------------- associated data

  /** Ids are ULIDs and times RFC 3339; neither holds the separator. */
  predicate Delimited(inner: Inner) {
    '|' !in inner.id && '|' !in inner.ts
  }

  predicate PipeFree(inner: Inner) {
    Delimited(inner) && '|' !in inner.from
  }

  predicate SameAddress(a: Inner, b: Inner) {
    a.id == b.id && a.from == b.from && a.to == b.to && a.ts == b.ts
  }

  /** What stands between id and time. */
  function Route(inner: Inner): string {
    inner.from + "|" + inner.to
  }

  lemma AadSplits(a: Inner)
    requires Delimited(a)
    ensures Text.SplitFirst(Aad(a), '|') == Some((a.id, Route(a) + "|" + a.ts))
    ensures Text.SplitLast(Route(a) + "|" + a.ts, '|') == Some((Route(a), a.ts))
  {
    assert Aad(a) == a.id + "|" + (Route(a) + "|" + a.ts);
    Text.SplitFirstIff(Aad(a), '|', a.id, Route(a) + "|" + a.ts);
    Text.SplitLastOf(Route(a), '|', a.ts);
  }

  /** Equal associated data means equal id, equal time and equal text in between. */
  lemma AadIsRoute(a: Inner, b: Inner)
    requires Delimited(a) && Delimited(b)
    ensures Aad(a) == Aad(b) <==> a.id == b.id && a.ts == b.ts && Route(a) == Route(b)
  {
    if Aad(a) == Aad(b) {
      AadSplits(a);
      AadSplits(b);
    }
    if a.id == b.id && a.ts == b.ts && Route(a) == Route(b) {
      assert Aad(a) == a.id + "|" + Route(a) + "|" + a.ts;
      assert Aad(b) == b.id + "|" + Route(b) + "|" + b.ts;
    }
  }

  /** The associated data determines the envelope it was made from. */
  lemma AadInjective(a: Inner, b: Inner)
    requires PipeFree(a) && PipeFree(b)
    ensures Aad(a) == Aad(b) <==> a.id == b.id && a.from == b.from && a.to == b.to && a.ts == b.ts
  {
    AadIsRoute(a, b);
    Text.SplitFirstIff(Route(a), '|', a.from, a.to);
    Text.SplitFirstIff(Route(b), '|', b.from, b.to);
  }

  /** Two envelopes of senders `f` and `g` that differ and share their associated data. */
  ghost predicate Confused(f: string, g: string, a: Inner, b: Inner) {
    a.from == f && b.from == g && Delimited(a) && Delimited(b) && !SameAddress(a, b) && Aad(a) == Aad(b)
  }

  /** One name and the separator start the other. */
  predicate Overlap(f: string, g: string) {
    f + "|" <= g || g + "|" <= f
  }

  /** If one name and the separator start the other, any message of the longer-named sender has a double. */
  lemma AadCollision(x: Inner, f: string)
    requires f + "|" <= x.from
    ensures var double := x.(from := f, to := x.from[|f| + 1..] + "|" + x.to);
            && !SameAddress(x, double) && Aad(x) == Aad(double)
            && (ValidName(x.from) && ValidName(x.to) ==> ValidName(double.to))
  {
    var double := x.(from := f, to := x.from[|f| + 1..] + "|" + x.to);
    assert x.from == f + "|" + x.from[|f| + 1..];
    assert Route(x) == Route(double);
    assert Aad(x) == x.id + "|" + Route(x) + "|" + x.ts && Aad(double) == x.id + "|" + Route(double) + "|" + x.ts;
  }

  lemma RouteOverlap(a: Inner, b: Inner)
    requires Route(a) == Route(b) && |a.from| < |b.from|
    ensures a.from + "|" <= b.from
  {
    assert Route(a)[..|a.from| + 1] == a.from + "|";
    assert Route(b)[..|a.from| + 1] == b.from[..|a.from| + 1];
  }

  lemma SameRoute(a: Inner, b: Inner)
    requires Route(a) == Route(b) && |a.from| == |b.from|
    ensures a.from == b.from && a.to == b.to
  {
    var n := |a.from|;
    assert Route(a)[..n] == a.from && Route(b)[..n] == b.from;
    assert Route(a)[n + 1..] == a.to && Route(b)[n + 1..] == b.to;
  }

  /** Whose envelopes can be confused: exactly two senders of whose names one and the separator start the other. */
  lemma ConfusableIff(f: string, g: string)
    ensures (exists a, b :: Confused(f, g, a, b)) <==> Overlap(f, g)
  {
    if a, b :| Confused(f, g, a, b) {
      AadIsRoute(a, b);
      if |f| < |g| {
        RouteOverlap(a, b);
      } else if |g| < |f| {
        RouteOverlap(b, a);
      } else {
        SameRoute(a, b);
      }
    }
    if f + "|" <= g {
      var b := Plain(g);
      AadCollision(b, f);
      assert Confused(f, g, b.(from := f, to := b.from[|f| + 1..] + "|" + b.to), b);
    } else if g + "|" <= f {
      var a := Plain(f);
      AadCollision(a, g);
      assert Confused(f, g, a, a.(from := g, to := a.from[|g| + 1..] + "|" + a.to));
    }
  }

  function Plain(from: string): Inner {
    Inner("", 2, from, "", "", "", "", None, "", Message, None, None, None, None, None)
  }

  // ---------------------------------------------------------------- build, then verify

  function Payload(e: Env, me: Identity, inner: Inner, unsigned: bool): Bytes {
    e.wrapper.write(Wrap(e, me, inner, unsigned))
  }

  /** A built payload unwraps to the message that was built. */
  lemma UnwrapOfPayload(e: Env, me: Identity, inner: Inner, unsigned: bool)
    requires Laws(e)
    ensures Unwrap(e, Payload(e, me, inner, unsigned)) == Some(inner)
  {
    Base64.RoundTrip(e.inner.write(inner));
  }

  /** The receiver's trust agrees with how the sender authenticates. */
  predicate SenderRecognised(e: Env, me: Identity, unsigned: bool, trust: Trust.Trust, cfg: Config) {
    if unsigned then cfg.allowUnsigned && Trust.PublicKey(trust, me.name) == None
    else '#' !in me.name && Trust.PublicKey(trust, me.name) == Some(e.pkOf(me.sk))
  }

  lemma BuiltAuthenticates(e: Env, me: Identity, inner: Inner, unsigned: bool, trust: Trust.Trust, cfg: Config)
    requires Laws(e) && inner.from == me.name
    requires SenderRecognised(e, me, unsigned, trust, cfg)
    ensures Authenticate(e, Wrap(e, me, inner, unsigned), trust, cfg) == Ok(inner)
  {
    var bytes := e.inner.write(inner);
    Base64.RoundTrip(bytes);
    Base64.RoundTrip(e.sign(me.sk, bytes));
    KidRoundTrip(me.name, e.fingerprint(e.pkOf(me.sk)));
  }

  /** Opening what was sealed gives back body and content type. */
  lemma DecryptOfSealed(e: Env, plain: Inner, bob: Identity, seed: Bytes, nonce: Nonce12)
    requires Laws(e) && plain.enc.None?
    ensures var out := e.encapsulate(e.ekOf(bob.dk), seed);
            && out.Some?
            && var wire := Sealed(e, plain, e.ekOf(bob.dk), out.value.0, out.value.1, nonce);
               wire.enc.Some? && Decrypt(e, bob, wire, wire.enc.value) == Ok(plain.(enc := wire.enc))
  {
    var ek := e.ekOf(bob.dk);
    var (kemCt, secret) := e.encapsulate(ek, seed).value;
    var wire := Sealed(e, plain, ek, kemCt, secret, nonce);
    assert Aad(wire) == Aad(plain);
    Base64.RoundTrip(kemCt);
    Base64.RoundTrip(nonce);
    Base64.RoundTrip(e.seal(secret, nonce, Utf8.Encode(Aad(plain)), Utf8.Encode(plain.body)));
    Utf8.DecodeIff(Utf8.Encode(plain.body), plain.body);
  }

  /** The largest plaintext, in bytes, that passes a receiver limited to `max` characters once encrypted. */
  function EncryptedLimit(max: nat): int {
    3 * max / 4 - 16
  }

  /** Encryption adds 16 bytes and base64 a third, so the receiver's limit bites below the sender's. */
  lemma SizeGate(e: Env, plain: Inner, ek: Bytes, kemCt: Bytes, secret: Bytes, nonce: Nonce12, cfg: Config)
    requires Laws(e)
    ensures var wire := Sealed(e, plain, ek, kemCt, secret, nonce);
            && |Utf8.Encode(wire.body)| == |wire.body| == Base64.Len(|Utf8.Encode(plain.body)| + 16)
            && (WithinLimit(wire, cfg) <==> |Utf8.Encode(plain.body)| <= EncryptedLimit(cfg.maxPayload))
  {
    var ct := e.seal(secret, nonce, Utf8.Encode(Aad(plain)), Utf8.Encode(plain.body));
    BodyLength(ct);
    assert Base64.Len(|ct|) <= cfg.maxPayload <==> |ct| <= 3 * cfg.maxPayload / 4;
  }

  lemma BodyLength(ct: Bytes)
    ensures |Utf8.Encode(Base64.Encode(ct))| == |Base64.Encode(ct)| == Base64.Len(|ct|)
  {
    Base64.EncodeLen(ct);
    Base64.EncodeAlphabet(ct);
    assert forall i | 0 <= i < |Base64.Encode(ct)| :: Base64.Encode(ct)[i] in Base64.Encode(ct);
    Utf8.EncodeAscii(Base64.Encode(ct));
  }

  predicate SizeAccepted(opts: BuildOpts, cfg: Config) {
    var n := |Utf8.Encode(opts.body)|;
    if opts.encryptTo.Some? then n <= EncryptedLimit(cfg.maxPayload) else n <= cfg.maxPayload
  }

  /** Freshness is off, or the receiver's clock is within the window of the sender's (the epoch if that has no text). */
  predicate ClockAccepted(e: Env, d: Draw, cfg: Config, now: int) {
    cfg.freshnessSecs <= 0
    || (if e.formatTime(d.now).Some? then Abs(now - d.now) < (cfg.freshnessSecs + 1) * 1_000_000_000
        else Fresh(e, "1970-01-01T00:00:00Z", cfg.freshnessSecs, now))
  }

  lemma ClockIff(e: Env, d: Draw, cfg: Config, now: int)
    requires Laws(e)
    ensures FreshEnough(e, Timestamp(e, d.now), cfg.freshnessSecs, now) <==> ClockAccepted(e, d, cfg, now)
  {
    assert TimeLaw(e);
    if cfg.freshnessSecs > 0 {
      FreshIff(e, Timestamp(e, d.now), cfg.freshnessSecs, now);
    }
  }

  predicate GrantAccepted(e: Env, me: Identity, opts: BuildOpts, trust: Trust.Trust, now: int) {
    opts.grant.Some? ==>
      var claims := Grant.Verify(e, opts.grant.value, trust, now);
      claims.Ok? && claims.value.subject == me.name
  }

  /** The message the receiver should see: what the sender asked for, with the encryption data kept. */
  function Expected(e: Env, me: Identity, opts: BuildOpts, d: Draw, wire: Inner): Inner {
    Draft(e, me, opts, d).(enc := wire.enc)
  }

  /** Body, content type, kind, correlation, grant and receipt as the sender gave them. */
  predicate Delivers(got: Inner, me: Identity, opts: BuildOpts, d: Draw) {
    && got.id == d.id && got.from == me.name && got.to == opts.to && got.body == opts.body
    && got.ctype == opts.ctype && got.kind == opts.kind && got.inReplyTo == opts.inReplyTo
    && got.correlationId == opts.correlationId && got.supersedes == opts.supersedes
    && got.grant == opts.grant && got.receipt == opts.receipt
  }

  /**
    For every option set: a recognised sender's message to `bob`, clear or encrypted to bob's key,
    is accepted exactly when size, clock and grant allow it, and then arrives as it was meant.
   */
  lemma BuildThenVerify(e: Env, alice: Identity, bob: Identity, opts: BuildOpts, d: Draw,
                        trust: Trust.Trust, cfg: Config, t: Readings)
    requires Laws(e) && SenderRecognised(e, alice, opts.unsigned, trust, cfg)
    requires opts.encryptTo.None? || (opts.encryptTo == Some(e.ekOf(bob.dk)) && opts.to != BROADCAST)
    ensures BuildInner(e, alice, opts, d).Ok?
    ensures var wire := BuildInner(e, alice, opts, d).value;
            var got := VerifyIncoming(e, Payload(e, alice, wire, opts.unsigned), bob, trust, cfg, t);
            && (got.Ok? <==> SizeAccepted(opts, cfg) && ClockAccepted(e, d, cfg, t.freshAt)
                             && GrantAccepted(e, alice, opts, trust, t.grantAt))
            && (got.Ok? ==> got.value == Expected(e, alice, opts, d, wire) && Delivers(got.value, alice, opts, d))
  {
    var plain := Draft(e, alice, opts, d);
    var wire := BuildInner(e, alice, opts, d).value;
    BuiltAuthenticates(e, alice, wire, opts.unsigned, trust, cfg);
    ClockIff(e, d, cfg, t.freshAt);
    hide FreshEnough, Timestamp, ClockAccepted;
    if opts.encryptTo.Some? {
      var out := e.encapsulate(e.ekOf(bob.dk), d.kemSeed).value;
      DecryptOfSealed(e, plain, bob, d.kemSeed, d.aeadNonce);
      SizeGate(e, plain, e.ekOf(bob.dk), out.0, out.1, d.aeadNonce, cfg);
    }
  }

  // ---------------------------------------------------------------- packet size

  const USIZE_MAX: nat := 0xFFFF_FFFF_FFFF_FFFF

  /** The packet cap of `Mqtt::start`, with its saturating arithmetic. */
  function PacketCap(maxPayload: nat): nat {
    Max(Min(Min(maxPayload * 2, USIZE_MAX) + 64 * 1024, USIZE_MAX), 256 * 1024)
  }

  /** Twice the payload limit and 64 KiB, never below 256 KiB, wherever that fits the machine word. */
  lemma PacketCapIs(maxPayload: nat)
    requires 2 * maxPayload + 65536 <= USIZE_MAX
    ensures PacketCap(maxPayload) == Max(2 * maxPayload + 65536, 262144)
  {
  }

  /**
    A sealed message whose plaintext passed the sender's limit fits the MQTT packet cap, given room for the
    other inner fields and for the wrapper around the base64 text.
   */
  lemma PacketFits(e: Env, me: Identity, plain: Inner, ek: Bytes, kemCt: Bytes, secret: Bytes, nonce: Nonce12,
                   unsigned: bool, maxPayload: nat)
    requires Laws(e) && |Utf8.Encode(plain.body)| <= maxPayload
    requires |Payload(e, me, Sealed(e, plain, ek, kemCt, secret, nonce), unsigned)| <= USIZE_MAX
    requires var inner := Sealed(e, plain, ek, kemCt, secret, nonce);
             var other := |e.inner.write(inner)| - |inner.body|;
             var framing := |Payload(e, me, inner, unsigned)| - |Base64.Encode(e.inner.write(inner))|;
             4 * (other + 22) + 3 * framing + 3 <= 3 * 65536
    ensures |Payload(e, me, Sealed(e, plain, ek, kemCt, secret, nonce), unsigned)| <= PacketCap(maxPayload)
  {
    var inner := Sealed(e, plain, ek, kemCt, secret, nonce);
    BodyLength(e.seal(secret, nonce, Utf8.Encode(Aad(plain)), Utf8.Encode(plain.body)));
    Base64.EncodeLen(e.inner.write(inner));
  }

  // ---------------------------------------------------------------- pairing

  /** Key, key id, sender and body of a parsed hello fit together, and the key it advertises signed its bytes. */
  ghost predicate SignedBySelf(e: Env, w: Wrapper, bytes: Bytes, inner: Inner, body: PairBody, hello: PairHello) {
    && (exists sig :: w.sig.Some? && Base64.Decode(w.sig.value) == Some(sig) && e.verify(hello.publicKey, bytes, sig))
    && w.kid.Some? && SplitKid(w.kid.value) == Some((hello.name, e.fingerprint(hello.publicKey)))
    && inner.from == hello.name && Advertises(body, hello)
  }

  /**
    The hello is signed, over its exact message bytes, by the key it advertises; its key id names sender and key; and
    name and keys are those the signed body holds.
   */
  ghost predicate SelfSigned(e: Env, raw: Bytes, hello: PairHello) {
    && e.wrapper.parse(raw).Some?
    && var w := e.wrapper.parse(raw).value;
       exists bytes, inner, body ::
         && w.alg == "ML-DSA-65"
         && Base64.Decode(w.msg) == Some(bytes) && e.inner.parse(bytes) == Some(inner)
         && inner.ctype == "application/agentmsg-pair" && e.pair.parse(inner.body) == Some(body)
         && SignedBySelf(e, w, bytes, inner, body, hello)
  }

  predicate Advertises(body: PairBody, hello: PairHello) {
    && body.name == hello.name && Base64.Decode(body.pk) == Some(hello.publicKey)
    && (if body.kemPk.None? then hello.kemPublicKey == None
        else hello.kemPublicKey.Some? && Base64.Decode(body.kemPk.value) == hello.kemPublicKey)
  }

  lemma PairBodyIff(e: Env, w: Wrapper, bytes: Bytes, inner: Inner, body: PairBody, hello: PairHello)
    ensures VerifyPairBody(e, w, bytes, inner, body) == Ok(hello) <==> SignedBySelf(e, w, bytes, inner, body, hello)
  {
    hide Base64.Decode, SplitKid;
    if VerifyPairBody(e, w, bytes, inner, body) == Ok(hello) {
      assert e.verify(hello.publicKey, bytes, Base64.Decode(w.sig.value).value);
      assert Advertises(body, hello);
      assert SplitKid(w.kid.value).value == (hello.name, e.fingerprint(hello.publicKey));
    }
    if SignedBySelf(e, w, bytes, inner, body, hello) {
      var sig :| w.sig.Some? && Base64.Decode(w.sig.value) == Some(sig) && e.verify(hello.publicKey, bytes, sig);
      assert Base64.Decode(body.pk) == Some(hello.publicKey);
    }
  }

  /** A hello is accepted exactly if it is signed that way. */
  lemma HelloIsSelfSigned(e: Env, raw: Bytes, hello: PairHello)
    ensures VerifyPair(e, raw) == Ok(hello) <==> SelfSigned(e, raw, hello)
  {
    hide Base64.Decode, VerifyPairBody, SignedBySelf;
    forall w, bytes, inner, body
      ensures VerifyPairBody(e, w, bytes, inner, body) == Ok(hello) <==> SignedBySelf(e, w, bytes, inner, body, hello)
    {
      PairBodyIff(e, w, bytes, inner, body, hello);
    }
  }

  /** Message bytes, message and body of a parsed hello. */
  function HelloParts(e: Env, w: Wrapper): Option<(Bytes, Inner, PairBody)> {
    if Base64.Decode(w.msg).None? || e.inner.parse(Base64.Decode(w.msg).value).None? then None
    else
      var bytes := Base64.Decode(w.msg).value;
      var inner := e.inner.parse(bytes).value;
      if inner.ctype == "application/agentmsg-pair" && e.pair.parse(inner.body).Some?
      then Some((bytes, inner, e.pair.parse(inner.body).value)) else None
  }

  /** Key and signature decode, and the signature or the key id does not stand by that key. */
  predicate ForgedSelf(e: Env, w: Wrapper, bytes: Bytes, body: PairBody) {
    && Base64.Decode(body.pk).Some? && w.sig.Some? && Base64.Decode(w.sig.value).Some?
    && var pk := Base64.Decode(body.pk).value;
       !e.verify(pk, bytes, Base64.Decode(w.sig.value).value)
       || (Signer(w).Some? && Signer(w).value.1 != e.fingerprint(pk))
  }

  /** A hello is refused as not self-signed exactly for its algorithm, its signature or its key id. */
  lemma PairRefusedIff(e: Env, raw: Bytes)
    ensures var r, w := VerifyPair(e, raw), e.wrapper.parse(raw);
            && (r == Err(PairSelfSigInvalid)
                <==> w.Some?
                     && (w.value.alg != "ML-DSA-65"
                         || (HelloParts(e, w.value).Some?
                             && var (bytes, _, body) := HelloParts(e, w.value).value;
                                ForgedSelf(e, w.value, bytes, body))))
            && (r.Err? ==> r.error == PairSelfSigInvalid || r.error == MalformedWrapper)
  {
    hide Base64.Decode, SplitKid;
  }

  /** A broadcast hello verifies, without any trust store, to the sender's own name and keys. */
  lemma HelloRoundTrip(e: Env, me: Identity, d: Draw)
    requires Laws(e) && '#' !in me.name
    ensures var wire := BuildInner(e, me, PairOpts(e, me), d);
            && wire.Ok?
            && VerifyPair(e, Payload(e, me, wire.value, false))
               == Ok(PairHello(me.name, e.pkOf(me.sk), Some(e.ekOf(me.dk))))
            && wire.value.to == "*" && wire.value.ctype == "application/agentmsg-pair" && wire.value.receipt == None
  {
    var bytes := e.inner.write(BuildInner(e, me, PairOpts(e, me), d).value);
    Base64.RoundTrip(bytes);
    Base64.RoundTrip(e.sign(me.sk, bytes));
    Base64.RoundTrip(e.pkOf(me.sk));
    Base64.RoundTrip(e.ekOf(me.dk));
    KidRoundTrip(me.name, e.fingerprint(e.pkOf(me.sk)));
  }
}
