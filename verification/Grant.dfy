/** Human-authorization grants (src/grant.rs). */
module Grant {
  import opened Prelude
  import opened Wire
  import opened Env
  import Base64
  import Text
  import Trust

  const TOKEN_PREFIX := "agentmsg-grant-v1."

  datatype Authority = Authority(name: string, sk: Bytes)

  function Kid(e: Env, a: Authority): string {
    MakeKid(a.name, e.fingerprint(e.pkOf(a.sk)))
  }

  function Mint(e: Env, a: Authority, claims: GrantClaims): SignedGrant {
    var json := e.claims.write(claims);
    SignedGrant(ALG_ML_DSA_65, Kid(e, a), Base64.Encode(json), Base64.Encode(e.sign(a.sk, json)))
  }

  predicate IsExpired(e: Env, expiry: string, now: int) {
    match e.parseTime(expiry)
    case Some(t) => now > t
    case None => true
  }

  function Verify(e: Env, sg: SignedGrant, trust: Trust.Trust, now: int): Result<GrantClaims, RejectReason> {
    match SplitKid(sg.authorityKid)
    case None => Err(InvalidGrant)
    case Some((name, fp)) =>
      match Trust.AuthorityKey(trust, name)
      case None => Err(UnknownAuthority)
      case Some(pk) =>
        if fp != e.fingerprint(pk) then Err(UnknownAuthority)
        else
          match (Base64.Decode(sg.grant), Base64.Decode(sg.sig))
          case (Some(bytes), Some(sig)) =>
            if !e.verify(pk, bytes, sig) then Err(InvalidGrant)
            else
              (match e.claims.parse(bytes)
               case None => Err(InvalidGrant)
               case Some(claims) => if IsExpired(e, claims.expiry, now) then Err(GrantExpired) else Ok(claims))
          case (_, _) => Err(InvalidGrant)
  }

  /** The key id names a trusted authority by name and fingerprint. */
  ghost predicate NamesAuthority(e: Env, sg: SignedGrant, trust: Trust.Trust, pk: Bytes) {
    exists name, fp ::
      && SplitKid(sg.authorityKid) == Some((name, fp)) && Trust.AuthorityKey(trust, name) == Some(pk)
      && fp == e.fingerprint(pk)
  }

  /** That authority's key has signed exactly the transmitted claim bytes, which parse to these claims. */
  ghost predicate SignedBy(e: Env, sg: SignedGrant, trust: Trust.Trust, claims: GrantClaims) {
    exists pk, bytes, sig ::
      && NamesAuthority(e, sg, trust, pk)
      && Base64.Decode(sg.grant) == Some(bytes) && Base64.Decode(sg.sig) == Some(sig)
      && e.verify(pk, bytes, sig) && e.claims.parse(bytes) == Some(claims)
  }

  /** The expiry is a time, and not past. */
  predicate InForce(e: Env, claims: GrantClaims, now: int) {
    e.parseTime(claims.expiry).Some? && now <= e.parseTime(claims.expiry).value
  }

  /** A grant is accepted exactly if a trusted authority signed its claims and they are still in force. */
  lemma VerifyIff(e: Env, sg: SignedGrant, trust: Trust.Trust, now: int, claims: GrantClaims)
    ensures Verify(e, sg, trust, now) == Ok(claims) <==> SignedBy(e, sg, trust, claims) && InForce(e, claims, now)
  {
    if SignedBy(e, sg, trust, claims) {
      var pk, bytes, sig :|
        && NamesAuthority(e, sg, trust, pk)
        && Base64.Decode(sg.grant) == Some(bytes) && Base64.Decode(sg.sig) == Some(sig)
        && e.verify(pk, bytes, sig) && e.claims.parse(bytes) == Some(claims);
    }
    if Verify(e, sg, trust, now) == Ok(claims) {
      var (name, fp) := SplitKid(sg.authorityKid).value;
      assert NamesAuthority(e, sg, trust, Trust.AuthorityKey(trust, name).value);
    }
  }

  /** Why a grant is refused: no such authority, properly signed but expired, or anything else wrong with it. */
  lemma RefusalIff(e: Env, sg: SignedGrant, trust: Trust.Trust, now: int)
    ensures Verify(e, sg, trust, now) == Err(UnknownAuthority)
       <==> SplitKid(sg.authorityKid).Some? && forall pk :: !NamesAuthority(e, sg, trust, pk)
    ensures Verify(e, sg, trust, now) == Err(GrantExpired)
       <==> exists claims :: SignedBy(e, sg, trust, claims) && !InForce(e, claims, now)
    ensures Verify(e, sg, trust, now).Err? ==>
              Verify(e, sg, trust, now).error in {UnknownAuthority, GrantExpired, InvalidGrant}
  {
    if Verify(e, sg, trust, now) == Err(GrantExpired) {
      var claims := e.claims.parse(Base64.Decode(sg.grant).value).value;
      var (name, fp) := SplitKid(sg.authorityKid).value;
      assert NamesAuthority(e, sg, trust, Trust.AuthorityKey(trust, name).value);
      assert SignedBy(e, sg, trust, claims);
    }
    if Verify(e, sg, trust, now) == Err(UnknownAuthority) {
      assert forall pk :: !NamesAuthority(e, sg, trust, pk);
    } else if SplitKid(sg.authorityKid).Some? {
      var (name, fp) := SplitKid(sg.authorityKid).value;
      assert NamesAuthority(e, sg, trust, Trust.AuthorityKey(trust, name).value);
    }
  }

  /** A minted grant of a trusted authority verifies to its own claims exactly while it has not expired. */
  lemma MintVerifies(e: Env, a: Authority, claims: GrantClaims, trust: Trust.Trust, now: int)
    requires Laws(e)
    requires '#' !in a.name && Trust.AuthorityKey(trust, a.name) == Some(e.pkOf(a.sk))
    ensures Verify(e, Mint(e, a, claims), trust, now)
         == if IsExpired(e, claims.expiry, now) then Err(GrantExpired) else Ok(claims)
    ensures Mint(e, a, claims).alg == "ML-DSA-65"
  {
    var json := e.claims.write(claims);
    KidRoundTrip(a.name, e.fingerprint(e.pkOf(a.sk)));
    Base64.RoundTrip(json);
    Base64.RoundTrip(e.sign(a.sk, json));
  }

  /** The clock decides only between acceptance and expiry; the claims never depend on it. */
  lemma VerifyAtOtherTime(e: Env, sg: SignedGrant, trust: Trust.Trust, now: int, later: int)
    requires Verify(e, sg, trust, now).Ok?
    ensures var claims := Verify(e, sg, trust, now).value;
            Verify(e, sg, trust, later) == if IsExpired(e, claims.expiry, later) then Err(GrantExpired) else Ok(claims)
  {
  }

  function EncodeToken(e: Env, sg: SignedGrant): string {
    TOKEN_PREFIX + Base64.Encode(e.signedGrant.write(sg))
  }

  function DecodeToken(e: Env, s: string): Option<SignedGrant> {
    var t := Text.Trim(s);
    if TOKEN_PREFIX <= t then
      match Base64.Decode(t[|TOKEN_PREFIX|..])
      case None => None
      case Some(json) => e.signedGrant.parse(json)
    else None
  }

  lemma TokenRoundTrip(e: Env, sg: SignedGrant, before: string, after: string)
    requires Laws(e) && Text.IsBlank(before) && Text.IsBlank(after)
    ensures DecodeToken(e, before + EncodeToken(e, sg) + after) == Some(sg)
  {
    var json := e.signedGrant.write(sg);
    var t := EncodeToken(e, sg);
    Base64.RoundTrip(json);
    Base64.EncodeAlphabet(json);
    assert t[|TOKEN_PREFIX|..] == Base64.Encode(json);
    assert t[|t| - 1] == '.' || t[|t| - 1] in Base64.Encode(json);
    Text.TrimOf(before, t, after);
  }

  /** Decoding accepts exactly the prefix followed by the base64 form of a printed grant, once trimmed. */
  lemma DecodeTokenIff(e: Env, s: string, sg: SignedGrant)
    ensures DecodeToken(e, s) == Some(sg)
       <==> exists json ::
              Text.Trim(s) == "agentmsg-grant-v1." + Base64.Encode(json) && e.signedGrant.parse(json) == Some(sg)
  {
    var t := Text.Trim(s);
    if DecodeToken(e, s) == Some(sg) {
      var json := Base64.Decode(t[|TOKEN_PREFIX|..]).value;
      Base64.DecodeIff(t[|TOKEN_PREFIX|..], json);
      assert t == TOKEN_PREFIX + Base64.Encode(json);
    }
    if json :| t == "agentmsg-grant-v1." + Base64.Encode(json) && e.signedGrant.parse(json) == Some(sg) {
      Base64.RoundTrip(json);
      assert t[|TOKEN_PREFIX|..] == Base64.Encode(json);
    }
  }
}
