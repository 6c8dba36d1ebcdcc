/**
  The library code the daemon calls, as a record of functions: ML-DSA (FIPS 204),
  ML-KEM (FIPS 203), AES-GCM, SHA-256 digests, serde JSON and RFC 3339 time.
  Randomness is an argument. `Laws` is all that any proof assumes of them.
 */
module Env {
  import opened Prelude
  import opened Wire

  datatype Codec<!T, !U> = Codec(write: T -> U, parse: U -> Option<T>)

  ghost predicate Inverts<T(!new), U(!new)>(c: Codec<T, U>) {
    forall x: T :: c.parse(c.write(x)) == Some(x)
  }

  datatype Env = Env(
    pkOf: Bytes -> Bytes,
    sign: (Bytes, Bytes) -> Bytes,
    verify: (Bytes, Bytes, Bytes) -> bool,
    ekOf: Bytes -> Bytes,
    encapsulate: (Bytes, Bytes) -> Option<(Bytes, Bytes)>,
    decapsulate: (Bytes, Bytes) -> Option<Bytes>,
    seal: (Bytes, Bytes, Bytes, Bytes) -> Bytes,
    unseal: (Bytes, Bytes, Bytes, Bytes) -> Option<Bytes>,
    fingerprint: Bytes -> string,
    sas: (Bytes, Bytes) -> string,
    formatTime: int -> Option<string>,
    parseTime: string -> Option<int>,
    inner: Codec<Inner, Bytes>,
    wrapper: Codec<Wrapper, Bytes>,
    claims: Codec<GrantClaims, Bytes>,
    signedGrant: Codec<SignedGrant, Bytes>,
    token: Codec<TokenBody, Bytes>,
    pair: Codec<PairBody, string>,
    beacon: Codec<PresenceBeacon, string>)

  ghost predicate SignatureLaw(e: Env) {
    forall sk, m :: e.verify(e.pkOf(sk), m, e.sign(sk, m))
  }

  ghost predicate KemLaw(e: Env) {
    forall dk, r ::
      var out := e.encapsulate(e.ekOf(dk), r);
      out.Some? && e.decapsulate(dk, out.value.0) == Some(out.value.1)
  }

  ghost predicate AeadLaw(e: Env) {
    forall k, n, a, p ::
      var ct := e.seal(k, n, a, p);
      |ct| == |p| + 16 && e.unseal(k, n, a, ct) == Some(p)
  }

  ghost predicate TimeLaw(e: Env) {
    forall t :: e.formatTime(t).Some? ==> e.parseTime(e.formatTime(t).value) == Some(t)
  }

  ghost predicate JsonLaw(e: Env) {
    && Inverts(e.inner) && Inverts(e.wrapper) && Inverts(e.claims) && Inverts(e.signedGrant)
    && Inverts(e.token) && Inverts(e.pair) && Inverts(e.beacon)
  }

  ghost predicate Laws(e: Env) {
    SignatureLaw(e) && KemLaw(e) && AeadLaw(e) && TimeLaw(e) && JsonLaw(e)
  }

  /** A local identity: its name, signing key and ML-KEM decapsulation key. */
  datatype Identity = Identity(name: string, sk: Bytes, dk: Bytes)
}
