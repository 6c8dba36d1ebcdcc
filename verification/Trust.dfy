/** The trust store: known agents and authorities (src/trust.rs). */
module Trust {
  import opened Prelude
  import Base64

  /** A stored record; keys are kept base64url-encoded. */
  datatype Record = Record(pk: string, kemPk: Option<string>)

  /** The content of a trust store. */
  datatype Trust = Trust(agents: map<string, Record>, authorities: map<string, Record>)

  const EMPTY := Trust(map[], map[])

  function PublicKey(t: Trust, name: string): Option<Bytes> {
    if name in t.agents then Base64.Decode(t.agents[name].pk) else None
  }

  function KemPublicKey(t: Trust, name: string): Option<Bytes> {
    if name in t.agents && t.agents[name].kemPk.Some? then Base64.Decode(t.agents[name].kemPk.value) else None
  }

  function AuthorityKey(t: Trust, name: string): Option<Bytes> {
    if name in t.authorities then Base64.Decode(t.authorities[name].pk) else None
  }

  function MakeRecord(publicKey: Bytes, kemPublicKey: Option<Bytes>): Record {
    Record(Base64.Encode(publicKey), if kemPublicKey.Some? then Some(Base64.Encode(kemPublicKey.value)) else None)
  }

  function AddWithKem(t: Trust, name: string, publicKey: Bytes, kemPublicKey: Option<Bytes>): Trust {
    t.(agents := t.agents[name := MakeRecord(publicKey, kemPublicKey)])
  }

  /** After an add, exactly `name` resolves differently, and it resolves to the keys given. */
  lemma AddedKeys(t: Trust, name: string, publicKey: Bytes, kemPublicKey: Option<Bytes>, other: string)
    ensures var u := AddWithKem(t, name, publicKey, kemPublicKey);
            && PublicKey(u, other) == (if other == name then Some(publicKey) else PublicKey(t, other))
            && KemPublicKey(u, other) == (if other == name then kemPublicKey else KemPublicKey(t, other))
            && AuthorityKey(u, other) == AuthorityKey(t, other)
  {
    Base64.RoundTrip(publicKey);
    if kemPublicKey.Some? {
      Base64.RoundTrip(kemPublicKey.value);
    }
  }

  class TrustStore {
    var agents: map<string, Record>
    var authorities: map<string, Record>

    ghost function View(): Trust
      reads this
    {
      Trust(agents, authorities)
    }

    constructor ()
      ensures View() == EMPTY
    {
      agents, authorities := map[], map[];
    }

    /** `load`, given what the file holds. */
    constructor Load(file: Trust)
      ensures View() == file
    {
      agents, authorities := file.agents, file.authorities;
    }

    method AddKeys(name: string, publicKey: Bytes, kemPublicKey: Option<Bytes>)
      modifies this
      ensures View() == AddWithKem(old(View()), name, publicKey, kemPublicKey)
      ensures PublicKey(View(), name) == Some(publicKey) && KemPublicKey(View(), name) == kemPublicKey
      ensures forall other | other != name :: PublicKey(View(), other) == PublicKey(old(View()), other)
    {
      agents := agents[name := MakeRecord(publicKey, kemPublicKey)];
      AddedKeys(old(View()), name, publicKey, kemPublicKey, name);
    }

    method Remove(name: string) returns (existed: bool)
      modifies this
      ensures existed == (name in old(agents))
      ensures authorities == old(authorities) && PublicKey(View(), name) == None
      ensures KemPublicKey(View(), name) == None
      ensures forall other | other != name ::
                PublicKey(View(), other) == PublicKey(old(View()), other)
                && KemPublicKey(View(), other) == KemPublicKey(old(View()), other)
    {
      existed := name in agents;
      agents := agents - {name};
    }

    method AddAuthority(name: string, publicKey: Bytes)
      modifies this
      ensures agents == old(agents)
      ensures AuthorityKey(View(), name) == Some(publicKey)
      ensures forall other | other != name :: AuthorityKey(View(), other) == AuthorityKey(old(View()), other)
    {
      authorities := authorities[name := Record(Base64.Encode(publicKey), None)];
      Base64.RoundTrip(publicKey);
    }
  }
}
