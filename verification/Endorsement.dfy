/** Endorsing an envelope: stamping the discovery link, countersigning it, and checking the
    registry's own earlier countersignatures when the envelope comes back. */
module Endorsement {
  import opened Gobl

  /** Lifetime of a countersignature in seconds: 90 days. */
  const ENDORSEMENT_TTL := 90 * 24 * 60 * 60

  const LINK_CATEGORY := "verification"
  const LINK_KEY := "lookup"

  // ---- countersigning -------------------------------------------------------------------------

  /** The signatures that do not claim the registry, in their original order. */
  function ThirdParty(cfg: Lookup, sigs: seq<Signature>): seq<Signature> {
    if sigs == [] then []
    else
      var front := ThirdParty(cfg, sigs[..|sigs| - 1]);
      if ClaimsSelf(cfg, sigs[|sigs| - 1]) then front else front + [sigs[|sigs| - 1]]
  }

  function Endorsing(cfg: Lookup, subject: Address, verifier: Address, now: int): Claims {
    Claims(cfg.self, subject, verifier, now + ENDORSEMENT_TTL)
  }

  datatype CounterSigned = CounterSigned(env: Envelope, ok: bool)

  /** The effect of countersigning on an envelope's value. */
  function CounterSignValue(cfg: Lookup, sign: Signer, env: Envelope, subject: Address, verifier: Address, now: int)
    : CounterSigned
  {
    if env.head.None? then CounterSigned(env, false)
    else
      var stripped := env.(signatures := ThirdParty(cfg, env.signatures));
      match sign(stripped, Endorsing(cfg, subject, verifier, now))
      case Signed(sig) => CounterSigned(stripped.(signatures := stripped.signatures + [sig]), true)
      case SignFailed(left) => CounterSigned(stripped.(signatures := left), false)
  }

  // ---- the discovery link ---------------------------------------------------------------------

  predicate IsLookupLink(l: Option<Link>) {
    l.Some? && l.value.category == LINK_CATEGORY && l.value.key == LINK_KEY
  }

  function OtherLinks(links: seq<Option<Link>>): seq<Option<Link>> {
    if links == [] then []
    else
      var front := OtherLinks(links[..|links| - 1]);
      if IsLookupLink(links[|links| - 1]) then front else front + [links[|links| - 1]]
  }

  function RecordURL(cfg: Lookup, uuid: Uuid): string {
    cfg.baseURL + "/parties/" + cfg.uuidString(uuid)
  }

  function DiscoveryLink(cfg: Lookup, uuid: Uuid): Option<Link> {
    Some(Link(LINK_CATEGORY, LINK_KEY, RecordURL(cfg, uuid)))
  }

  function Stamped(cfg: Lookup, env: Envelope): Envelope {
    if cfg.baseURL == "" || env.head.None? then env
    else
      var h := env.head.value;
      env.(head := Some(h.(links := OtherLinks(h.links) + [DiscoveryLink(cfg, h.uuid)])))
  }

  // ---- the operations, in place ---------------------------------------------------------------

  /** An envelope that the operations below update in place. */
  class EnvelopeObject {
    var head: Option<Head>
    var signatures: seq<Signature>

    constructor (env: Envelope)
      ensures Value() == env
    {
      head, signatures := env.head, env.signatures;
    }

    function Value(): Envelope
      reads this
    {
      Envelope(head, signatures)
    }
  }

  method CounterSign(cfg: Lookup, sign: Signer, env: EnvelopeObject?, subject: Address, verifier: Address, now: int)
    returns (ok: bool)
    modifies if env != null then {env} else {}
    ensures env == null ==> !ok
    ensures env != null ==>
              CounterSigned(env.Value(), ok) == CounterSignValue(cfg, sign, old(env.Value()), subject, verifier, now)
    ensures env != null ==> env.head == old(env.head) && (old(env.head).None? ==> !ok && env.signatures == old(env.signatures))
    ensures env != null && env.head.Some? ==>
              var others := ThirdParty(cfg, old(env.signatures));
              match sign(Envelope(env.head, others), Claims(cfg.self, subject, verifier, now + 90 * 24 * 60 * 60))
              case Signed(sig) => ok && env.signatures == others + [sig]
              case SignFailed(left) => !ok && env.signatures == left
  {
    if env == null || env.head.None? {
      return false;
    }
    var sigs := [];
    var i := 0;
    while i < |env.signatures|
      invariant 0 <= i <= |env.signatures|
      invariant sigs == ThirdParty(cfg, env.signatures[..i])
    {
      var sig := env.signatures[i];
      assert env.signatures[..i + 1][..i] == env.signatures[..i];
      i := i + 1;
      if sig.payload.Some? {
        var iss := cfg.parseAddress(sig.payload.value.iss);
        if iss == Some(cfg.self) { continue; }
      }
      sigs := sigs + [sig];
    }
    assert env.signatures[..i] == env.signatures;
    env.signatures := sigs;
    var claims := Claims(cfg.self, subject, "", now + ENDORSEMENT_TTL);
    if verifier != "" {
      claims := claims.(verifier := verifier);
    }
    match sign(env.Value(), claims) {
      case Signed(sig) =>
        env.signatures := env.signatures + [sig];
        ok := true;
      case SignFailed(left) =>
        env.signatures := left;
        ok := false;
    }
  }

  method StampDiscoveryLink(cfg: Lookup, env: EnvelopeObject)
    modifies env
    ensures env.Value() == Stamped(cfg, old(env.Value()))
  {
    if cfg.baseURL == "" || env.head.None? {
      return;
    }
    var h := env.head.value;
    var links := [];
    var i := 0;
    while i < |h.links|
      invariant 0 <= i <= |h.links|
      invariant links == OtherLinks(h.links[..i])
    {
      var l := h.links[i];
      assert h.links[..i + 1][..i] == h.links[..i];
      i := i + 1;
      if l.Some? && l.value.category == LINK_CATEGORY && l.value.key == LINK_KEY { continue; }
      links := links + [l];
    }
    assert h.links[..i] == h.links;
    env.head := Some(h.(links := links + [DiscoveryLink(cfg, h.uuid)]));
  }

  /** The published key with the given id: the first match, if any. */
  method FindKey(cfg: Lookup, kid: string) returns (key: Option<PublicKey>)
    ensures key == PublishedKey(cfg.publicKeys, kid)
    ensures key.None? <==> forall k :: k in cfg.publicKeys ==> k.kid != kid
    ensures key.Some? ==> exists i :: FirstWithId(cfg.publicKeys, kid, i) && key.value == cfg.publicKeys[i]
  {
    for i := 0 to |cfg.publicKeys|
      invariant forall j :: 0 <= j < i ==> cfg.publicKeys[j].kid != kid
    {
      if cfg.publicKeys[i].kid == kid {
        PublishedKeyFirst(cfg.publicKeys, kid, i);
        return Some(cfg.publicKeys[i]);
      }
    }
    key := None;
  }

  /** The key at position `i` is the first with the id. */
  predicate FirstWithId(keys: seq<PublicKey>, kid: string, i: int) {
    0 <= i < |keys| && keys[i].kid == kid && forall j :: 0 <= j < i ==> keys[j].kid != kid
  }

  lemma {:induction false} PublishedKeyFirst(keys: seq<PublicKey>, kid: string, i: int)
    requires FirstWithId(keys, kid, i)
    ensures PublishedKey(keys, kid) == Some(keys[i])
    decreases |keys|
  {
    if i > 0 {
      PublishedKeyFirst(keys[1..], kid, i - 1);
    }
  }

  lemma {:induction false} PublishedKeyIndex(keys: seq<PublicKey>, kid: string) returns (i: int)
    ensures PublishedKey(keys, kid).Some? ==> FirstWithId(keys, kid, i)
    decreases |keys|
  {
    i := 0;
    if keys != [] && keys[0].kid != kid {
      i := PublishedKeyIndex(keys[1..], kid);
      i := i + 1;
    }
  }

  function PublishedKey(keys: seq<PublicKey>, kid: string): (key: Option<PublicKey>)
    ensures key.None? <==> forall k :: k in keys ==> k.kid != kid
    ensures key.Some? ==> key.value in keys && key.value.kid == kid
  {
    if keys == [] then None
    else if keys[0].kid == kid then Some(keys[0])
    else PublishedKey(keys[1..], kid)
  }

  /** A signature claiming the registry names a published key and verifies under it. */
  predicate OwnSignatureHolds(cfg: Lookup, seal: Option<Seal>, sig: Signature) {
    ClaimsSelf(cfg, sig) ==>
      var key := PublishedKey(cfg.publicKeys, sig.kid);
      key.Some? && cfg.verifies(seal, sig, key.value)
  }

  /** Every signature claiming the registry is one of its own. */
  predicate OwnSignaturesHold(cfg: Lookup, env: Envelope) {
    forall sig :: sig in env.signatures ==> OwnSignatureHolds(cfg, SealOf(env), sig)
  }

  /** The signature's issuer is the registry. */
  ghost predicate IssuedBySelf(cfg: Lookup, sig: Signature) {
    sig.payload.Some? && cfg.parseAddress(sig.payload.value.iss) == Some(cfg.self)
  }

  /** The envelope is refused exactly when some signature issued by the registry names no published key, or
      does not verify under the first one it names. */
  lemma OwnSignaturesMeaning(cfg: Lookup, env: Envelope)
    ensures OwnSignaturesHold(cfg, env) <==>
            forall sig :: sig in env.signatures && IssuedBySelf(cfg, sig) ==>
              exists i :: FirstWithId(cfg.publicKeys, sig.kid, i) && cfg.verifies(SealOf(env), sig, cfg.publicKeys[i])
  {
    forall sig | sig in env.signatures && IssuedBySelf(cfg, sig)
      ensures OwnSignatureHolds(cfg, SealOf(env), sig) <==>
              exists i :: FirstWithId(cfg.publicKeys, sig.kid, i) && cfg.verifies(SealOf(env), sig, cfg.publicKeys[i])
    {
      var j := PublishedKeyIndex(cfg.publicKeys, sig.kid);
      forall i | FirstWithId(cfg.publicKeys, sig.kid, i)
        ensures PublishedKey(cfg.publicKeys, sig.kid) == Some(cfg.publicKeys[i])
      {
        PublishedKeyFirst(cfg.publicKeys, sig.kid, i);
      }
    }
  }

  /** Accepts the envelope or refuses it; in particular each signature issued by the registry verifies
      under a published key of an accepted one. */
  method VerifyOwnSignatures(cfg: Lookup, env: Envelope) returns (ok: bool)
    ensures ok <==> OwnSignaturesHold(cfg, env)
    ensures ok <==> forall sig :: sig in env.signatures && IssuedBySelf(cfg, sig) ==>
              exists i :: FirstWithId(cfg.publicKeys, sig.kid, i) && cfg.verifies(SealOf(env), sig, cfg.publicKeys[i])
    ensures ok ==> forall sig :: sig in env.signatures && sig.payload.Some?
                                 && cfg.parseAddress(sig.payload.value.iss) == Some(cfg.self) ==>
              exists k :: k in cfg.publicKeys && k.kid == sig.kid && cfg.verifies(SealOf(env), sig, k)
  {
    OwnSignaturesMeaning(cfg, env);
    for i := 0 to |env.signatures|
      invariant forall j :: 0 <= j < i ==> OwnSignatureHolds(cfg, SealOf(env), env.signatures[j])
    {
      var sig := env.signatures[i];
      if sig.payload.None? { continue; }
      var iss := cfg.parseAddress(sig.payload.value.iss);
      if iss.None? || iss.value != cfg.self { continue; }
      var pub := FindKey(cfg, sig.kid);
      if pub.None? {
        assert !OwnSignatureHolds(cfg, SealOf(env), env.signatures[i]);
        return false;
      }
      if !cfg.verifies(SealOf(env), sig, pub.value) {
        assert !OwnSignatureHolds(cfg, SealOf(env), env.signatures[i]);
        return false;
      }
    }
    ok := true;
  }
}
