/** The values the registry works on (addresses, signatures, envelopes, keys) and the parts of the
    GOBL library it relies on, which appear as oracles: address and UUID parsing, signature checks,
    key discovery and signing. Nothing is assumed about an oracle except what `WellFormed` and
    `HonestSigner` state. */
module Gobl {

  datatype Option<+T> = None | Some(value: T)

  /** A GOBL Net address; "" stands for "no address". */
  type Address = string

  datatype Uuid = Uuid(bits: nat)
  datatype Digest = Digest(algorithm: string, value: string)

  /** A header link. Links are not covered by signatures. */
  datatype Link = Link(category: string, key: string, url: string)

  /** An envelope header; a link may be nil, and so may the digest. */
  datatype Head = Head(uuid: Uuid, digest: Option<Digest>, links: seq<Option<Link>>)

  /** The claims inside a signature: 0 for `exp` means it never expires. */
  datatype Payload = Payload(iss: string, aud: string, verifier: string, iat: int, exp: int)

  /** A signature; the payload is None when it cannot be decoded. */
  datatype Signature = Signature(kid: string, payload: Option<Payload>, bytes: string)

  datatype Envelope = Envelope(head: Option<Head>, signatures: seq<Signature>)

  datatype PublicKey = PublicKey(kid: string, validFrom: Option<int>, material: seq<bv8>)

  /** The part of a header that signatures cover. */
  datatype Seal = Seal(uuid: Uuid, digest: Option<Digest>)

  function SealOf(env: Envelope): Option<Seal> {
    if env.head.Some? then Some(Seal(env.head.value.uuid, env.head.value.digest)) else None
  }

  function DigestOf(env: Envelope): Option<Digest> {
    if env.head.Some? then env.head.value.digest else None
  }

  /** Whether both envelopes carry the same document digest; a missing digest matches nothing. */
  predicate SameDigest(a: Envelope, b: Envelope) {
    DigestOf(a).Some? && DigestOf(a) == DigestOf(b)
  }

  /** What a key lookup at a provider yields. */
  datatype Fetched = Key(key: PublicKey) | Unavailable | Unusable
  type KeyOracle = (Address, string) -> Fetched

  /** The claims handed to the signing operation. */
  datatype Claims = Claims(iss: string, aud: string, verifier: string, exp: int)

  /** Signing appends one signature, or fails and leaves an arbitrary list behind. */
  datatype SignOutcome = Signed(sig: Signature) | SignFailed(left: seq<Signature>)
  type Signer = (Envelope, Claims) -> SignOutcome

  /** The registry's identity and configuration, with the library operations it uses. */
  datatype Lookup = Lookup(
    self: Address,
    activeKid: string,
    publicKeys: seq<PublicKey>,
    accepted: set<Address>,
    baseURL: string,
    parseAddress: string -> Option<Address>,
    uuidString: Uuid -> string,
    parseUuid: string -> Option<Uuid>,
    verifies: (Option<Seal>, Signature, PublicKey) -> bool)

  /** An assumption of the theorems that name it: loading an identity does not check it. */
  predicate UniqueKids(keys: seq<PublicKey>) {
    forall i, j :: 0 <= i < j < |keys| ==> keys[i].kid != keys[j].kid
  }

  /** What loading the identity and the parsing libraries provide: parsing canonicalises and never
      yields the empty address, the registry's own address is canonical, its base URL is set, its
      active key is published, and parsing a printed UUID gives it back. */
  ghost predicate WellFormed(cfg: Lookup) {
    && (forall s :: cfg.parseAddress(s).Some? ==>
          && cfg.parseAddress(s).value != ""
          && cfg.parseAddress(cfg.parseAddress(s).value) == cfg.parseAddress(s))
    && cfg.parseAddress(cfg.self) == Some(cfg.self)
    && cfg.baseURL != ""
    && (exists i :: 0 <= i < |cfg.publicKeys| && cfg.publicKeys[i].kid == cfg.activeKid)
    && (forall u :: cfg.parseUuid(cfg.uuidString(u)) == Some(u))
  }

  /** Whether a signature claims to have been made by the registry itself. */
  predicate ClaimsSelf(cfg: Lookup, sig: Signature) {
    sig.payload.Some? && cfg.parseAddress(sig.payload.value.iss) == Some(cfg.self)
  }

  /** A signer that, when it succeeds, signs the claims it was given with the active key; if several
      published keys share the active id, all of them must verify what it signs. */
  ghost predicate HonestSigner(cfg: Lookup, sign: Signer) {
    forall env, claims :: sign(env, claims).Signed? ==> FaithfulSignature(cfg, env, claims, sign(env, claims).sig)
  }

  ghost predicate FaithfulSignature(cfg: Lookup, env: Envelope, claims: Claims, sig: Signature) {
    && sig.payload.Some?
    && sig.payload.value.iss == claims.iss
    && sig.payload.value.aud == claims.aud
    && sig.payload.value.verifier == claims.verifier
    && sig.payload.value.exp == claims.exp
    && sig.kid == cfg.activeKid
    && (forall k :: k in cfg.publicKeys && k.kid == cfg.activeKid ==> cfg.verifies(SealOf(env), sig, k))
  }
}
