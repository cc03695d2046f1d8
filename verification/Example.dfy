/** A registry in miniature, on which the counterexamples happen. */
module Example {
  import opened Gobl
  import opened Derivation
  import opened Records
  import opened Store
  import opened Protocol
  import opened Counterexamples

  // ---- signatures that cover a seal -----------------------------------------------------------

  function Unary(n: nat): string {
    seq(n, i => '1')
  }

  /** What a signature covers, as text: UUID, then digest. */
  function EncodeSeal(seal: Option<Seal>): string {
    if seal.None? then "" else Unary(seal.value.uuid.bits) + "." + EncodeDigest(seal.value.digest)
  }

  function EncodeDigest(digest: Option<Digest>): string {
    if digest.None? then "" else Unary(|digest.value.algorithm|) + "." + digest.value.algorithm + digest.value.value
  }

  lemma UnaryPrefix(m: nat, n: nat, a: string, b: string)
    requires Unary(m) + "." + a == Unary(n) + "." + b
    ensures m == n && a == b
  {
    var x, y := Unary(m) + "." + a, Unary(n) + "." + b;
    assert x[m] == '.' && y[n] == '.';
    assert forall i :: 0 <= i < m ==> x[i] == '1';
    assert forall i :: 0 <= i < n ==> y[i] == '1';
    assert x[m + 1..] == a && y[n + 1..] == b;
  }

  /** Different headers are encoded differently, so a signature speaks for one UUID and digest only. */
  lemma EncodeSealInjective(a: Option<Seal>, b: Option<Seal>)
    requires EncodeSeal(a) == EncodeSeal(b)
    ensures a == b
  {
    if a.Some? && b.Some? {
      var s, t := a.value, b.value;
      UnaryPrefix(s.uuid.bits, t.uuid.bits, EncodeDigest(s.digest), EncodeDigest(t.digest));
      if s.digest.Some? && t.digest.Some? {
        var d, e := s.digest.value, t.digest.value;
        var n := |d.algorithm|;
        assert EncodeDigest(s.digest) == Unary(n) + "." + (d.algorithm + d.value);
        assert EncodeDigest(t.digest) == Unary(|e.algorithm|) + "." + (e.algorithm + e.value);
        UnaryPrefix(n, |e.algorithm|, d.algorithm + d.value, e.algorithm + e.value);
        assert (d.algorithm + d.value)[..n] == d.algorithm && (d.algorithm + d.value)[n..] == d.value;
        assert (e.algorithm + e.value)[..n] == e.algorithm && (e.algorithm + e.value)[n..] == e.value;
      }
    }
  }

  // ---- the registry ---------------------------------------------------------------------------

  /** Addresses are canonical as written, UUIDs are printed in unary, and a signature verifies under the
      key it names for the header it encodes. */
  const EXAMPLE := Lookup(
    "lookup.example", "k", [PublicKey("k", None, [])], {"kyc.example"}, "https://lookup.example",
    (s: string) => if s == "" then None else Some(s),
    (u: Uuid) => Unary(u.bits),
    (s: string) => Some(Uuid(|s|)),
    (seal: Option<Seal>, sig: Signature, key: PublicKey) => sig.kid == key.kid && sig.bytes == EncodeSeal(seal))

  const SIGNER: Signer := (env: Envelope, c: Claims) =>
    Signed(Signature("k", Some(Payload(c.iss, c.aud, c.verifier, 0, c.exp)), EncodeSeal(SealOf(env))))

  lemma ExampleIsWellFormed()
    ensures WellFormed(EXAMPLE) && SignsAlways(EXAMPLE, SIGNER)
  {
    assert EXAMPLE.publicKeys[0].kid == EXAMPLE.activeKid;
    forall u: Uuid
      ensures EXAMPLE.parseUuid(EXAMPLE.uuidString(u)) == Some(u)
    {
      assert |EXAMPLE.uuidString(u)| == u.bits;
    }
  }

  /** A signature counts for at most one UUID and digest. */
  lemma OneSealPerSignature(a: Option<Seal>, b: Option<Seal>, sig: Signature, key: PublicKey)
    requires EXAMPLE.verifies(a, sig, key) && EXAMPLE.verifies(b, sig, key)
    ensures a == b
  {
    EncodeSealInjective(a, b);
  }

  // ---- Alice's documents ----------------------------------------------------------------------

  /** A document of Alice's, signed by herself and countersigned by her provider, both at time `iat`. */
  function AliceSigned(head: Head, iat: int): Envelope {
    var seal := EncodeSeal(Some(Seal(head.uuid, head.digest)));
    Envelope(Some(head), [Signature("a", Some(Payload("alice.example", "", "", iat, 0)), seal),
                          Signature("p", Some(Payload("kyc.example", "alice.example", "", iat, 0)), seal)])
  }

  const ALICE := AliceSigned(Head(Uuid(7), Some(Digest("sha256", "d")), []), 1)
  const ALICE_CHANGED := AliceSigned(Head(Uuid(8), Some(Digest("sha256", "e")), []), 4)

  /** Every key endpoint answers, or every one but the provider's. */
  const REACHABLE: KeyOracle := (issuer: Address, kid: string) => Key(PublicKey(kid, None, []))
  const UNREACHABLE: KeyOracle := (issuer: Address, kid: string) =>
    if issuer == "kyc.example" then Unavailable else Key(PublicKey(kid, None, []))

  /** The subject of the document has signed it, under a key that it publishes. */
  ghost predicate SelfSigned(cfg: Lookup, fetch: KeyOracle, env: Envelope, addr: Address) {
    exists i :: 0 <= i < |env.signatures| && SignedBy(cfg, fetch, env, addr, env.signatures[i])
  }

  ghost predicate SignedBy(cfg: Lookup, fetch: KeyOracle, env: Envelope, addr: Address, sig: Signature) {
    && sig.payload.Some? && cfg.parseAddress(sig.payload.value.iss) == Some(addr)
    && fetch(addr, sig.kid).Key? && cfg.verifies(SealOf(env), sig, fetch(addr, sig.kid).key)
  }

  /** Such a document is admitted, whoever can be reached; the provider's signature on it counts when the
      provider's key can be fetched, and only then. */
  lemma AliceDerivation(head: Head, iat: int, now: int)
    requires head.digest.Some? && iat >= 0
    ensures var env := AliceSigned(head, iat);
            && Admissible(EXAMPLE, env, "alice.example")
            && SelfSigned(EXAMPLE, REACHABLE, env, "alice.example")
            && SelfSigned(EXAMPLE, UNREACHABLE, env, "alice.example")
            && Derive(EXAMPLE, REACHABLE, now, env).verifier == "kyc.example"
            && Derive(EXAMPLE, UNREACHABLE, now, env).verifier == ""
  {
    var env := AliceSigned(head, iat);
    ExampleIsWellFormed();
    assert SignedBy(EXAMPLE, REACHABLE, env, "alice.example", env.signatures[0]);
    assert SignedBy(EXAMPLE, UNREACHABLE, env, "alice.example", env.signatures[0]);
    assert StandAt(EXAMPLE, REACHABLE, now, env, 0) == Ignored;
    assert StandAt(EXAMPLE, REACHABLE, now, env, 1) == Qualified(Vote("kyc.example", iat));
    assert Leads(EXAMPLE, REACHABLE, now, env, 1);
    DeriveMeaning(EXAMPLE, REACHABLE, now, env);
    assert StandAt(EXAMPLE, UNREACHABLE, now, env, 0) == Ignored;
    assert StandAt(EXAMPLE, UNREACHABLE, now, env, 1) == Unreachable;
    DeriveMeaning(EXAMPLE, UNREACHABLE, now, env);
  }

  // ---- the counterexamples --------------------------------------------------------------------

  lemma AliceIsFlaky()
    ensures SelfSigned(EXAMPLE, REACHABLE, ALICE, "alice.example")
    ensures SelfSigned(EXAMPLE, UNREACHABLE, ALICE, "alice.example")
    ensures Flaky(EXAMPLE, ALICE, "alice.example", REACHABLE, UNREACHABLE, 2)
  {
    ExampleIsWellFormed();
    AliceDerivation(ALICE.head.value, 1, 2);
    hide Derive, WellFormed, SignsAlways, Admissible, SelfSigned, EncodeSeal;
  }

  /** A concrete run that loses a verification of a self-signed document. */
  lemma VerificationLostForAlice() returns (s: State)
    ensures SelfSigned(EXAMPLE, REACHABLE, ALICE, "alice.example")
    ensures SelfSigned(EXAMPLE, UNREACHABLE, ALICE, "alice.example")
    ensures Reachable(EXAMPLE, s) && VerifiedThenDropped(VersionsOf(s.disk, DocId("alice.example")))
  {
    hide Flaky, Reachable, WellFormed, SignsAlways, SelfSigned, VerifiedThenDropped;
    ExampleIsWellFormed();
    AliceIsFlaky();
    s := VerificationLost(EXAMPLE, ALICE, "alice.example", REACHABLE, UNREACHABLE, SIGNER, 2);
  }

  /** A concrete run in which Alice registers her document at time 2 and the changed one, signed and
      countersigned anew, at time 5, and her record keeps the verification timestamp 2. */
  lemma ChangedDataKeepsOldTimestamp() returns (s: State)
    ensures SelfSigned(EXAMPLE, REACHABLE, ALICE, "alice.example")
    ensures SelfSigned(EXAMPLE, REACHABLE, ALICE_CHANGED, "alice.example")
    ensures Reachable(EXAMPLE, s) && DocId("alice.example") in s.disk.records
    ensures DigestOf(ALICE) != DigestOf(ALICE_CHANGED)
    ensures VerifiedAsOf(s.disk.records[DocId("alice.example")], "kyc.example", DigestOf(ALICE_CHANGED), 5, 2)
  {
    ExampleIsWellFormed();
    AliceDerivation(ALICE.head.value, 1, 2);
    AliceDerivation(ALICE_CHANGED.head.value, 4, 5);
    hide Derive, Reachable, WellFormed, SignsAlways, Admissible, SelfSigned;
    s := ChangedDataKeepsTimestamp(EXAMPLE, ALICE, ALICE_CHANGED, "alice.example", REACHABLE, SIGNER, 2, 5);
  }

  /** A concrete run in which Alice's provider is away when her renewal derives, she has registered the
      changed document in the meantime, and the renewal keeps verifier and timestamp. */
  lemma OvertakenKeepsOldTimestamp() returns (s: State)
    ensures Reachable(EXAMPLE, s)
    ensures ChangedButKept(VersionsOf(s.disk, DocId("alice.example")), "kyc.example", 2)
  {
    ExampleIsWellFormed();
    AliceDerivation(ALICE.head.value, 1, 2);
    AliceDerivation(ALICE_CHANGED.head.value, 4, 5);
    AliceDerivation(ALICE.head.value, 1, 6);
    hide Derive, Reachable, WellFormed, SignsAlways, Admissible, SelfSigned, ChangedButKept;
    s := OvertakenKeepsTimestamp(EXAMPLE, ALICE, ALICE_CHANGED, "alice.example", REACHABLE, UNREACHABLE, SIGNER, 2, 5, 6);
  }
}
