/** Laws of countersigning, link stamping and own-signature checking, taken together. */
module EndorsementLaws {
  import opened Gobl
  import opened Derivation
  import opened Endorsement

  // ---- supersession ---------------------------------------------------------------------------

  lemma {:induction false} ThirdPartyConcat(cfg: Lookup, a: seq<Signature>, b: seq<Signature>)
    ensures ThirdParty(cfg, a + b) == ThirdParty(cfg, a) + ThirdParty(cfg, b)
    decreases |b|
  {
    if b == [] {
      assert a + b == a;
    } else {
      var n := |b| - 1;
      assert (a + b)[..|a + b| - 1] == a + b[..n];
      ThirdPartyConcat(cfg, a, b[..n]);
    }
  }

  /** Stripping keeps exactly the signatures that do not claim the registry. */
  lemma {:induction false} ThirdPartyMembers(cfg: Lookup, sigs: seq<Signature>)
    ensures forall sig :: sig in ThirdParty(cfg, sigs) <==> sig in sigs && !ClaimsSelf(cfg, sig)
    ensures ThirdParty(cfg, ThirdParty(cfg, sigs)) == ThirdParty(cfg, sigs)
    decreases |sigs|
  {
    if sigs != [] {
      var n := |sigs| - 1;
      ThirdPartyMembers(cfg, sigs[..n]);
      assert sigs == sigs[..n] + [sigs[n]];
      ThirdPartyConcat(cfg, ThirdParty(cfg, sigs[..n]), [sigs[n]]);
      assert ThirdParty(cfg, [sigs[n]]) == if ClaimsSelf(cfg, sigs[n]) then [] else [sigs[n]];
    }
  }

  /** `out` lists the elements of `src` at the positions `kept`, in their order. */
  ghost predicate Picks<T>(src: seq<T>, out: seq<T>, kept: seq<nat>) {
    && |kept| == |out|
    && (forall i, j :: 0 <= i < j < |kept| ==> kept[i] < kept[j])
    && (forall i :: 0 <= i < |out| ==> kept[i] < |src| && out[i] == src[kept[i]])
  }

  /** Stripping picks, in order, the positions of exactly the signatures that do not decode or whose issuer
      is not the registry. */
  lemma {:induction false} ThirdPartyPicks(cfg: Lookup, sigs: seq<Signature>) returns (kept: seq<nat>)
    ensures Picks(sigs, ThirdParty(cfg, sigs), kept)
    ensures forall i: nat :: i in kept <==>
              i < |sigs| && (sigs[i].payload.None? || cfg.parseAddress(sigs[i].payload.value.iss) != Some(cfg.self))
    decreases |sigs|
  {
    if sigs == [] {
      kept := [];
    } else {
      var n := |sigs| - 1;
      kept := ThirdPartyPicks(cfg, sigs[..n]);
      assert forall i :: 0 <= i < |kept| ==> kept[i] in kept;
      if !ClaimsSelf(cfg, sigs[n]) {
        kept := kept + [n];
      }
    }
  }

  /** `own` is the only signature of the envelope that claims the registry, and it comes last. */
  ghost predicate SoleEndorsement(cfg: Lookup, env: Envelope, own: Signature) {
    && env.signatures == ThirdParty(cfg, env.signatures) + [own]
    && ClaimsSelf(cfg, own)
  }

  /** `own` asserts registration of `subject`, verified by `verifier` ("" for nobody), until `exp`. */
  ghost predicate Asserts(cfg: Lookup, own: Signature, subject: Address, verifier: Address, exp: int) {
    && own.payload.Some?
    && own.payload.value.iss == cfg.self
    && own.payload.value.aud == subject
    && own.payload.value.verifier == verifier
    && own.payload.value.exp == exp
  }

  /** A successful countersigning replaces the registry's earlier signatures by one fresh signature,
      keeps everybody else's in order, and leaves the header alone. */
  lemma CounterSignEndorses(cfg: Lookup, sign: Signer, env: Envelope, subject: Address, verifier: Address, now: int)
    returns (own: Signature)
    requires WellFormed(cfg) && HonestSigner(cfg, sign)
    requires CounterSignValue(cfg, sign, env, subject, verifier, now).ok
    ensures var out := CounterSignValue(cfg, sign, env, subject, verifier, now).env;
            && out.head == env.head
            && out.signatures == ThirdParty(cfg, env.signatures) + [own]
            && SoleEndorsement(cfg, out, own)
            && Asserts(cfg, own, subject, verifier, now + ENDORSEMENT_TTL)
            && OwnSignaturesHold(cfg, out)
  {
    var stripped := env.(signatures := ThirdParty(cfg, env.signatures));
    var claims := Endorsing(cfg, subject, verifier, now);
    own := sign(stripped, claims).sig;
    assert FaithfulSignature(cfg, stripped, claims, own);
    var out := CounterSignValue(cfg, sign, env, subject, verifier, now).env;
    ThirdPartyMembers(cfg, env.signatures);
    ThirdPartyConcat(cfg, ThirdParty(cfg, env.signatures), [own]);
    assert ThirdParty(cfg, [own]) == [];
    var key := PublishedKey(cfg.publicKeys, own.kid);
  }

  /** One round: signatures that arrived since the last one, then a countersigning. */
  datatype Round = Round(arrivals: seq<Signature>, sign: Signer, subject: Address, verifier: Address, now: int)

  function Received(env: Envelope, r: Round): Envelope {
    env.(signatures := env.signatures + r.arrivals)
  }

  function CounterSignRound(cfg: Lookup, env: Envelope, r: Round): CounterSigned {
    CounterSignValue(cfg, r.sign, Received(env, r), r.subject, r.verifier, r.now)
  }

  function AfterRounds(cfg: Lookup, env: Envelope, rounds: seq<Round>): CounterSigned {
    if rounds == [] then CounterSigned(env, true)
    else
      var r := rounds[|rounds| - 1];
      var before := AfterRounds(cfg, env, rounds[..|rounds| - 1]);
      if !before.ok then before
      else CounterSignRound(cfg, before.env, r)
  }

  function Arrivals(rounds: seq<Round>): seq<Signature> {
    if rounds == [] then [] else Arrivals(rounds[..|rounds| - 1]) + rounds[|rounds| - 1].arrivals
  }

  /** Across rounds nobody else's signature is lost, duplicated or moved. */
  lemma {:induction false} RoundsKeepThirdParty(cfg: Lookup, env: Envelope, rounds: seq<Round>)
    requires WellFormed(cfg)
    requires forall r :: r in rounds ==> HonestSigner(cfg, r.sign)
    requires AfterRounds(cfg, env, rounds).ok
    ensures var out := AfterRounds(cfg, env, rounds).env;
            && out.head == env.head
            && ThirdParty(cfg, out.signatures) == ThirdParty(cfg, env.signatures + Arrivals(rounds))
    decreases |rounds|
  {
    hide CounterSignValue, ThirdParty, HonestSigner, WellFormed;
    if rounds == [] {
      assert env.signatures + [] == env.signatures;
    } else {
      var n := |rounds| - 1;
      var r, front := rounds[n], rounds[..n];
      RoundsKeepThirdParty(cfg, env, front);
      LastRound(cfg, AfterRounds(cfg, env, front).env, r);
      ThirdPartyConcat(cfg, env.signatures + Arrivals(front), r.arrivals);
      assert env.signatures + Arrivals(rounds) == (env.signatures + Arrivals(front)) + r.arrivals;
    }
  }

  lemma LastRound(cfg: Lookup, before: Envelope, r: Round)
    requires WellFormed(cfg) && HonestSigner(cfg, r.sign)
    requires CounterSignRound(cfg, before, r).ok
    ensures var out := CounterSignRound(cfg, before, r).env;
            && out.head == before.head
            && ThirdParty(cfg, out.signatures) == ThirdParty(cfg, before.signatures) + ThirdParty(cfg, r.arrivals)
  {
    var input := Received(before, r);
    var own := CounterSignEndorses(cfg, r.sign, input, r.subject, r.verifier, r.now);
    ThirdPartyConcat(cfg, before.signatures, r.arrivals);
    ThirdPartyConcat(cfg, ThirdParty(cfg, input.signatures), [own]);
    ThirdPartyMembers(cfg, input.signatures);
    assert ThirdParty(cfg, [own]) == [];
  }

  /** After any number of rounds the list is the signatures of everyone else, decodable or not, in the
      order they arrived, followed by the registry's signature from the last round alone. */
  lemma RoundsSupersede(cfg: Lookup, env: Envelope, rounds: seq<Round>) returns (own: Signature)
    requires WellFormed(cfg) && |rounds| >= 1
    requires forall r :: r in rounds ==> HonestSigner(cfg, r.sign)
    requires AfterRounds(cfg, env, rounds).ok
    ensures var out := AfterRounds(cfg, env, rounds).env;
            var last := rounds[|rounds| - 1];
            && out.head == env.head
            && out.signatures == ThirdParty(cfg, env.signatures + Arrivals(rounds)) + [own]
            && SoleEndorsement(cfg, out, own)
            && Asserts(cfg, own, last.subject, last.verifier, last.now + ENDORSEMENT_TTL)
  {
    var last := rounds[|rounds| - 1];
    var before := AfterRounds(cfg, env, rounds[..|rounds| - 1]).env;
    own := CounterSignEndorses(cfg, last.sign, Received(before, last), last.subject, last.verifier, last.now);
    RoundsKeepThirdParty(cfg, env, rounds);
  }

  /** Countersigning again supersedes the first round entirely: the result is what the second call
      alone would have produced, success or failure, with UUID and digest unchanged. */
  lemma CounterSignTwice(cfg: Lookup, first: Signer, second: Signer, env: Envelope,
                         s1: Address, v1: Address, t1: int, s2: Address, v2: Address, t2: int)
    requires WellFormed(cfg) && HonestSigner(cfg, first)
    requires CounterSignValue(cfg, first, env, s1, v1, t1).ok
    ensures var once := CounterSignValue(cfg, first, env, s1, v1, t1).env;
            && CounterSignValue(cfg, second, once, s2, v2, t2) == CounterSignValue(cfg, second, env, s2, v2, t2)
            && SealOf(CounterSignValue(cfg, second, once, s2, v2, t2).env) == SealOf(env)
  {
    var _ := CounterSignEndorses(cfg, first, env, s1, v1, t1);
    ThirdPartyMembers(cfg, env.signatures);
  }

  // ---- round trips ----------------------------------------------------------------------------

  /** An endorsed envelope may come back with foreign signatures added and the list in any order: the
      registry still recognises its own signature. */
  lemma ReturnedEnvelopeAccepted(cfg: Lookup, sign: Signer, env: Envelope, subject: Address, verifier: Address, now: int,
                                 foreign: seq<Signature>, back: Envelope)
    requires WellFormed(cfg) && HonestSigner(cfg, sign)
    requires CounterSignValue(cfg, sign, env, subject, verifier, now).ok
    requires forall sig :: sig in foreign ==> !ClaimsSelf(cfg, sig)
    requires SealOf(back) == SealOf(env)
    requires multiset(back.signatures) ==
             multiset(CounterSignValue(cfg, sign, env, subject, verifier, now).env.signatures + foreign)
    ensures OwnSignaturesHold(cfg, back)
  {
    var _ := CounterSignEndorses(cfg, sign, env, subject, verifier, now);
    var out := CounterSignValue(cfg, sign, env, subject, verifier, now).env;
    forall sig | sig in back.signatures
      ensures OwnSignatureHolds(cfg, SealOf(back), sig)
    {
      assert sig in multiset(back.signatures);
      assert sig in out.signatures + foreign;
      assert sig in out.signatures || sig in foreign;
    }
  }

  /** An envelope with a signature that is issued by the registry but verifies under no published key of its
      id is refused. */
  lemma TamperedEnvelopeRefused(cfg: Lookup, back: Envelope, own: Signature)
    requires own in back.signatures && own.payload.Some? && cfg.parseAddress(own.payload.value.iss) == Some(cfg.self)
    requires forall k :: k in cfg.publicKeys && k.kid == own.kid ==> !cfg.verifies(SealOf(back), own, k)
    ensures !OwnSignaturesHold(cfg, back)
  {}

  /** In particular an endorsed envelope is refused if it comes back under a header for which the
      endorsement does not verify, wherever in the list that stands and whatever was added. */
  lemma ChangedEnvelopeRefused(cfg: Lookup, sign: Signer, env: Envelope, subject: Address, verifier: Address, now: int,
                               back: Envelope) returns (own: Signature)
    requires WellFormed(cfg) && HonestSigner(cfg, sign)
    requires CounterSignValue(cfg, sign, env, subject, verifier, now).ok
    requires forall sig :: sig in CounterSignValue(cfg, sign, env, subject, verifier, now).env.signatures ==>
               sig in back.signatures
    ensures own in CounterSignValue(cfg, sign, env, subject, verifier, now).env.signatures
    ensures Asserts(cfg, own, subject, verifier, now + ENDORSEMENT_TTL)
    ensures (forall k :: k in cfg.publicKeys && k.kid == own.kid ==> !cfg.verifies(SealOf(back), own, k)) ==>
              !OwnSignaturesHold(cfg, back)
  {
    own := CounterSignEndorses(cfg, sign, env, subject, verifier, now);
    if forall k :: k in cfg.publicKeys && k.kid == own.kid ==> !cfg.verifies(SealOf(back), own, k) {
      TamperedEnvelopeRefused(cfg, back, own);
    }
  }

  lemma {:induction false} TallyThirdParty(cfg: Lookup, fetch: KeyOracle, now: int, seal: Option<Seal>,
                                           sigs: seq<Signature>)
    requires cfg.self !in cfg.accepted
    ensures TallyOf(cfg, fetch, now, seal, ThirdParty(cfg, sigs)) == TallyOf(cfg, fetch, now, seal, sigs)
    decreases |sigs|
  {
    if sigs != [] {
      var n := |sigs| - 1;
      TallyThirdParty(cfg, fetch, now, seal, sigs[..n]);
      var front := ThirdParty(cfg, sigs[..n]);
      assert (front + [sigs[n]])[..|front|] == front;
    }
  }

  /** What `Register` does to an incoming envelope before storing it. */
  function Endorsed(cfg: Lookup, sign: Signer, env: Envelope, subject: Address, verifier: Address, now: int)
    : CounterSigned
  {
    CounterSignValue(cfg, sign, Stamped(cfg, env), subject, verifier, now)
  }

  /** A registry that is not on its own accepted list derives the same verifier, or the same failure to
      decide, from an envelope and from its endorsed form. */
  lemma DerivationStable(cfg: Lookup, fetch: KeyOracle, at: int, sign: Signer, env: Envelope,
                         subject: Address, verifier: Address, now: int)
    requires WellFormed(cfg) && HonestSigner(cfg, sign) && cfg.self !in cfg.accepted
    requires Endorsed(cfg, sign, env, subject, verifier, now).ok
    ensures Derive(cfg, fetch, at, Endorsed(cfg, sign, env, subject, verifier, now).env) == Derive(cfg, fetch, at, env)
  {
    var own := CounterSignEndorses(cfg, sign, Stamped(cfg, env), subject, verifier, now);
    var third := ThirdParty(cfg, env.signatures);
    assert (third + [own])[..|third|] == third;
    TallyThirdParty(cfg, fetch, at, SealOf(env), env.signatures);
  }

  /** A registry on its own accepted list counts its fresh signature as one more vote, so re-deriving
      names the registry itself unless some provider's vote is at least as recent. */
  lemma SelfListedDerivation(cfg: Lookup, fetch: KeyOracle, at: int, sign: Signer, env: Envelope,
                             subject: Address, verifier: Address, now: int) returns (own: Signature)
    requires WellFormed(cfg) && HonestSigner(cfg, sign) && cfg.self in cfg.accepted
    requires Endorsed(cfg, sign, env, subject, verifier, now).ok
    ensures var out := Endorsed(cfg, sign, env, subject, verifier, now).env;
            var others := TallyOf(cfg, fetch, at, SealOf(env), ThirdParty(cfg, env.signatures));
            && SoleEndorsement(cfg, out, own)
            && (Stand(cfg, fetch, at, SealOf(out), own).Qualified? ==>
                  Derive(cfg, fetch, at, out).verifier ==
                  if others.best.Some? && others.best.value.iat >= own.payload.value.iat
                  then others.best.value.issuer else cfg.self)
  {
    own := CounterSignEndorses(cfg, sign, Stamped(cfg, env), subject, verifier, now);
    var third := ThirdParty(cfg, env.signatures);
    assert (third + [own])[..|third|] == third;
  }

  // ---- the discovery link ---------------------------------------------------------------------

  /** The lookup links among `links`. */
  function LookupLinks(links: seq<Option<Link>>): seq<Option<Link>> {
    if links == [] then []
    else
      var front := LookupLinks(links[..|links| - 1]);
      if IsLookupLink(links[|links| - 1]) then front + [links[|links| - 1]] else front
  }

  lemma {:induction false} OtherLinksConcat(a: seq<Option<Link>>, b: seq<Option<Link>>)
    ensures OtherLinks(a + b) == OtherLinks(a) + OtherLinks(b)
    ensures LookupLinks(a + b) == LookupLinks(a) + LookupLinks(b)
    decreases |b|
  {
    if b == [] {
      assert a + b == a;
    } else {
      var n := |b| - 1;
      assert (a + b)[..|a + b| - 1] == a + b[..n];
      OtherLinksConcat(a, b[..n]);
    }
  }

  lemma {:induction false} OtherLinksMembers(links: seq<Option<Link>>)
    ensures forall l :: l in OtherLinks(links) <==> l in links && !IsLookupLink(l)
    ensures OtherLinks(OtherLinks(links)) == OtherLinks(links)
    ensures LookupLinks(OtherLinks(links)) == []
    decreases |links|
  {
    if links != [] {
      var n := |links| - 1;
      OtherLinksMembers(links[..n]);
      assert links == links[..n] + [links[n]];
      OtherLinksConcat(OtherLinks(links[..n]), [links[n]]);
      assert OtherLinks([links[n]]) == if IsLookupLink(links[n]) then [] else [links[n]];
    }
  }

  /** Stamping keeps, in order, exactly the links that are nil or not a "verification" link named
      "lookup", and adds one that leads to the record of this envelope. */
  lemma StampPicks(cfg: Lookup, env: Envelope) returns (kept: seq<nat>)
    requires cfg.baseURL != "" && env.head.Some?
    ensures var links, out := env.head.value.links, Stamped(cfg, env).head;
            && out.Some? && out.value.links != []
            && Picks(links, out.value.links[..|out.value.links| - 1], kept)
            && (forall i: nat :: i in kept <==>
                  i < |links| && (links[i].None? || links[i].value.category != "verification" || links[i].value.key != "lookup"))
            && out.value.links[|out.value.links| - 1] ==
               Some(Link("verification", "lookup", cfg.baseURL + "/parties/" + cfg.uuidString(env.head.value.uuid)))
  {
    kept := OtherLinksPicks(env.head.value.links);
    var out := Stamped(cfg, env).head.value.links;
    assert out[..|out| - 1] == OtherLinks(env.head.value.links);
  }

  lemma {:induction false} OtherLinksPicks(links: seq<Option<Link>>) returns (kept: seq<nat>)
    ensures Picks(links, OtherLinks(links), kept)
    ensures forall i: nat :: i in kept <==>
              i < |links| && (links[i].None? || links[i].value.category != "verification" || links[i].value.key != "lookup")
    decreases |links|
  {
    if links == [] {
      kept := [];
    } else {
      var n := |links| - 1;
      kept := OtherLinksPicks(links[..n]);
      assert forall i :: 0 <= i < |kept| ==> kept[i] in kept;
      if !IsLookupLink(links[n]) {
        kept := kept + [n];
      }
    }
  }

  /** The header carries exactly one lookup link, and it points at this envelope's record. */
  ghost predicate OneDiscoveryLink(cfg: Lookup, env: Envelope) {
    && env.head.Some?
    && LookupLinks(env.head.value.links) == [DiscoveryLink(cfg, env.head.value.uuid)]
  }

  /** "Exactly one" is meant literally. */
  lemma OneLinkMeansOne(cfg: Lookup, env: Envelope) returns (i: nat)
    requires OneDiscoveryLink(cfg, env)
    ensures var links := env.head.value.links;
            && i < |links|
            && links[i] == Some(Link("verification", "lookup",
                                     cfg.baseURL + "/parties/" + cfg.uuidString(env.head.value.uuid)))
            && (forall j :: 0 <= j < |links| && j != i && links[j].Some? ==>
                  links[j].value.category != "verification" || links[j].value.key != "lookup")
  {
    var kept := LookupLinksPicks(env.head.value.links);
    i := kept[0];
    assert kept == [i];
  }

  lemma {:induction false} LookupLinksPicks(links: seq<Option<Link>>) returns (kept: seq<nat>)
    ensures Picks(links, LookupLinks(links), kept)
    ensures forall i: nat :: i in kept <==>
              i < |links| && links[i].Some? && links[i].value.category == "verification" && links[i].value.key == "lookup"
    decreases |links|
  {
    if links == [] {
      kept := [];
    } else {
      var n := |links| - 1;
      kept := LookupLinksPicks(links[..n]);
      assert forall i :: 0 <= i < |kept| ==> kept[i] in kept;
      if IsLookupLink(links[n]) {
        kept := kept + [n];
      }
    }
  }

  /** Stamping leaves every other link in order, nil entries included, and exactly one lookup link;
      signatures and everything they cover are untouched; stamping again changes nothing. */
  lemma StampHeals(cfg: Lookup, env: Envelope)
    requires WellFormed(cfg) && env.head.Some?
    ensures var out := Stamped(cfg, env);
            && OneDiscoveryLink(cfg, out)
            && OtherLinks(out.head.value.links) == OtherLinks(env.head.value.links)
            && out.head.value.links == OtherLinks(env.head.value.links) + LookupLinks(out.head.value.links)
            && SealOf(out) == SealOf(env) && out.signatures == env.signatures
            && Stamped(cfg, out) == out
  {
    var h := env.head.value;
    var others, link := OtherLinks(h.links), DiscoveryLink(cfg, h.uuid);
    OtherLinksMembers(h.links);
    OtherLinksConcat(others, [link]);
    LinkAlone(link);
    hide OtherLinks, LookupLinks, IsLookupLink, DiscoveryLink, WellFormed;
    assert OtherLinks(others + [link]) == others && LookupLinks(others + [link]) == [link];
  }

  lemma LinkAlone(link: Option<Link>)
    requires IsLookupLink(link)
    ensures OtherLinks([link]) == [] && LookupLinks([link]) == [link]
  {}

  /** No two links share a category and key, which envelope validation demands. */
  ghost predicate DistinctKeys(links: seq<Option<Link>>) {
    forall i, j :: 0 <= i < j < |links| && links[i].Some? && links[j].Some? ==>
      links[i].value.category != links[j].value.category || links[i].value.key != links[j].value.key
  }

  lemma LookupLinkAdds(others: seq<Option<Link>>, link: Option<Link>)
    requires IsLookupLink(link) && forall i :: 0 <= i < |others| ==> !IsLookupLink(others[i])
    ensures DistinctKeys(others + [link]) <==> DistinctKeys(others)
  {
    var links := others + [link];
    assert forall i :: 0 <= i < |others| ==> links[i] == others[i];
  }

  /** Stamping cures duplicate lookup links: the result is free of duplicates exactly when the other
      links were. */
  lemma StampKeepsKeysDistinct(cfg: Lookup, env: Envelope)
    requires WellFormed(cfg) && env.head.Some?
    ensures DistinctKeys(Stamped(cfg, env).head.value.links) <==> DistinctKeys(OtherLinks(env.head.value.links))
  {
    hide DistinctKeys, OtherLinks;
    var h := env.head.value;
    OtherLinksMembers(h.links);
    var others := OtherLinks(h.links);
    assert forall i :: 0 <= i < |others| ==> others[i] in others;
    LookupLinkAdds(others, DiscoveryLink(cfg, h.uuid));
  }

  /** Stamping and countersigning together, as every stored envelope has been treated. */
  lemma EndorsedShape(cfg: Lookup, sign: Signer, env: Envelope, subject: Address, verifier: Address, now: int)
    returns (own: Signature)
    requires WellFormed(cfg) && HonestSigner(cfg, sign) && env.head.Some?
    requires Endorsed(cfg, sign, env, subject, verifier, now).ok
    ensures var out := Endorsed(cfg, sign, env, subject, verifier, now).env;
            && out.head.Some? && SealOf(out) == SealOf(env)
            && OneDiscoveryLink(cfg, out) && OwnSignaturesHold(cfg, out)
            && out.signatures == ThirdParty(cfg, env.signatures) + [own]
            && ThirdParty(cfg, out.signatures) == ThirdParty(cfg, env.signatures)
            && SoleEndorsement(cfg, out, own)
            && Asserts(cfg, own, subject, verifier, now + ENDORSEMENT_TTL)
  {
    own := CounterSignEndorses(cfg, sign, Stamped(cfg, env), subject, verifier, now);
    StampHeals(cfg, env);
    hide CounterSignValue, HonestSigner, WellFormed, OwnSignaturesHold, Stamped;
    var out := Endorsed(cfg, sign, env, subject, verifier, now).env;
    assert out.signatures[..|out.signatures| - 1] == ThirdParty(cfg, env.signatures);
  }
}
