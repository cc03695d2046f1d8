/** Deriving the verifier of an envelope from the countersignatures it carries. */
module Derivation {
  import opened Gobl

  datatype Vote = Vote(issuer: Address, iat: int)

  /** How one signature stands for a derivation made at time `now`. */
  datatype Standing = Ignored | Unreachable | Qualified(vote: Vote)

  /** A signature qualifies when it decodes, comes from an accepted issuer, has a non-negative issue
      time, has not expired, and verifies under a key its issuer publishes. It is unreachable when
      only the key is missing because the issuer could not be reached. */
  function Stand(cfg: Lookup, fetch: KeyOracle, now: int, seal: Option<Seal>, sig: Signature): Standing {
    if sig.payload.None? then Ignored
    else
      var p := sig.payload.value;
      var issuer := cfg.parseAddress(p.iss);
      if issuer.None? || issuer.value !in cfg.accepted then Ignored
      else if (p.exp != 0 && now >= p.exp) || p.iat < 0 then Ignored
      else
        match fetch(issuer.value, sig.kid)
        case Unavailable => Unreachable
        case Unusable => Ignored
        case Key(k) => if cfg.verifies(seal, sig, k) then Qualified(Vote(issuer.value, p.iat)) else Ignored
  }

  /** Standing of the signature at position `i` of an envelope. */
  function StandAt(cfg: Lookup, fetch: KeyOracle, now: int, env: Envelope, i: nat): Standing
    requires i < |env.signatures|
  {
    Stand(cfg, fetch, now, SealOf(env), env.signatures[i])
  }

  /** The leading vote so far, and whether some candidate's key could not be reached. */
  datatype Tally = Tally(best: Option<Vote>, unreachable: bool)

  function Count(t: Tally, s: Standing): Tally {
    match s
    case Ignored => t
    case Unreachable => t.(unreachable := true)
    case Qualified(v) =>
      if t.best.Some? && v.iat <= t.best.value.iat then t else t.(best := Some(v))
  }

  function TallyOf(cfg: Lookup, fetch: KeyOracle, now: int, seal: Option<Seal>, sigs: seq<Signature>): Tally {
    if sigs == [] then Tally(None, false)
    else Count(TallyOf(cfg, fetch, now, seal, sigs[..|sigs| - 1]), Stand(cfg, fetch, now, seal, sigs[|sigs| - 1]))
  }

  /** The derived verifier ("" for none), and whether the answer is inconclusive. */
  datatype Derived = Derived(verifier: Address, unavailable: bool)

  function Derive(cfg: Lookup, fetch: KeyOracle, now: int, env: Envelope): Derived {
    var t := TallyOf(cfg, fetch, now, SealOf(env), env.signatures);
    if t.best.Some? then Derived(t.best.value.issuer, false)
    else Derived("", t.unreachable)
  }

  // ---- what counts, in the registry's own terms -----------------------------------------------

  /** Signature `i` counts for `issuer`: it decodes, its issuer is that accepted address, its issue time is
      not negative, it has not expired, and it verifies under the key that the issuer publishes for it. */
  ghost predicate CountsFor(cfg: Lookup, fetch: KeyOracle, now: int, env: Envelope, i: nat, issuer: Address) {
    Candidate(cfg, now, env, i, issuer) &&
    var sig := env.signatures[i];
    var answer := fetch(issuer, sig.kid);
    answer.Key? && cfg.verifies(SealOf(env), sig, answer.key)
  }

  ghost predicate Candidate(cfg: Lookup, now: int, env: Envelope, i: nat, issuer: Address) {
    i < |env.signatures| && env.signatures[i].payload.Some? &&
    var p := env.signatures[i].payload.value;
    && cfg.parseAddress(p.iss) == Some(issuer) && issuer in cfg.accepted
    && p.iat >= 0 && (p.exp == 0 || now < p.exp)
  }

  /** Signature `i` would count if the key of its issuer could be fetched. */
  ghost predicate BlockedFor(cfg: Lookup, fetch: KeyOracle, now: int, env: Envelope, i: nat, issuer: Address) {
    Candidate(cfg, now, env, i, issuer) && fetch(issuer, env.signatures[i].kid).Unavailable?
  }

  function IssuedAt(env: Envelope, i: nat): int
    requires i < |env.signatures| && env.signatures[i].payload.Some?
  {
    env.signatures[i].payload.value.iat
  }

  /** Signature `i` decides for `issuer`: it counts, none that counts is newer, and none before it is as new. */
  ghost predicate DecidesFor(cfg: Lookup, fetch: KeyOracle, now: int, env: Envelope, i: nat, issuer: Address) {
    && CountsFor(cfg, fetch, now, env, i, issuer)
    && forall j: nat, other :: CountsFor(cfg, fetch, now, env, j, other) ==>
         IssuedAt(env, j) <= IssuedAt(env, i) && (j < i ==> IssuedAt(env, j) < IssuedAt(env, i))
  }

  ghost predicate SomeCounts(cfg: Lookup, fetch: KeyOracle, now: int, env: Envelope) {
    exists i: nat, issuer :: CountsFor(cfg, fetch, now, env, i, issuer)
  }

  ghost predicate SomeBlocked(cfg: Lookup, fetch: KeyOracle, now: int, env: Envelope) {
    exists i: nat, issuer :: BlockedFor(cfg, fetch, now, env, i, issuer)
  }

  /** A derivation is what the registry's rules say: some signature decides for the verifier it names, it
      names nobody exactly when none counts, and it is inconclusive exactly when none counts and one is
      blocked. */
  ghost predicate Conforms(cfg: Lookup, fetch: KeyOracle, now: int, env: Envelope, d: Derived) {
    && (d.verifier != "" ==> exists i: nat :: DecidesFor(cfg, fetch, now, env, i, d.verifier))
    && (d.verifier == "" <==> !SomeCounts(cfg, fetch, now, env))
    && (d.unavailable <==> !SomeCounts(cfg, fetch, now, env) && SomeBlocked(cfg, fetch, now, env))
  }

  // ---- the scan -------------------------------------------------------------------------------

  /** The single pass the service runs. It fetches no key for a signature that is not newer than the
      best one found so far, yet it gives the answer of the unpruned derivation. */
  method AcceptedVerifier(cfg: Lookup, fetch: KeyOracle, now: int, env: Envelope) returns (res: Derived)
    requires WellFormed(cfg)
    ensures res == Derive(cfg, fetch, now, env)
    ensures Conforms(cfg, fetch, now, env, res)
    ensures res.unavailable ==> res.verifier == ""
  {
    var best, bestIat, unavailable := "", -1, false;
    ghost var seal := SealOf(env);
    var i := 0;
    while i < |env.signatures|
      invariant 0 <= i <= |env.signatures|
      invariant bestIat >= -1
      invariant best == "" <==> bestIat == -1
      invariant var t := TallyOf(cfg, fetch, now, seal, env.signatures[..i]);
                if bestIat == -1 then t == Tally(None, unavailable) else t.best == Some(Vote(best, bestIat))
    {
      var sig := env.signatures[i];
      assert env.signatures[..i + 1][..i] == env.signatures[..i];
      i := i + 1;
      if sig.payload.None? { continue; }
      var p := sig.payload.value;
      var issuer := cfg.parseAddress(p.iss);
      if issuer.None? || issuer.value !in cfg.accepted { continue; }
      if p.exp != 0 && now >= p.exp { continue; }
      if p.iat <= bestIat { continue; }
      match fetch(issuer.value, sig.kid) {
        case Unavailable => unavailable := true;
        case Unusable =>
        case Key(k) =>
          if cfg.verifies(SealOf(env), sig, k) {
            best, bestIat := issuer.value, p.iat;
          }
      }
    }
    assert env.signatures[..i] == env.signatures;
    DeriveConforms(cfg, fetch, now, env);
    hide Conforms;
    if best == "" && unavailable {
      return Derived("", true);
    }
    return Derived(best, false);
  }

  // ---- what a derivation means ----------------------------------------------------------------

  /** Position `i` holds the qualifying signature with the latest issue time, the earliest on ties. */
  ghost predicate Leads(cfg: Lookup, fetch: KeyOracle, now: int, env: Envelope, i: nat) {
    && i < |env.signatures|
    && StandAt(cfg, fetch, now, env, i).Qualified?
    && forall j: nat :: j < |env.signatures| && StandAt(cfg, fetch, now, env, j).Qualified? ==>
         && StandAt(cfg, fetch, now, env, j).vote.iat <= StandAt(cfg, fetch, now, env, i).vote.iat
         && (j < i ==> StandAt(cfg, fetch, now, env, j).vote.iat < StandAt(cfg, fetch, now, env, i).vote.iat)
  }

  ghost predicate SomeQualifies(cfg: Lookup, fetch: KeyOracle, now: int, env: Envelope) {
    exists i: nat :: i < |env.signatures| && StandAt(cfg, fetch, now, env, i).Qualified?
  }

  ghost predicate SomeUnreachable(cfg: Lookup, fetch: KeyOracle, now: int, env: Envelope) {
    exists i: nat :: i < |env.signatures| && StandAt(cfg, fetch, now, env, i).Unreachable?
  }

  function Prefix(env: Envelope, n: nat): Envelope
    requires n <= |env.signatures|
  {
    env.(signatures := env.signatures[..n])
  }

  /** The tally of a prefix has exactly its leading signature, and knows whether one is unreachable. */
  lemma {:induction false} TallyLeads(cfg: Lookup, fetch: KeyOracle, now: int, env: Envelope) returns (lead: int)
    ensures var t := TallyOf(cfg, fetch, now, SealOf(env), env.signatures);
            && (t.unreachable <==> SomeUnreachable(cfg, fetch, now, env))
            && (t.best.None? <==> lead == -1)
            && (t.best.None? <==> !SomeQualifies(cfg, fetch, now, env))
            && (t.best.Some? ==> lead >= 0 && Leads(cfg, fetch, now, env, lead)
                                 && t.best.value == StandAt(cfg, fetch, now, env, lead).vote)
    decreases |env.signatures|
  {
    if env.signatures == [] {
      lead := -1;
    } else {
      var n := |env.signatures| - 1;
      var front := Prefix(env, n);
      lead := TallyLeads(cfg, fetch, now, front);
      var s := StandAt(cfg, fetch, now, env, n);
      assert forall j: nat :: j < n ==> StandAt(cfg, fetch, now, front, j) == StandAt(cfg, fetch, now, env, j);
      if s.Qualified? && (lead == -1 || StandAt(cfg, fetch, now, front, lead).vote.iat < s.vote.iat) {
        lead := n;
      }
      assert s.Unreachable? ==> SomeUnreachable(cfg, fetch, now, env);
      if SomeUnreachable(cfg, fetch, now, front) {
        var j: nat :| j < n && StandAt(cfg, fetch, now, front, j).Unreachable?;
        assert StandAt(cfg, fetch, now, env, j).Unreachable?;
      }
    }
  }

  /** The derivation names the issuer of the leading signature, names nobody exactly when no signature
      qualifies, and is inconclusive exactly when none qualifies and some candidate was unreachable. */
  lemma DeriveMeaning(cfg: Lookup, fetch: KeyOracle, now: int, env: Envelope)
    requires WellFormed(cfg)
    ensures var d := Derive(cfg, fetch, now, env);
            && (d.verifier != "" <==> SomeQualifies(cfg, fetch, now, env))
            && (forall i: nat :: Leads(cfg, fetch, now, env, i) ==>
                  d.verifier == StandAt(cfg, fetch, now, env, i).vote.issuer)
            && (d.unavailable <==> !SomeQualifies(cfg, fetch, now, env) && SomeUnreachable(cfg, fetch, now, env))
            && (d.verifier != "" ==> d.verifier in cfg.accepted)
  {
    var lead := TallyLeads(cfg, fetch, now, env);
    forall i: nat | Leads(cfg, fetch, now, env, i)
      ensures i == lead
    {}
  }

  lemma StandingMeaning(cfg: Lookup, fetch: KeyOracle, now: int, env: Envelope, i: nat, issuer: Address)
    requires i < |env.signatures|
    ensures CountsFor(cfg, fetch, now, env, i, issuer) <==>
            var s := StandAt(cfg, fetch, now, env, i);
            s.Qualified? && s.vote.issuer == issuer
    ensures CountsFor(cfg, fetch, now, env, i, issuer) ==>
            StandAt(cfg, fetch, now, env, i).vote.iat == IssuedAt(env, i)
    ensures BlockedFor(cfg, fetch, now, env, i, issuer) ==> StandAt(cfg, fetch, now, env, i).Unreachable?
    ensures StandAt(cfg, fetch, now, env, i).Unreachable? ==>
            exists other :: BlockedFor(cfg, fetch, now, env, i, other)
  {
    if StandAt(cfg, fetch, now, env, i).Unreachable? {
      assert BlockedFor(cfg, fetch, now, env, i, cfg.parseAddress(env.signatures[i].payload.value.iss).value);
    }
  }

  lemma SomeMeaning(cfg: Lookup, fetch: KeyOracle, now: int, env: Envelope)
    ensures SomeCounts(cfg, fetch, now, env) <==> SomeQualifies(cfg, fetch, now, env)
    ensures SomeBlocked(cfg, fetch, now, env) <==> SomeUnreachable(cfg, fetch, now, env)
  {
    forall i: nat | i < |env.signatures| && StandAt(cfg, fetch, now, env, i).Qualified?
      ensures SomeCounts(cfg, fetch, now, env)
    {
      StandingMeaning(cfg, fetch, now, env, i, StandAt(cfg, fetch, now, env, i).vote.issuer);
    }
    forall i: nat, issuer | CountsFor(cfg, fetch, now, env, i, issuer)
      ensures SomeQualifies(cfg, fetch, now, env)
    {
      StandingMeaning(cfg, fetch, now, env, i, issuer);
    }
    forall i: nat | i < |env.signatures| && StandAt(cfg, fetch, now, env, i).Unreachable?
      ensures SomeBlocked(cfg, fetch, now, env)
    {
      StandingMeaning(cfg, fetch, now, env, i, "");
    }
    forall i: nat, issuer | BlockedFor(cfg, fetch, now, env, i, issuer)
      ensures SomeUnreachable(cfg, fetch, now, env)
    {
      StandingMeaning(cfg, fetch, now, env, i, issuer);
    }
  }

  lemma LeaderDecides(cfg: Lookup, fetch: KeyOracle, now: int, env: Envelope, lead: nat)
    requires Leads(cfg, fetch, now, env, lead)
    ensures DecidesFor(cfg, fetch, now, env, lead, StandAt(cfg, fetch, now, env, lead).vote.issuer)
  {
    StandingMeaning(cfg, fetch, now, env, lead, StandAt(cfg, fetch, now, env, lead).vote.issuer);
    hide Stand;
    forall j: nat, other | CountsFor(cfg, fetch, now, env, j, other)
      ensures IssuedAt(env, j) <= IssuedAt(env, lead) && (j < lead ==> IssuedAt(env, j) < IssuedAt(env, lead))
    {
      StandingMeaning(cfg, fetch, now, env, j, other);
    }
  }

  lemma DeriveConforms(cfg: Lookup, fetch: KeyOracle, now: int, env: Envelope)
    requires WellFormed(cfg)
    ensures Conforms(cfg, fetch, now, env, Derive(cfg, fetch, now, env))
  {
    DeriveMeaning(cfg, fetch, now, env);
    SomeMeaning(cfg, fetch, now, env);
    hide SomeCounts, SomeBlocked, SomeQualifies, SomeUnreachable, TallyOf, Stand, DecidesFor;
    var lead := TallyLeads(cfg, fetch, now, env);
    if Derive(cfg, fetch, now, env).verifier != "" {
      LeaderDecides(cfg, fetch, now, env, lead);
    }
  }

  /** The one signature of an envelope names its issuer exactly under these conditions, and makes the
      answer inconclusive exactly if only the key is out of reach. */
  lemma LoneSignature(cfg: Lookup, fetch: KeyOracle, now: int, head: Head, sig: Signature, issuer: Address)
    requires WellFormed(cfg) && issuer != ""
    ensures var d := Derive(cfg, fetch, now, Envelope(Some(head), [sig]));
            && (d.verifier == issuer <==>
                  && sig.payload.Some? && cfg.parseAddress(sig.payload.value.iss) == Some(issuer)
                  && issuer in cfg.accepted && sig.payload.value.iat >= 0
                  && (sig.payload.value.exp == 0 || now < sig.payload.value.exp)
                  && fetch(issuer, sig.kid).Key?
                  && cfg.verifies(Some(Seal(head.uuid, head.digest)), sig, fetch(issuer, sig.kid).key))
            && (sig.payload.Some? && cfg.parseAddress(sig.payload.value.iss) == Some(issuer) ==>
                  (d.unavailable <==>
                     && issuer in cfg.accepted && sig.payload.value.iat >= 0
                     && (sig.payload.value.exp == 0 || now < sig.payload.value.exp)
                     && fetch(issuer, sig.kid).Unavailable?))
  {
    var env := Envelope(Some(head), [sig]);
    DeriveConforms(cfg, fetch, now, env);
    hide Derive;
    assert DecidesFor(cfg, fetch, now, env, 0, issuer) <==> CountsFor(cfg, fetch, now, env, 0, issuer);
    assert forall i: nat, a :: CountsFor(cfg, fetch, now, env, i, a) || BlockedFor(cfg, fetch, now, env, i, a) ==>
        i == 0 && sig.payload.Some? && cfg.parseAddress(sig.payload.value.iss) == Some(a);
    assert BlockedFor(cfg, fetch, now, env, 0, issuer) ==> SomeBlocked(cfg, fetch, now, env);
  }

  // ---- order independence ---------------------------------------------------------------------

  /** Both envelopes cover the same header and carry the same signatures, in any order. */
  ghost predicate Reordered(a: Envelope, b: Envelope) {
    SealOf(a) == SealOf(b) && multiset(a.signatures) == multiset(b.signatures)
  }

  /** All latest qualifying signatures come from one issuer. */
  ghost predicate OneLatestIssuer(cfg: Lookup, fetch: KeyOracle, now: int, env: Envelope) {
    forall i: nat, j: nat ::
      Latest(cfg, fetch, now, env, i) && Latest(cfg, fetch, now, env, j) ==>
        StandAt(cfg, fetch, now, env, i).vote.issuer == StandAt(cfg, fetch, now, env, j).vote.issuer
  }

  ghost predicate Latest(cfg: Lookup, fetch: KeyOracle, now: int, env: Envelope, i: nat) {
    && i < |env.signatures|
    && StandAt(cfg, fetch, now, env, i).Qualified?
    && forall j: nat :: j < |env.signatures| && StandAt(cfg, fetch, now, env, j).Qualified? ==>
         StandAt(cfg, fetch, now, env, j).vote.iat <= StandAt(cfg, fetch, now, env, i).vote.iat
  }

  lemma Located(a: Envelope, b: Envelope, i: nat) returns (j: nat)
    requires Reordered(a, b) && i < |a.signatures|
    ensures j < |b.signatures| && b.signatures[j] == a.signatures[i]
  {
    assert a.signatures[i] in multiset(a.signatures);
    assert a.signatures[i] in b.signatures;
    j :| j < |b.signatures| && b.signatures[j] == a.signatures[i];
  }

  lemma ReorderedMeets(cfg: Lookup, fetch: KeyOracle, now: int, a: Envelope, b: Envelope)
    requires Reordered(a, b)
    ensures SomeQualifies(cfg, fetch, now, a) ==> SomeQualifies(cfg, fetch, now, b)
    ensures SomeUnreachable(cfg, fetch, now, a) ==> SomeUnreachable(cfg, fetch, now, b)
  {
    if SomeQualifies(cfg, fetch, now, a) {
      var i: nat :| i < |a.signatures| && StandAt(cfg, fetch, now, a, i).Qualified?;
      var j := Located(a, b, i);
      assert StandAt(cfg, fetch, now, b, j).Qualified?;
    }
    if SomeUnreachable(cfg, fetch, now, a) {
      var i: nat :| i < |a.signatures| && StandAt(cfg, fetch, now, a, i).Unreachable?;
      var j := Located(a, b, i);
      assert StandAt(cfg, fetch, now, b, j).Unreachable?;
    }
  }

  /** When the latest qualifying signatures share one issuer, the order of the list is irrelevant. */
  lemma OrderIrrelevant(cfg: Lookup, fetch: KeyOracle, now: int, a: Envelope, b: Envelope)
    requires WellFormed(cfg) && Reordered(a, b) && OneLatestIssuer(cfg, fetch, now, a)
    ensures Derive(cfg, fetch, now, a) == Derive(cfg, fetch, now, b)
  {
    DeriveMeaning(cfg, fetch, now, a);
    DeriveMeaning(cfg, fetch, now, b);
    ReorderedMeets(cfg, fetch, now, a, b);
    ReorderedMeets(cfg, fetch, now, b, a);
    if SomeQualifies(cfg, fetch, now, a) {
      var i := TallyLeads(cfg, fetch, now, a);
      var j := TallyLeads(cfg, fetch, now, b);
      var k := Located(b, a, j);
      assert Latest(cfg, fetch, now, a, i);
      forall m: nat | m < |a.signatures| && StandAt(cfg, fetch, now, a, m).Qualified?
        ensures StandAt(cfg, fetch, now, a, m).vote.iat <= StandAt(cfg, fetch, now, a, k).vote.iat
      {
        var m' := Located(a, b, m);
        assert StandAt(cfg, fetch, now, b, m') == StandAt(cfg, fetch, now, a, m);
      }
      assert StandAt(cfg, fetch, now, a, k) == StandAt(cfg, fetch, now, b, j);
      assert Latest(cfg, fetch, now, a, k);
    }
  }

  /** The envelope with the signature at `i` moved to the front. */
  function Fronted(env: Envelope, i: nat): Envelope
    requires i < |env.signatures|
  {
    env.(signatures := [env.signatures[i]] + env.signatures[..i] + env.signatures[i + 1..])
  }

  lemma FrontedReorders(env: Envelope, i: nat)
    requires i < |env.signatures|
    ensures Reordered(env, Fronted(env, i))
  {
    var s := env.signatures;
    assert s == s[..i] + ([s[i]] + s[i + 1..]);
    assert multiset(s[..i] + ([s[i]] + s[i + 1..])) == multiset(s[..i]) + multiset{s[i]} + multiset(s[i + 1..]);
  }

  /** A latest signature moved to the front decides the derivation. */
  lemma FrontedDecides(cfg: Lookup, fetch: KeyOracle, now: int, a: Envelope, m: nat)
    requires WellFormed(cfg) && Latest(cfg, fetch, now, a, m)
    ensures Derive(cfg, fetch, now, Fronted(a, m)).verifier == StandAt(cfg, fetch, now, a, m).vote.issuer
  {
    var b := Fronted(a, m);
    FrontedReorders(a, m);
    assert StandAt(cfg, fetch, now, b, 0) == StandAt(cfg, fetch, now, a, m);
    forall k: nat | k < |b.signatures| && StandAt(cfg, fetch, now, b, k).Qualified?
      ensures StandAt(cfg, fetch, now, b, k).vote.iat <= StandAt(cfg, fetch, now, b, 0).vote.iat
    {
      var k' := Located(b, a, k);
      assert StandAt(cfg, fetch, now, a, k') == StandAt(cfg, fetch, now, b, k);
    }
    assert Leads(cfg, fetch, now, b, 0);
    DeriveMeaning(cfg, fetch, now, b);
  }

  /** Conversely, two latest signatures by different issuers make the order matter: some reordering
      derives somebody else. */
  lemma OrderMatters(cfg: Lookup, fetch: KeyOracle, now: int, a: Envelope) returns (b: Envelope)
    requires WellFormed(cfg) && !OneLatestIssuer(cfg, fetch, now, a)
    ensures Reordered(a, b) && Derive(cfg, fetch, now, a) != Derive(cfg, fetch, now, b)
  {
    var i: nat, j: nat :| Latest(cfg, fetch, now, a, i) && Latest(cfg, fetch, now, a, j)
                          && StandAt(cfg, fetch, now, a, i).vote.issuer != StandAt(cfg, fetch, now, a, j).vote.issuer;
    var m := if StandAt(cfg, fetch, now, a, i).vote.issuer != Derive(cfg, fetch, now, a).verifier then i else j;
    FrontedReorders(a, m);
    FrontedDecides(cfg, fetch, now, a, m);
    b := Fronted(a, m);
  }
}
