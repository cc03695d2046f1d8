/** What holds in every reachable state of the protocol, under every interleaving. */
module Guarantees {
  import opened Gobl
  import opened Derivation
  import opened Endorsement
  import opened EndorsementLaws
  import opened Records
  import opened Store
  import opened Protocol
  import opened Invariant

  lemma StoredSound(cfg: Lookup, s: State, id: string)
    requires Inv(cfg, s) && id in s.disk.records
    ensures Sound(cfg, s.logs, s.disk.records[id]) && s.disk.records[id].id == id
  {
    var h := s.disk.history[id];
    assert Chain(id, h) && GoodHistory(cfg, s.logs, h);
    VersionGood(cfg, s.logs, h, |h| - 1);
  }

  // ---- provenance -----------------------------------------------------------------------------

  /** The logged finding was made for the record's address: it derived this verifier from an envelope
      with the record's digest, where an accepted provider's unexpired signature verified. */
  ghost predicate Proves(cfg: Lookup, f: Finding, r: Record) {
    && r.envelope.Some?
    && f.addr == r.address && DigestOf(f.env) == DigestOf(r.envelope.value)
    && f.verifier == r.verifier
    && Derive(cfg, f.fetch, f.at, f.env).verifier == r.verifier
    && r.verifier in cfg.accepted
    && exists i: nat :: DecidesFor(cfg, f.fetch, f.at, f.env, i, r.verifier)
  }

  /** A stored verifier was derived earlier, for the same address, from an envelope with the digest of the
      stored one, even if other operations ran between the two reads of the registration that wrote the
      record. */
  lemma VerifierProvenance(cfg: Lookup, s: State, id: string) returns (k: nat)
    requires WellFormed(cfg) && Reachable(cfg, s)
    requires id in s.disk.records && s.disk.records[id].verifier != ""
    ensures k < |s.logs.findings| && Proves(cfg, s.logs.findings[k], s.disk.records[id])
  {
    ReachableInv(cfg, s);
    StoredSound(cfg, s, id);
    var r := s.disk.records[id];
    k :| k < |s.logs.findings| && Backs(s.logs.findings[k], r.address, r.envelope.value, r.verifier);
    var f := s.logs.findings[k];
    assert FindingTrue(cfg, f);
    DeriveMeaning(cfg, f.fetch, f.at, f.env);
    DeriveConforms(cfg, f.fetch, f.at, f.env);
  }

  // ---- deliveries -----------------------------------------------------------------------------

  /** A record marked delivered holds an envelope that was sent, successfully, to its address; one
      marked failed holds the error of a failed attempt; either is dated by that attempt. */
  lemma DeliveredIsTruthful(cfg: Lookup, s: State, id: string) returns (k: nat)
    requires WellFormed(cfg) && Reachable(cfg, s)
    requires id in s.disk.records && !s.disk.records[id].status.Countersigned?
    ensures var r := s.disk.records[id];
            && k < |s.logs.sends|
            && s.logs.sends[k].address == r.address && Some(s.logs.sends[k].env) == r.envelope
            && (r.status.Delivered? <==> s.logs.sends[k].error.None?)
            && (r.status.Failed? <==> s.logs.sends[k].error == Some(r.lastError))
            && r.lastAt == Some(s.logs.sends[k].at)
  {
    ReachableInv(cfg, s);
    StoredSound(cfg, s, id);
    var h := s.disk.history[id];
    var n := |h| - 1;
    assert Chain(id, h) && GoodHistory(cfg, s.logs, h);
    VersionGood(cfg, s.logs, h, n);
    k :| k < |s.logs.sends| && Accounts(s.logs.sends[k], h[n].readRev, h[n].record);
  }

  /** An operation's write reaches the store exactly when the store does not fail and the version it was
      made from is still stored: the outcome of a superseded delivery never lands. */
  lemma LateOutcomeNeverLands(cfg: Lookup, s: State, i: nat, rev: string, failed: bool)
    requires WellFormed(cfg) && Reachable(cfg, s)
    requires Enabled(cfg, s, PutStep(i, rev, failed))
    ensures var op := s.ops[i];
            var stored := if op.rec.id in s.disk.records then Some(s.disk.records[op.rec.id]) else None;
            Apply(cfg, s, PutStep(i, rev, failed)).disk ==
            if !failed && stored == op.base then Written(s.disk, op.rec, rev, op.note) else s.disk
  {
    ReachableInv(cfg, s);
    var op := s.ops[i];
    assert GoodCommit(cfg, s.logs, s.disk, op.base, op.rec, op.note);
    LandsIffCurrent(cfg, s.logs, s.disk, op.base, op.rec, op.note);
  }

  lemma LandsIffCurrent(cfg: Lookup, logs: Logs, d: Disk, base: Option<Record>, rec: Record, note: Note)
    requires GoodDisk(cfg, logs, d) && GoodCommit(cfg, logs, d, base, rec, note)
    ensures Accepts(d.records, rec) <==> base == if rec.id in d.records then Some(d.records[rec.id]) else None
  {
    hide GoodHistory;
    if Accepts(d.records, rec) {
      AcceptedBaseIsLatest(cfg, logs, d, base, rec, note);
    }
    assert Consistent(rec);
  }

  // ---- agreement ------------------------------------------------------------------------------

  /** The stored envelope agrees with its record: exactly one signature claims the registry, it comes
      last, was made by the registry 90 days before its expiry, and asserts the record's address and
      verifier; the header has the record's UUID and exactly one lookup link, pointing at it; and the
      envelope would be accepted back. */
  lemma RecordAndEnvelopeAgree(cfg: Lookup, s: State, id: string) returns (k: nat)
    requires WellFormed(cfg) && Reachable(cfg, s) && id in s.disk.records
    ensures var r := s.disk.records[id];
            && id == DocId(r.address) && r.envelope.Some? && r.envelope.value.head.Some?
            && r.envelope.value.head.value.uuid == r.uuid
            && OneDiscoveryLink(cfg, r.envelope.value)
            && OwnSignaturesHold(cfg, r.envelope.value)
            && k < |s.logs.signings|
            && SoleEndorsement(cfg, r.envelope.value, s.logs.signings[k].sig)
            && Asserts(cfg, s.logs.signings[k].sig, r.address, r.verifier, s.logs.signings[k].at + 90 * 24 * 60 * 60)
  {
    ReachableInv(cfg, s);
    StoredSound(cfg, s, id);
    var r := s.disk.records[id];
    k :| k < |s.logs.signings| && Endorses(cfg, s.logs.signings[k], r.envelope.value, r.address, r.verifier);
  }

  /** "Sole" is meant literally: at every other position stands a signature of somebody else. */
  lemma SoleMeansOne(cfg: Lookup, env: Envelope, own: Signature, i: nat)
    requires SoleEndorsement(cfg, env, own) && i < |env.signatures|
    ensures ClaimsSelf(cfg, env.signatures[i]) <==> i == |env.signatures| - 1
  {
    ThirdPartyMembers(cfg, env.signatures);
    var third := ThirdParty(cfg, env.signatures);
    if i < |third| {
      assert env.signatures[i] == third[i];
      assert third[i] in third;
    }
  }

  // ---- delivery bookkeeping -------------------------------------------------------------------

  /** The versions written since the last registration, that registration excluded. */
  function AttemptsIn(h: seq<Version>): nat {
    if h == [] || h[|h| - 1].note.writer == ByRegister then 0 else AttemptsIn(h[..|h| - 1]) + 1
  }

  /** How the last version of a history relates to the one before. */
  lemma LastVersion(cfg: Lookup, logs: Logs, h: seq<Version>)
    requires GoodHistory(cfg, logs, h) && h != []
    ensures var n := |h| - 1;
            var v := h[n];
            && v.record.envelope.Some? && (n > 0 ==> h[n - 1].record.envelope.Some?)
            && (v.note.writer == ByRegister ==> v.record.attempts == 0)
            && (v.note.writer == ByRegister ==> v.note.seen.Some? ==> v.note.seen.value <= n)
            && (v.note.writer == ByRegister && v.note.derived == "" ==>
                  v.record.verifier == Renewal(SeenIn(h, v.note.seen), v.record.envelope.value).0)
            && (v.note.writer != ByRegister ==>
                  && n > 0
                  && v.record.attempts == h[n - 1].record.attempts + 1
                  && DigestOf(v.record.envelope.value) == DigestOf(h[n - 1].record.envelope.value)
                  && AttemptSent(logs, v.readRev, v.record))
            && (v.note.derived != "" ==> v.record.verifier == v.note.derived)
            && (v.note.derived == "" ==> v.note.writer != ByVerify)
            && (v.note.writer == ByDelivery ==> v.note.derived == "" && v.record.verifier == h[n - 1].record.verifier)
  {
    hide Agrees, AttemptSent;
    var n := |h| - 1;
    VersionGood(cfg, logs, h, n);
    EnvelopeStored(cfg, logs, h, n);
    if n > 0 { EnvelopeStored(cfg, logs, h, n - 1); }
  }

  lemma EnvelopeStored(cfg: Lookup, logs: Logs, h: seq<Version>, i: nat)
    requires GoodHistory(cfg, logs, h) && i < |h|
    ensures h[i].record.envelope.Some?
  {
    VersionGood(cfg, logs, h, i);
  }

  lemma GoodPrefix(cfg: Lookup, logs: Logs, h: seq<Version>, n: nat)
    requires GoodHistory(cfg, logs, h) && n <= |h|
    ensures GoodHistory(cfg, logs, h[..n])
  {
    hide GoodVersion;
    var g := h[..n];
    forall i | 0 <= i < |g|
      ensures GoodVersion(cfg, logs, Predecessor(g, i), g[i].readRev, g[i].record, g[i].note)
      ensures Inherits(g, i, g[i].record, g[i].note)
    {
      assert Predecessor(g, i) == Predecessor(h, i);
      assert Inherits(h, i, h[i].record, h[i].note);
    }
  }

  lemma {:induction false} AttemptsCounted(cfg: Lookup, logs: Logs, h: seq<Version>)
    requires GoodHistory(cfg, logs, h) && h != []
    ensures h[|h| - 1].record.attempts == AttemptsIn(h)
    decreases |h|
  {
    hide GoodHistory;
    var n := |h| - 1;
    LastVersion(cfg, logs, h);
    if h[n].note.writer != ByRegister {
      GoodPrefix(cfg, logs, h, n);
      AttemptsCounted(cfg, logs, h[..n]);
    }
  }

  /** Send number `k` accounts for one of the last `n` versions. */
  ghost predicate AccountsForLast(logs: Logs, h: seq<Version>, n: nat, k: nat) {
    k < |logs.sends| && exists i :: |h| - n <= i < |h| && 0 <= i && Accounts(logs.sends[k], h[i].readRev, h[i].record)
  }

  /** Each version since the last registration has a send of its own: `ks` are that many distinct
      attempts, each made for a version that is not older than that registration. */
  lemma {:induction false} DistinctSends(cfg: Lookup, logs: Logs, id: string, h: seq<Version>) returns (ks: set<nat>)
    requires GoodHistory(cfg, logs, h) && (h != [] ==> Chain(id, h)) && DistinctRevisions(h)
    ensures |ks| == AttemptsIn(h) <= |h|
    ensures forall k :: k in ks ==> AccountsForLast(logs, h, AttemptsIn(h), k)
    decreases |h|
  {
    hide GoodHistory, Accounts, Chain;
    if h == [] || h[|h| - 1].note.writer == ByRegister {
      ks := {};
    } else {
      var n := |h| - 1;
      LastVersion(cfg, logs, h);
      GoodPrefix(cfg, logs, h, n);
      ChainPrefix(id, h);
      ks := DistinctSends(cfg, logs, id, h[..n]);
      var k: nat :| k < |logs.sends| && Accounts(logs.sends[k], h[n].readRev, h[n].record);
      OneMoreSend(logs, id, h, AttemptsIn(h[..n]), ks, k);
      ks := ks + {k};
    }
  }

  lemma OneMoreSend(logs: Logs, id: string, h: seq<Version>, m: nat, ks: set<nat>, k: nat)
    requires h != [] && Chain(id, h) && DistinctRevisions(h)
    requires forall j :: j in ks ==> AccountsForLast(logs, h[..|h| - 1], m, j)
    requires k < |logs.sends| && Accounts(logs.sends[k], h[|h| - 1].readRev, h[|h| - 1].record)
    ensures k !in ks
    ensures forall j :: j in ks + {k} ==> AccountsForLast(logs, h, m + 1, j)
  {
    OwnReadRevision(id, h);
    hide Chain;
    forall j | j in ks + {k}
      ensures AccountsForLast(logs, h, m + 1, j)
    {
      if j in ks {
        var g := h[..|h| - 1];
        var i :| |g| - m <= i < |g| && 0 <= i && Accounts(logs.sends[j], g[i].readRev, g[i].record);
        assert Accounts(logs.sends[j], h[i].readRev, h[i].record);
      }
    }
  }

  lemma OwnReadRevision(id: string, h: seq<Version>)
    requires h != [] && Chain(id, h) && DistinctRevisions(h)
    ensures forall i :: 0 <= i < |h| - 1 ==> h[i].readRev != h[|h| - 1].readRev
  {
    forall i | 0 <= i < |h| - 1
      ensures h[i].readRev != h[|h| - 1].readRev
    {
      var n := |h| - 1;
      assert h[n].readRev == h[n - 1].record.rev;
      assert h[n - 1].record.rev != "";
      if i > 0 {
        assert h[i].readRev == h[i - 1].record.rev != h[n - 1].record.rev;
      }
    }
  }

  lemma ChainPrefix(id: string, h: seq<Version>)
    requires |h| > 1 && Chain(id, h)
    ensures Chain(id, h[..|h| - 1])
  {}

  /** Stored bookkeeping is exact: attempts are the commits since the last registration, each with a
      send of its own that was made for one of them, and status, error and timestamps say the same
      thing. */
  lemma BookkeepingExact(cfg: Lookup, s: State, id: string) returns (ks: set<nat>)
    requires WellFormed(cfg) && Reachable(cfg, s) && id in s.disk.records
    ensures var r := s.disk.records[id];
            var h := VersionsOf(s.disk, id);
            && r.attempts == AttemptsIn(h) == |ks| <= |h|
            && (forall k :: k in ks ==> AccountsForLast(s.logs, h, AttemptsIn(h), k) && s.logs.sends[k].address == r.address)
            && !r.status.Received? && !r.status.Blank?
            && (r.status.Countersigned? <==> r.attempts == 0)
            && (r.status.Countersigned? <==> r.lastAt.None?)
            && (r.status.Failed? <==> r.lastError != "")
            && (r.verifiedAt.Some? <==> r.verifier != "")
  {
    ReachableInv(cfg, s);
    StoredSound(cfg, s, id);
    var h := s.disk.history[id];
    assert Chain(id, h) && DistinctRevisions(h) && GoodHistory(cfg, s.logs, h);
    hide GoodHistory, Accounts;
    AttemptsCounted(cfg, s.logs, h);
    ks := DistinctSends(cfg, s.logs, id, h);
    forall k | k in ks
      ensures s.logs.sends[k].address == s.disk.records[id].address
    {
      var i :| 0 <= i < |h| && Accounts(s.logs.sends[k], h[i].readRev, h[i].record);
      SentToAddress(s.logs.sends[k], id, h[i], s.disk.records[id]);
    }
  }

  lemma SentToAddress(sending: Sending, id: string, v: Version, r: Record)
    requires Accounts(sending, v.readRev, v.record)
    requires Consistent(v.record) && Consistent(r) && v.record.id == r.id
    ensures sending.address == r.address
  {
    DocIdInjective(v.record.address, r.address);
  }

  // ---- times ----------------------------------------------------------------------------------

  /** A version written by a verification is dated by the signing of its envelope, 90 days before the
      signature expires; one written by a delivery keeps the verification's date, and its last attempt is
      the send that it accounts for. */
  lemma TimesAreReal(cfg: Lookup, s: State, id: string, i: nat) returns (k: nat)
    requires WellFormed(cfg) && Reachable(cfg, s)
    requires id in s.disk.history && i < |s.disk.history[id]|
    ensures var v := s.disk.history[id][i];
            && (v.note.writer == ByVerify ==>
                  && k < |s.logs.signings| && v.record.envelope.Some?
                  && SoleEndorsement(cfg, v.record.envelope.value, s.logs.signings[k].sig)
                  && v.record.verifiedAt == Some(s.logs.signings[k].at) && v.record.lastAt == Some(s.logs.signings[k].at)
                  && s.logs.signings[k].sig.payload.Some?
                  && s.logs.signings[k].sig.payload.value.exp == s.logs.signings[k].at + 90 * 24 * 60 * 60)
            && (v.note.writer == ByDelivery ==>
                  && k < |s.logs.sends| && i > 0
                  && s.logs.sends[k].readRev == s.disk.history[id][i - 1].record.rev
                  && v.record.lastAt == Some(s.logs.sends[k].at)
                  && v.record.verifiedAt == s.disk.history[id][i - 1].record.verifiedAt)
  {
    ReachableInv(cfg, s);
    var h := s.disk.history[id];
    assert GoodHistory(cfg, s.logs, h) && Chain(id, h);
    hide GoodHistory, SoleEndorsement, Chain;
    k := 0;
    if h[i].note.writer == ByVerify {
      k := VerificationDated(cfg, s.logs, h, i);
    } else if h[i].note.writer == ByDelivery {
      k := DeliveryDated(cfg, s.logs, id, h, i);
    }
  }

  lemma VerificationDated(cfg: Lookup, logs: Logs, h: seq<Version>, i: nat) returns (k: nat)
    requires GoodHistory(cfg, logs, h) && i < |h| && h[i].note.writer == ByVerify
    ensures h[i].record.envelope.Some? && k < |logs.signings|
    ensures SoleEndorsement(cfg, h[i].record.envelope.value, logs.signings[k].sig)
    ensures h[i].record.verifiedAt == h[i].record.lastAt == Some(logs.signings[k].at)
    ensures logs.signings[k].sig.payload.Some?
    ensures logs.signings[k].sig.payload.value.exp == logs.signings[k].at + ENDORSEMENT_TTL
  {
    VersionGood(cfg, logs, h, i);
    var r := h[i].record;
    hide GoodHistory, ThirdParty, OwnSignaturesHold, Backed, DerivedFor, Inherits;
    k :| k < |logs.signings| && Endorses(cfg, logs.signings[k], r.envelope.value, r.address, r.verifier);
  }

  lemma DeliveryDated(cfg: Lookup, logs: Logs, id: string, h: seq<Version>, i: nat) returns (k: nat)
    requires GoodHistory(cfg, logs, h) && Chain(id, h) && i < |h| && h[i].note.writer == ByDelivery
    ensures k < |logs.sends| && i > 0
    ensures logs.sends[k].readRev == h[i - 1].record.rev
    ensures h[i].record.lastAt == Some(logs.sends[k].at)
    ensures h[i].record.verifiedAt == h[i - 1].record.verifiedAt
  {
    VersionGood(cfg, logs, h, i);
    hide GoodHistory, Sound, DerivedFor, Inherits;
    k :| k < |logs.sends| && Accounts(logs.sends[k], h[i].readRev, h[i].record);
  }

  // ---- from one version to the next -----------------------------------------------------------

  /** Across consecutive versions, a verification timestamp changes only through a verification or with
      the verifier; a delivery changes neither, nor the envelope. */
  lemma TimestampFollowsVerifier(cfg: Lookup, s: State, id: string, i: nat)
    requires WellFormed(cfg) && Reachable(cfg, s)
    requires id in s.disk.history && 0 < i < |s.disk.history[id]|
    ensures var p, n := s.disk.history[id][i - 1].record, s.disk.history[id][i].record;
            var writer := s.disk.history[id][i].note.writer;
            && (p.verifiedAt.Some? && n.verifiedAt != p.verifiedAt ==> writer == ByVerify || n.verifier != p.verifier)
            && (p.verifiedAt.Some? && n.verifier == p.verifier && writer == ByRegister ==> n.verifiedAt == p.verifiedAt)
            && (writer == ByDelivery ==>
                  n.verifiedAt == p.verifiedAt && n.verifier == p.verifier && n.envelope == p.envelope)
  {
    ReachableInv(cfg, s);
    var h := s.disk.history[id];
    assert GoodHistory(cfg, s.logs, h);
    VersionGood(cfg, s.logs, h, i - 1);
    VersionGood(cfg, s.logs, h, i);
  }
}
