/** Three promises that do not hold unconditionally, each with runs that break it, for every
    configuration in which the situation can arise. */
module Counterexamples {
  import opened Gobl
  import opened Derivation
  import opened Endorsement
  import opened EndorsementLaws
  import opened Records
  import opened Store
  import opened Protocol
  import opened History
  import opened Liveness
  import opened SoloRuns
  import Service

  ghost predicate SignsAlways(cfg: Lookup, sign: Signer) {
    HonestSigner(cfg, sign) && forall e, c :: sign(e, c).Signed?
  }

  ghost predicate Admissible(cfg: Lookup, env: Envelope, addr: Address) {
    addr != "" && env.head.Some? && DigestOf(env).Some? && OwnSignaturesHold(cfg, env)
  }

  /** The store holds the record of one address, in these versions. */
  ghost predicate HoldsOnly(d: Disk, id: string, h: seq<Version>) {
    h != [] && d.records == map[id := h[|h| - 1].record] && d.history == map[id := h]
  }

  /** A registration that is alone on its record and signs. */
  lemma Registers(cfg: Lookup, s: State, addr: Address, env: Envelope, w: Service.Surroundings) returns (t: State)
    requires WellFormed(cfg) && SignsAlways(cfg, w.sign) && Admissible(cfg, env, addr)
    requires Reachable(cfg, s) && FreshRevision(s.disk, w.rev)
    ensures Reachable(cfg, t)
    ensures var out := Service.EndorsedEnvelope(cfg, s.disk, addr, env, w);
            && t.logs.sends == s.logs.sends
            && out.ok && out.env.head.Some? && SealOf(out.env) == SealOf(env)
            && t.disk == Written(s.disk, Service.RegisteredRecord(cfg, s.disk, addr, env, w), w.rev,
                                 Service.RegisterNote(cfg, s.disk, addr, env, w))
            && t.ops == s.ops + [Done, DeliverSend(addr, out.env,
                                                   Service.RegisteredRecord(cfg, s.disk, addr, env, w).(rev := w.rev))]
  {
    hide Derive, WellFormed, Reachable, OwnSignaturesHold, FreshRevision;
    var derived := Derive(cfg, w.fetch, w.now, env).verifier;
    var verifier := ChosenVerifier(derived, ReadAt(s.disk.records, addr), env);
    EndorsedHasHead(cfg, w.sign, env, addr, verifier, w.now);
    AlwaysSigns(cfg, w.sign, env, addr, verifier, w.now);
    hide CounterSignValue, HonestSigner, Stamped;
    t := RegisterRunsAlone(cfg, s, addr, env, w);
  }

  lemma AlwaysSigns(cfg: Lookup, sign: Signer, env: Envelope, addr: Address, verifier: Address, now: int)
    requires SignsAlways(cfg, sign) && env.head.Some?
    ensures Endorsed(cfg, sign, env, addr, verifier, now).ok
  {}

  // ---- "a renewal keeps the verifier" ---------------------------------------------------------

  /** In the history of a record, version 1 is a verification, and version 2 is a renewal that dropped it. */
  ghost predicate VerifiedThenDropped(h: seq<Version>) {
    && |h| == 3 && RenewalAt(h, 2)
    && h[1].note.writer == ByVerify && h[1].record.verifier != ""
    && h[2].record.verifier == ""
  }

  /** The setting: a document whose provider answers under `up` but not under `down`, at time `at`. */
  ghost predicate Flaky(cfg: Lookup, env: Envelope, addr: Address, up: KeyOracle, down: KeyOracle, at: int) {
    && WellFormed(cfg) && cfg.self !in cfg.accepted && Admissible(cfg, env, addr)
    && Derive(cfg, down, at, env).verifier == "" && Derive(cfg, up, at, env).verifier != ""
  }

  /** A first registration that derives nothing. */
  lemma RegistersUnverified(cfg: Lookup, env: Envelope, addr: Address, up: KeyOracle, down: KeyOracle, sign: Signer,
                            at: int)
    returns (s: State, v: Version)
    requires Flaky(cfg, env, addr, up, down, at) && SignsAlways(cfg, sign)
    ensures Reachable(cfg, s) && HoldsOnly(s.disk, DocId(addr), [v])
    ensures v.record.rev == "1" && v.record.verifier == "" && v.record.envelope.Some?
    ensures SameDigest(v.record.envelope.value, env)
    ensures Derive(cfg, up, at, v.record.envelope.value) == Derive(cfg, up, at, env)
  {
    var w := Service.Surroundings(down, sign, at, "1");
    assert Runs(cfg, INITIAL, [], INITIAL);
    s := Registers(cfg, INITIAL, addr, env, w);
    DerivationStable(cfg, up, at, sign, env, addr, "", at);
    hide HonestSigner, Derive, CounterSignValue, WellFormed, Reachable, Stamped, OwnSignaturesHold;
    var wanted := Service.RegisteredRecord(cfg, EMPTY_DISK, addr, env, w);
    v := Version("", wanted.(rev := "1"), Service.RegisterNote(cfg, EMPTY_DISK, addr, env, w));
    assert VersionsOf(EMPTY_DISK, DocId(addr)) + [v] == [v];
  }

  /** A verification of the record the store holds. */
  lemma VerifiesStored(cfg: Lookup, s: State, env: Envelope, addr: Address, up: KeyOracle, down: KeyOracle,
                       sign: Signer, at: int, v: Version)
    returns (t: State, n: Version)
    requires Flaky(cfg, env, addr, up, down, at) && SignsAlways(cfg, sign)
    requires Reachable(cfg, s) && HoldsOnly(s.disk, DocId(addr), [v])
    requires v.record.rev == "1" && v.record.envelope.Some? && SameDigest(v.record.envelope.value, env)
    requires Derive(cfg, up, at, v.record.envelope.value) == Derive(cfg, up, at, env)
    ensures Reachable(cfg, t) && t.ops == s.ops + [Done]
    ensures HoldsOnly(t.disk, DocId(addr), [v, n])
    ensures n.note.writer == ByVerify
    ensures n.record.rev == "2" && n.record.verifier != "" && n.record.envelope.Some?
    ensures SameDigest(n.record.envelope.value, env)
  {
    var w := Service.Surroundings(up, sign, at, "2");
    var stored := v.record.envelope.value;
    var verifier := Derive(cfg, up, at, env).verifier;
    EndorsedHasHead(cfg, sign, stored, addr, verifier, at);
    AlwaysSigns(cfg, sign, stored, addr, verifier, at);
    RegisteredAddress(cfg, s, addr);
    hide HonestSigner, Derive, CounterSignValue, WellFormed, Reachable, Stamped, OwnSignaturesHold;
    t := VerifyRunsAlone(cfg, s, addr, w, None);
    n := Version("1", t.disk.records[DocId(addr)], Note(ByVerify, verifier, None));
    assert VersionsOf(s.disk, DocId(addr)) + [n] == [v, n];
  }

  /** A renewal that found the first of two versions, derives nothing and closes over the second. */
  lemma RenewalCloses(cfg: Lookup, t: State, i: nat, env: Envelope, addr: Address, w: Service.Surroundings,
                      v: Version, n: Version)
    returns (s: State, last: Version, out: Envelope)
    requires WellFormed(cfg) && SignsAlways(cfg, w.sign) && Admissible(cfg, env, addr) && w.rev == "3"
    requires Reachable(cfg, t) && i < |t.ops| && t.ops[i] == RegisterDerive(addr, env, FirstRead(Saw(v.record), Some(1)))
    requires HoldsOnly(t.disk, DocId(addr), [v, n]) && v.record.rev == "1" && n.record.rev == "2"
    requires Derive(cfg, w.fetch, w.now, env).verifier == ""
    ensures Reachable(cfg, s) && VersionsOf(s.disk, DocId(addr)) == [v, n, last]
    ensures out.head.Some? && SealOf(out) == SealOf(env)
    ensures last.note == Note(ByRegister, "", Some(1))
    ensures last.record ==
            Upserted(Some(n.record), addr, out, Renewal(Saw(v.record), env).0, w.now).(rev := "3")
  {
    hide Derive, CounterSignValue, WellFormed, Reachable, Stamped, OwnSignaturesHold, SameDigest;
    var verifier := Renewal(Saw(v.record), env).0;
    AlwaysSigns(cfg, w.sign, env, addr, verifier, w.now);
    EndorsedHasHead(cfg, w.sign, env, addr, verifier, w.now);
    hide HonestSigner, Renewal;
    out := Endorsed(cfg, w.sign, env, addr, verifier, w.now).env;
    s := RegisterEndorses(cfg, t, i, w);
    RegisteredAddress(cfg, t, addr);
    s := RegisterWrites(cfg, s, i, w.now, "3");
    last := Version("2", s.disk.records[DocId(addr)], Note(ByRegister, "", Some(1)));
    assert VersionsOf(t.disk, DocId(addr)) + [last] == [v, n, last];
  }

  /** The renewal whose first read saw the first version closes over the verified one. */
  lemma RenewalDrops(cfg: Lookup, t: State, i: nat, env: Envelope, addr: Address, up: KeyOracle, down: KeyOracle,
                     sign: Signer, at: int, v: Version, n: Version)
    returns (s: State)
    requires Flaky(cfg, env, addr, up, down, at) && SignsAlways(cfg, sign)
    requires Reachable(cfg, t) && i < |t.ops| && t.ops[i] == RegisterDerive(addr, env, FirstRead(Saw(v.record), Some(1)))
    requires HoldsOnly(t.disk, DocId(addr), [v, n])
    requires v.record.verifier == "" && v.record.rev == "1"
    requires n.note.writer == ByVerify
    requires n.record.verifier != "" && n.record.rev == "2" && n.record.envelope.Some?
    requires SameDigest(n.record.envelope.value, env)
    ensures Reachable(cfg, s) && VerifiedThenDropped(VersionsOf(s.disk, DocId(addr)))
  {
    hide Derive, WellFormed, Reachable, OwnSignaturesHold, SignsAlways;
    var last, out;
    s, last, out := RenewalCloses(cfg, t, i, env, addr, Service.Surroundings(down, sign, at, "3"), v, n);
    assert DigestOf(out) == DigestOf(env);
  }

  /** "Verified stays verified" fails under interleaving. A party registers while its provider cannot be
      reached; it renews; between the two reads of the renewal the registration is verified; and the
      renewal, whose own derivation finds the provider unreachable again, drops the verifier. */
  lemma VerificationLost(cfg: Lookup, env: Envelope, addr: Address, up: KeyOracle, down: KeyOracle, sign: Signer,
                         at: int)
    returns (s: State)
    requires Flaky(cfg, env, addr, up, down, at) && SignsAlways(cfg, sign)
    ensures Reachable(cfg, s) && VerifiedThenDropped(VersionsOf(s.disk, DocId(addr)))
  {
    hide Reachable;
    var first, v := RegistersUnverified(cfg, env, addr, up, down, sign, at);
    var reading := RegisterOpens(cfg, first, addr, env);
    var verified, n := VerifiesStored(cfg, reading, env, addr, up, down, sign, at, v);
    hide Flaky, SignsAlways;
    assert verified.ops[|first.ops|] == reading.ops[|first.ops|];
    s := RenewalDrops(cfg, verified, |first.ops|, env, addr, up, down, sign, at, v, n);
  }

  // ---- "changed data clears the verification timestamp" ---------------------------------------

  /** The record names `verifier`; it holds a document received at `received`, and a verification
      timestamp of another time. */
  ghost predicate VerifiedAsOf(r: Record, verifier: Address, digest: Option<Digest>, received: int, verified: int) {
    && r.envelope.Some? && DigestOf(r.envelope.value) == digest
    && r.verifier == verifier && r.receivedAt == received && r.verifiedAt == Some(verified)
  }

  /** A first registration that derives a verifier. */
  lemma RegistersVerified(cfg: Lookup, env: Envelope, addr: Address, w: Service.Surroundings)
    returns (s: State, v: Version)
    requires WellFormed(cfg) && SignsAlways(cfg, w.sign) && Admissible(cfg, env, addr) && w.rev == "1"
    requires Derive(cfg, w.fetch, w.now, env).verifier != ""
    ensures Reachable(cfg, s) && HoldsOnly(s.disk, DocId(addr), [v]) && v.record.rev == "1"
    ensures VerifiedAsOf(v.record, Derive(cfg, w.fetch, w.now, env).verifier, DigestOf(env), w.now, w.now)
  {
    assert Runs(cfg, INITIAL, [], INITIAL);
    s := Registers(cfg, INITIAL, addr, env, w);
    hide HonestSigner, Derive, CounterSignValue, WellFormed, Reachable, Stamped, OwnSignaturesHold;
    v := Version("", s.disk.records[DocId(addr)], Service.RegisterNote(cfg, EMPTY_DISK, addr, env, w));
    assert VersionsOf(EMPTY_DISK, DocId(addr)) + [v] == [v];
  }

  /** A registration of another document that derives the verifier of the stored one keeps its timestamp. */
  lemma RegistersOver(cfg: Lookup, s: State, env: Envelope, addr: Address, w: Service.Surroundings, v: Version,
                      t1: int, doc: Envelope)
    returns (t: State, n: Version)
    requires WellFormed(cfg) && SignsAlways(cfg, w.sign) && Admissible(cfg, env, addr) && w.rev == "2"
    requires Reachable(cfg, s) && HoldsOnly(s.disk, DocId(addr), [v]) && v.record.rev == "1"
    requires Derive(cfg, w.fetch, w.now, env).verifier != ""
    requires VerifiedAsOf(v.record, Derive(cfg, w.fetch, w.now, env).verifier, DigestOf(doc), t1, t1)
    ensures Reachable(cfg, t) && HoldsOnly(t.disk, DocId(addr), [v, n]) && n.record.rev == "2"
    ensures s.ops <= t.ops
    ensures VerifiedAsOf(n.record, Derive(cfg, w.fetch, w.now, env).verifier, DigestOf(env), w.now, t1)
  {
    t := Registers(cfg, s, addr, env, w);
    RegisteredAddress(cfg, s, addr);
    hide HonestSigner, Derive, CounterSignValue, WellFormed, Reachable, Stamped, OwnSignaturesHold;
    n := Version("1", t.disk.records[DocId(addr)], Service.RegisterNote(cfg, s.disk, addr, env, w));
    assert VersionsOf(s.disk, DocId(addr)) + [n] == [v, n];
  }

  /** A party registers a document, and later another one, both countersigned by one provider: the record
      of the new document keeps the verification timestamp of the old one. */
  lemma ChangedDataKeepsTimestamp(cfg: Lookup, before: Envelope, after: Envelope, addr: Address, fetch: KeyOracle,
                                  sign: Signer, t1: int, t2: int)
    returns (s: State)
    requires WellFormed(cfg) && SignsAlways(cfg, sign)
    requires Admissible(cfg, before, addr) && Admissible(cfg, after, addr)
    requires t1 < t2 && DigestOf(before) != DigestOf(after)
    requires Derive(cfg, fetch, t1, before).verifier == Derive(cfg, fetch, t2, after).verifier != ""
    ensures Reachable(cfg, s) && DocId(addr) in s.disk.records
    ensures VerifiedAsOf(s.disk.records[DocId(addr)], Derive(cfg, fetch, t2, after).verifier, DigestOf(after), t2, t1)
  {
    hide HonestSigner, Derive, WellFormed, Reachable, OwnSignaturesHold;
    var first, v := RegistersVerified(cfg, before, addr, Service.Surroundings(fetch, sign, t1, "1"));
    var second, n := RegistersOver(cfg, first, after, addr, Service.Surroundings(fetch, sign, t2, "2"), v, t1, before);
    s := second;
  }

  /** In the history of a record, version 2 is a registration of other data than the version it replaced
      held; it derived nothing, and kept the verifier and its timestamp. */
  ghost predicate ChangedButKept(h: seq<Version>, verifier: Address, verified: int) {
    && |h| == 3
    && h[2].note.writer == ByRegister && h[2].note.derived == "" && !SameDocument(h[1], h[2])
    && h[1].record.verifier == h[2].record.verifier == verifier != ""
    && h[1].record.verifiedAt == h[2].record.verifiedAt == Some(verified)
    && verified < h[2].record.receivedAt
  }

  /** The renewal whose first read found the first document closes over the second. */
  lemma RenewalWritesBack(cfg: Lookup, t: State, i: nat, doc: Envelope, addr: Address, w: Service.Surroundings,
                          v: Version, n: Version, other: Envelope, verifier: Address, t1: int, t2: int)
    returns (s: State)
    requires WellFormed(cfg) && SignsAlways(cfg, w.sign) && Admissible(cfg, doc, addr) && w.rev == "3"
    requires Reachable(cfg, t) && i < |t.ops| && t.ops[i] == RegisterDerive(addr, doc, FirstRead(Saw(v.record), Some(1)))
    requires HoldsOnly(t.disk, DocId(addr), [v, n]) && v.record.rev == "1" && n.record.rev == "2"
    requires VerifiedAsOf(v.record, verifier, DigestOf(doc), t1, t1) && VerifiedAsOf(n.record, verifier, DigestOf(other), t2, t1)
    requires verifier != "" && t1 < w.now && DigestOf(doc) != DigestOf(other)
    requires Derive(cfg, w.fetch, w.now, doc).verifier == ""
    ensures Reachable(cfg, s) && ChangedButKept(VersionsOf(s.disk, DocId(addr)), verifier, t1)
  {
    hide Derive, WellFormed, Reachable, OwnSignaturesHold, SignsAlways;
    var last, out;
    s, last, out := RenewalCloses(cfg, t, i, doc, addr, w, v, n);
    assert DigestOf(out) == DigestOf(doc);
  }

  /** It can even happen to a registration that derives nobody. A party registers a document; it renews
      it; between the two reads of the renewal it registers another document, verified by the same
      provider; and the renewal, which finds the provider unreachable, writes the first document back,
      with verifier and timestamp kept. */
  lemma OvertakenKeepsTimestamp(cfg: Lookup, doc: Envelope, other: Envelope, addr: Address, up: KeyOracle,
                                down: KeyOracle, sign: Signer, t1: int, t2: int, t3: int)
    returns (s: State)
    requires WellFormed(cfg) && SignsAlways(cfg, sign)
    requires Admissible(cfg, doc, addr) && Admissible(cfg, other, addr)
    requires t1 < t3 && DigestOf(doc) != DigestOf(other)
    requires Derive(cfg, up, t1, doc).verifier == Derive(cfg, up, t2, other).verifier != ""
    requires Derive(cfg, down, t3, doc).verifier == ""
    ensures Reachable(cfg, s)
    ensures ChangedButKept(VersionsOf(s.disk, DocId(addr)), Derive(cfg, up, t1, doc).verifier, t1)
  {
    hide HonestSigner, Derive, WellFormed, Reachable, OwnSignaturesHold, VerifiedAsOf, ChangedButKept;
    var verifier := Derive(cfg, up, t1, doc).verifier;
    var first, v := RegistersVerified(cfg, doc, addr, Service.Surroundings(up, sign, t1, "1"));
    var reading := RegisterOpens(cfg, first, addr, doc);
    var changed, n := RegistersOver(cfg, reading, other, addr, Service.Surroundings(up, sign, t2, "2"), v, t1, doc);
    var i := |first.ops|;
    assert changed.ops[i] == reading.ops[i];
    s := RenewalWritesBack(cfg, changed, i, doc, addr, Service.Surroundings(down, sign, t3, "3"), v, n, other,
                           verifier, t1, t2);
  }

  /** A renewal whose first read fails forgets the verifier, although nothing else touched the record: the
      failed read counts as "not a renewal". A party registers a verified document; its renewal cannot
      read the record at first, finds the provider unreachable, and writes the record without a verifier. */
  lemma VerificationForgotten(cfg: Lookup, env: Envelope, addr: Address, up: KeyOracle, down: KeyOracle, sign: Signer,
                              t1: int, t2: int)
    returns (s: State)
    requires WellFormed(cfg) && SignsAlways(cfg, sign) && Admissible(cfg, env, addr)
    requires Derive(cfg, up, t1, env).verifier != "" && Derive(cfg, down, t2, env).verifier == ""
    ensures Reachable(cfg, s)
    ensures var h := VersionsOf(s.disk, DocId(addr));
            && |h| == 2 && RenewalAt(h, 1) && h[1].note.seen.None?
            && h[0].record.verifier == Derive(cfg, up, t1, env).verifier && h[1].record.verifier == ""
            && h[1].record.verifiedAt.None?
  {
    hide Derive, WellFormed, Reachable, OwnSignaturesHold;
    var first, v := RegistersVerified(cfg, env, addr, Service.Surroundings(up, sign, t1, "1"));
    var i := |first.ops|;
    s := Take(cfg, first, StartRegister(addr, env));
    s := Take(cfg, s, ReadStep(i, true, t2));
    AlwaysSigns(cfg, sign, env, addr, "", t2);
    EndorsedHasHead(cfg, sign, env, addr, "", t2);
    hide HonestSigner, CounterSignValue, Stamped;
    s := RegisterEndorses(cfg, s, i, Service.Surroundings(down, sign, t2, "2"));
    s := RegisterWrites(cfg, s, i, t2, "2");
    assert VersionsOf(s.disk, DocId(addr)) ==
           [v, Version("1", s.disk.records[DocId(addr)], Note(ByRegister, "", None))];
  }

  // ---- "failures land on the record" ----------------------------------------------------------

  /** A failed delivery attempt need not leave a trace: if it uses up the deadline that it shares with the
      write of its outcome, the record stays countersigned without an attempt or an error, and nothing is
      left in flight. */
  lemma FailureUnrecorded(cfg: Lookup, env: Envelope, addr: Address, w: Service.Surroundings, error: string)
    returns (s: State)
    requires WellFormed(cfg) && SignsAlways(cfg, w.sign) && Admissible(cfg, env, addr)
    requires w.rev != "" && error != ""
    ensures Reachable(cfg, s) && Quiet(s) && DocId(addr) in s.disk.records
    ensures |s.logs.sends| == 1 && s.logs.sends[0].address == addr && s.logs.sends[0].error == Some(error)
    ensures var r := s.disk.records[DocId(addr)];
            r.status.Countersigned? && r.attempts == 0 && r.lastError == "" && r.lastAt.None?
  {
    assert Runs(cfg, INITIAL, [], INITIAL);
    s := Registers(cfg, INITIAL, addr, env, w);
    hide HonestSigner, Derive, CounterSignValue, WellFormed, Reachable, Stamped, OwnSignaturesHold;
    s := Take(cfg, s, ExpireStep(1, Some(error), w.now));
  }
}
