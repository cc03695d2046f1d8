/** The service's operations as runs of protocol steps: taken on their own, the two describe the same
    effects. */
module SoloRuns {
  import opened Gobl
  import opened Derivation
  import opened Endorsement
  import opened EndorsementLaws
  import opened Records
  import opened Store
  import opened Protocol
  import opened Invariant
  import opened Guarantees
  import opened Liveness
  import Service

  /** A step from a reachable state. */
  lemma Take(cfg: Lookup, s: State, l: Label) returns (t: State)
    requires Reachable(cfg, s) && Enabled(cfg, s, l)
    ensures Reachable(cfg, t) && t == Apply(cfg, s, l)
  {
    t := Apply(cfg, s, l);
    StillReachable(cfg, s, l);
  }

  /** What `Register` admits may begin in the protocol, and nothing that it turns away for its own
      signatures may. */
  lemma AdmittedBegins(cfg: Lookup, s: State, env: Envelope, valid: bool, party: Service.Party, who: Service.Who)
    requires valid ==> env.head.Some?
    requires party.Sender? ==> party.address != ""
    ensures Service.Admission(cfg, env, valid, party, who).None? <==>
            valid && party.Sender? && who.Resolved? && Enabled(cfg, s, StartRegister(party.address, env))
  {}

  // ---- registering ----------------------------------------------------------------------------

  /** What a read that answers finds now. */
  function FirstLook(d: Disk, addr: Address): FirstRead {
    FirstRead(ReadAt(d.records, addr), Some(|VersionsOf(d, DocId(addr))|))
  }

  /** The beginning of a registration, up to and including its first read. */
  lemma RegisterOpens(cfg: Lookup, s: State, addr: Address, env: Envelope) returns (t: State)
    requires Reachable(cfg, s) && addr != "" && env.head.Some? && OwnSignaturesHold(cfg, env)
    ensures Reachable(cfg, t) && t.disk == s.disk && t.logs == s.logs
    ensures t.ops == s.ops + [RegisterDerive(addr, env, FirstLook(s.disk, addr))]
  {
    t := Take(cfg, s, StartRegister(addr, env));
    t := Take(cfg, t, ReadStep(|s.ops|, false, 0));
  }

  /** What a registration endorses once it has derived, whatever its first read yielded. */
  function EndorsedBy(cfg: Lookup, op: Op, w: Service.Surroundings): CounterSigned
    requires op.RegisterDerive?
  {
    Endorsed(cfg, w.sign, op.env, op.addr, VerifierBy(cfg, op, w), w.now)
  }

  function VerifierBy(cfg: Lookup, op: Op, w: Service.Surroundings): Address
    requires op.RegisterDerive?
  {
    ChosenVerifier(Derive(cfg, w.fetch, w.now, op.env).verifier, op.first.read, op.env)
  }

  /** It derives and endorses. */
  lemma RegisterEndorses(cfg: Lookup, s: State, i: nat, w: Service.Surroundings) returns (t: State)
    requires Reachable(cfg, s) && i < |s.ops| && s.ops[i].RegisterDerive? && HonestSigner(cfg, w.sign)
    ensures Reachable(cfg, t) && t.disk == s.disk && t.logs.sends == s.logs.sends
    ensures var op := s.ops[i];
            var out := EndorsedBy(cfg, op, w);
            var derived := Derive(cfg, w.fetch, w.now, op.env).verifier;
            t.ops == s.ops[i := if out.ok then RegisterReread(op.addr, out.env, VerifierBy(cfg, op, w), derived, op.first)
                                else Done]
  {
    hide HonestSigner, Derive, CounterSignValue, Reachable;
    t := Take(cfg, s, DeriveStep(i, w.fetch, w.now));
    t := Take(cfg, t, SignStep(i, w.sign, w.now));
  }

  lemma EndorsedHasHead(cfg: Lookup, sign: Signer, env: Envelope, subject: Address, verifier: Address, now: int)
    requires env.head.Some?
    ensures var out := Endorsed(cfg, sign, env, subject, verifier, now).env;
            out.head.Some? && SealOf(out) == SealOf(env)
  {}

  /** It reads again and writes, with nothing in between: the write always lands. */
  lemma RegisterWrites(cfg: Lookup, s: State, i: nat, now: int, rev: string) returns (t: State)
    requires WellFormed(cfg) && Reachable(cfg, s) && i < |s.ops| && s.ops[i].RegisterReread? && s.ops[i].env.head.Some?
    requires FreshRevision(s.disk, rev)
    ensures Reachable(cfg, t) && t.logs == s.logs
    ensures var op := s.ops[i];
            var wanted := Upserted(PreviousOf(ReadAt(s.disk.records, op.addr)), op.addr, op.env, op.verifier, now);
            && Wrote(s.disk, t.disk, wanted, rev, Note(ByRegister, op.derived, op.first.seen), true)
            && t.ops == s.ops[i := RegisterSpawn(wanted.(rev := rev))]
  {
    hide FreshRevision, WellFormed, Reachable;
    var op := s.ops[i];
    t := Take(cfg, s, ReadStep(i, false, now));
    UndisturbedWriteLands(cfg, s, t, i, op.addr);
    hide Accepts;
    t := Take(cfg, t, PutStep(i, rev, false));
  }

  /** A write over what is stored lands. */
  lemma UndisturbedWriteLands(cfg: Lookup, s: State, t: State, i: nat, addr: Address)
    requires WellFormed(cfg) && Reachable(cfg, t) && i < |t.ops| && t.ops[i].Committing? && t.disk == s.disk
    requires t.ops[i].base == PreviousOf(ReadAt(s.disk.records, addr))
    requires t.ops[i].base.None? ==> t.ops[i].rec.id == DocId(addr)
    ensures Accepts(t.disk.records, t.ops[i].rec)
  {
    ReachableInv(cfg, t);
    WriteOverStoredLands(cfg, t, i, addr);
  }

  lemma WriteOverStoredLands(cfg: Lookup, t: State, i: nat, addr: Address)
    requires Inv(cfg, t) && i < |t.ops| && t.ops[i].Committing?
    requires t.ops[i].base == PreviousOf(ReadAt(t.disk.records, addr))
    requires t.ops[i].base.None? ==> t.ops[i].rec.id == DocId(addr)
    ensures Accepts(t.disk.records, t.ops[i].rec)
  {
    hide Sound, GoodHistory, GoodVersion, Inherits, Accepts;
    var op := t.ops[i];
    assert GoodCommit(cfg, t.logs, t.disk, op.base, op.rec, op.note);
    if op.base.Some? {
      StoredSound(cfg, t, DocId(addr));
    }
    LandsIffCurrent(cfg, t.logs, t.disk, op.base, op.rec, op.note);
  }

  /** An undisturbed registration in the protocol has the effect of the service's `Register`: if signing
      fails nothing is written; otherwise the write lands, and a delivery of the endorsed envelope is left
      in flight with a copy of the stored record. */
  lemma RegisterRunsAlone(cfg: Lookup, s: State, addr: Address, env: Envelope, w: Service.Surroundings) returns (t: State)
    requires WellFormed(cfg) && Reachable(cfg, s) && addr != "" && env.head.Some? && OwnSignaturesHold(cfg, env)
    requires HonestSigner(cfg, w.sign) && FreshRevision(s.disk, w.rev)
    ensures Reachable(cfg, t) && t.logs.sends == s.logs.sends
    ensures var out := Service.EndorsedEnvelope(cfg, s.disk, addr, env, w);
            if !out.ok then t.disk == s.disk && t.ops == s.ops + [Done]
            else
              && out.env.head.Some?
              && var wanted := Service.RegisteredRecord(cfg, s.disk, addr, env, w);
                 && Wrote(s.disk, t.disk, wanted, w.rev, Service.RegisterNote(cfg, s.disk, addr, env, w), true)
                 && t.ops == s.ops + [Done, DeliverSend(addr, out.env, wanted.(rev := w.rev))]
  {
    var i := |s.ops|;
    var read := ReadAt(s.disk.records, addr);
    var verifier := ChosenVerifier(Derive(cfg, w.fetch, w.now, env).verifier, read, env);
    EndorsedHasHead(cfg, w.sign, env, addr, verifier, w.now);
    hide HonestSigner, FreshRevision, Derive, CounterSignValue, WellFormed, Reachable;
    t := RegisterOpens(cfg, s, addr, env);
    t := RegisterEndorses(cfg, t, i, w);
    if Service.EndorsedEnvelope(cfg, s.disk, addr, env, w).ok {
      var wanted := Service.RegisteredRecord(cfg, s.disk, addr, env, w);
      RegisteredAddress(cfg, s, addr);
      t := RegisterWrites(cfg, t, i, w.now, w.rev);
      hide Accepts;
      t := Take(cfg, t, SpawnStep(i));
    }
  }

  lemma RegisteredAddress(cfg: Lookup, s: State, addr: Address)
    requires WellFormed(cfg) && Reachable(cfg, s)
    ensures DocId(addr) in s.disk.records ==>
              Consistent(s.disk.records[DocId(addr)]) && s.disk.records[DocId(addr)].address == addr
  {
    ReachableInv(cfg, s);
    if DocId(addr) in s.disk.records {
      StoredSound(cfg, s, DocId(addr));
      DocIdInjective(s.disk.records[DocId(addr)].address, addr);
    }
  }

  // ---- delivering -----------------------------------------------------------------------------

  /** An undisturbed delivery has the effect of the service's `DeliverAsync`. */
  lemma DeliverRunsAlone(cfg: Lookup, s: State, i: nat, error: Option<string>, now: int, rev: string) returns (t: State)
    requires Reachable(cfg, s) && i < |s.ops| && s.ops[i].DeliverSend?
    requires FreshRevision(s.disk, rev) && (error.Some? ==> error.value != "")
    ensures Reachable(cfg, t) && t.ops == s.ops[i := Done]
    ensures var op := s.ops[i];
            var wanted := WithOutcome(Attempted(op.rec, now), error);
            && t.logs.sends == s.logs.sends + [Sending(op.rec.rev, op.addr, op.env, error, now)]
            && Wrote(s.disk, t.disk, wanted, rev, Note(ByDelivery, "", None), Accepts(s.disk.records, wanted))
  {
    hide FreshRevision, Accepts, Reachable;
    t := Take(cfg, s, SendStep(i, error, now));
    t := Take(cfg, t, PutStep(i, rev, false));
  }

  // ---- verifying ------------------------------------------------------------------------------

  /** A verification up to its delivery, or to its end if it does not get that far. */
  lemma VerifyEndorses(cfg: Lookup, s: State, addr: Address, w: Service.Surroundings) returns (t: State)
    requires Reachable(cfg, s) && HonestSigner(cfg, w.sign)
    ensures Reachable(cfg, t) && t.disk == s.disk && t.logs.sends == s.logs.sends
    ensures var read := ReadAt(s.disk.records, addr);
            var sent := Service.ReverifiedRecord(cfg, read, addr, w);
            t.ops == s.ops + [if sent.None? then Done else VerifySend(addr, PreviousOf(read), sent.value)]
  {
    hide HonestSigner, Derive, CounterSignValue, Reachable;
    var i := |s.ops|;
    t := Take(cfg, s, StartVerify(addr));
    t := Take(cfg, t, ReadStep(i, false, 0));
    if t.ops[i].VerifyDerive? {
      t := Take(cfg, t, DeriveStep(i, w.fetch, w.now));
    }
    if t.ops[i].VerifySign? {
      t := Take(cfg, t, SignStep(i, w.sign, w.now));
    }
  }

  /** An undisturbed verification in the protocol has the effect of the service's `Verify`: it stops short
      of sending when there is no record, nothing is derived or signing fails. */
  lemma VerifyRunsAlone(cfg: Lookup, s: State, addr: Address, w: Service.Surroundings, error: Option<string>)
    returns (t: State)
    requires WellFormed(cfg) && Reachable(cfg, s)
    requires HonestSigner(cfg, w.sign) && FreshRevision(s.disk, w.rev)
    requires error.Some? ==> error.value != ""
    ensures Reachable(cfg, t) && t.ops == s.ops + [Done]
    ensures var sent := Service.ReverifiedRecord(cfg, ReadAt(s.disk.records, addr), addr, w);
            if sent.None? then t.disk == s.disk && t.logs.sends == s.logs.sends
            else
              && t.logs.sends == s.logs.sends + [Sending(sent.value.rev, addr, sent.value.envelope.value, error, w.now)]
              && Wrote(s.disk, t.disk, WithOutcome(sent.value, error), w.rev, Note(ByVerify, sent.value.verifier, None), true)
  {
    hide HonestSigner, FreshRevision, WellFormed, Reachable, Accepts;
    var i := |s.ops|;
    t := VerifyEndorses(cfg, s, addr, w);
    hide Service.ReverifiedRecord;
    if t.ops[i].VerifySend? {
      t := Take(cfg, t, SendStep(i, error, w.now));
      UndisturbedWriteLands(cfg, s, t, i, addr);
      t := Take(cfg, t, PutStep(i, w.rev, false));
    }
    assert t.ops == s.ops + [Done];
  }
}
