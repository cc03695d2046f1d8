/** Serial runs: registrations, verifications and deliveries one after the other, over a store that
    answers. */
module Serial {
  import opened Gobl
  import opened Endorsement
  import opened EndorsementLaws
  import opened Records
  import opened Store
  import opened Protocol
  import opened Invariant
  import opened Guarantees
  import opened History

  /** An operation that has begun and not finished. A delivery waiting for its turn has not begun. */
  predicate InProgress(op: Op) {
    !op.Done? && !op.RegisterSpawn? && !op.DeliverSend?
  }

  predicate OneAtATime(s: State) {
    forall i, j :: 0 <= i < j < |s.ops| ==> !(InProgress(s.ops[i]) && InProgress(s.ops[j]))
  }

  /** A run in which at most one operation is in progress at any time and no read fails. */
  ghost predicate SerialRun(cfg: Lookup, s: State, run: seq<Label>, t: State)
    decreases |run|
  {
    if run == [] then s == t
    else
      && Enabled(cfg, s, run[0]) && !(run[0].ReadStep? && run[0].failed)
      && OneAtATime(Apply(cfg, s, run[0]))
      && SerialRun(cfg, Apply(cfg, s, run[0]), run[1..], t)
  }

  /** A registration between its reads has seen all there is, and so has one about to be written; every
      registration written so far replaced the version it had seen. */
  ghost predicate Undisturbed(s: State) {
    && (forall i :: 0 <= i < |s.ops| ==> OpUndisturbed(s.disk, s.ops[i]))
    && (forall id :: id in s.disk.history ==> CleanFrom(s.disk.history[id], 0))
  }

  ghost predicate OpUndisturbed(d: Disk, op: Op) {
    match op
    case RegisterDerive(addr, _, first) => SawAll(d, DocId(addr), first.seen)
    case RegisterSign(addr, _, _, _, first) => SawAll(d, DocId(addr), first.seen)
    case RegisterReread(addr, _, _, _, first) => SawAll(d, DocId(addr), first.seen)
    case Committing(_, rec, note) => note.writer == ByRegister ==> SawAll(d, rec.id, note.seen)
    case _ => true
  }

  ghost predicate SawAll(d: Disk, id: string, seen: Option<nat>) {
    seen == Some(|VersionsOf(d, id)|)
  }

  ghost predicate IdsMatch(d: Disk) {
    forall id :: id in d.records ==> d.records[id].id == id
  }

  lemma OpStaysUndisturbed(cfg: Lookup, s: State, l: Label, i: nat)
    requires IdsMatch(s.disk) && Enabled(cfg, s, l) && !(l.ReadStep? && l.failed)
    requires OneAtATime(s) && Undisturbed(s) && i < |Apply(cfg, s, l).ops|
    ensures OpUndisturbed(Apply(cfg, s, l).disk, Apply(cfg, s, l).ops[i])
  {
    hide HonestSigner, FreshRevision, Accepts, Endorsed, OwnSignaturesHold, CleanFrom;
    if i < |s.ops| {
      assert OpUndisturbed(s.disk, s.ops[i]);
    }
  }

  lemma StepUndisturbed(cfg: Lookup, s: State, l: Label)
    requires IdsMatch(s.disk) && Enabled(cfg, s, l) && !(l.ReadStep? && l.failed)
    requires OneAtATime(s) && Undisturbed(s)
    ensures Undisturbed(Apply(cfg, s, l))
  {
    hide HonestSigner, FreshRevision, Accepts, Endorsed, OwnSignaturesHold, OneAtATime, IdsMatch;
    var t := Apply(cfg, s, l);
    forall i | 0 <= i < |t.ops|
      ensures OpUndisturbed(t.disk, t.ops[i])
    {
      OpStaysUndisturbed(cfg, s, l, i);
    }
    forall id | id in t.disk.history
      ensures CleanFrom(t.disk.history[id], 0)
    {
      assert id in s.disk.history ==> CleanFrom(s.disk.history[id], 0);
      if l.PutStep? {
        assert OpUndisturbed(s.disk, s.ops[l.i]);
      }
    }
  }

  lemma StoredIds(cfg: Lookup, s: State)
    requires Inv(cfg, s)
    ensures IdsMatch(s.disk)
  {
    forall id | id in s.disk.records
      ensures s.disk.records[id].id == id
    {
      StoredSound(cfg, s, id);
    }
  }

  lemma {:induction false} SerialRunUndisturbed(cfg: Lookup, s: State, run: seq<Label>, t: State)
    requires WellFormed(cfg) && Inv(cfg, s)
    requires SerialRun(cfg, s, run, t) && OneAtATime(s) && Undisturbed(s)
    ensures Undisturbed(t) && Runs(cfg, s, run, t)
    decreases |run|
  {
    if run != [] {
      StepKeepsInv(cfg, s, run[0]);
      StoredIds(cfg, s);
      StepUndisturbed(cfg, s, run[0]);
      hide Inv, Undisturbed, Enabled, Apply, OneAtATime;
      SerialRunUndisturbed(cfg, Apply(cfg, s, run[0]), run[1..], t);
    }
  }

  /** After any serial run, the stored verifier is `verifier` exactly when the last derivation committed on
      the record gave `verifier` and every later registration carried the same document; it is empty
      exactly when there is no such derivation. */
  lemma SerialRunRefinesHistory(cfg: Lookup, run: seq<Label>, s: State, id: string, verifier: Address)
    requires WellFormed(cfg) && SerialRun(cfg, INITIAL, run, s) && id in s.disk.records
    ensures verifier != "" ==>
              (s.disk.records[id].verifier == verifier <==> DecidedSince(VersionsOf(s.disk, id), 0, verifier))
    ensures s.disk.records[id].verifier == "" <==> forall v :: !DecidedSince(VersionsOf(s.disk, id), 0, v)
  {
    SerialRunUndisturbed(cfg, INITIAL, run, s);
    ReachableInv(cfg, s);
    VerifierRefinesHistory(cfg, s, id, verifier);
  }

  // ---- endorsements never get shorter ---------------------------------------------------------

  /** No signing happens before `from` or before an earlier signing of the run. */
  predicate ClockForward(run: seq<Label>, from: int) {
    if run == [] then true
    else if run[0].SignStep? then from <= run[0].now && ClockForward(run[1..], run[0].now)
    else ClockForward(run[1..], from)
  }

  /** The envelope expires no earlier than the stored one, and was signed by `time`. */
  ghost predicate Outlasts(d: Disk, id: string, env: Option<Envelope>, time: int) {
    && Expiry(env) <= time + ENDORSEMENT_TTL
    && (id in d.records ==> Expiry(d.records[id].envelope) <= Expiry(env))
  }

  ghost predicate ExpiriesRise(h: seq<Version>, time: int) {
    && (forall i :: 0 <= i < |h| ==> Expiry(h[i].record.envelope) <= time + ENDORSEMENT_TTL)
    && (forall i, j :: 0 <= i <= j < |h| ==> Expiry(h[i].record.envelope) <= Expiry(h[j].record.envelope))
  }

  ghost predicate OpOutlasts(d: Disk, op: Op, time: int) {
    match op
    case RegisterReread(addr, env, _, _, _) => Outlasts(d, DocId(addr), Some(env), time)
    case VerifySend(addr, _, rec) => Outlasts(d, rec.id, rec.envelope, time)
    case Committing(_, rec, note) => note.writer != ByDelivery ==> Outlasts(d, rec.id, rec.envelope, time)
    case _ => true
  }

  ghost predicate Rising(s: State, time: int) {
    && (forall i :: 0 <= i < |s.ops| ==> OpOutlasts(s.disk, s.ops[i], time))
    && (forall id :: id in s.disk.history ==> ExpiriesRise(s.disk.history[id], time))
  }

  lemma EndorsedExpiry(cfg: Lookup, sign: Signer, env: Envelope, subject: Address, verifier: Address, now: int)
    requires WellFormed(cfg) && HonestSigner(cfg, sign) && env.head.Some?
    requires Endorsed(cfg, sign, env, subject, verifier, now).ok
    ensures Expiry(Some(Endorsed(cfg, sign, env, subject, verifier, now).env)) == now + ENDORSEMENT_TTL
  {
    var own := EndorsedShape(cfg, sign, env, subject, verifier, now);
    hide WellFormed, HonestSigner, Endorsed, OwnSignaturesHold, OneDiscoveryLink, SoleEndorsement, ThirdParty;
  }

  lemma OutcomeOutlasts(d: Disk, op: Op, out: CounterSigned, now: int)
    requires op.RegisterSign? || (op.VerifySign? && op.rec.id == DocId(op.addr))
    requires out.ok ==> Outlasts(d, DocId(op.addr), Some(out.env), now)
    ensures OpOutlasts(d, AfterSign(op, out, now), now)
  {
    hide Expiry;
  }

  /** What is signed at `now` outlasts whatever was signed before. */
  lemma SignedOutlasts(cfg: Lookup, s: State, i: nat, sign: Signer, now: int, time: int)
    requires WellFormed(cfg) && Inv(cfg, s) && Enabled(cfg, s, SignStep(i, sign, now))
    requires Rising(s, time) && time <= now
    ensures OpOutlasts(Apply(cfg, s, SignStep(i, sign, now)).disk, Apply(cfg, s, SignStep(i, sign, now)).ops[i], now)
  {
    hide Inv, WellFormed, HonestSigner, Endorsed, Rising, Expiry, OpOutlasts, AfterSign;
    var op := s.ops[i];
    var env := Subject(op).value;
    SubjectHasHead(cfg, s, i);
    var out := Endorsed(cfg, sign, env, op.addr, op.verifier, now);
    StoredBy(cfg, s, DocId(op.addr), time);
    if out.ok {
      EndorsedExpiry(cfg, sign, env, op.addr, op.verifier, now);
    }
    OutcomeOutlasts(s.disk, op, out, now);
  }

  lemma SubjectHasHead(cfg: Lookup, s: State, i: nat)
    requires Inv(cfg, s) && i < |s.ops| && (s.ops[i].RegisterSign? || s.ops[i].VerifySign?)
    requires Subject(s.ops[i]).Some?
    ensures Subject(s.ops[i]).value.head.Some?
    ensures s.ops[i].VerifySign? ==> s.ops[i].rec.id == DocId(s.ops[i].addr)
  {
    assert GoodOp(cfg, s.logs, s.disk, s.ops[i]);
    if s.ops[i].VerifySign? {
      CommittedSound(cfg, s.logs, s.disk, s.ops[i].rec);
    }
  }

  lemma StoredBy(cfg: Lookup, s: State, id: string, time: int)
    requires Inv(cfg, s) && Rising(s, time)
    ensures id in s.disk.records ==> Expiry(s.disk.records[id].envelope) <= time + ENDORSEMENT_TTL
  {
    if id in s.disk.records {
      assert EndsIn(s.disk.history[id], s.disk.records[id]) && ExpiriesRise(s.disk.history[id], time);
    }
  }

  lemma DeliveryKeepsEnvelope(cfg: Lookup, logs: Logs, base: Option<Record>, rec: Record, note: Note)
    requires GoodVersion(cfg, logs, base, rec.rev, rec, note) && note.writer == ByDelivery
    ensures base.Some? && rec.envelope == base.value.envelope
  {
    hide Sound, AttemptSent;
  }

  /** The last version of a record is the stored one, and a write that lands was made from it. */
  lemma LandsOverLast(cfg: Lookup, s: State, i: nat)
    requires Inv(cfg, s) && i < |s.ops| && s.ops[i].Committing? && Accepts(s.disk.records, s.ops[i].rec)
    ensures var op := s.ops[i];
            var h := VersionsOf(s.disk, op.rec.id);
            && GoodVersion(cfg, s.logs, op.base, op.rec.rev, op.rec, op.note)
            && op.base == (if h == [] then None else Some(h[|h| - 1].record))
            && (h != [] ==> op.rec.id in s.disk.records && s.disk.records[op.rec.id] == h[|h| - 1].record)
  {
    var op := s.ops[i];
    assert GoodCommit(cfg, s.logs, s.disk, op.base, op.rec, op.note);
    hide GoodVersion, GoodHistory, Accepts, Inherits;
    AcceptedBaseIsLatest(cfg, s.logs, s.disk, op.base, op.rec, op.note);
    var h := VersionsOf(s.disk, op.rec.id);
    assert h != [] ==> EndsIn(h, s.disk.records[op.rec.id]);
  }

  /** A write that lands outlasts what it replaces. */
  lemma CommitRises(cfg: Lookup, s: State, i: nat, rev: string, time: int)
    requires Inv(cfg, s) && i < |s.ops| && s.ops[i].Committing? && Accepts(s.disk.records, s.ops[i].rec)
    requires Rising(s, time)
    ensures ExpiriesRise(VersionsOf(s.disk, s.ops[i].rec.id) +
                         [Version(s.ops[i].rec.rev, s.ops[i].rec.(rev := rev), s.ops[i].note)], time)
  {
    hide Inv, GoodVersion, Accepts, Expiry;
    var op := s.ops[i];
    LandsOverLast(cfg, s, i);
    assert OpOutlasts(s.disk, op, time);
    StoredBy(cfg, s, op.rec.id, time);
    if op.note.writer == ByDelivery {
      DeliveryKeepsEnvelope(cfg, s.logs, op.base, op.rec, op.note);
    }
    assert VersionsOf(s.disk, op.rec.id) != [] ==> ExpiriesRise(VersionsOf(s.disk, op.rec.id), time);
  }

  lemma OpKeepsOutlasting(cfg: Lookup, s: State, l: Label, i: nat, time: int)
    requires IdsMatch(s.disk) && Enabled(cfg, s, l) && OneAtATime(s) && Rising(s, time)
    requires i < |Apply(cfg, s, l).ops| && !(l.SignStep? && l.i == i)
    ensures OpOutlasts(Apply(cfg, s, l).disk, Apply(cfg, s, l).ops[i], time)
  {
    hide HonestSigner, FreshRevision, Accepts, Endorsed, OwnSignaturesHold, ExpiriesRise;
    if i < |s.ops| {
      assert OpOutlasts(s.disk, s.ops[i], time);
    }
  }

  lemma LaterStillOutlasts(d: Disk, op: Op, time: int, later: int)
    requires OpOutlasts(d, op, time) && time <= later
    ensures OpOutlasts(d, op, later)
  {}

  lemma HistoriesRise(cfg: Lookup, s: State, l: Label, time: int)
    requires Inv(cfg, s) && Enabled(cfg, s, l) && Rising(s, time)
    ensures forall id :: id in Apply(cfg, s, l).disk.history ==> ExpiriesRise(Apply(cfg, s, l).disk.history[id], time)
  {
    hide Inv, HonestSigner, FreshRevision, Accepts, Endorsed, OwnSignaturesHold, ExpiriesRise, OpOutlasts;
    var t := Apply(cfg, s, l);
    if l.PutStep? && !l.failed && Accepts(s.disk.records, s.ops[l.i].rec) {
      CommitRises(cfg, s, l.i, l.rev, time);
    } else {
      assert t.disk == s.disk;
    }
  }

  lemma LaterStillRises(h: seq<Version>, time: int, later: int)
    requires ExpiriesRise(h, time) && time <= later
    ensures ExpiriesRise(h, later)
  {}

  lemma StepRises(cfg: Lookup, s: State, l: Label, time: int)
    requires WellFormed(cfg) && Inv(cfg, s) && Enabled(cfg, s, l) && OneAtATime(s) && Rising(s, time)
    requires l.SignStep? ==> time <= l.now
    ensures Rising(Apply(cfg, s, l), if l.SignStep? then l.now else time)
  {
    var t := Apply(cfg, s, l);
    var later := if l.SignStep? then l.now else time;
    StoredIds(cfg, s);
    HistoriesRise(cfg, s, l, time);
    hide Inv, Enabled, Apply, ExpiriesRise, OpOutlasts, IdsMatch, OneAtATime;
    forall i | 0 <= i < |t.ops|
      ensures OpOutlasts(t.disk, t.ops[i], later)
    {
      if l.SignStep? && l.i == i {
        SignedOutlasts(cfg, s, i, l.sign, l.now, time);
      } else {
        OpKeepsOutlasting(cfg, s, l, i, time);
        LaterStillOutlasts(t.disk, t.ops[i], time, later);
      }
    }
    forall id | id in t.disk.history
      ensures ExpiriesRise(t.disk.history[id], later)
    {
      LaterStillRises(t.disk.history[id], time, later);
    }
  }

  lemma {:induction false} SerialRunRises(cfg: Lookup, s: State, run: seq<Label>, t: State, time: int) returns (end: int)
    requires WellFormed(cfg) && Inv(cfg, s) && OneAtATime(s) && Rising(s, time)
    requires SerialRun(cfg, s, run, t) && ClockForward(run, time)
    ensures Inv(cfg, t) && Rising(t, end)
    decreases |run|
  {
    hide Inv, Rising, Enabled, Apply, OneAtATime;
    if run == [] {
      end := time;
    } else {
      StepKeepsInv(cfg, s, run[0]);
      StepRises(cfg, s, run[0], time);
      end := SerialRunRises(cfg, Apply(cfg, s, run[0]), run[1..], t, if run[0].SignStep? then run[0].now else time);
    }
  }

  /** In a serial run whose signing clock never goes back, no version of a record is endorsed for less long
      than an earlier one: the registry's signature on it expires no earlier. */
  lemma SerialRunNeverShortens(cfg: Lookup, run: seq<Label>, from: int, s: State, id: string, i: nat, j: nat)
    returns (older: Signature, newer: Signature)
    requires WellFormed(cfg) && SerialRun(cfg, INITIAL, run, s) && ClockForward(run, from)
    requires id in s.disk.history && i <= j < |s.disk.history[id]|
    ensures var p, n := s.disk.history[id][i].record, s.disk.history[id][j].record;
            && p.envelope.Some? && SoleEndorsement(cfg, p.envelope.value, older) && older.payload.Some?
            && n.envelope.Some? && SoleEndorsement(cfg, n.envelope.value, newer) && newer.payload.Some?
            && older.payload.value.exp <= newer.payload.value.exp
  {
    var end := SerialRunRises(cfg, INITIAL, run, s, from);
    var h := s.disk.history[id];
    assert ExpiriesRise(h, end);
    older := VersionEndorsement(cfg, s, id, i);
    newer := VersionEndorsement(cfg, s, id, j);
  }

  lemma VersionEndorsement(cfg: Lookup, s: State, id: string, i: nat) returns (own: Signature)
    requires Inv(cfg, s) && id in s.disk.history && i < |s.disk.history[id]|
    ensures var env := s.disk.history[id][i].record.envelope;
            env.Some? && SoleEndorsement(cfg, env.value, own) && own.payload.Some? && own.payload.value.exp == Expiry(env)
  {
    var h := s.disk.history[id];
    assert GoodHistory(cfg, s.logs, h);
    VersionGood(cfg, s.logs, h, i);
    var r := h[i].record;
    var k :| 0 <= k < |s.logs.signings| && Endorses(cfg, s.logs.signings[k], r.envelope.value, r.address, r.verifier);
    own := s.logs.signings[k].sig;
  }
}
