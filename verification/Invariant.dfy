/** The inductive invariant of the protocol. */
module Invariant {
  import opened Gobl
  import opened Derivation
  import opened Endorsement
  import opened EndorsementLaws
  import opened Records
  import opened Store
  import opened Protocol

  // ---- what a record rests on -----------------------------------------------------------------

  /** A verifier named for `addr` and `env` was derived earlier for that address, from an envelope with
      the same digest. */
  ghost predicate Backed(logs: Logs, addr: Address, env: Envelope, verifier: Address) {
    verifier != "" ==> exists k :: 0 <= k < |logs.findings| && Backs(logs.findings[k], addr, env, verifier)
  }

  ghost predicate Backs(f: Finding, addr: Address, env: Envelope, verifier: Address) {
    f.addr == addr && f.verifier == verifier && DigestOf(f.env) == DigestOf(env)
  }

  /** A verifier that was derived was derived for this address, from an envelope with this header and these
      signatures of others. */
  ghost predicate DerivedFor(cfg: Lookup, logs: Logs, addr: Address, env: Envelope, derived: Address) {
    derived != "" ==> exists k :: 0 <= k < |logs.findings| && Names(cfg, logs.findings[k], addr, env, derived)
  }

  ghost predicate Names(cfg: Lookup, f: Finding, addr: Address, env: Envelope, derived: Address) {
    && f.addr == addr && f.verifier == derived
    && SealOf(f.env) == SealOf(env)
    && ThirdParty(cfg, f.env.signatures) == ThirdParty(cfg, env.signatures)
  }

  /** Every logged finding is what the derivation gave, and names somebody. */
  ghost predicate FindingsTrue(cfg: Lookup, logs: Logs) {
    forall k :: 0 <= k < |logs.findings| ==> FindingTrue(cfg, logs.findings[k])
  }

  ghost predicate FindingTrue(cfg: Lookup, f: Finding) {
    f.verifier != "" && Derive(cfg, f.fetch, f.at, f.env).verifier == f.verifier
  }

  /** The envelope's one signature claiming the registry was made earlier, for 90 days from then, and
      asserts exactly this subject and verifier. */
  ghost predicate EndorsedFor(cfg: Lookup, logs: Logs, env: Envelope, subject: Address, verifier: Address) {
    exists k :: 0 <= k < |logs.signings| && Endorses(cfg, logs.signings[k], env, subject, verifier)
  }

  ghost predicate Endorses(cfg: Lookup, s: Signing, env: Envelope, subject: Address, verifier: Address) {
    && SoleEndorsement(cfg, env, s.sig)
    && Asserts(cfg, s.sig, subject, verifier, s.at + ENDORSEMENT_TTL)
  }

  /** The envelope says what a record with this address, verifier and UUID should hold. */
  ghost predicate Agrees(cfg: Lookup, logs: Logs, env: Envelope, subject: Address, verifier: Address, uuid: Uuid) {
    && env.head.Some? && env.head.value.uuid == uuid
    && OneDiscoveryLink(cfg, env)
    && OwnSignaturesHold(cfg, env)
    && EndorsedFor(cfg, logs, env, subject, verifier)
    && Backed(logs, subject, env, verifier)
  }

  /** Status, attempts, error and timestamps of a record fit together. */
  ghost predicate Bookkeeping(r: Record) {
    && (r.status.Countersigned? || r.status.Delivered? || r.status.Failed?)
    && r.attempts >= 0
    && (r.status.Countersigned? <==> r.attempts == 0)
    && (r.attempts == 0 <==> r.lastAt.None?)
    && (r.status.Failed? <==> r.lastError != "")
    && (r.verifiedAt.Some? <==> r.verifier != "")
  }

  ghost predicate Sound(cfg: Lookup, logs: Logs, r: Record) {
    && Consistent(r)
    && Bookkeeping(r)
    && r.envelope.Some?
    && Agrees(cfg, logs, r.envelope.value, r.address, r.verifier, r.uuid)
  }

  // ---- how one version follows another --------------------------------------------------------

  /** A registration starts over; a derived verifier wins, and a verifier it shares with its predecessor
      keeps its timestamp. */
  ghost predicate RegisteredOver(p: Option<Record>, n: Record, note: Note)
    requires n.envelope.Some?
  {
    && n.status.Countersigned?
    && (p.Some? ==> n.address == p.value.address)
    && (note.derived != "" ==> n.verifier == note.derived)
    && n.verifiedAt == (if n.verifier == "" then None
                        else if p.Some? && p.value.verifiedAt.Some? && p.value.verifier == n.verifier then p.value.verifiedAt
                        else Some(n.receivedAt))
  }

  /** A delivery changes nothing but its own bookkeeping. */
  ghost predicate DeliveredOver(p: Record, n: Record) {
    && n == p.(rev := n.rev, status := n.status, lastError := n.lastError, lastAt := n.lastAt, attempts := p.attempts + 1)
    && (n.status.Delivered? || n.status.Failed?)
  }

  /** When the registry's own signature on an envelope expires; it is the last one. */
  function Expiry(env: Option<Envelope>): int {
    if env.Some? && env.value.signatures != [] && env.value.signatures[|env.value.signatures| - 1].payload.Some?
    then env.value.signatures[|env.value.signatures| - 1].payload.value.exp
    else 0
  }

  /** Verification and attempt are dated by the signing of the envelope. */
  ghost predicate StampedWhenSigned(r: Record) {
    r.verifiedAt == r.lastAt == Some(Expiry(r.envelope) - ENDORSEMENT_TTL)
  }

  /** A verification re-endorses the same document, names the derived verifier and counts one attempt. */
  ghost predicate VerifiedOver(cfg: Lookup, p: Record, n: Record, derived: Address) {
    && p.envelope.Some? && n.envelope.Some?
    && n.address == p.address && n.uuid == p.uuid && n.receivedAt == p.receivedAt
    && SealOf(n.envelope.value) == SealOf(p.envelope.value)
    && ThirdParty(cfg, n.envelope.value.signatures) == ThirdParty(cfg, p.envelope.value.signatures)
    && n.verifier == derived && derived != ""
    && StampedWhenSigned(n)
    && n.attempts == p.attempts + 1
    && (n.status.Delivered? || n.status.Failed?)
  }

  ghost predicate Follows(cfg: Lookup, p: Option<Record>, n: Record, note: Note)
    requires n.envelope.Some?
  {
    match note.writer
    case ByRegister => RegisteredOver(p, n, note)
    case ByDelivery => p.Some? && note.derived == "" && DeliveredOver(p.value, n)
    case ByVerify => p.Some? && VerifiedOver(cfg, p.value, n, note.derived)
  }

  /** The attempt a version counts was made: its envelope was sent to its address on behalf of the
      version it replaced, with the outcome it records. */
  ghost predicate AttemptSent(logs: Logs, readRev: string, n: Record) {
    exists k :: 0 <= k < |logs.sends| && Accounts(logs.sends[k], readRev, n)
  }

  ghost predicate Accounts(s: Sending, readRev: string, n: Record) {
    && s.readRev == readRev && s.address == n.address && n.envelope == Some(s.env)
    && (s.error.None? <==> n.status.Delivered?)
    && (s.error.Some? ==> n.lastError == s.error.value)
    && n.lastAt == Some(s.at)
  }

  ghost predicate GoodVersion(cfg: Lookup, logs: Logs, p: Option<Record>, readRev: string, n: Record, note: Note) {
    && Sound(cfg, logs, n)
    && Follows(cfg, p, n, note)
    && DerivedFor(cfg, logs, n.address, n.envelope.value, note.derived)
    && (note.writer != ByRegister ==> AttemptSent(logs, readRev, n))
  }

  /** What a read yields that finds the first `seen` versions of a history, or fails. */
  function SeenIn(h: seq<Version>, seen: Option<nat>): Read
    requires seen.Some? ==> seen.value <= |h|
  {
    if seen.None? then ReadFailed else if seen.value == 0 then Missing else Saw(h[seen.value - 1].record)
  }

  /** A registration that derives nothing has the verifier its first read found for an unchanged
      document; that read found at most the first `bound` versions. */
  ghost predicate Inherits(h: seq<Version>, bound: nat, n: Record, note: Note)
    requires bound <= |h|
  {
    note.writer == ByRegister ==>
      && (note.seen.Some? ==> note.seen.value <= bound)
      && n.envelope.Some?
      && (note.derived == "" ==> n.verifier == Renewal(SeenIn(h, note.seen), n.envelope.value).0)
  }

  function Predecessor(h: seq<Version>, i: nat): Option<Record>
    requires i < |h|
  {
    if i == 0 then None else Some(h[i - 1].record)
  }

  ghost predicate GoodHistory(cfg: Lookup, logs: Logs, h: seq<Version>) {
    forall i {:trigger Predecessor(h, i)} :: 0 <= i < |h| ==>
      && GoodVersion(cfg, logs, Predecessor(h, i), h[i].readRev, h[i].record, h[i].note)
      && Inherits(h, i, h[i].record, h[i].note)
  }

  lemma VersionGood(cfg: Lookup, logs: Logs, h: seq<Version>, i: nat)
    requires GoodHistory(cfg, logs, h) && i < |h|
    ensures GoodVersion(cfg, logs, Predecessor(h, i), h[i].readRev, h[i].record, h[i].note)
    ensures Sound(cfg, logs, h[i].record) && Inherits(h, i, h[i].record, h[i].note)
  {}

  ghost predicate GoodDisk(cfg: Lookup, logs: Logs, d: Disk) {
    && Chained(d) && NeverReused(d)
    && forall id :: id in d.history ==> GoodHistory(cfg, logs, d.history[id])
  }

  // ---- what an operation in flight holds ------------------------------------------------------

  /** The record is a version that was committed. */
  ghost predicate WasCommitted(d: Disk, r: Record) {
    r.id in d.history && exists i :: 0 <= i < |d.history[r.id]| && d.history[r.id][i].record == r
  }

  ghost predicate GoodRead(d: Disk, addr: Address, read: Read) {
    read.Saw? ==> WasCommitted(d, read.record) && read.record.id == DocId(addr)
  }

  /** A first read found what was there, or failed. */
  ghost predicate GoodFirst(d: Disk, addr: Address, first: FirstRead) {
    var h := VersionsOf(d, DocId(addr));
    (first.seen.Some? ==> first.seen.value <= |h|) && first.read == SeenIn(h, first.seen)
  }

  /** A record ready to be written over `base`. */
  ghost predicate GoodCommit(cfg: Lookup, logs: Logs, d: Disk, base: Option<Record>, rec: Record, note: Note) {
    && (base.Some? ==> WasCommitted(d, base.value) && rec.id == base.value.id)
    && rec.rev == (if base.Some? then base.value.rev else "")
    && GoodVersion(cfg, logs, base, rec.rev, rec, note)
    && Inherits(VersionsOf(d, rec.id), |VersionsOf(d, rec.id)|, rec, note)
  }

  /** A re-verified record, endorsed and about to be sent. */
  ghost predicate GoodReverified(cfg: Lookup, logs: Logs, base: Record, rec: Record) {
    && base.envelope.Some? && rec.envelope.Some?
    && Agrees(cfg, logs, rec.envelope.value, base.address, rec.verifier, base.uuid)
    && SealOf(rec.envelope.value) == SealOf(base.envelope.value)
    && ThirdParty(cfg, rec.envelope.value.signatures) == ThirdParty(cfg, base.envelope.value.signatures)
    && DerivedFor(cfg, logs, base.address, rec.envelope.value, rec.verifier)
    && StampedWhenSigned(rec) && rec.verifier != ""
    && rec == Attempted(base.(envelope := rec.envelope, verifier := rec.verifier, verifiedAt := rec.verifiedAt,
                              status := Countersigned), rec.lastAt.value)
  }

  ghost predicate GoodOp(cfg: Lookup, logs: Logs, d: Disk, op: Op) {
    match op
    case RegisterRead(addr, env) => addr != "" && env.head.Some?
    case RegisterDerive(addr, env, first) => addr != "" && env.head.Some? && GoodFirst(d, addr, first)
    case RegisterSign(addr, env, verifier, derived, first) =>
      && addr != "" && env.head.Some? && GoodFirst(d, addr, first)
      && Backed(logs, addr, env, verifier) && DerivedFor(cfg, logs, addr, env, derived)
      && verifier == ChosenVerifier(derived, first.read, env)
    case RegisterReread(addr, env, verifier, derived, first) =>
      && addr != "" && env.head.Some? && GoodFirst(d, addr, first)
      && Agrees(cfg, logs, env, addr, verifier, env.head.value.uuid) && DerivedFor(cfg, logs, addr, env, derived)
      && verifier == ChosenVerifier(derived, first.read, env)
    case RegisterSpawn(rec) => WasCommitted(d, rec)
    case DeliverSend(addr, env, rec) => WasCommitted(d, rec) && addr == rec.address && rec.envelope == Some(env)
    case VerifyRead(addr) => true
    case VerifyDerive(addr, rec) => WasCommitted(d, rec) && rec.id == DocId(addr)
    case VerifySign(addr, rec, verifier) =>
      && WasCommitted(d, rec) && rec.id == DocId(addr)
      && verifier != "" && rec.envelope.Some? && Backed(logs, addr, rec.envelope.value, verifier)
      && DerivedFor(cfg, logs, addr, rec.envelope.value, verifier)
    case VerifySend(addr, base, rec) =>
      && base.Some? && WasCommitted(d, base.value) && base.value.id == DocId(addr)
      && GoodReverified(cfg, logs, base.value, rec)
    case Committing(base, rec, note) => GoodCommit(cfg, logs, d, base, rec, note)
    case Done => true
  }

  ghost predicate Inv(cfg: Lookup, s: State) {
    && FindingsTrue(cfg, s.logs)
    && GoodDisk(cfg, s.logs, s.disk)
    && forall i :: 0 <= i < |s.ops| ==> GoodOp(cfg, s.logs, s.disk, s.ops[i])
  }

  // ---- everything stays true as logs and histories grow ---------------------------------------

  ghost predicate LogsGrow(a: Logs, b: Logs) {
    a.findings <= b.findings && a.signings <= b.signings && a.sends <= b.sends
  }

  ghost predicate DiskGrows(a: Disk, b: Disk) {
    forall id :: id in a.history ==> id in b.history && a.history[id] <= b.history[id]
  }

  lemma AgreesStable(cfg: Lookup, a: Logs, b: Logs, env: Envelope, subject: Address, verifier: Address, uuid: Uuid)
    requires LogsGrow(a, b)
    ensures Backed(a, subject, env, verifier) ==> Backed(b, subject, env, verifier)
    ensures Agrees(cfg, a, env, subject, verifier, uuid) ==> Agrees(cfg, b, env, subject, verifier, uuid)
  {}

  lemma DerivedStable(cfg: Lookup, a: Logs, b: Logs, addr: Address, env: Envelope, derived: Address)
    requires LogsGrow(a, b) && DerivedFor(cfg, a, addr, env, derived)
    ensures DerivedFor(cfg, b, addr, env, derived)
  {}

  lemma VersionStable(cfg: Lookup, a: Logs, b: Logs, p: Option<Record>, readRev: string, n: Record, note: Note)
    requires LogsGrow(a, b) && GoodVersion(cfg, a, p, readRev, n, note)
    ensures GoodVersion(cfg, b, p, readRev, n, note)
  {
    hide EndorsedFor, OwnSignaturesHold, OneDiscoveryLink, Bookkeeping, DerivedFor;
    if n.envelope.Some? {
      DerivedStable(cfg, a, b, n.address, n.envelope.value, note.derived);
      AgreesStable(cfg, a, b, n.envelope.value, n.address, n.verifier, n.uuid);
    }
  }

  lemma CommittedStable(d: Disk, e: Disk, r: Record)
    requires DiskGrows(d, e) && WasCommitted(d, r)
    ensures WasCommitted(e, r)
  {}

  /** What was read first, or inherited from it, does not change as histories grow. */
  lemma FirstStable(d: Disk, e: Disk, id: string, seen: Option<nat>)
    requires DiskGrows(d, e) && (seen.Some? ==> seen.value <= |VersionsOf(d, id)|)
    ensures |VersionsOf(d, id)| <= |VersionsOf(e, id)|
    ensures SeenIn(VersionsOf(e, id), seen) == SeenIn(VersionsOf(d, id), seen)
  {}

  lemma OpStable(cfg: Lookup, a: Logs, b: Logs, d: Disk, e: Disk, op: Op)
    requires LogsGrow(a, b) && DiskGrows(d, e) && GoodOp(cfg, a, d, op)
    ensures GoodOp(cfg, b, e, op)
  {
    if op.Committing? {
      VersionStable(cfg, a, b, op.base, op.rec.rev, op.rec, op.note);
      if op.base.Some? { CommittedStable(d, e, op.base.value); }
      FirstStable(d, e, op.rec.id, if op.note.writer == ByRegister then op.note.seen else None);
    } else if op.RegisterDerive? || op.RegisterSign? || op.RegisterReread? {
      FirstStable(d, e, DocId(op.addr), op.first.seen);
      if !op.RegisterDerive? { DerivedStable(cfg, a, b, op.addr, op.env, op.derived); }
      if op.RegisterReread? {
        AgreesStable(cfg, a, b, op.env, op.addr, op.verifier, op.env.head.value.uuid);
      }
    }
    hide GoodVersion, Agrees, DerivedFor, WasCommitted, VersionsOf;
    assert forall r :: WasCommitted(d, r) ==> WasCommitted(e, r) by {
      forall r | WasCommitted(d, r) ensures WasCommitted(e, r) { CommittedStable(d, e, r); }
    }
    if op.VerifySign? {
      DerivedStable(cfg, a, b, op.addr, op.rec.envelope.value, op.verifier);
    }
    if op.VerifySend? {
      DerivedStable(cfg, a, b, op.base.value.address, op.rec.envelope.value, op.rec.verifier);
      AgreesStable(cfg, a, b, op.rec.envelope.value, op.base.value.address, op.rec.verifier, op.base.value.uuid);
    }
  }

  lemma DiskStable(cfg: Lookup, a: Logs, b: Logs, d: Disk)
    requires LogsGrow(a, b) && GoodDisk(cfg, a, d)
    ensures GoodDisk(cfg, b, d)
  {
    forall id | id in d.history
      ensures GoodHistory(cfg, b, d.history[id])
    {
      HistoryStable(cfg, a, b, d.history[id]);
    }
  }

  lemma HistoryStable(cfg: Lookup, a: Logs, b: Logs, h: seq<Version>)
    requires LogsGrow(a, b) && GoodHistory(cfg, a, h)
    ensures GoodHistory(cfg, b, h)
  {
    hide GoodVersion;
    forall i | 0 <= i < |h|
      ensures GoodVersion(cfg, b, Predecessor(h, i), h[i].readRev, h[i].record, h[i].note)
    {
      VersionStable(cfg, a, b, Predecessor(h, i), h[i].readRev, h[i].record, h[i].note);
    }
  }

  /** A committed version is sound, whatever has been committed since. */
  lemma CommittedSound(cfg: Lookup, logs: Logs, d: Disk, r: Record)
    requires GoodDisk(cfg, logs, d) && WasCommitted(d, r)
    ensures Sound(cfg, logs, r) && r.rev != ""
  {
    var i :| 0 <= i < |d.history[r.id]| && d.history[r.id][i].record == r;
    assert Chain(r.id, d.history[r.id]);
    VersionGood(cfg, logs, d.history[r.id], i);
  }

  /** What a read yields was committed. */
  lemma ReadCommitted(d: Disk, addr: Address)
    requires Chained(d)
    ensures GoodRead(d, addr, ReadAt(d.records, addr))
    ensures GoodFirst(d, addr, FirstRead(ReadAt(d.records, addr), Some(|VersionsOf(d, DocId(addr))|)))
  {
    hide Consistent;
    if DocId(addr) in d.records {
      assert EndsIn(d.history[DocId(addr)], d.records[DocId(addr)]);
      assert Chain(DocId(addr), d.history[DocId(addr)]);
    }
  }

  lemma FirstReadCommitted(d: Disk, addr: Address, first: FirstRead)
    requires Chained(d) && GoodFirst(d, addr, first) && first.read.Saw?
    ensures WasCommitted(d, first.read.record) && first.read.record.id == DocId(addr)
  {
    assert Chain(DocId(addr), d.history[DocId(addr)]);
  }

  // ---- one step at a time ---------------------------------------------------------------------

  lemma UpsertedSound(cfg: Lookup, logs: Logs, prev: Option<Record>, addr: Address, env: Envelope,
                      verifier: Address, now: int)
    requires addr != "" && env.head.Some?
    requires Agrees(cfg, logs, env, addr, verifier, env.head.value.uuid)
    requires prev.Some? ==> Consistent(prev.value) && prev.value.address == addr
    ensures Sound(cfg, logs, Upserted(prev, addr, env, verifier, now))
  {}

  lemma UpsertedFollows(prev: Option<Record>, addr: Address, env: Envelope, derived: Address,
                        first: FirstRead, read: Read, now: int)
    requires env.head.Some? && !read.ReadFailed? && prev == PreviousOf(read)
    requires prev.Some? ==> prev.value.address == addr && Bookkeeping(prev.value)
    ensures RegisteredOver(prev, Upserted(prev, addr, env, ChosenVerifier(derived, first.read, env), now),
                           Note(ByRegister, derived, first.seen))
  {}

  lemma RereadKeepsGood(cfg: Lookup, logs: Logs, d: Disk, op: Op, read: Read, seen: nat, now: int)
    requires GoodDisk(cfg, logs, d) && GoodOp(cfg, logs, d, op) && op.RegisterReread?
    requires GoodRead(d, op.addr, read) && !read.ReadFailed?
    ensures GoodOp(cfg, logs, d, AfterRead(op, read, seen, now))
  {
    var prev := PreviousOf(read);
    if prev.Some? {
      CommittedSound(cfg, logs, d, prev.value);
      DocIdInjective(prev.value.address, op.addr);
    }
    UpsertedSound(cfg, logs, prev, op.addr, op.env, op.verifier, now);
    UpsertedFollows(prev, op.addr, op.env, op.derived, op.first, read, now);
  }

  lemma ReadKeepsGood(cfg: Lookup, logs: Logs, d: Disk, op: Op, read: Read, seen: nat, now: int)
    requires GoodDisk(cfg, logs, d) && GoodOp(cfg, logs, d, op)
    requires op.RegisterRead? || op.RegisterReread? || op.VerifyRead?
    requires GoodRead(d, op.addr, read)
    requires !read.ReadFailed? ==> GoodFirst(d, op.addr, FirstRead(read, Some(seen)))
    ensures GoodOp(cfg, logs, d, AfterRead(op, read, seen, now))
  {
    if op.RegisterReread? && !read.ReadFailed? {
      RereadKeepsGood(cfg, logs, d, op, read, seen, now);
    }
  }

  lemma DeriveKeepsGood(cfg: Lookup, logs: Logs, d: Disk, op: Op, f: Finding)
    requires GoodDisk(cfg, logs, d) && GoodOp(cfg, logs, d, op)
    requires (op.RegisterDerive? || op.VerifyDerive?) && Subject(op) == Some(f.env) && f.addr == op.addr
    ensures GoodOp(cfg, logs.(findings := logs.findings + if f.verifier != "" then [f] else []), d,
                   AfterDerive(op, f.verifier))
  {
    var logs' := logs.(findings := logs.findings + if f.verifier != "" then [f] else []);
    OpStable(cfg, logs, logs', d, d, op);
    if f.verifier != "" {
      assert Backs(logs'.findings[|logs.findings|], op.addr, f.env, f.verifier);
      assert Names(cfg, logs'.findings[|logs.findings|], op.addr, f.env, f.verifier);
    }
    if op.RegisterDerive? && op.first.read.Saw? {
      var p := op.first.read.record;
      FirstReadCommitted(d, op.addr, op.first);
      CommittedSound(cfg, logs, d, p);
      DocIdInjective(p.address, op.addr);
      AgreesStable(cfg, logs, logs', p.envelope.value, p.address, p.verifier, p.uuid);
      BackedByDigest(logs', p.address, p.envelope.value, op.env, p.verifier);
    }
  }

  lemma BackedByDigest(logs: Logs, addr: Address, a: Envelope, b: Envelope, verifier: Address)
    requires Backed(logs, addr, a, verifier)
    ensures DigestOf(a) == DigestOf(b) ==> Backed(logs, addr, b, verifier)
  {}

  lemma DerivedByParts(cfg: Lookup, logs: Logs, addr: Address, a: Envelope, b: Envelope, derived: Address)
    requires DerivedFor(cfg, logs, addr, a, derived)
    requires SealOf(a) == SealOf(b) && ThirdParty(cfg, a.signatures) == ThirdParty(cfg, b.signatures)
    ensures DerivedFor(cfg, logs, addr, b, derived)
  {}

  /** Endorsing a backed envelope makes it agree with its record-to-be. */
  lemma EndorsedAgrees(cfg: Lookup, logs: Logs, sign: Signer, env: Envelope, subject: Address,
                       verifier: Address, now: int)
    requires WellFormed(cfg) && HonestSigner(cfg, sign)
    requires env.head.Some? && Backed(logs, subject, env, verifier)
    requires Endorsed(cfg, sign, env, subject, verifier, now).ok
    ensures var out := Endorsed(cfg, sign, env, subject, verifier, now).env;
            && out.signatures != [] && Expiry(Some(out)) == now + ENDORSEMENT_TTL
            && SealOf(out) == SealOf(env)
            && ThirdParty(cfg, out.signatures) == ThirdParty(cfg, env.signatures)
            && Agrees(cfg, logs.(signings := logs.signings + [LastSigning(out, now)]),
                      out, subject, verifier, env.head.value.uuid)
  {
    var own := EndorsedShape(cfg, sign, env, subject, verifier, now);
    hide HonestSigner, WellFormed, ThirdParty, OwnSignaturesHold, SoleEndorsement, OneDiscoveryLink, Asserts, Endorsed;
    var out := Endorsed(cfg, sign, env, subject, verifier, now).env;
    var logs' := logs.(signings := logs.signings + [LastSigning(out, now)]);
    assert Endorses(cfg, logs'.signings[|logs.signings|], out, subject, verifier);
    AgreesStable(cfg, logs, logs', env, subject, verifier, env.head.value.uuid);
    BackedByDigest(logs', subject, env, out, verifier);
  }

  lemma RegisterSignKeepsGood(cfg: Lookup, logs: Logs, d: Disk, op: Op, out: CounterSigned, now: int)
    requires op.RegisterSign? && out.ok && GoodOp(cfg, logs, d, op)
    requires SealOf(out.env) == SealOf(op.env)
    requires ThirdParty(cfg, out.env.signatures) == ThirdParty(cfg, op.env.signatures)
    requires Agrees(cfg, logs, out.env, op.addr, op.verifier, op.env.head.value.uuid)
    ensures GoodOp(cfg, logs, d, AfterSign(op, out, now))
  {
    DerivedByParts(cfg, logs, op.addr, op.env, out.env, op.derived);
    hide Agrees, GoodFirst, DerivedFor, ThirdParty;
    assert DigestOf(out.env) == DigestOf(op.env);
  }

  lemma VerifySignKeepsGood(cfg: Lookup, logs: Logs, d: Disk, op: Op, out: CounterSigned, now: int)
    requires op.VerifySign? && out.ok && GoodOp(cfg, logs, d, op) && op.rec.address == op.addr
    requires SealOf(out.env) == SealOf(op.rec.envelope.value)
    requires Expiry(Some(out.env)) == now + ENDORSEMENT_TTL
    requires ThirdParty(cfg, out.env.signatures) == ThirdParty(cfg, op.rec.envelope.value.signatures)
    requires Agrees(cfg, logs, out.env, op.addr, op.verifier, op.rec.uuid)
    ensures GoodOp(cfg, logs, d, AfterSign(op, out, now))
  {
    DerivedByParts(cfg, logs, op.addr, op.rec.envelope.value, out.env, op.verifier);
    hide Agrees, Backed, ThirdParty, DerivedFor, Expiry;
  }

  /** What is about to be signed has a header, backs its verifier and belongs to the address. */
  lemma SignSubject(cfg: Lookup, logs: Logs, d: Disk, op: Op)
    requires GoodDisk(cfg, logs, d) && GoodOp(cfg, logs, d, op)
    requires (op.RegisterSign? || op.VerifySign?) && Subject(op).Some?
    ensures Subject(op).value.head.Some? && Backed(logs, op.addr, Subject(op).value, op.verifier)
    ensures op.VerifySign? ==> op.rec.address == op.addr && op.rec.uuid == Subject(op).value.head.value.uuid
  {
    if op.VerifySign? {
      CommittedSound(cfg, logs, d, op.rec);
      DocIdInjective(op.rec.address, op.addr);
    }
  }

  lemma SignKeepsGood(cfg: Lookup, logs: Logs, d: Disk, op: Op, sign: Signer, now: int)
    requires WellFormed(cfg) && HonestSigner(cfg, sign)
    requires GoodDisk(cfg, logs, d) && GoodOp(cfg, logs, d, op)
    requires (op.RegisterSign? || op.VerifySign?) && Subject(op).Some?
    requires Endorsed(cfg, sign, Subject(op).value, op.addr, op.verifier, now).ok
    ensures var out := Endorsed(cfg, sign, Subject(op).value, op.addr, op.verifier, now);
            && out.env.signatures != []
            && GoodOp(cfg, logs.(signings := logs.signings + [LastSigning(out.env, now)]), d,
                      AfterSign(op, out, now))
  {
    hide WellFormed, HonestSigner, GoodDisk, Endorsed, GoodOp, Agrees, Backed, ThirdParty, AfterSign;
    SignSubject(cfg, logs, d, op);
    EndorsedAgrees(cfg, logs, sign, Subject(op).value, op.addr, op.verifier, now);
    var out := Endorsed(cfg, sign, Subject(op).value, op.addr, op.verifier, now);
    var logs' := logs.(signings := logs.signings + [LastSigning(out.env, now)]);
    OpStable(cfg, logs, logs', d, d, op);
    if op.RegisterSign? {
      RegisterSignKeepsGood(cfg, logs', d, op, out, now);
    } else {
      VerifySignKeepsGood(cfg, logs', d, op, out, now);
    }
  }

  lemma DeliveredGood(cfg: Lookup, logs: Logs, rec: Record, sending: Sending, now: int)
    requires Sound(cfg, logs, rec) && sending in logs.sends
    requires sending == Sending(rec.rev, rec.address, rec.envelope.value, sending.error, now)
    requires sending.error.Some? ==> sending.error.value != ""
    ensures GoodVersion(cfg, logs, Some(rec), rec.rev, WithOutcome(Attempted(rec, now), sending.error),
                        Note(ByDelivery, "", None))
  {}

  lemma ReverifiedGood(cfg: Lookup, logs: Logs, base: Record, rec: Record, sending: Sending)
    requires Sound(cfg, logs, base) && GoodReverified(cfg, logs, base, rec) && sending in logs.sends
    requires sending == Sending(base.rev, base.address, rec.envelope.value, sending.error, rec.lastAt.value)
    requires sending.error.Some? ==> sending.error.value != ""
    ensures GoodVersion(cfg, logs, Some(base), base.rev, WithOutcome(rec, sending.error),
                        Note(ByVerify, rec.verifier, None))
  {}

  lemma DeliverySendKeepsGood(cfg: Lookup, logs: Logs, d: Disk, op: Op, sending: Sending, now: int)
    requires GoodDisk(cfg, logs, d) && GoodOp(cfg, logs, d, op) && op.DeliverSend?
    requires sending == Sending(op.rec.rev, op.addr, op.env, sending.error, now) && sending in logs.sends
    requires sending.error.Some? ==> sending.error.value != ""
    ensures GoodOp(cfg, logs, d, AfterSend(op, sending.error, now))
  {
    hide GoodDisk, Agrees, Bookkeeping, GoodVersion;
    CommittedSound(cfg, logs, d, op.rec);
    DeliveredGood(cfg, logs, op.rec, sending, now);
  }

  lemma VerifySendKeepsGood(cfg: Lookup, logs: Logs, d: Disk, op: Op, sending: Sending, now: int)
    requires GoodDisk(cfg, logs, d) && GoodOp(cfg, logs, d, op) && op.VerifySend? && op.rec.envelope.Some?
    requires sending == Sending(op.rec.rev, op.addr, op.rec.envelope.value, sending.error, AttemptTime(op, now))
    requires sending in logs.sends
    requires sending.error.Some? ==> sending.error.value != ""
    ensures GoodOp(cfg, logs, d, AfterSend(op, sending.error, now))
  {
    hide GoodDisk, Agrees, Bookkeeping, GoodVersion;
    var base := op.base.value;
    CommittedSound(cfg, logs, d, base);
    DocIdInjective(base.address, op.addr);
    ReverifiedGood(cfg, logs, base, op.rec, sending);
  }

  lemma SendKeepsGood(cfg: Lookup, logs: Logs, d: Disk, op: Op, error: Option<string>, now: int)
    requires GoodDisk(cfg, logs, d) && GoodOp(cfg, logs, d, op)
    requires (op.DeliverSend? || op.VerifySend?) && Subject(op).Some?
    requires error.Some? ==> error.value != ""
    ensures GoodOp(cfg, logs.(sends := logs.sends + [Sending(op.rec.rev, op.addr, Subject(op).value, error,
                                                                AttemptTime(op, now))]), d,
                   AfterSend(op, error, now))
  {
    hide GoodDisk, GoodOp, AfterSend;
    var sending := Sending(op.rec.rev, op.addr, Subject(op).value, error, AttemptTime(op, now));
    var logs' := logs.(sends := logs.sends + [sending]);
    assert logs'.sends[|logs.sends|] == sending;
    OpStable(cfg, logs, logs', d, d, op);
    DiskStable(cfg, logs, logs', d);
    if op.DeliverSend? {
      DeliverySendKeepsGood(cfg, logs', d, op, sending, now);
    } else {
      VerifySendKeepsGood(cfg, logs', d, op, sending, now);
    }
  }

  lemma EmptyHistoryGood(cfg: Lookup, logs: Logs)
    ensures GoodHistory(cfg, logs, [])
  {}

  lemma AppendKeepsHistory(cfg: Lookup, logs: Logs, h: seq<Version>, v: Version)
    requires GoodHistory(cfg, logs, h)
    requires GoodVersion(cfg, logs, if h == [] then None else Some(h[|h| - 1].record), v.readRev, v.record, v.note)
    requires Inherits(h, |h|, v.record, v.note)
    ensures GoodHistory(cfg, logs, h + [v])
  {
    hide GoodVersion;
    var g := h + [v];
    forall i | 0 <= i < |g|
      ensures GoodVersion(cfg, logs, Predecessor(g, i), g[i].readRev, g[i].record, g[i].note)
      ensures Inherits(g, i, g[i].record, g[i].note)
    {
      if i < |h| {
        assert Predecessor(g, i) == Predecessor(h, i);
        assert Inherits(h, i, h[i].record, h[i].note);
      }
    }
  }

  /** The store accepts a write only over the very version it was made from. */
  lemma AcceptedBaseIsLatest(cfg: Lookup, logs: Logs, d: Disk, base: Option<Record>, rec: Record, note: Note)
    requires GoodDisk(cfg, logs, d) && GoodCommit(cfg, logs, d, base, rec, note)
    requires Accepts(d.records, rec)
    ensures var h := VersionsOf(d, rec.id);
            base == if h == [] then None else Some(h[|h| - 1].record)
  {}

  lemma CommitKeepsDisk(cfg: Lookup, logs: Logs, d: Disk, base: Option<Record>, rec: Record, note: Note, rev: string)
    requires GoodDisk(cfg, logs, d) && GoodCommit(cfg, logs, d, base, rec, note)
    requires Accepts(d.records, rec) && FreshRevision(d, rev)
    ensures GoodDisk(cfg, logs, Written(d, rec, rev, note))
    ensures DiskGrows(d, Written(d, rec, rev, note))
    ensures WasCommitted(Written(d, rec, rev, note), rec.(rev := rev))
  {
    hide GoodVersion, GoodHistory, Chained, NeverReused;
    var d' := Written(d, rec, rev, note);
    var h := VersionsOf(d, rec.id);
    var v := Version(rec.rev, rec.(rev := rev), note);
    WrittenExtendsChain(d, rec, rev, note);
    AcceptedBaseIsLatest(cfg, logs, d, base, rec, note);
    RevisionIrrelevant(cfg, logs, base, rec.rev, rec, note, rev);
    assert GoodHistory(cfg, logs, h) by {
      EmptyHistoryGood(cfg, logs);
    }
    AppendKeepsHistory(cfg, logs, h, v);
    assert d'.history[rec.id] == h + [v] && (h + [v])[|h|] == v;
  }

  lemma RevisionIrrelevant(cfg: Lookup, logs: Logs, p: Option<Record>, readRev: string, n: Record, note: Note,
                           rev: string)
    requires GoodVersion(cfg, logs, p, readRev, n, note)
    ensures GoodVersion(cfg, logs, p, readRev, n.(rev := rev), note)
  {}

  // ---- the invariant is inductive -------------------------------------------------------------

  /** If logs and histories only grow and the operation that moved is fine, so is the new state. */
  lemma MoveKeepsInv(cfg: Lookup, s: State, t: State, i: nat)
    requires Inv(cfg, s) && i < |s.ops|
    requires LogsGrow(s.logs, t.logs) && DiskGrows(s.disk, t.disk)
    requires FindingsTrue(cfg, t.logs) && GoodDisk(cfg, t.logs, t.disk)
    requires |t.ops| >= |s.ops|
    requires forall j :: 0 <= j < |s.ops| && j != i ==> t.ops[j] == s.ops[j]
    requires GoodOp(cfg, t.logs, t.disk, t.ops[i])
    requires forall j :: |s.ops| <= j < |t.ops| ==> GoodOp(cfg, t.logs, t.disk, t.ops[j])
    ensures Inv(cfg, t)
  {
    forall j | 0 <= j < |t.ops|
      ensures GoodOp(cfg, t.logs, t.disk, t.ops[j])
    {
      if j < |s.ops| && j != i {
        OpStable(cfg, s.logs, t.logs, s.disk, t.disk, s.ops[j]);
      }
    }
  }

  lemma DeriveKeepsInv(cfg: Lookup, s: State, i: nat, fetch: KeyOracle, now: int)
    requires Inv(cfg, s) && Enabled(cfg, s, DeriveStep(i, fetch, now))
    ensures Inv(cfg, Apply(cfg, s, DeriveStep(i, fetch, now)))
  {
    var t := Apply(cfg, s, DeriveStep(i, fetch, now));
    var env := Subject(s.ops[i]).value;
    var f := Finding(s.ops[i].addr, env, fetch, now, Derive(cfg, fetch, now, env).verifier);
    DeriveKeepsGood(cfg, s.logs, s.disk, s.ops[i], f);
    DiskStable(cfg, s.logs, t.logs, s.disk);
    MoveKeepsInv(cfg, s, t, i);
  }

  lemma SignKeepsInv(cfg: Lookup, s: State, i: nat, sign: Signer, now: int)
    requires WellFormed(cfg) && Inv(cfg, s) && Enabled(cfg, s, SignStep(i, sign, now))
    ensures Inv(cfg, Apply(cfg, s, SignStep(i, sign, now)))
  {
    var t := Apply(cfg, s, SignStep(i, sign, now));
    if Endorsed(cfg, sign, Subject(s.ops[i]).value, s.ops[i].addr, s.ops[i].verifier, now).ok {
      SignKeepsGood(cfg, s.logs, s.disk, s.ops[i], sign, now);
    }
    DiskStable(cfg, s.logs, t.logs, s.disk);
    MoveKeepsInv(cfg, s, t, i);
  }

  lemma SendKeepsInv(cfg: Lookup, s: State, i: nat, error: Option<string>, now: int)
    requires Inv(cfg, s) && Enabled(cfg, s, SendStep(i, error, now))
    ensures Inv(cfg, Apply(cfg, s, SendStep(i, error, now)))
  {
    hide GoodDisk, FindingTrue;
    var t := Apply(cfg, s, SendStep(i, error, now));
    SendKeepsGood(cfg, s.logs, s.disk, s.ops[i], error, now);
    DiskStable(cfg, s.logs, t.logs, s.disk);
    MoveKeepsInv(cfg, s, t, i);
  }

  lemma ExpireKeepsInv(cfg: Lookup, s: State, i: nat, error: Option<string>, now: int)
    requires Inv(cfg, s) && Enabled(cfg, s, ExpireStep(i, error, now))
    ensures Inv(cfg, Apply(cfg, s, ExpireStep(i, error, now)))
  {
    hide GoodDisk, FindingTrue;
    var t := Apply(cfg, s, ExpireStep(i, error, now));
    DiskStable(cfg, s.logs, t.logs, s.disk);
    MoveKeepsInv(cfg, s, t, i);
  }

  lemma PutKeepsInv(cfg: Lookup, s: State, i: nat, rev: string, failed: bool)
    requires Inv(cfg, s) && Enabled(cfg, s, PutStep(i, rev, failed))
    ensures Inv(cfg, Apply(cfg, s, PutStep(i, rev, failed)))
  {
    hide GoodDisk, FindingTrue;
    var t := Apply(cfg, s, PutStep(i, rev, failed));
    var op := s.ops[i];
    if !failed && Accepts(s.disk.records, op.rec) {
      CommitKeepsDisk(cfg, s.logs, s.disk, op.base, op.rec, op.note, rev);
    }
    MoveKeepsInv(cfg, s, t, i);
  }

  lemma ReadKeepsInv(cfg: Lookup, s: State, i: nat, failed: bool, now: int)
    requires Inv(cfg, s) && Enabled(cfg, s, ReadStep(i, failed, now))
    ensures Inv(cfg, Apply(cfg, s, ReadStep(i, failed, now)))
  {
    var t := Apply(cfg, s, ReadStep(i, failed, now));
    ReadCommitted(s.disk, s.ops[i].addr);
    var read := if failed then ReadFailed else ReadAt(s.disk.records, s.ops[i].addr);
    ReadKeepsGood(cfg, s.logs, s.disk, s.ops[i], read, |VersionsOf(s.disk, DocId(s.ops[i].addr))|, now);
    MoveKeepsInv(cfg, s, t, i);
  }

  lemma SpawnKeepsInv(cfg: Lookup, s: State, i: nat)
    requires Inv(cfg, s) && Enabled(cfg, s, SpawnStep(i))
    ensures Inv(cfg, Apply(cfg, s, SpawnStep(i)))
  {
    hide GoodDisk, FindingTrue;
    assert GoodOp(cfg, s.logs, s.disk, s.ops[i]);
    MoveKeepsInv(cfg, s, Apply(cfg, s, SpawnStep(i)), i);
  }

  lemma StepKeepsInv(cfg: Lookup, s: State, l: Label)
    requires WellFormed(cfg) && Inv(cfg, s) && Enabled(cfg, s, l)
    ensures Inv(cfg, Apply(cfg, s, l))
  {
    match l
    case StartRegister(addr, env) =>
    case StartVerify(addr) =>
    case ReadStep(i, failed, now) => ReadKeepsInv(cfg, s, i, failed, now);
    case DeriveStep(i, fetch, now) => DeriveKeepsInv(cfg, s, i, fetch, now);
    case SignStep(i, sign, now) => SignKeepsInv(cfg, s, i, sign, now);
    case SendStep(i, error, now) => SendKeepsInv(cfg, s, i, error, now);
    case ExpireStep(i, error, now) => ExpireKeepsInv(cfg, s, i, error, now);
    case PutStep(i, rev, failed) => PutKeepsInv(cfg, s, i, rev, failed);
    case SpawnStep(i) => SpawnKeepsInv(cfg, s, i);
    case Crash(i) => MoveKeepsInv(cfg, s, Apply(cfg, s, l), i);
  }

  lemma {:induction false} RunKeepsInv(cfg: Lookup, s: State, run: seq<Label>, t: State)
    requires WellFormed(cfg) && Inv(cfg, s) && Runs(cfg, s, run, t)
    ensures Inv(cfg, t)
    decreases |run|
  {
    if run != [] {
      StepKeepsInv(cfg, s, run[0]);
      RunKeepsInv(cfg, Apply(cfg, s, run[0]), run[1..], t);
    }
  }

  lemma ReachableInv(cfg: Lookup, t: State)
    requires WellFormed(cfg) && Reachable(cfg, t)
    ensures Inv(cfg, t)
  {
    var run :| Runs(cfg, INITIAL, run, t);
    RunKeepsInv(cfg, INITIAL, run, t);
  }
}
