/** The registration protocol: any number of `Register`, `Verify` and background delivery operations,
    each advancing one store or network call at a time, interleaved over one store. Stored envelopes
    are values, as with a store that decodes a fresh copy on every read. */
module Protocol {
  import opened Gobl
  import opened Derivation
  import opened Endorsement
  import opened EndorsementLaws
  import opened Records
  import opened Store

  // ---- logs of what happened ------------------------------------------------------------------

  /** A derivation that named a verifier for an address, with the clock and key answers it was made
      under. */
  datatype Finding = Finding(addr: Address, env: Envelope, fetch: KeyOracle, at: int, verifier: Address)

  /** A signature the registry made. */
  datatype Signing = Signing(sig: Signature, at: int)

  /** A delivery attempt made on behalf of a copy read at revision `readRev`; no error means success. `at`
      is the clock reading that the attempt begins with. */
  datatype Sending = Sending(readRev: string, address: Address, env: Envelope, error: Option<string>, at: int)

  datatype Logs = Logs(findings: seq<Finding>, signings: seq<Signing>, sends: seq<Sending>)

  // ---- operations in flight -------------------------------------------------------------------

  /** What a registration's first read yielded, and how many versions of the record there were then. */
  datatype FirstRead = FirstRead(read: Read, seen: Option<nat>)

  /** An operation, named after the call it makes next. A registration remembers what its first read
      yielded and what it derived, for the annotation of the version it will write. */
  datatype Op =
    | RegisterRead(addr: Address, env: Envelope)
    | RegisterDerive(addr: Address, env: Envelope, first: FirstRead)
    | RegisterSign(addr: Address, env: Envelope, verifier: Address, derived: Address, first: FirstRead)
    | RegisterReread(addr: Address, env: Envelope, verifier: Address, derived: Address, first: FirstRead)
    | RegisterSpawn(rec: Record)
    | DeliverSend(addr: Address, env: Envelope, rec: Record)
    | VerifyRead(addr: Address)
    | VerifyDerive(addr: Address, rec: Record)
    | VerifySign(addr: Address, rec: Record, verifier: Address)
    | VerifySend(addr: Address, base: Option<Record>, rec: Record)
    | Committing(base: Option<Record>, rec: Record, note: Note)
    | Done

  /** `lost` names the committed versions (document id and revision) whose delivery was abandoned by a
      crash, by a store failure other than a conflict, or by an attempt that outlasted its deadline. */
  datatype State = State(disk: Disk, logs: Logs, ops: seq<Op>, lost: set<(string, string)>)

  const INITIAL := State(EMPTY_DISK, Logs([], [], []), [], {})

  // ---- steps ----------------------------------------------------------------------------------

  /** A step, with everything the environment decides in it. A background delivery has one deadline for
      the attempt and for storing its outcome: an attempt that uses it up, successful or not, expires,
      and the write fails with it. */
  datatype Label =
    | StartRegister(addr: Address, env: Envelope)
    | StartVerify(addr: Address)
    | ReadStep(i: nat, failed: bool, now: int)
    | DeriveStep(i: nat, fetch: KeyOracle, now: int)
    | SignStep(i: nat, sign: Signer, now: int)
    | SendStep(i: nat, error: Option<string>, now: int)
    | ExpireStep(i: nat, error: Option<string>, now: int)
    | PutStep(i: nat, rev: string, failed: bool)
    | SpawnStep(i: nat)
    | Crash(i: nat)

  function ReadAt(records: map<string, Record>, address: Address): Read {
    if DocId(address) in records then Saw(records[DocId(address)]) else Missing
  }

  /** The verifier a registration goes on with: the derived one wins over the renewed one. */
  function ChosenVerifier(derived: Address, first: Read, env: Envelope): Address {
    if derived != "" then derived else Renewal(first, env).0
  }

  function PreviousOf(read: Read): Option<Record> {
    if read.Saw? then Some(read.record) else None
  }

  /** What a store read makes of an operation; `seen` is the number of versions there are. */
  function AfterRead(op: Op, read: Read, seen: nat, now: int): Op
    requires op.RegisterReread? ==> op.env.head.Some?
  {
    match op
    case RegisterRead(addr, env) =>
      RegisterDerive(addr, env, FirstRead(read, if read.ReadFailed? then None else Some(seen)))
    case RegisterReread(addr, env, verifier, derived, first) =>
      if read.ReadFailed? then Done
      else
        var prev := PreviousOf(read);
        Committing(prev, Upserted(prev, addr, env, verifier, now), Note(ByRegister, derived, first.seen))
    case VerifyRead(addr) =>
      if read.Saw? && read.record.envelope.Some? then VerifyDerive(addr, read.record) else Done
    case _ => op
  }

  /** What deriving a verifier makes of an operation. */
  function AfterDerive(op: Op, derived: Address): Op {
    match op
    case RegisterDerive(addr, env, first) =>
      RegisterSign(addr, env, ChosenVerifier(derived, first.read, env), derived, first)
    case VerifyDerive(addr, rec) => if derived != "" then VerifySign(addr, rec, derived) else Done
    case _ => op
  }

  /** The log entry for a signature just appended to an envelope. */
  function LastSigning(env: Envelope, now: int): Signing
    requires env.signatures != []
  {
    Signing(env.signatures[|env.signatures| - 1], now)
  }

  /** What stamping and countersigning make of an operation. */
  function AfterSign(op: Op, out: CounterSigned, now: int): Op {
    match op
    case RegisterSign(addr, _, verifier, derived, first) =>
      if out.ok then RegisterReread(addr, out.env, verifier, derived, first) else Done
    case VerifySign(addr, rec, verifier) =>
      if out.ok then VerifySend(addr, Some(rec), Reverified(rec, out.env, verifier, now)) else Done
    case _ => op
  }

  /** What a delivery attempt makes of an operation. */
  function AfterSend(op: Op, error: Option<string>, now: int): Op {
    match op
    case DeliverSend(_, _, rec) =>
      Committing(Some(rec), WithOutcome(Attempted(rec, now), error), Note(ByDelivery, "", None))
    case VerifySend(_, base, rec) =>
      Committing(base, WithOutcome(rec, error), Note(ByVerify, rec.verifier, None))
    case _ => op
  }

  /** When an attempt began: a verification read the clock before it marked the record for sending. */
  function AttemptTime(op: Op, now: int): int {
    if op.VerifySend? && op.rec.lastAt.Some? then op.rec.lastAt.value else now
  }

  /** The envelope an operation works on, where it has one. */
  function Subject(op: Op): Option<Envelope> {
    match op
    case RegisterDerive(_, env, _) => Some(env)
    case RegisterSign(_, env, _, _, _) => Some(env)
    case DeliverSend(_, env, _) => Some(env)
    case VerifyDerive(_, rec) => rec.envelope
    case VerifySign(_, rec, _) => rec.envelope
    case VerifySend(_, _, rec) => rec.envelope
    case _ => None
  }

  /** The committed version whose delivery an operation still owes, if any. */
  function Owes(op: Op): Option<(string, string)> {
    match op
    case RegisterSpawn(rec) => Some((rec.id, rec.rev))
    case DeliverSend(_, _, rec) => Some((rec.id, rec.rev))
    case Committing(base, _, note) =>
      if note.writer == ByDelivery && base.Some? then Some((base.value.id, base.value.rev)) else None
    case _ => None
  }

  ghost predicate Enabled(cfg: Lookup, s: State, l: Label) {
    match l
    case StartRegister(addr, env) => addr != "" && env.head.Some? && OwnSignaturesHold(cfg, env)
    case StartVerify(addr) => true
    case ReadStep(i, _, _) =>
      && i < |s.ops|
      && (s.ops[i].RegisterRead? || s.ops[i].RegisterReread? || s.ops[i].VerifyRead?)
      && (s.ops[i].RegisterReread? ==> s.ops[i].env.head.Some?)
    case DeriveStep(i, _, _) =>
      i < |s.ops| && (s.ops[i].RegisterDerive? || s.ops[i].VerifyDerive?) && Subject(s.ops[i]).Some?
    case SignStep(i, sign, _) =>
      && i < |s.ops| && (s.ops[i].RegisterSign? || s.ops[i].VerifySign?) && Subject(s.ops[i]).Some?
      && HonestSigner(cfg, sign)
    case SendStep(i, error, _) =>
      && i < |s.ops| && (s.ops[i].DeliverSend? || s.ops[i].VerifySend?) && Subject(s.ops[i]).Some?
      && (error.Some? ==> error.value != "")
    case ExpireStep(i, error, _) => i < |s.ops| && s.ops[i].DeliverSend? && (error.Some? ==> error.value != "")
    case PutStep(i, rev, failed) => i < |s.ops| && s.ops[i].Committing? && (!failed ==> FreshRevision(s.disk, rev))
    case SpawnStep(i) => i < |s.ops| && s.ops[i].RegisterSpawn? && s.ops[i].rec.envelope.Some?
    case Crash(i) => i < |s.ops| && s.ops[i] != Done
  }

  function Abandoned(s: State, i: nat): State
    requires i < |s.ops|
  {
    var owed := Owes(s.ops[i]);
    s.(ops := s.ops[i := Done], lost := s.lost + if owed.Some? then {owed.value} else {})
  }

  ghost function Apply(cfg: Lookup, s: State, l: Label): State
    requires Enabled(cfg, s, l)
  {
    match l
    case StartRegister(addr, env) => s.(ops := s.ops + [RegisterRead(addr, env)])
    case StartVerify(addr) => s.(ops := s.ops + [VerifyRead(addr)])
    case ReadStep(i, failed, now) =>
      var read := if failed then ReadFailed else ReadAt(s.disk.records, s.ops[i].addr);
      s.(ops := s.ops[i := AfterRead(s.ops[i], read, |VersionsOf(s.disk, DocId(s.ops[i].addr))|, now)])
    case DeriveStep(i, fetch, now) =>
      var env := Subject(s.ops[i]).value;
      var derived := Derive(cfg, fetch, now, env).verifier;
      var log := if derived != "" then [Finding(s.ops[i].addr, env, fetch, now, derived)] else [];
      s.(ops := s.ops[i := AfterDerive(s.ops[i], derived)],
         logs := s.logs.(findings := s.logs.findings + log))
    case SignStep(i, sign, now) =>
      var out := Endorsed(cfg, sign, Subject(s.ops[i]).value, s.ops[i].addr, s.ops[i].verifier, now);
      var log := if out.ok && out.env.signatures != [] then [LastSigning(out.env, now)] else [];
      s.(ops := s.ops[i := AfterSign(s.ops[i], out, now)],
         logs := s.logs.(signings := s.logs.signings + log))
    case SendStep(i, error, now) =>
      var log := [Sending(s.ops[i].rec.rev, s.ops[i].addr, Subject(s.ops[i]).value, error,
                           AttemptTime(s.ops[i], now))];
      s.(ops := s.ops[i := AfterSend(s.ops[i], error, now)], logs := s.logs.(sends := s.logs.sends + log))
    case ExpireStep(i, error, now) =>
      var log := [Sending(s.ops[i].rec.rev, s.ops[i].addr, s.ops[i].env, error, now)];
      Abandoned(s, i).(logs := s.logs.(sends := s.logs.sends + log))
    case PutStep(i, rev, failed) =>
      if failed then Abandoned(s, i)
      else
        var op := s.ops[i];
        if Accepts(s.disk.records, op.rec) then
          var next := if op.note.writer == ByRegister then RegisterSpawn(op.rec.(rev := rev)) else Done;
          s.(disk := Written(s.disk, op.rec, rev, op.note), ops := s.ops[i := next])
        else s.(ops := s.ops[i := Done])
    case SpawnStep(i) =>
      var rec := s.ops[i].rec;
      s.(ops := s.ops[i := Done] + [DeliverSend(rec.address, rec.envelope.value, rec)])
    case Crash(i) => Abandoned(s, i)
  }

  // ---- runs -----------------------------------------------------------------------------------

  /** `s` can take the steps of `run` one after the other, ending in `t`. */
  ghost predicate Runs(cfg: Lookup, s: State, run: seq<Label>, t: State)
    decreases |run|
  {
    if run == [] then s == t
    else Enabled(cfg, s, run[0]) && Runs(cfg, Apply(cfg, s, run[0]), run[1..], t)
  }

  ghost predicate Reachable(cfg: Lookup, t: State) {
    exists run :: Runs(cfg, INITIAL, run, t)
  }
}
