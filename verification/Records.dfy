/** The per-address registration record and the changes the service makes to one. */
module Records {
  import opened Gobl

  /** Blank stands for a status that was never set. */
  datatype Status = Blank | Received | Countersigned | Delivered | Failed

  datatype Record = Record(
    id: string,
    rev: string,
    address: Address,
    verifier: Address,
    status: Status,
    uuid: Uuid,
    receivedAt: int,
    envelope: Option<Envelope>,
    attempts: int,
    lastError: string,
    lastAt: Option<int>,
    verifiedAt: Option<int>)

  function DocId(address: Address): string {
    "registration:" + address
  }

  lemma DocIdInjective(a: Address, b: Address)
    requires DocId(a) == DocId(b)
    ensures a == b
  {
    assert DocId(a)[13..] == a && DocId(b)[13..] == b;
  }

  /** What a record must satisfy to be written at all. */
  predicate Consistent(r: Record) {
    r.address != "" && r.id != "" && r.id == DocId(r.address) && r.status != Blank
  }

  function NewRecord(address: Address, uuid: Uuid, now: int): Record {
    Record(DocId(address), "", address, "", Received, uuid, now, None, 0, "", None, None)
  }

  // ---- the service's changes, on values -------------------------------------------------------

  /** What reading a record can yield. */
  datatype Read = ReadFailed | Missing | Saw(record: Record)

  /** An incoming envelope with the digest of the stored one is a renewal and keeps the verifier;
      a failed read counts as no renewal. */
  function Renewal(read: Read, env: Envelope): (res: (Address, bool))
  {
    if read.Saw? && read.record.envelope.Some? && SameDigest(read.record.envelope.value, env)
    then (read.record.verifier, true)
    else ("", false)
  }

  /** The record written by a registration over `prev`, or as a first one. */
  function Upserted(prev: Option<Record>, sender: Address, env: Envelope, verifier: Address, now: int): Record
    requires env.head.Some?
  {
    match prev
    case None =>
      NewRecord(sender, env.head.value.uuid, now).(
        verifier := verifier,
        verifiedAt := if verifier != "" then Some(now) else None,
        status := Countersigned,
        envelope := Some(env))
    case Some(p) =>
      p.(uuid := env.head.value.uuid,
         receivedAt := now,
         verifier := verifier,
         status := Countersigned,
         envelope := Some(env),
         attempts := 0,
         lastError := "",
         lastAt := None,
         verifiedAt := if verifier == "" then None
                       else if p.verifiedAt.None? || verifier != p.verifier then Some(now)
                       else p.verifiedAt)
  }

  /** A delivery attempt begins: it is counted before its outcome is known. */
  function Attempted(rec: Record, now: int): Record {
    rec.(attempts := rec.attempts + 1, lastAt := Some(now))
  }

  /** A delivery attempt ends; `error` is None on success. */
  function WithOutcome(rec: Record, error: Option<string>): Record {
    match error
    case None => rec.(status := Delivered, lastError := "")
    case Some(e) => rec.(status := Failed, lastError := e)
  }

  /** The record of a re-verified registration, about to be delivered. */
  function Reverified(rec: Record, env: Envelope, verifier: Address, now: int): Record {
    Attempted(rec.(envelope := Some(env), verifier := verifier, verifiedAt := Some(now), status := Countersigned), now)
  }

  // ---- the record object ----------------------------------------------------------------------

  /** A caller's own copy of a record. */
  class Registration {
    var id: string
    var rev: string
    var address: Address
    var verifier: Address
    var status: Status
    var uuid: Uuid
    var receivedAt: int
    var envelope: Option<Envelope>
    var attempts: int
    var lastError: string
    var lastAt: Option<int>
    var verifiedAt: Option<int>

    function Value(): Record
      reads this
    {
      Record(id, rev, address, verifier, status, uuid, receivedAt, envelope, attempts, lastError, lastAt, verifiedAt)
    }

    constructor Copy(r: Record)
      ensures Value() == r
    {
      id, rev, address, verifier := r.id, r.rev, r.address, r.verifier;
      status, uuid, receivedAt, envelope := r.status, r.uuid, r.receivedAt, r.envelope;
      attempts, lastError, lastAt, verifiedAt := r.attempts, r.lastError, r.lastAt, r.verifiedAt;
    }

    /** A fresh record for an envelope just received. */
    constructor New(addr: Address, envUuid: Uuid, now: int)
      ensures Value() == NewRecord(addr, envUuid, now)
    {
      id, rev, address, verifier := DocId(addr), "", addr, "";
      status, uuid, receivedAt, envelope := Received, envUuid, now, None;
      attempts, lastError, lastAt, verifiedAt := 0, "", None, None;
    }
  }

  method Validate(reg: Registration?) returns (ok: bool)
    ensures ok <==> reg != null && Consistent(reg.Value())
    ensures ok <==> reg != null && reg.address != "" && reg.id == "registration:" + reg.address && reg.status != Blank
  {
    if reg == null { return false; }
    if reg.address == "" { return false; }
    if reg.id == "" { return false; }
    if reg.id != DocId(reg.address) { return false; }
    if reg.status == Blank { return false; }
    ok := true;
  }
}
