/** The service's operations as they run on their own against the in-memory store. What the network
    answers is passed in: the outcome of validating the envelope, of establishing its subject, of
    resolving the subject's public identity, of key lookups, of signing and of delivery. */
module Service {
  import opened Gobl
  import opened Derivation
  import opened Endorsement
  import opened EndorsementLaws
  import opened Records
  import opened Store
  import opened Protocol

  datatype Failure = ValidationFailed | Unauthorized | Forbidden | NotFound | TryLater | Internal

  datatype Party = Sender(address: Address) | PartyUnreachable | PartyMissing | PartyInvalid
  datatype Who = Resolved | WhoUnreachable | WhoRefused

  /** Why a registration is turned away, if it is: the first check that fails decides. */
  function Admission(cfg: Lookup, env: Envelope, valid: bool, party: Party, who: Who): Option<Failure> {
    if !valid then Some(ValidationFailed)
    else
      match party
      case PartyUnreachable => Some(TryLater)
      case PartyMissing => Some(ValidationFailed)
      case PartyInvalid => Some(Unauthorized)
      case Sender(_) =>
        if !OwnSignaturesHold(cfg, env) then Some(Unauthorized)
        else match who
             case Resolved => None
             case WhoUnreachable => Some(TryLater)
             case WhoRefused => Some(Forbidden)
  }

  /** What the environment contributes to an admitted registration or a verification. */
  datatype Surroundings = Surroundings(fetch: KeyOracle, sign: Signer, now: int, rev: string)

  /** The envelope an undisturbed registration endorses, and the record it writes over the stored one. */
  function EndorsedEnvelope(cfg: Lookup, d: Disk, addr: Address, env: Envelope, w: Surroundings): CounterSigned {
    var derived := Derive(cfg, w.fetch, w.now, env).verifier;
    Endorsed(cfg, w.sign, env, addr, ChosenVerifier(derived, ReadAt(d.records, addr), env), w.now)
  }

  function RegisteredRecord(cfg: Lookup, d: Disk, addr: Address, env: Envelope, w: Surroundings): Record
    requires EndorsedEnvelope(cfg, d, addr, env, w).env.head.Some?
  {
    var read := ReadAt(d.records, addr);
    var derived := Derive(cfg, w.fetch, w.now, env).verifier;
    Upserted(PreviousOf(read), addr, EndorsedEnvelope(cfg, d, addr, env, w).env,
             ChosenVerifier(derived, read, env), w.now)
  }

  function RegisterNote(cfg: Lookup, d: Disk, addr: Address, env: Envelope, w: Surroundings): Note {
    Note(ByRegister, Derive(cfg, w.fetch, w.now, env).verifier, Some(|VersionsOf(d, DocId(addr))|))
  }

  /** The re-verified record before its delivery, when there is a record, a verifier is derived from its
      envelope and signing succeeds. */
  function ReverifiedRecord(cfg: Lookup, read: Read, addr: Address, w: Surroundings): (rec: Option<Record>)
    ensures rec.Some? ==> rec.value.envelope.Some? && rec.value.lastAt == Some(w.now)
  {
    if !read.Saw? || read.record.envelope.None? then None
    else
      var verifier := Derive(cfg, w.fetch, w.now, read.record.envelope.value).verifier;
      if verifier == "" then None
      else
        var out := Endorsed(cfg, w.sign, read.record.envelope.value, addr, verifier, w.now);
        if out.ok then Some(Reverified(read.record, out.env, verifier, w.now)) else None
  }

  /** Which failure a verification reports. */
  ghost predicate Verification(cfg: Lookup, read: Read, addr: Address, w: Surroundings, error: Option<string>,
                               failure: Option<Failure>)
  {
    if !read.Saw? then failure == Some(NotFound)
    else if read.record.envelope.None? then failure == Some(ValidationFailed)
    else
      var derived := Derive(cfg, w.fetch, w.now, read.record.envelope.value);
      if derived.verifier == "" then failure == Some(if derived.unavailable then TryLater else ValidationFailed)
      else if ReverifiedRecord(cfg, read, addr, w).None? || error.Some? then failure == Some(Internal)
      else failure.None? || failure == Some(Internal)
  }

  lemma StoredUnderId(d: Disk, addr: Address)
    requires Chained(d)
    ensures DocId(addr) in d.records ==> d.records[DocId(addr)].id == DocId(addr)
  {
    if DocId(addr) in d.records {
      assert Chain(DocId(addr), d.history[DocId(addr)]) && EndsIn(d.history[DocId(addr)], d.records[DocId(addr)]);
    }
  }

  /** What a verification that was stored has left of the record of its address. */
  lemma VerifiedRecordStored(cfg: Lookup, before: Disk, after: Disk, addr: Address, w: Surroundings,
                             error: Option<string>, note: Note)
    requires Chained(before)
    requires ReverifiedRecord(cfg, ReadAt(before.records, addr), addr, w).Some?
    requires Wrote(before, after, WithOutcome(ReverifiedRecord(cfg, ReadAt(before.records, addr), addr, w).value, error),
                   w.rev, note, true)
    ensures DocId(addr) in before.records && DocId(addr) in after.records
    ensures var p, n := before.records[DocId(addr)], after.records[DocId(addr)];
            && p.envelope.Some? && n.envelope.Some?
            && n.verifiedAt == Some(w.now) && n.lastAt == Some(w.now) && n.attempts == p.attempts + 1
            && n.verifier == Derive(cfg, w.fetch, w.now, p.envelope.value).verifier != ""
            && n.receivedAt == p.receivedAt && n.uuid == p.uuid && n.address == p.address && n.rev == w.rev
            && n.status == (if error.Some? then Failed else Delivered)
            && (error.Some? ==> n.lastError == error.value) && (error.None? ==> n.lastError == "")
  {
    StoredUnderId(before, addr);
    hide Chained, Derive, Endorsed;
  }

  class Registrations {
    const cfg: Lookup
    const store: MemoryRegistrations
    /** Every delivery attempted so far. */
    ghost var sends: seq<Sending>

    constructor (cfg: Lookup, store: MemoryRegistrations)
      ensures this.cfg == cfg && this.store == store && sends == []
    {
      this.cfg, this.store, sends := cfg, store, [];
    }

    method RenewalVerifier(addr: Address, env: Envelope) returns (verifier: Address, renewal: bool)
      ensures (verifier, renewal) == Renewal(ReadAt(store.records, addr), env)
      ensures renewal <==>
              && "registration:" + addr in store.records
              && var stored := store.records["registration:" + addr].envelope;
                 && stored.Some? && stored.value.head.Some? && env.head.Some?
                 && stored.value.head.value.digest.Some? && stored.value.head.value.digest == env.head.value.digest
      ensures verifier == if renewal then store.records["registration:" + addr].verifier else ""
    {
      var prev := store.Get(addr);
      if prev == null || prev.envelope.None? || !SameDigest(prev.envelope.value, env) {
        return "", false;
      }
      return prev.verifier, true;
    }

    /** The first record of an address. */
    method Create(addr: Address, env: Envelope, verifier: Address, now: int) returns (r: Registration)
      requires env.head.Some?
      ensures fresh(r) && r.Value() == Upserted(None, addr, env, verifier, now)
    {
      r := new Registration.New(addr, env.head.value.uuid, now);
      r.verifier := verifier;
      if verifier != "" {
        r.verifiedAt := Some(now);
      }
      r.status := Countersigned;
      r.envelope := Some(env);
    }

    /** Starts an existing record over with a new envelope; the verification timestamp follows the
        verifier. */
    method Restart(prev: Registration, env: Envelope, verifier: Address, now: int)
      requires env.head.Some?
      modifies prev
      ensures prev.Value() == Upserted(Some(old(prev.Value())), old(prev.address), env, verifier, now)
    {
      var prevVerifier := prev.verifier;
      prev.uuid := env.head.value.uuid;
      prev.receivedAt := now;
      prev.verifier := verifier;
      prev.status := Countersigned;
      prev.envelope := Some(env);
      prev.attempts := 0;
      prev.lastError := "";
      prev.lastAt := None;
      if verifier == "" {
        prev.verifiedAt := None;
      } else if prev.verifiedAt.None? || verifier != prevVerifier {
        prev.verifiedAt := Some(now);
      }
    }

    /** Reads the stored record, if any, and writes the registration over it. */
    method Upsert(addr: Address, env: Envelope, verifier: Address, now: int, rev: string, ghost note: Note)
      returns (rec: Registration?)
      requires store.Valid() && rev != "" && env.head.Some?
      modifies store
      ensures store.Valid()
      ensures var wanted := Upserted(PreviousOf(ReadAt(old(store.records), addr)), addr, env, verifier, now);
              && Wrote(old(store.Contents()), store.Contents(), wanted, rev, note, rec != null)
              && (rec != null ==> fresh(rec) && rec.Value() == wanted.(rev := rev))
      ensures rec != null ==>
                && rec.rev == rev && rec.uuid == env.head.value.uuid && rec.envelope == Some(env)
                && rec.receivedAt == now && rec.verifier == verifier
                && rec.status == Countersigned && rec.attempts == 0 && rec.lastError == "" && rec.lastAt == None
                && store.records == old(store.records)["registration:" + addr := rec.Value()]
      ensures rec != null && "registration:" + addr !in old(store.records) ==>
                rec.address == addr && rec.verifiedAt == if verifier == "" then None else Some(now)
      ensures rec != null && "registration:" + addr in old(store.records) ==>
                var p := old(store.records)["registration:" + addr];
                && rec.address == p.address
                && rec.verifiedAt == (if verifier == "" then None
                                      else if p.verifiedAt.Some? && p.verifier == verifier then p.verifiedAt
                                      else Some(now))
    {
      assert DocId(addr) in store.records ==> store.records[DocId(addr)].id == DocId(addr) by {
        StoredUnderId(store.Contents(), addr);
      }
      hide Chained, Wrote;
      var prev := store.Get(addr);
      if prev == null {
        prev := Create(addr, env, verifier, now);
      } else {
        Restart(prev, env, verifier, now);
      }
      var res := store.Put(prev, rev, note);
      rec := if res.Stored? then prev else null;
    }

    /** Registers an envelope. A rejected one touches nothing; an accepted one is endorsed in place,
        stored, and handed to a delivery that works on a copy of its own. */
    method Register(env: EnvelopeObject, valid: bool, party: Party, who: Who, w: Surroundings)
      returns (failure: Option<Failure>, rec: Registration?, job: Registration?)
      requires WellFormed(cfg) && store.Valid() && w.rev != ""
      requires valid ==> env.head.Some?
      modifies store, env
      ensures store.Valid()
      ensures var admission := Admission(cfg, old(env.Value()), valid, party, who);
              if admission.Some? then failure == admission && unchanged(store) && unchanged(env)
              else
                var out := EndorsedEnvelope(cfg, old(store.Contents()), party.address, old(env.Value()), w);
                && env.Value() == out.env
                && (failure.Some? ==> failure == Some(Internal))
                && (if !out.ok then failure.Some? && unchanged(store)
                    else
                      && out.env.head.Some?
                      && Wrote(old(store.Contents()), store.Contents(),
                               RegisteredRecord(cfg, old(store.Contents()), party.address, old(env.Value()), w), w.rev,
                               RegisterNote(cfg, old(store.Contents()), party.address, old(env.Value()), w), failure.None?)
                      && (rec != null ==>
                            rec.Value() ==
                            RegisteredRecord(cfg, old(store.Contents()), party.address, old(env.Value()), w).(rev := w.rev)))
      ensures failure.None? || !unchanged(store) || !unchanged(env) ==>
                && valid && party.Sender? && who.Resolved?
                && forall sig :: sig in old(env.signatures) && sig.payload.Some?
                                 && cfg.parseAddress(sig.payload.value.iss) == Some(cfg.self) ==>
                     exists k :: k in cfg.publicKeys && k.kid == sig.kid && cfg.verifies(SealOf(old(env.Value())), sig, k)
      ensures var own := OwnSignaturesHold(cfg, old(env.Value()));
              && (failure == Some(ValidationFailed) <==> !valid || party.PartyMissing?)
              && (failure == Some(Unauthorized) <==> valid && (party.PartyInvalid? || (party.Sender? && !own)))
              && (failure == Some(TryLater) <==>
                    valid && (party.PartyUnreachable? || (party.Sender? && own && who.WhoUnreachable?)))
              && (failure == Some(Forbidden) <==> valid && party.Sender? && own && who.WhoRefused?)
              && (failure == Some(Internal) ==> valid && party.Sender? && own && who.Resolved?)
              && failure != Some(NotFound)
      ensures rec != null ==>
                && party.Sender? && rec.envelope == Some(env.Value()) && rec.receivedAt == w.now && rec.rev == w.rev
                && rec.status == Countersigned && rec.attempts == 0 && rec.lastError == "" && rec.lastAt == None
                && var derived := Derive(cfg, w.fetch, w.now, old(env.Value())).verifier;
                   var id := "registration:" + party.address;
                   rec.verifier ==
                     if derived != "" then derived
                     else if id in old(store.records) && old(store.records)[id].envelope.Some?
                             && SameDigest(old(store.records)[id].envelope.value, old(env.Value()))
                     then old(store.records)[id].verifier else ""
      ensures failure.None? <==> rec != null
      ensures rec != null ==> fresh(rec) && job != null && fresh(job) && job != rec && job.Value() == rec.Value()
    {
      hide Chained, Wrote, WellFormed, Derive, Conforms;
      rec, job := null, null;
      if !valid { return Some(ValidationFailed), null, null; }
      match party {
        case PartyUnreachable => return Some(TryLater), null, null;
        case PartyMissing => return Some(ValidationFailed), null, null;
        case PartyInvalid => return Some(Unauthorized), null, null;
        case Sender(_) =>
      }
      var addr := party.address;
      var own := VerifyOwnSignatures(cfg, env.Value());
      if !own { return Some(Unauthorized), null, null; }
      match who {
        case WhoUnreachable => return Some(TryLater), null, null;
        case WhoRefused => return Some(Forbidden), null, null;
        case Resolved =>
      }
      ghost var incoming := env.Value();
      var verifier, renewal := RenewalVerifier(addr, env.Value());
      var derived := AcceptedVerifier(cfg, w.fetch, w.now, env.Value());
      if derived.verifier != "" {
        verifier := derived.verifier;
      }
      StampDiscoveryLink(cfg, env);
      var ok := CounterSign(cfg, w.sign, env, addr, verifier, w.now);
      if !ok { return Some(Internal), null, null; }
      assert CounterSigned(env.Value(), ok) == EndorsedEnvelope(cfg, store.Contents(), addr, incoming, w);
      rec := Upsert(addr, env.Value(), verifier, w.now, w.rev, RegisterNote(cfg, store.Contents(), addr, incoming, w));
      if rec == null { return Some(Internal), null, null; }
      job := new Registration.Copy(rec.Value());
      failure := None;
    }

    /** Delivers an endorsed envelope and records the outcome, unless the record has moved on. */
    method DeliverAsync(addr: Address, env: Envelope, rec: Registration, error: Option<string>, now: int, rev: string)
      returns (ghost stored: bool)
      requires store.Valid() && rev != ""
      modifies this`sends, store, rec
      ensures store.Valid()
      ensures sends == old(sends) + [Sending(old(rec.rev), addr, env, error, now)]
      ensures Wrote(old(store.Contents()), store.Contents(), WithOutcome(Attempted(old(rec.Value()), now), error), rev,
                    Note(ByDelivery, "", None), stored)
      ensures stored ==>
                store.records ==
                old(store.records)[old(rec.id) :=
                  old(rec.Value()).(rev := rev, attempts := old(rec.attempts) + 1, lastAt := Some(now),
                                    status := if error.Some? then Failed else Delivered,
                                    lastError := if error.Some? then error.value else "")]
    {
      hide Chained, Wrote;
      rec.attempts := rec.attempts + 1;
      rec.lastAt := Some(now);
      sends := sends + [Sending(rec.rev, addr, env, error, now)];
      match error {
        case Some(e) =>
          rec.status := Failed;
          rec.lastError := e;
        case None =>
          rec.status := Delivered;
          rec.lastError := "";
      }
      var res := store.Put(rec, rev, Note(ByDelivery, "", None));
      stored := res.Stored?;
    }

    /** Delivers a re-verified record and stores it with the outcome. */
    method SendVerified(addr: Address, rec: Registration, error: Option<string>, rev: string) returns (stored: bool)
      requires store.Valid() && rev != "" && rec.envelope.Some? && rec.lastAt.Some?
      modifies this`sends, store, rec
      ensures store.Valid()
      ensures sends == old(sends) + [Sending(old(rec.rev), addr, old(rec.envelope).value, error, old(rec.lastAt).value)]
      ensures Wrote(old(store.Contents()), store.Contents(), WithOutcome(old(rec.Value()), error), rev,
                    Note(ByVerify, old(rec.verifier), None), stored)
      ensures stored ==> rec.Value() == WithOutcome(old(rec.Value()), error).(rev := rev)
    {
      hide Chained, Wrote;
      ghost var note := Note(ByVerify, rec.verifier, None);
      sends := sends + [Sending(rec.rev, addr, rec.envelope.value, error, rec.lastAt.value)];
      if error.Some? {
        rec.status := Failed;
        rec.lastError := error.value;
      } else {
        rec.status := Delivered;
        rec.lastError := "";
      }
      var res := store.Put(rec, rev, note);
      stored := res.Stored?;
    }

    /** Notes the re-verification on the record, the coming delivery attempt included. */
    method Reverify(rec: Registration, env: Envelope, verifier: Address, now: int)
      modifies rec
      ensures rec.Value() == Reverified(old(rec.Value()), env, verifier, now)
    {
      rec.envelope := Some(env);
      rec.verifier := verifier;
      rec.verifiedAt := Some(now);
      rec.status := Countersigned;
      rec.attempts := rec.attempts + 1;
      rec.lastAt := Some(now);
    }

    /** Re-derives the verifier of a stored registration and re-endorses its envelope, on a copy that is
        ready to be sent. */
    method Reendorse(addr: Address, w: Surroundings) returns (failure: Option<Failure>, rec: Registration?)
      requires WellFormed(cfg)
      ensures var sent := ReverifiedRecord(cfg, ReadAt(store.records, addr), addr, w);
              && (failure.None? <==> sent.Some?)
              && (failure.None? ==> rec != null && fresh(rec) && rec.Value() == sent.value)
      ensures failure.Some? ==> forall error :: Verification(cfg, ReadAt(store.records, addr), addr, w, error, failure)
      ensures var known := "registration:" + addr in store.records;
              var env := if known then store.records["registration:" + addr].envelope else None;
              && (failure == Some(NotFound) <==> !known)
              && (failure == Some(TryLater) <==> env.Some? && Derive(cfg, w.fetch, w.now, env.value).unavailable)
              && (failure == Some(ValidationFailed) <==>
                    known && (env.None? || (Derive(cfg, w.fetch, w.now, env.value).verifier == ""
                                            && !Derive(cfg, w.fetch, w.now, env.value).unavailable)))
              && failure != Some(Unauthorized) && failure != Some(Forbidden)
    {
      hide WellFormed, Derive, Conforms, CounterSignValue, Stamped, ThirdParty;
      rec := store.Get(addr);
      if rec == null { return Some(NotFound), null; }
      if rec.envelope.None? { return Some(ValidationFailed), null; }
      var env := new EnvelopeObject(rec.envelope.value);
      var derived := AcceptedVerifier(cfg, w.fetch, w.now, env.Value());
      if derived.verifier == "" {
        return Some(if derived.unavailable then TryLater else ValidationFailed), null;
      }
      StampDiscoveryLink(cfg, env);
      var ok := CounterSign(cfg, w.sign, env, addr, derived.verifier, w.now);
      if !ok { return Some(Internal), null; }
      Reverify(rec, env.Value(), derived.verifier, w.now);
      failure := None;
    }

    /** Re-derives the verifier of a stored registration, re-endorses its envelope and delivers it. */
    method Verify(addr: Address, w: Surroundings, error: Option<string>)
      returns (failure: Option<Failure>, rec: Registration?, ghost stored: bool)
      requires WellFormed(cfg) && store.Valid() && w.rev != ""
      modifies this`sends, store
      ensures store.Valid()
      ensures Verification(cfg, ReadAt(old(store.records), addr), addr, w, error, failure)
      ensures failure.None? ==> rec != null
      ensures var sent := ReverifiedRecord(cfg, ReadAt(old(store.records), addr), addr, w);
              if sent.None? then unchanged(store) && sends == old(sends)
              else
                && sends == old(sends) + [Sending(sent.value.rev, addr, sent.value.envelope.value, error, w.now)]
                && (failure.None? <==> error.None? && stored)
                && Wrote(old(store.Contents()), store.Contents(), WithOutcome(sent.value, error), w.rev,
                         Note(ByVerify, sent.value.verifier, None), stored)
                && (failure.None? ==> rec.Value() == WithOutcome(sent.value, error).(rev := w.rev))
      ensures stored ==>
                && "registration:" + addr in old(store.records) && "registration:" + addr in store.records
                && var p, n := old(store.records)["registration:" + addr], store.records["registration:" + addr];
                   && p.envelope.Some? && n.envelope.Some?
                   && n.verifiedAt == Some(w.now) && n.lastAt == Some(w.now) && n.attempts == p.attempts + 1
                   && n.verifier == Derive(cfg, w.fetch, w.now, p.envelope.value).verifier != ""
                   && n.receivedAt == p.receivedAt && n.uuid == p.uuid && n.address == p.address && n.rev == w.rev
                   && n.status == (if error.Some? then Failed else Delivered)
                   && (error.Some? ==> n.lastError == error.value) && (error.None? ==> n.lastError == "")
      ensures var known := "registration:" + addr in old(store.records);
              var env := if known then old(store.records)["registration:" + addr].envelope else None;
              && (failure == Some(NotFound) <==> !known)
              && (failure == Some(TryLater) <==> env.Some? && Derive(cfg, w.fetch, w.now, env.value).unavailable)
              && (failure == Some(ValidationFailed) <==>
                    known && (env.None? || (Derive(cfg, w.fetch, w.now, env.value).verifier == ""
                                            && !Derive(cfg, w.fetch, w.now, env.value).unavailable)))
              && failure != Some(Unauthorized) && failure != Some(Forbidden)
    {
      ghost var before := store.Contents();
      ghost var sent := ReverifiedRecord(cfg, ReadAt(store.records, addr), addr, w);
      hide Chained, Wrote, WellFormed, Derive, Endorsed, Reverified, WithOutcome;
      stored := false;
      failure, rec := Reendorse(addr, w);
      if failure.Some? { return failure, null, false; }
      var written := SendVerified(addr, rec, error, w.rev);
      stored := written;
      if written {
        VerifiedRecordStored(cfg, before, store.Contents(), addr, w, error, Note(ByVerify, sent.value.verifier, None));
      }
      failure := if error.Some? || !written then Some(Internal) else None;
    }

    /** Resolves a public key: an envelope UUID if it parses as one, else an address. */
    method Find(key: string) returns (found: Option<Record>)
      ensures FoundFor(cfg, store.records, key, found)
      ensures cfg.parseUuid(key).Some? && found.Some? ==>
                && (exists k :: k in store.records && store.records[k] == found.value)
                && cfg.uuidString(found.value.uuid) == cfg.uuidString(cfg.parseUuid(key).value)
      ensures cfg.parseUuid(key).Some? && found.None? ==>
                forall k :: k in store.records ==>
                  cfg.uuidString(store.records[k].uuid) != cfg.uuidString(cfg.parseUuid(key).value)
      ensures cfg.parseUuid(key).None? && cfg.parseAddress(key).Some? ==>
                var id := "registration:" + cfg.parseAddress(key).value;
                found == if id in store.records then Some(store.records[id]) else None
      ensures cfg.parseUuid(key).None? && cfg.parseAddress(key).None? ==> found.None?
    {
      var id := cfg.parseUuid(key);
      if id.Some? {
        found := store.GetByUUID(cfg, id.value);
        return;
      }
      var addr := cfg.parseAddress(key);
      if addr.None? { return None; }
      var rec := store.Get(addr.value);
      if rec == null { return None; }
      return Some(rec.Value());
    }
  }

  /** What looking up `key` may answer. */
  ghost predicate FoundFor(cfg: Lookup, records: map<string, Record>, key: string, found: Option<Record>) {
    var id, addr := cfg.parseUuid(key), cfg.parseAddress(key);
    if id.Some? then
      if found.Some?
      then (exists k :: k in records && records[k] == found.value)
           && cfg.uuidString(found.value.uuid) == cfg.uuidString(id.value)
      else forall k :: k in records ==> cfg.uuidString(records[k].uuid) != cfg.uuidString(id.value)
    else if addr.Some? && DocId(addr.value) in records then found == Some(records[DocId(addr.value)])
    else found.None?
  }
}
