/** The revision-checked in-memory store, with the history of committed versions of each record. */
module Store {
  import opened Gobl
  import opened Records

  datatype Writer = ByRegister | ByVerify | ByDelivery

  /** Who wrote a version; for a registration or verification also which verifier was derived from its
      envelope ("" for none); and for a registration how many versions of the record there were when it
      first read it (None if that read failed). */
  datatype Note = Note(writer: Writer, derived: Address, seen: Option<nat>)

  /** A committed version, with the revision its writer had read ("" for none). */
  datatype Version = Version(readRev: string, record: Record, note: Note)

  datatype Disk = Disk(records: map<string, Record>, history: map<string, seq<Version>>)

  const EMPTY_DISK := Disk(map[], map[])

  /** All committed versions of a record, oldest first. */
  function VersionsOf(d: Disk, id: string): seq<Version> {
    if id in d.history then d.history[id] else []
  }

  /** A write is accepted when the record is well-formed and its revision is the stored one. */
  predicate Accepts(records: map<string, Record>, reg: Record) {
    && Consistent(reg)
    && (if reg.id in records then reg.rev == records[reg.id].rev else reg.rev == "")
  }

  function Written(d: Disk, reg: Record, rev: string, note: Note): Disk {
    var stored := reg.(rev := rev);
    Disk(d.records[reg.id := stored], d.history[reg.id := VersionsOf(d, reg.id) + [Version(reg.rev, stored, note)]])
  }

  // ---- version chains -------------------------------------------------------------------------

  ghost predicate Chain(id: string, h: seq<Version>) {
    && |h| > 0
    && (forall i :: 0 <= i < |h| ==> h[i].record.id == id && h[i].record.rev != "" && Consistent(h[i].record))
    && h[0].readRev == ""
    && (forall i, j :: 0 <= i < |h| && 0 <= j < |h| && j == i + 1 ==> h[j].readRev == h[i].record.rev)
  }

  ghost predicate EndsIn(h: seq<Version>, r: Record) {
    h != [] && h[|h| - 1].record == r
  }

  /** Each record is the last version of its history, and each version was written over its
      immediate predecessor. */
  ghost predicate Chained(d: Disk) {
    && d.records.Keys == d.history.Keys
    && forall id :: id in d.history ==> Chain(id, d.history[id]) && EndsIn(d.history[id], d.records[id])
  }

  ghost predicate DistinctRevisions(h: seq<Version>) {
    forall i, j :: 0 <= i < j < |h| ==> h[i].record.rev != h[j].record.rev
  }

  ghost predicate FreshRevision(d: Disk, rev: string) {
    && rev != ""
    && forall id, i :: id in d.history && 0 <= i < |d.history[id]| ==> d.history[id][i].record.rev != rev
  }

  ghost predicate NeverReused(d: Disk) {
    forall id :: id in d.history ==> DistinctRevisions(d.history[id])
  }

  lemma AppendKeepsChain(id: string, h: seq<Version>, v: Version)
    requires h == [] || Chain(id, h)
    requires v.record.id == id && v.record.rev != "" && Consistent(v.record)
    requires v.readRev == if h == [] then "" else h[|h| - 1].record.rev
    ensures Chain(id, h + [v]) && EndsIn(h + [v], v.record)
  {}

  lemma WrittenKeepsChained(d: Disk, reg: Record, rev: string, note: Note)
    requires Chained(d) && Accepts(d.records, reg) && rev != ""
    ensures Chained(Written(d, reg, rev, note))
  {
    var v := Version(reg.rev, reg.(rev := rev), note);
    var h := VersionsOf(d, reg.id);
    if reg.id in d.history {
      assert Chain(reg.id, h) && EndsIn(h, d.records[reg.id]);
    }
    AppendKeepsChain(reg.id, h, v);
    hide Chain, EndsIn, Consistent, Accepts;
  }

  lemma WrittenKeepsDistinct(d: Disk, reg: Record, rev: string, note: Note)
    requires NeverReused(d) && FreshRevision(d, rev)
    ensures NeverReused(Written(d, reg, rev, note))
  {}

  lemma WrittenExtendsChain(d: Disk, reg: Record, rev: string, note: Note)
    requires Chained(d) && Accepts(d.records, reg) && rev != ""
    ensures Chained(Written(d, reg, rev, note))
    ensures NeverReused(d) && FreshRevision(d, rev) ==> NeverReused(Written(d, reg, rev, note))
  {
    hide NeverReused, Chained, FreshRevision;
    WrittenKeepsChained(d, reg, rev, note);
    if NeverReused(d) && FreshRevision(d, rev) {
      WrittenKeepsDistinct(d, reg, rev, note);
    }
  }

  /** One attempted write, with the revision the store would assign it. */
  datatype Request = Request(reg: Record, rev: string, note: Note)

  function Attempt(d: Disk, q: Request): Disk {
    if Accepts(d.records, q.reg) then Written(d, q.reg, q.rev, q.note) else d
  }

  function AttemptAll(d: Disk, qs: seq<Request>): Disk {
    if qs == [] then d else Attempt(AttemptAll(d, qs[..|qs| - 1]), qs[|qs| - 1])
  }

  ghost predicate AllFresh(d: Disk, qs: seq<Request>) {
    forall i :: 0 <= i < |qs| ==> FreshRevision(AttemptAll(d, qs[..i]), qs[i].rev)
  }

  lemma AllFreshPrefix(d: Disk, qs: seq<Request>)
    requires AllFresh(d, qs) && qs != []
    ensures AllFresh(d, qs[..|qs| - 1])
  {
    var front := qs[..|qs| - 1];
    forall i | 0 <= i < |front|
      ensures FreshRevision(AttemptAll(d, front[..i]), front[i].rev)
    {
      assert front[..i] == qs[..i];
    }
  }

  ghost predicate HistoryGrows(d: Disk, d': Disk) {
    forall id :: id in d.records ==> id in d'.records && VersionsOf(d, id) <= VersionsOf(d', id)
  }

  lemma AttemptKeepsHistory(d: Disk, q: Request)
    requires Chained(d) && NeverReused(d) && FreshRevision(d, q.rev)
    ensures Chained(Attempt(d, q)) && NeverReused(Attempt(d, q)) && HistoryGrows(d, Attempt(d, q))
  {
    if Accepts(d.records, q.reg) {
      WrittenExtendsChain(d, q.reg, q.rev, q.note);
    }
  }

  /** Whatever writes are attempted, in any order and from any copies: histories stay chains without a
      reused revision, they only ever grow at the end, and no record vanishes. */
  lemma {:induction false} AnyWritesKeepHistory(d: Disk, qs: seq<Request>)
    requires Chained(d) && NeverReused(d) && AllFresh(d, qs)
    ensures var d' := AttemptAll(d, qs);
            Chained(d') && NeverReused(d') && HistoryGrows(d, d')
    decreases |qs|
  {
    if qs != [] {
      var n := |qs| - 1;
      var front := qs[..n];
      AllFreshPrefix(d, qs);
      AnyWritesKeepHistory(d, front);
      AttemptKeepsHistory(AttemptAll(d, front), qs[n]);
    }
  }

  /** A copy of the i-th version can be written back exactly when that version is still the latest. */
  lemma OnlyLatestCopyAccepted(d: Disk, id: string, i: nat, reg: Record)
    requires Chained(d) && NeverReused(d) && id in d.history && i < |d.history[id]|
    requires Consistent(reg) && reg.id == id && reg.rev == d.history[id][i].record.rev
    ensures Accepts(d.records, reg) <==> i == |d.history[id]| - 1
  {}

  /** No lost update and no ABA: a copy taken before any number of attempted writes can be written back
      exactly when none of them touched the record. */
  lemma CopyAcceptedIffUntouched(d: Disk, qs: seq<Request>, id: string, reg: Record)
    requires Chained(d) && NeverReused(d) && AllFresh(d, qs)
    requires id in d.records && Consistent(reg) && reg.id == id && reg.rev == d.records[id].rev
    ensures Accepts(AttemptAll(d, qs).records, reg) <==> VersionsOf(AttemptAll(d, qs), id) == VersionsOf(d, id)
  {
    AnyWritesKeepHistory(d, qs);
    var h := d.history[id];
    assert EndsIn(h, d.records[id]);
    OnlyLatestCopyAccepted(AttemptAll(d, qs), id, |h| - 1, reg);
  }

  /** How many of the attempted writes were made without having read a record, and accepted. */
  function Creations(d: Disk, qs: seq<Request>, id: string): nat {
    if qs == [] then 0
    else
      var front, q := qs[..|qs| - 1], qs[|qs| - 1];
      var creates := q.reg.id == id && q.reg.rev == "" && Accepts(AttemptAll(d, front).records, q.reg);
      Creations(d, front, id) + if creates then 1 else 0
  }

  /** A record is created at most once, however many writers found none: of all attempted writes that had
      read no record exactly one is accepted if the record comes into being, and none otherwise. */
  lemma {:induction false} CreatedOnce(d: Disk, qs: seq<Request>, id: string)
    requires Chained(d) && NeverReused(d) && AllFresh(d, qs)
    ensures Creations(d, qs, id) == if id !in d.records && id in AttemptAll(d, qs).records then 1 else 0
    decreases |qs|
  {
    if qs != [] {
      var n := |qs| - 1;
      var front := qs[..n];
      AllFreshPrefix(d, qs);
      CreatedOnce(d, front, id);
      AnyWritesKeepHistory(d, front);
      if id in AttemptAll(d, front).records { StoredRevision(AttemptAll(d, front), id); }
      hide Chained, NeverReused, FreshRevision, HistoryGrows;
    }
  }

  lemma StoredRevision(d: Disk, id: string)
    requires Chained(d) && id in d.records
    ensures d.records[id].rev != ""
  {
    assert Chain(id, d.history[id]) && EndsIn(d.history[id], d.records[id]);
  }

  /** The effect of trying to write `reg`: it is stored if it is acceptable, and nothing changes if not. */
  ghost predicate Wrote(before: Disk, after: Disk, reg: Record, rev: string, note: Note, stored: bool) {
    && (stored <==> Accepts(before.records, reg))
    && after == if stored then Written(before, reg, rev, note) else before
  }

  // ---- the store object -----------------------------------------------------------------------

  datatype PutResult = Stored | Invalid | Conflict

  class MemoryRegistrations {
    var records: map<string, Record>
    ghost var history: map<string, seq<Version>>

    ghost function Contents(): Disk
      reads this
    {
      Disk(records, history)
    }

    ghost predicate Valid()
      reads this
    {
      Chained(Contents())
    }

    constructor ()
      ensures Valid() && Contents() == EMPTY_DISK
    {
      records := map[];
      history := map[];
    }

    /** Writes the record if the caller's revision is current; `newRev` is the random revision the
        write would be given. On success the caller's copy learns the new revision; on failure
        neither the store nor the copy changes. */
    method Put(reg: Registration?, newRev: string, ghost note: Note) returns (res: PutResult)
      requires Valid() && newRev != ""
      modifies this, if reg != null then {reg} else {}
      ensures Valid()
      ensures res.Invalid? <==> reg == null || !Consistent(old(reg.Value()))
      ensures reg != null ==> Wrote(old(Contents()), Contents(), old(reg.Value()), newRev, note, res.Stored?)
      ensures res.Conflict? <==>
              && reg != null && Consistent(old(reg.Value()))
              && old(reg.rev) != (if old(reg.id) in old(records) then old(records)[old(reg.id)].rev else "")
      ensures res.Stored? ==> reg.Value() == old(reg.Value()).(rev := newRev)
      ensures res.Stored? ==> records == old(records)[old(reg.id) := old(reg.Value()).(rev := newRev)]
      ensures !res.Stored? ==> unchanged(this) && (reg != null ==> unchanged(reg))
    {
      hide Chained, NeverReused, FreshRevision;
      var valid := Validate(reg);
      if !valid { return Invalid; }
      if reg.id in records {
        if reg.rev != records[reg.id].rev { return Conflict; }
      } else if reg.rev != "" {
        return Conflict;
      }
      ghost var was, before := reg.Value(), Contents();
      WrittenExtendsChain(before, was, newRev, note);
      reg.rev := newRev;
      records := records[reg.id := reg.Value()];
      history := Written(before, was, newRev, note).history;
      res := Stored;
    }

    /** A private copy of the record for an address, or null. */
    method Get(address: Address) returns (reg: Registration?)
      ensures reg == null <==> DocId(address) !in records
      ensures reg != null ==> fresh(reg) && reg.Value() == records[DocId(address)]
    {
      if DocId(address) !in records { return null; }
      reg := new Registration.Copy(records[DocId(address)]);
    }

    /** Some record whose envelope UUID prints like `id`, if there is one. */
    method GetByUUID(cfg: Lookup, id: Uuid) returns (found: Option<Record>)
      ensures found.Some? ==> exists k :: k in records && records[k] == found.value
      ensures found.Some? ==> cfg.uuidString(found.value.uuid) == cfg.uuidString(id)
      ensures found.None? ==> forall k :: k in records ==> cfg.uuidString(records[k].uuid) != cfg.uuidString(id)
    {
      var target := cfg.uuidString(id);
      var rest := records.Keys;
      while rest != {}
        invariant rest <= records.Keys
        invariant forall k :: k in records && k !in rest ==> cfg.uuidString(records[k].uuid) != target
        decreases |rest|
      {
        var k :| k in rest;
        if cfg.uuidString(records[k].uuid) == target {
          return Some(records[k]);
        }
        rest := rest - {k};
      }
      found := None;
    }
  }
}
