/** No registration is left stranded: what is countersigned is owed a delivery, operations run out of
    steps, and until they do some step can be taken. */
module Liveness {
  import opened Gobl
  import opened Endorsement
  import opened Records
  import opened Store
  import opened Protocol
  import opened Invariant
  import opened Guarantees

  // ---- every countersigned record is owed a delivery ------------------------------------------

  ghost predicate Owed(s: State, r: Record) {
    (r.id, r.rev) in s.lost || exists i :: 0 <= i < |s.ops| && Owes(s.ops[i]) == Some((r.id, r.rev))
  }

  ghost predicate NoneStranded(s: State) {
    forall id :: id in s.disk.records && s.disk.records[id].status.Countersigned? ==> Owed(s, s.disk.records[id])
  }

  /** The record stays owed if the operation that owed it still does, or left it to the lost. */
  lemma OwedKept(s: State, t: State, r: Record, i: nat)
    requires Owed(s, r) && i < |s.ops| <= |t.ops| && s.lost <= t.lost
    requires forall j :: 0 <= j < |s.ops| && j != i ==> t.ops[j] == s.ops[j]
    requires Owes(s.ops[i]) == Some((r.id, r.rev)) ==> Owed(t, r)
    ensures Owed(t, r)
  {}

  /** Steps other than a write pass the debt on, within the operation or to the one it spawns. */
  lemma DebtPassedOn(cfg: Lookup, s: State, l: Label, r: Record)
    requires Enabled(cfg, s, l) && Owed(s, r) && !l.PutStep?
    ensures Owed(Apply(cfg, s, l), r)
  {
    var t := Apply(cfg, s, l);
    if l.StartRegister? || l.StartVerify? {
      if (r.id, r.rev) !in s.lost {
        var j :| 0 <= j < |s.ops| && Owes(s.ops[j]) == Some((r.id, r.rev));
        assert Owes(t.ops[j]) == Some((r.id, r.rev));
      }
    } else {
      if Owes(s.ops[l.i]) == Some((r.id, r.rev)) {
        if l.SpawnStep? {
          assert Owes(t.ops[|s.ops|]) == Some((r.id, r.rev));
        } else if !l.Crash? && !l.ExpireStep? {
          assert Owes(t.ops[l.i]) == Some((r.id, r.rev));
        }
      }
      OwedKept(s, t, r, l.i);
    }
  }

  /** A record that a write leaves in place was owed nothing by the writer, or is given up as lost. */
  lemma DebtSurvivesWrite(cfg: Lookup, s: State, i: nat, rev: string, failed: bool, id: string)
    requires Inv(cfg, s) && Enabled(cfg, s, PutStep(i, rev, failed))
    requires id in s.disk.records && Owed(s, s.disk.records[id])
    requires !failed && Accepts(s.disk.records, s.ops[i].rec) ==> s.ops[i].rec.id != id
    ensures Owed(Apply(cfg, s, PutStep(i, rev, failed)), s.disk.records[id])
  {
    var r := s.disk.records[id];
    if !failed && Owes(s.ops[i]) == Some((r.id, r.rev)) {
      OwedWriteLands(cfg, s, i, id);
    }
    hide Inv, Accepts, Consistent;
    OwedKept(s, Apply(cfg, s, PutStep(i, rev, failed)), r, i);
  }

  /** A write that lands leaves the new version owed if it is countersigned. */
  lemma DebtFromWrite(cfg: Lookup, s: State, i: nat, rev: string)
    requires Inv(cfg, s) && Enabled(cfg, s, PutStep(i, rev, false)) && Accepts(s.disk.records, s.ops[i].rec)
    ensures var r := s.ops[i].rec.(rev := rev);
            r.status.Countersigned? ==> Owed(Apply(cfg, s, PutStep(i, rev, false)), r)
  {
    var op := s.ops[i];
    assert GoodCommit(cfg, s.logs, s.disk, op.base, op.rec, op.note);
    CountersignedByRegister(cfg, s.logs, op.base, op.rec, op.note);
    hide Inv, GoodCommit, Accepts;
    if op.rec.status.Countersigned? {
      assert Owes(Apply(cfg, s, PutStep(i, rev, false)).ops[i]) == Some((op.rec.id, rev));
    }
  }

  lemma CountersignedByRegister(cfg: Lookup, logs: Logs, base: Option<Record>, rec: Record, note: Note)
    requires GoodVersion(cfg, logs, base, rec.rev, rec, note)
    ensures rec.status.Countersigned? <==> note.writer == ByRegister
    ensures note.writer == ByDelivery ==> base.Some? && rec.id == base.value.id && Consistent(rec)
  {}

  lemma OwedWriteLands(cfg: Lookup, s: State, i: nat, id: string)
    requires Inv(cfg, s) && i < |s.ops| && s.ops[i].Committing? && id in s.disk.records
    requires Owes(s.ops[i]) == Some((s.disk.records[id].id, s.disk.records[id].rev))
    ensures Accepts(s.disk.records, s.ops[i].rec) && s.ops[i].rec.id == id
  {}

  lemma StepStrandsNone(cfg: Lookup, s: State, l: Label)
    requires Inv(cfg, s) && NoneStranded(s) && Enabled(cfg, s, l)
    ensures NoneStranded(Apply(cfg, s, l))
  {
    var t := Apply(cfg, s, l);
    forall id | id in t.disk.records && t.disk.records[id].status.Countersigned?
      ensures Owed(t, t.disk.records[id])
    {
      if l.PutStep? {
        var rec := s.ops[l.i].rec;
        if !l.failed && Accepts(s.disk.records, rec) && id == rec.id {
          DebtFromWrite(cfg, s, l.i, l.rev);
        } else {
          DebtSurvivesWrite(cfg, s, l.i, l.rev, l.failed, id);
        }
      } else {
        assert t.disk == s.disk;
        DebtPassedOn(cfg, s, l, s.disk.records[id]);
      }
    }
  }

  lemma {:induction false} RunStrandsNone(cfg: Lookup, s: State, run: seq<Label>, t: State)
    requires WellFormed(cfg) && Inv(cfg, s) && NoneStranded(s) && Runs(cfg, s, run, t)
    ensures Inv(cfg, t) && NoneStranded(t)
    decreases |run|
  {
    hide Inv, NoneStranded, Enabled;
    if run != [] {
      StepKeepsInv(cfg, s, run[0]);
      StepStrandsNone(cfg, s, run[0]);
      RunStrandsNone(cfg, Apply(cfg, s, run[0]), run[1..], t);
    }
  }

  /** In every reachable state a countersigned record is owed a delivery by an operation in flight that
      holds exactly its revision, unless a crash or a store failure lost it. */
  lemma NoStrandedRegistration(cfg: Lookup, s: State, id: string)
    requires WellFormed(cfg) && Reachable(cfg, s)
    requires id in s.disk.records && s.disk.records[id].status.Countersigned?
    ensures Owed(s, s.disk.records[id])
  {
    var run :| Runs(cfg, INITIAL, run, s);
    RunStrandsNone(cfg, INITIAL, run, s);
  }

  ghost predicate Quiet(s: State) {
    forall i :: 0 <= i < |s.ops| ==> s.ops[i] == Done
  }

  // ---- what is owed or given up is a registration's version -----------------------------------

  /** The revision belongs to a version that is still to be delivered. */
  ghost predicate Undelivered(d: Disk, v: (string, string)) {
    v.0 in d.history && exists k :: 0 <= k < |d.history[v.0]| && IsUndelivered(d.history[v.0][k].record, v.1)
  }

  ghost predicate IsUndelivered(r: Record, rev: string) {
    r.rev == rev && r.status.Countersigned?
  }

  ghost predicate DebtsReal(s: State) {
    && (forall v :: v in s.lost ==> Undelivered(s.disk, v))
    && (forall i :: 0 <= i < |s.ops| && Owes(s.ops[i]).Some? ==> Undelivered(s.disk, Owes(s.ops[i]).value))
  }

  lemma UndeliveredStable(d: Disk, e: Disk, v: (string, string))
    requires DiskGrows(d, e) && Undelivered(d, v)
    ensures Undelivered(e, v)
  {
    var k :| 0 <= k < |d.history[v.0]| && IsUndelivered(d.history[v.0][k].record, v.1);
    assert e.history[v.0][k] == d.history[v.0][k];
  }

  lemma WrittenUndelivered(d: Disk, rec: Record, rev: string, note: Note)
    requires rec.status.Countersigned?
    ensures Undelivered(Written(d, rec, rev, note), (rec.id, rev))
  {
    var h := Written(d, rec, rev, note).history[rec.id];
    assert IsUndelivered(h[|h| - 1].record, rev);
  }

  lemma StepGrowsDisk(cfg: Lookup, s: State, l: Label)
    requires Enabled(cfg, s, l)
    ensures DiskGrows(s.disk, Apply(cfg, s, l).disk)
  {
    hide HonestSigner, FreshRevision, Accepts, OwnSignaturesHold;
  }

  /** The step gives up the delivery of a version: by a crash, by a store failure, or by an attempt that
      outlasts its deadline. */
  ghost predicate Abandons(s: State, l: Label, v: (string, string)) {
    && (l.Crash? || (l.PutStep? && l.failed) || l.ExpireStep?)
    && l.i < |s.ops| && Owes(s.ops[l.i]) == Some(v)
  }

  lemma StepLoses(cfg: Lookup, s: State, l: Label, v: (string, string))
    requires Enabled(cfg, s, l)
    ensures v in Apply(cfg, s, l).lost <==> v in s.lost || Abandons(s, l, v)
  {
    hide HonestSigner, FreshRevision, Accepts, OwnSignaturesHold, Owes;
  }

  /** A step of the store that makes a registration's write land. */
  ghost predicate LandsRegistration(s: State, l: Label, v: (string, string)) {
    && l.PutStep? && !l.failed && l.i < |s.ops| && s.ops[l.i].Committing?
    && s.ops[l.i].note.writer == ByRegister && Accepts(s.disk.records, s.ops[l.i].rec)
    && v == (s.ops[l.i].rec.id, l.rev)
  }

  /** What is owed after a step was owed before, or is the version the step wrote. */
  lemma StepOwes(cfg: Lookup, s: State, l: Label, j: nat)
    requires Enabled(cfg, s, l) && j < |Apply(cfg, s, l).ops| && Owes(Apply(cfg, s, l).ops[j]).Some?
    ensures var v := Owes(Apply(cfg, s, l).ops[j]).value;
            LandsRegistration(s, l, v) || exists i :: 0 <= i < |s.ops| && Owes(s.ops[i]) == Some(v)
  {
    hide HonestSigner, FreshRevision, Accepts, OwnSignaturesHold;
    var v := Owes(Apply(cfg, s, l).ops[j]).value;
    if j < |s.ops| && Owes(s.ops[j]) != Some(v) {
      assert LandsRegistration(s, l, v);
    }
    if j >= |s.ops| {
      assert l.SpawnStep? && Owes(s.ops[l.i]) == Some(v);
    }
  }

  lemma RegistrationUndelivered(cfg: Lookup, s: State, l: Label, v: (string, string))
    requires Inv(cfg, s) && Enabled(cfg, s, l) && LandsRegistration(s, l, v)
    ensures Undelivered(Apply(cfg, s, l).disk, v)
  {
    var op := s.ops[l.i];
    assert GoodCommit(cfg, s.logs, s.disk, op.base, op.rec, op.note);
    CountersignedByRegister(cfg, s.logs, op.base, op.rec, op.note);
    hide Inv, GoodCommit, FreshRevision, Accepts;
    WrittenUndelivered(s.disk, op.rec, l.rev, op.note);
  }

  lemma StepKeepsDebtsReal(cfg: Lookup, s: State, l: Label)
    requires Inv(cfg, s) && DebtsReal(s) && Enabled(cfg, s, l)
    ensures DebtsReal(Apply(cfg, s, l))
  {
    var t := Apply(cfg, s, l);
    StepGrowsDisk(cfg, s, l);
    hide Inv, Enabled, Apply, DiskGrows, Undelivered, Owes, LandsRegistration;
    forall v | v in t.lost
      ensures Undelivered(t.disk, v)
    {
      StepLoses(cfg, s, l, v);
      UndeliveredStable(s.disk, t.disk, v);
    }
    forall j | 0 <= j < |t.ops| && Owes(t.ops[j]).Some?
      ensures Undelivered(t.disk, Owes(t.ops[j]).value)
    {
      var v := Owes(t.ops[j]).value;
      StepOwes(cfg, s, l, j);
      if LandsRegistration(s, l, v) {
        RegistrationUndelivered(cfg, s, l, v);
      } else {
        UndeliveredStable(s.disk, t.disk, v);
      }
    }
  }

  lemma {:induction false} RunKeepsDebtsReal(cfg: Lookup, s: State, run: seq<Label>, t: State)
    requires WellFormed(cfg) && Inv(cfg, s) && DebtsReal(s) && Runs(cfg, s, run, t)
    ensures DebtsReal(t)
    decreases |run|
  {
    hide Inv, DebtsReal, Enabled;
    if run != [] {
      StepKeepsInv(cfg, s, run[0]);
      StepKeepsDebtsReal(cfg, s, run[0]);
      RunKeepsDebtsReal(cfg, Apply(cfg, s, run[0]), run[1..], t);
    }
  }

  lemma GivenUpStaysCountersigned(cfg: Lookup, s: State, id: string)
    requires Inv(cfg, s) && id in s.disk.records && Undelivered(s.disk, (id, s.disk.records[id].rev))
    ensures s.disk.records[id].status.Countersigned?
  {
    hide GoodHistory;
    var h := s.disk.history[id];
    assert EndsIn(h, s.disk.records[id]) && DistinctRevisions(h);
    var k :| 0 <= k < |h| && IsUndelivered(h[k].record, s.disk.records[id].rev);
    assert k == |h| - 1;
  }

  /** Once all operations have finished, a record is still countersigned exactly when the delivery of that
      very version was given up, and otherwise it is delivered or failed. */
  lemma QuietMeansSettled(cfg: Lookup, s: State, id: string)
    requires WellFormed(cfg) && Reachable(cfg, s) && Quiet(s) && id in s.disk.records
    ensures var r := s.disk.records[id];
            && (r.status.Countersigned? <==> (id, r.rev) in s.lost)
            && (!r.status.Countersigned? ==> r.status.Delivered? || r.status.Failed?)
  {
    ReachableInv(cfg, s);
    StoredSound(cfg, s, id);
    if s.disk.records[id].status.Countersigned? {
      NoStrandedRegistration(cfg, s, id);
    }
    if (id, s.disk.records[id].rev) in s.lost {
      var run :| Runs(cfg, INITIAL, run, s);
      RunKeepsDebtsReal(cfg, INITIAL, run, s);
      GivenUpStaysCountersigned(cfg, s, id);
    }
  }

  // ---- operations run out of steps ------------------------------------------------------------

  /** The steps an operation can still take, those of the delivery it will spawn included. */
  function Effort(op: Op): nat {
    match op
    case RegisterRead(_, _) => 8
    case RegisterDerive(_, _, _) => 7
    case RegisterSign(_, _, _, _, _) => 6
    case RegisterReread(_, _, _, _, _) => 5
    case RegisterSpawn(_) => 3
    case DeliverSend(_, _, _) => 2
    case VerifyRead(_) => 5
    case VerifyDerive(_, _) => 4
    case VerifySign(_, _, _) => 3
    case VerifySend(_, _, _) => 2
    case Committing(_, _, note) => if note.writer == ByRegister then 4 else 1
    case Done => 0
  }

  function Work(ops: seq<Op>): nat {
    if ops == [] then 0 else Work(ops[..|ops| - 1]) + Effort(ops[|ops| - 1])
  }

  lemma {:induction false} WorkUpdate(ops: seq<Op>, i: nat, op: Op)
    requires i < |ops|
    ensures Work(ops[i := op]) == Work(ops) - Effort(ops[i]) + Effort(op)
    decreases |ops|
  {
    var n := |ops| - 1;
    if i == n {
      assert ops[i := op][..n] == ops[..n];
    } else {
      assert ops[i := op][..n] == ops[..n][i := op];
      WorkUpdate(ops[..n], i, op);
    }
  }

  lemma WorkAppend(ops: seq<Op>, op: Op)
    ensures Work(ops + [op]) == Work(ops) + Effort(op)
  {}

  predicate Starts(l: Label) {
    l.StartRegister? || l.StartVerify?
  }

  /** A crash, or a store failure other than a conflict. */
  predicate Faulty(l: Label) {
    l.Crash? || (l.PutStep? && l.failed) || (l.ReadStep? && l.failed)
  }

  /** What a step makes of the operation that takes it. */
  lemma StepReducesEffort(cfg: Lookup, s: State, l: Label)
    requires Enabled(cfg, s, l) && !Starts(l)
    ensures var t := Apply(cfg, s, l);
            if l.SpawnStep? then Effort(s.ops[l.i]) == 3 && exists op :: Effort(op) == 2 && t.ops == s.ops[l.i := Done] + [op]
            else exists op :: Effort(op) < Effort(s.ops[l.i]) && t.ops == s.ops[l.i := op]
  {
    hide HonestSigner, FreshRevision, Accepts;
    var t := Apply(cfg, s, l);
    if l.SpawnStep? {
      var op := t.ops[|s.ops|];
      assert Effort(op) == 2 && t.ops == s.ops[l.i := Done] + [op];
    } else {
      var op := t.ops[l.i];
      assert Effort(op) < Effort(s.ops[l.i]) && t.ops == s.ops[l.i := op];
    }
  }

  /** Every step of an operation, whatever its outcome, leaves less to do. */
  lemma StepReducesWork(cfg: Lookup, s: State, l: Label)
    requires Enabled(cfg, s, l) && !Starts(l)
    ensures Work(Apply(cfg, s, l).ops) < Work(s.ops)
  {
    StepReducesEffort(cfg, s, l);
    var t := Apply(cfg, s, l);
    assert l.i < |s.ops|;
    hide Enabled, Apply, Effort;
    if l.SpawnStep? {
      var op :| Effort(op) == 2 && t.ops == s.ops[l.i := Done] + [op];
      WorkUpdate(s.ops, l.i, Done);
      WorkAppend(s.ops[l.i := Done], op);
    } else {
      var op :| Effort(op) < Effort(s.ops[l.i]) && t.ops == s.ops[l.i := op];
      WorkUpdate(s.ops, l.i, op);
    }
  }

  /** So a run that starts nothing new is no longer than the work at hand. */
  lemma {:induction false} RunsEnd(cfg: Lookup, s: State, run: seq<Label>, t: State)
    requires Runs(cfg, s, run, t) && forall l :: l in run ==> !Starts(l)
    ensures |run| + Work(t.ops) <= Work(s.ops)
    decreases |run|
  {
    if run != [] {
      hide Enabled;
      StepReducesWork(cfg, s, run[0]);
      RunsEnd(cfg, Apply(cfg, s, run[0]), run[1..], t);
    }
  }

  // ---- until then some step can be taken ------------------------------------------------------

  /** The revisions handed out so far. */
  ghost function Revisions(d: Disk): set<string> {
    set id, i | id in d.history && 0 <= i < |d.history[id]| :: d.history[id][i].record.rev
  }

  lemma {:induction false} LongerString(used: set<string>) returns (longer: string)
    ensures longer != "" && forall u :: u in used ==> |u| < |longer|
  {
    if used == {} {
      longer := "1";
    } else {
      var u :| u in used;
      var v := LongerString(used - {u});
      longer := v + u;
      assert |longer| > |u|;
    }
  }

  lemma RevisionAvailable(d: Disk) returns (rev: string)
    ensures FreshRevision(d, rev)
  {
    rev := LongerString(Revisions(d));
    forall id, i | id in d.history && 0 <= i < |d.history[id]|
      ensures d.history[id][i].record.rev != rev
    {
      assert d.history[id][i].record.rev in Revisions(d);
    }
  }

  /** A signer that always fails; it is honest, and shows that signing never blocks an operation. */
  const FAILING_SIGNER: Signer := (env: Envelope, claims: Claims) => SignFailed([])

  lemma FailingSignerHonest(cfg: Lookup)
    ensures HonestSigner(cfg, FAILING_SIGNER)
  {}

  /** An operation has the envelope its next step works on. */
  lemma SubjectPresent(cfg: Lookup, s: State, i: nat)
    requires Inv(cfg, s) && i < |s.ops|
    ensures var op := s.ops[i];
            && (op.RegisterReread? ==> op.env.head.Some?)
            && (op.VerifyDerive? || op.VerifySign? || op.VerifySend? ==> Subject(op).Some?)
            && (op.RegisterSpawn? ==> op.rec.envelope.Some?)
  {
    var op := s.ops[i];
    assert GoodOp(cfg, s.logs, s.disk, op);
    if op.VerifyDerive? || op.RegisterSpawn? {
      CommittedSound(cfg, s.logs, s.disk, op.rec);
    }
  }

  /** A step of operation `i` that is fault-free; `rev` serves as a fresh revision. */
  function NextStep(op: Op, i: nat, rev: string): (l: Label)
    ensures op != Done ==> !Starts(l) && !Faulty(l) && !l.ExpireStep?
  {
    match op
    case RegisterRead(_, _) => ReadStep(i, false, 0)
    case RegisterReread(_, _, _, _, _) => ReadStep(i, false, 0)
    case VerifyRead(_) => ReadStep(i, false, 0)
    case RegisterDerive(_, _, _) => DeriveStep(i, (a, k) => Unavailable, 0)
    case VerifyDerive(_, _) => DeriveStep(i, (a, k) => Unavailable, 0)
    case RegisterSign(_, _, _, _, _) => SignStep(i, FAILING_SIGNER, 0)
    case VerifySign(_, _, _) => SignStep(i, FAILING_SIGNER, 0)
    case DeliverSend(_, _, _) => SendStep(i, None, 0)
    case VerifySend(_, _, _) => SendStep(i, None, 0)
    case RegisterSpawn(_) => SpawnStep(i)
    case Committing(_, _, _) => PutStep(i, rev, false)
    case Done => Crash(i)
  }

  /** An operation that has not finished can take a step with no fault in it. */
  lemma StepAvailable(cfg: Lookup, s: State, i: nat) returns (l: Label)
    requires Inv(cfg, s) && i < |s.ops| && s.ops[i] != Done
    ensures Enabled(cfg, s, l) && !Starts(l) && !Faulty(l) && !l.ExpireStep?
  {
    hide Inv, FreshRevision, HonestSigner, OwnSignaturesHold, Starts, Faulty;
    var rev := RevisionAvailable(s.disk);
    l := NextStep(s.ops[i], i, rev);
    SubjectPresent(cfg, s, i);
    FailingSignerHonest(cfg);
  }

  lemma {:induction false} RunSnoc(cfg: Lookup, s: State, run: seq<Label>, t: State, l: Label)
    requires Runs(cfg, s, run, t) && Enabled(cfg, t, l)
    ensures Runs(cfg, s, run + [l], Apply(cfg, t, l))
    decreases |run|
  {
    hide Enabled, Apply;
    if run == [] {
      assert (run + [l])[1..] == [];
    } else {
      assert (run + [l])[1..] == run[1..] + [l];
      RunSnoc(cfg, Apply(cfg, s, run[0]), run[1..], t, l);
    }
  }

  lemma StillReachable(cfg: Lookup, s: State, l: Label)
    requires Reachable(cfg, s) && Enabled(cfg, s, l)
    ensures Reachable(cfg, Apply(cfg, s, l))
  {
    hide Enabled, Apply;
    var run :| Runs(cfg, INITIAL, run, s);
    RunSnoc(cfg, INITIAL, run, s, l);
  }

  // ---- letting everything finish --------------------------------------------------------------

  /** No operation in flight can take a step without a fault. */
  ghost predicate Stuck(cfg: Lookup, s: State) {
    forall l :: Enabled(cfg, s, l) ==> Starts(l) || Faulty(l)
  }

  lemma StuckMeansQuiet(cfg: Lookup, s: State)
    requires Inv(cfg, s)
    ensures Stuck(cfg, s) <==> Quiet(s)
  {
    hide Inv, HonestSigner, FreshRevision, OwnSignaturesHold;
    if !Quiet(s) {
      var i: nat :| i < |s.ops| && s.ops[i] != Done;
      var l := StepAvailable(cfg, s, i);
      assert Enabled(cfg, s, l);
    }
  }

  /** Some step of the run does. */
  ghost predicate GivesUp(cfg: Lookup, s: State, run: seq<Label>, v: (string, string))
    decreases |run|
  {
    && run != [] && Enabled(cfg, s, run[0])
    && (Abandons(s, run[0], v) || GivesUp(cfg, Apply(cfg, s, run[0]), run[1..], v))
  }

  /** Nothing else loses a delivery. */
  lemma {:induction false} LostExactlyIfGivenUp(cfg: Lookup, s: State, run: seq<Label>, t: State, v: (string, string))
    requires Runs(cfg, s, run, t)
    ensures v in t.lost <==> v in s.lost || GivesUp(cfg, s, run, v)
    decreases |run|
  {
    hide Enabled, Apply, Abandons;
    if run != [] {
      StepLoses(cfg, s, run[0], v);
      LostExactlyIfGivenUp(cfg, Apply(cfg, s, run[0]), run[1..], t, v);
    }
  }

  lemma {:induction false} RunReaches(cfg: Lookup, s: State, run: seq<Label>, t: State)
    requires Reachable(cfg, s) && Runs(cfg, s, run, t)
    ensures Reachable(cfg, t)
    decreases |run|
  {
    hide Enabled, Apply, Reachable;
    if run != [] {
      StillReachable(cfg, s, run[0]);
      RunReaches(cfg, Apply(cfg, s, run[0]), run[1..], t);
    }
  }

  /** However operations start, interleave, fail and crash: once none can go on, nothing is in flight; and a
      record is then still countersigned exactly when the delivery of its version had been given up
      before or was given up on the way, and otherwise delivered or failed. */
  lemma EverythingSettles(cfg: Lookup, s: State, run: seq<Label>, t: State)
    requires WellFormed(cfg) && Reachable(cfg, s) && Runs(cfg, s, run, t) && Stuck(cfg, t)
    ensures Quiet(t)
    ensures forall id :: id in t.disk.records ==>
              var r := t.disk.records[id];
              && (r.status.Countersigned? <==> (id, r.rev) in s.lost || GivesUp(cfg, s, run, (id, r.rev)))
              && (!r.status.Countersigned? ==> r.status.Delivered? || r.status.Failed?)
  {
    RunReaches(cfg, s, run, t);
    ReachableInv(cfg, t);
    StuckMeansQuiet(cfg, t);
    hide Inv, Reachable, Runs, Stuck, GivesUp;
    forall id | id in t.disk.records
      ensures var r := t.disk.records[id];
              && (r.status.Countersigned? <==> (id, r.rev) in s.lost || GivesUp(cfg, s, run, (id, r.rev)))
              && (!r.status.Countersigned? ==> r.status.Delivered? || r.status.Failed?)
    {
      QuietMeansSettled(cfg, t, id);
      LostExactlyIfGivenUp(cfg, s, run, t, (id, t.disk.records[id].rev));
    }
  }

  /** A run without faults in which no attempt outlasts its deadline gives nothing up. */
  lemma {:induction false} SmoothRunsGiveNothingUp(cfg: Lookup, s: State, run: seq<Label>, v: (string, string))
    requires forall l :: l in run ==> !Faulty(l) && !l.ExpireStep?
    ensures !GivesUp(cfg, s, run, v)
    decreases |run|
  {
    if run != [] && Enabled(cfg, s, run[0]) {
      hide Enabled, Apply;
      SmoothRunsGiveNothingUp(cfg, Apply(cfg, s, run[0]), run[1..], v);
    }
  }

  /** From every reachable state the operations in flight can get there, without faults or expired attempts. */
  lemma {:induction false} OperationsCanFinish(cfg: Lookup, s: State) returns (run: seq<Label>, t: State)
    requires WellFormed(cfg) && Reachable(cfg, s)
    ensures Runs(cfg, s, run, t) && Stuck(cfg, t)
    ensures forall l :: l in run ==> !Starts(l) && !Faulty(l) && !l.ExpireStep?
    decreases Work(s.ops)
  {
    ReachableInv(cfg, s);
    StuckMeansQuiet(cfg, s);
    if Quiet(s) {
      run, t := [], s;
    } else {
      var i: nat :| i < |s.ops| && s.ops[i] != Done;
      var l := StepAvailable(cfg, s, i);
      hide Enabled, Apply, Inv, Reachable, Faulty, Stuck;
      StepReducesWork(cfg, s, l);
      StillReachable(cfg, s, l);
      var rest, end := OperationsCanFinish(cfg, Apply(cfg, s, l));
      run, t := [l] + rest, end;
      assert run[1..] == rest;
    }
  }
}
