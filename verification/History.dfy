/** The verifier of a record as a function of the history of its committed versions, when a renewal keeps
    it, and what becomes of the verification timestamp. */
module History {
  import opened Gobl
  import opened Records
  import opened Store
  import opened Protocol
  import opened Invariant
  import opened Guarantees

  // ---- every interleaving: the derivation a version rests on ----------------------------------

  ghost predicate SameDocument(a: Version, b: Version) {
    a.record.envelope.Some? && b.record.envelope.Some? && SameDigest(a.record.envelope.value, b.record.envelope.value)
  }

  /** The version whose derivation decides the verifier of version `i`: the version itself if it derived
      one; for a delivery, the one its predecessor rests on; for a registration that derived nothing, the
      one that the version its first read found rests on, if that carried the same document. */
  ghost function Origin(h: seq<Version>, i: nat): (k: Option<nat>)
    requires i < |h|
    ensures k.Some? ==> k.value <= i && h[k.value].note.derived != ""
    decreases i
  {
    var note := h[i].note;
    if note.derived != "" then Some(i)
    else if note.writer != ByRegister then (if i == 0 then None else Origin(h, i - 1))
    else if note.seen.Some? && 0 < note.seen.value <= i && SameDocument(h[note.seen.value - 1], h[i])
    then Origin(h, note.seen.value - 1)
    else None
  }

  /** What the derivation behind version `i` gave, or "" if there is none. */
  ghost function VerifierAt(h: seq<Version>, i: nat): Address
    requires i < |h|
  {
    var k := Origin(h, i);
    if k.Some? then h[k.value].note.derived else ""
  }

  lemma {:induction false} VerifierTraced(cfg: Lookup, logs: Logs, h: seq<Version>, i: nat)
    requires GoodHistory(cfg, logs, h) && i < |h|
    ensures h[i].record.verifier == VerifierAt(h, i)
    ensures h[i].record.envelope.Some?
    ensures var k := Origin(h, i);
            k.Some? ==> && h[k.value].record.envelope.Some?
                        && DigestOf(h[k.value].record.envelope.value) == DigestOf(h[i].record.envelope.value)
    decreases i
  {
    GoodPrefix(cfg, logs, h, i + 1);
    LastVersion(cfg, logs, h[..i + 1]);
    hide GoodHistory;
    var note := h[i].note;
    if note.derived == "" {
      if note.writer != ByRegister {
        VerifierTraced(cfg, logs, h, i - 1);
      } else if note.seen.Some? && note.seen.value > 0 {
        VerifierTraced(cfg, logs, h, note.seen.value - 1);
      }
    }
  }

  /** The derivation behind a version is on record, made for its address from its own header and the
      signatures of others that it carries. */
  lemma OriginFound(cfg: Lookup, logs: Logs, h: seq<Version>, k: nat) returns (f: nat)
    requires GoodHistory(cfg, logs, h) && FindingsTrue(cfg, logs) && k < |h| && h[k].note.derived != ""
    ensures h[k].record.envelope.Some? && h[k].record.verifier == h[k].note.derived
    ensures f < |logs.findings| && FindingTrue(cfg, logs.findings[f])
    ensures Names(cfg, logs.findings[f], h[k].record.address, h[k].record.envelope.value, h[k].note.derived)
  {
    VersionGood(cfg, logs, h, k);
    var r := h[k].record;
    hide GoodHistory, Sound, Names;
    f :| f < |logs.findings| && Names(cfg, logs.findings[f], r.address, r.envelope.value, h[k].note.derived);
    assert FindingTrue(cfg, logs.findings[f]);
  }

  /** Under every interleaving, each committed version names exactly the verifier that the derivation it
      rests on gave, and was committed with the document that derivation was made from; it names nobody
      exactly when it rests on no derivation. That derivation is on record as number `f`: it was made for
      this address, from the header and the signatures of others of the version that committed it. */
  lemma VerifierTracesBack(cfg: Lookup, s: State, id: string, i: nat) returns (f: nat)
    requires WellFormed(cfg) && Reachable(cfg, s)
    requires id in s.disk.history && i < |s.disk.history[id]|
    ensures var h := s.disk.history[id];
            var k := Origin(h, i);
            && h[i].record.envelope.Some?
            && (h[i].record.verifier == "" <==> k.None?)
            && (k.Some? ==>
                  && h[i].record.verifier == h[k.value].note.derived == h[k.value].record.verifier
                  && h[k.value].record.envelope.Some?
                  && DigestOf(h[i].record.envelope.value) == DigestOf(h[k.value].record.envelope.value)
                  && f < |s.logs.findings| && FindingTrue(cfg, s.logs.findings[f])
                  && Names(cfg, s.logs.findings[f], h[i].record.address, h[k.value].record.envelope.value,
                           h[i].record.verifier))
  {
    ReachableInv(cfg, s);
    var h := s.disk.history[id];
    assert GoodHistory(cfg, s.logs, h) && Chain(id, h);
    hide GoodHistory, Names, FindingTrue;
    VerifierTraced(cfg, s.logs, h, i);
    var k := Origin(h, i);
    f := 0;
    if k.Some? {
      f := OriginFound(cfg, s.logs, h, k.value);
      DocIdInjective(h[i].record.address, h[k.value].record.address);
    }
  }

  // ---- undisturbed registrations: the last derivation decides ---------------------------------

  /** From version `n` on, the first read of every registration found the very version it replaced. */
  ghost predicate CleanFrom(h: seq<Version>, n: nat) {
    forall i :: n <= i < |h| && h[i].note.writer == ByRegister ==> h[i].note.seen == Some(i)
  }

  /** Since version `k` nothing was derived, and every registration carried the document of version `k`. */
  ghost predicate Carries(h: seq<Version>, k: nat)
    requires k < |h|
  {
    forall j :: k < j < |h| ==>
      h[j].note.derived == "" && (h[j].note.writer == ByRegister ==> SameDocument(h[k], h[j]))
  }

  /** Version `k` derived `verifier`, and its document and verifier have been carried since. */
  ghost predicate Decides(h: seq<Version>, k: nat, verifier: Address) {
    k < |h| && verifier != "" && h[k].note.derived == verifier && Carries(h, k)
  }

  ghost predicate DecidedSince(h: seq<Version>, n: nat, verifier: Address) {
    exists k: nat :: n <= k && Decides(h, k, verifier)
  }

  lemma {:induction false} DocumentCarried(cfg: Lookup, logs: Logs, h: seq<Version>, k: nat)
    requires GoodHistory(cfg, logs, h) && k < |h| && Carries(h, k)
    ensures h[k].record.envelope.Some? && h[|h| - 1].record.envelope.Some?
    ensures DigestOf(h[|h| - 1].record.envelope.value) == DigestOf(h[k].record.envelope.value)
    decreases |h|
  {
    hide GoodHistory;
    var n := |h| - 1;
    LastVersion(cfg, logs, h);
    EnvelopeStored(cfg, logs, h, k);
    if k < n && h[n].note.writer != ByRegister {
      GoodPrefix(cfg, logs, h, n);
      DocumentCarried(cfg, logs, h[..n], k);
    }
  }

  /** A version that derives nothing: what was carried up to it is still carried if it is a delivery or
      repeats the document of its predecessor. */
  lemma CarriesExtends(cfg: Lookup, logs: Logs, h: seq<Version>, k: nat)
    requires GoodHistory(cfg, logs, h) && k + 1 < |h| && h[|h| - 1].note.derived == ""
    ensures var n := |h| - 1;
            Carries(h, k) <==>
            Carries(h[..n], k) && (h[n].note.writer == ByRegister ==> SameDocument(h[n - 1], h[n]))
  {
    var n := |h| - 1;
    var g := h[..n];
    assert Carries(h, k) ==> Carries(g, k);
    if Carries(g, k) {
      GoodPrefix(cfg, logs, h, n);
      DocumentCarried(cfg, logs, g, k);
      assert g[|g| - 1] == h[n - 1] && g[k] == h[k];
    }
  }

  /** If registrations were undisturbed from version `n` on, the last version names `verifier` exactly when
      a version since then decided it, or the version before named it and has been carried. */
  lemma {:induction false} VerifierSince(cfg: Lookup, logs: Logs, h: seq<Version>, n: nat, verifier: Address)
    requires GoodHistory(cfg, logs, h) && h != [] && n <= |h| && CleanFrom(h, n) && verifier != ""
    ensures h[|h| - 1].record.verifier == verifier <==>
            DecidedSince(h, n, verifier) || (n > 0 && h[n - 1].record.verifier == verifier && Carries(h, n - 1))
    decreases |h|
  {
    hide GoodHistory;
    var last := |h| - 1;
    var g := h[..last];
    LastVersion(cfg, logs, h);
    if n < |h| {
      if h[last].note.derived != "" {
        assert Carries(h, last);
        if h[last].record.verifier == verifier {
          assert Decides(h, last, verifier);
        }
      } else if last > 0 {
        GoodPrefix(cfg, logs, h, last);
        VerifierSince(cfg, logs, g, n, verifier);
        DecidedExtends(cfg, logs, h, n, verifier);
        if 0 < n { CarriesExtends(cfg, logs, h, n - 1); }
      }
    }
  }

  lemma DecidedExtends(cfg: Lookup, logs: Logs, h: seq<Version>, n: nat, verifier: Address)
    requires GoodHistory(cfg, logs, h) && |h| > 1 && h[|h| - 1].note.derived == ""
    ensures var last := |h| - 1;
            DecidedSince(h, n, verifier) <==>
            && DecidedSince(h[..last], n, verifier)
            && (h[last].note.writer == ByRegister ==> SameDocument(h[last - 1], h[last]))
  {
    hide GoodHistory;
    var last := |h| - 1;
    if k: nat :| n <= k && Decides(h[..last], k, verifier) {
      CarriesExtends(cfg, logs, h, k);
      assert Decides(h, k, verifier) <==>
             (h[last].note.writer == ByRegister ==> SameDocument(h[last - 1], h[last]));
    }
    if k: nat :| n <= k && Decides(h, k, verifier) {
      CarriesExtends(cfg, logs, h, k);
      assert Decides(h[..last], k, verifier);
    }
  }

  /** If no registration on a record was disturbed between its two reads, as in any serial run over a
      store that answers, the stored verifier is `verifier` exactly when the last derivation on the
      record gave `verifier` and every later registration carried the same document; and it is empty
      exactly when no derivation decides. */
  lemma VerifierRefinesHistory(cfg: Lookup, s: State, id: string, verifier: Address)
    requires WellFormed(cfg) && Reachable(cfg, s)
    requires id in s.disk.records && CleanFrom(VersionsOf(s.disk, id), 0)
    ensures verifier != "" ==>
              (s.disk.records[id].verifier == verifier <==> DecidedSince(VersionsOf(s.disk, id), 0, verifier))
    ensures s.disk.records[id].verifier == "" <==> forall v :: !DecidedSince(VersionsOf(s.disk, id), 0, v)
  {
    ReachableInv(cfg, s);
    var h := s.disk.history[id];
    assert Chain(id, h) && EndsIn(h, s.disk.records[id]) && GoodHistory(cfg, s.logs, h);
    hide GoodHistory;
    forall v | v != ""
      ensures s.disk.records[id].verifier == v <==> DecidedSince(h, 0, v)
    {
      VerifierSince(cfg, s.logs, h, 0, v);
    }
    NobodyDecidesNobody(h, 0);
    assert DecidedSince(h, 0, s.disk.records[id].verifier) || s.disk.records[id].verifier == "";
  }

  lemma NobodyDecidesNobody(h: seq<Version>, n: nat)
    ensures !DecidedSince(h, n, "")
  {}

  // ---- renewals -------------------------------------------------------------------------------

  /** Version `i` is a renewal: a registration of the document that the version it replaced carried,
      and one that derived nothing itself. */
  ghost predicate RenewalAt(h: seq<Version>, i: nat) {
    && 0 < i < |h| && h[i].note.writer == ByRegister && h[i].note.derived == ""
    && SameDocument(h[i - 1], h[i])
  }

  /** The number of versions that the first read of registration `i` found; a failed read found none. */
  function SeenBy(h: seq<Version>, i: nat): nat
    requires i < |h|
  {
    if h[i].note.seen.Some? then h[i].note.seen.value else 0
  }

  /** The first read of registration `i` found a version, and it carried the document registered. */
  ghost predicate FoundDocument(h: seq<Version>, i: nat)
    requires i < |h|
  {
    0 < SeenBy(h, i) <= i && SameDocument(h[SeenBy(h, i) - 1], h[i])
  }

  /** Under every interleaving, a renewal keeps the verifier of the version it replaces exactly when the
      version its first read found, and the version it replaces, rest on derivations that gave the same
      verifier, or neither rests on one. A read that failed, or found nothing or another document,
      counts as resting on none. */
  lemma RenewalKeepsVerifierIff(cfg: Lookup, s: State, id: string, i: nat)
    requires WellFormed(cfg) && Reachable(cfg, s)
    requires id in s.disk.history && RenewalAt(s.disk.history[id], i)
    ensures var h := s.disk.history[id];
            h[i].record.verifier == h[i - 1].record.verifier <==>
            if FoundDocument(h, i) then VerifierAt(h, SeenBy(h, i) - 1) == VerifierAt(h, i - 1)
            else Origin(h, i - 1).None?
  {
    ReachableInv(cfg, s);
    RenewalTraced(cfg, s.logs, s.disk.history[id], i);
  }

  lemma RenewalTraced(cfg: Lookup, logs: Logs, h: seq<Version>, i: nat)
    requires GoodHistory(cfg, logs, h) && RenewalAt(h, i)
    ensures h[i].record.verifier == h[i - 1].record.verifier <==>
            if FoundDocument(h, i) then VerifierAt(h, SeenBy(h, i) - 1) == VerifierAt(h, i - 1)
            else Origin(h, i - 1).None?
  {
    hide GoodHistory, SameDocument;
    VerifierTraced(cfg, logs, h, i);
    VerifierTraced(cfg, logs, h, i - 1);
  }

  /** What must have happened to a record after `n` versions for a renewal then begun to keep the verifier:
      if it found `found` on version `n - 1`, that version has been carried, or a later one decided the
      same; if it found no verifier for its document, no later version decided one. */
  ghost predicate NotOvertaken(h: seq<Version>, n: nat, found: Address)
    requires n <= |h|
  {
    if found != "" then (n > 0 && Carries(h, n - 1)) || DecidedSince(h, n, found)
    else forall v :: !DecidedSince(h, n, v)
  }

  /** When the registrations committed between a renewal's first read and its write were themselves
      undisturbed, the renewal keeps the verifier of the version it replaces exactly when what it had
      found was not overtaken. */
  lemma RenewalKeptUnlessOvertaken(cfg: Lookup, s: State, id: string, i: nat)
    requires WellFormed(cfg) && Reachable(cfg, s)
    requires id in s.disk.history && RenewalAt(s.disk.history[id], i)
    requires CleanFrom(s.disk.history[id][..i], SeenBy(s.disk.history[id], i))
    ensures SeenBy(s.disk.history[id], i) <= i
    ensures var h := s.disk.history[id];
            var n := SeenBy(h, i);
            h[i].record.verifier == h[i - 1].record.verifier <==>
            NotOvertaken(h[..i], n, if FoundDocument(h, i) then h[n - 1].record.verifier else "")
  {
    ReachableInv(cfg, s);
    RenewalUnlessOvertaken(cfg, s.logs, s.disk.history[id], i);
  }

  lemma RenewalUnlessOvertaken(cfg: Lookup, logs: Logs, h: seq<Version>, i: nat)
    requires GoodHistory(cfg, logs, h) && RenewalAt(h, i) && CleanFrom(h[..i], SeenBy(h, i))
    ensures SeenBy(h, i) <= i
    ensures h[i].record.verifier == h[i - 1].record.verifier <==>
            NotOvertaken(h[..i], SeenBy(h, i), if FoundDocument(h, i) then h[SeenBy(h, i) - 1].record.verifier else "")
  {
    var g, n := h[..i], SeenBy(h, i);
    hide GoodHistory;
    GoodPrefix(cfg, logs, h, i);
    GoodPrefix(cfg, logs, h, i + 1);
    LastVersion(cfg, logs, h[..i + 1]);
    var was, found := h[i - 1].record.verifier, if FoundDocument(h, i) then h[n - 1].record.verifier else "";
    assert h[i].record.verifier == found;
    hide Renewal;
    forall v | v != ""
      ensures was == v <==> DecidedSince(g, n, v) || (n > 0 && g[n - 1].record.verifier == v && Carries(g, n - 1))
    {
      VerifierSince(cfg, logs, g, n, v);
    }
    NobodyDecidesNobody(g, n);
    if n > 0 && Carries(g, n - 1) {
      DocumentCarried(cfg, logs, g, n - 1);
      assert FoundDocument(h, i);
    }
    assert was == "" || DecidedSince(g, n, was) || (n > 0 && Carries(g, n - 1));
    hide Decides, DecidedSince, Carries, SameDigest;
    if found == "" {
      assert was == "" ==> forall v :: !DecidedSince(g, n, v);
      assert was != "" ==> DecidedSince(g, n, was);
    } else {
      assert n > 0 && g[n - 1].record.verifier == found;
      assert was == found <==> DecidedSince(g, n, found) || Carries(g, n - 1);
    }
  }

  /** In particular a renewal keeps the verifier if only deliveries were committed after its first read
      found the record: it suffices not to register or verify the address meanwhile. */
  lemma RenewalKeptAcrossDeliveries(cfg: Lookup, s: State, id: string, i: nat)
    requires WellFormed(cfg) && Reachable(cfg, s)
    requires id in s.disk.history && RenewalAt(s.disk.history[id], i)
    requires 0 < SeenBy(s.disk.history[id], i) <= i
    requires forall j :: SeenBy(s.disk.history[id], i) <= j < i ==> s.disk.history[id][j].note.writer == ByDelivery
    ensures s.disk.history[id][i].record.verifier == s.disk.history[id][i - 1].record.verifier
  {
    ReachableInv(cfg, s);
    var h := s.disk.history[id];
    var n := SeenBy(h, i);
    assert GoodHistory(cfg, s.logs, h);
    GoodPrefix(cfg, s.logs, h, i);
    forall j | n <= j < i
      ensures h[j].note.derived == ""
    {
      VersionGood(cfg, s.logs, h, j);
    }
    hide GoodHistory;
    assert Carries(h[..i], n - 1);
    DocumentCarried(cfg, s.logs, h[..i], n - 1);
    RenewalKeptUnlessOvertaken(cfg, s, id, i);
  }

  // ---- the verification timestamp -------------------------------------------------------------

  /** Registration `i` names nobody: it derived nothing, and its first read found no verified version of
      its document. */
  ghost predicate NamesNobody(h: seq<Version>, i: nat)
    requires i < |h|
  {
    h[i].note.derived == "" && !(FoundDocument(h, i) && Origin(h, SeenBy(h, i) - 1).Some?)
  }

  /** Registration `i` names the verifier of the version it replaces: it derived that verifier, or it
      derived nothing and the version its first read found rests on a derivation of that verifier. */
  ghost predicate NamesAgain(h: seq<Version>, i: nat)
    requires 0 < i < |h|
  {
    || h[i].note.derived == h[i - 1].record.verifier != ""
    || (h[i].note.derived == "" && FoundDocument(h, i) && VerifierAt(h, SeenBy(h, i) - 1) == VerifierAt(h, i - 1))
  }

  /** Under every interleaving, whether the data changed or not: a registration drops the verifier and
      clears the timestamp exactly when it names nobody, keeps that of the version it replaces when it names the same
      verifier again, and stamps its own time otherwise. So it keeps an older timestamp exactly when it
      names the same verifier again. */
  lemma RegistrationTimestamp(cfg: Lookup, s: State, id: string, i: nat)
    requires WellFormed(cfg) && Reachable(cfg, s)
    requires id in s.disk.history && 0 < i < |s.disk.history[id]|
    requires s.disk.history[id][i].note.writer == ByRegister
    ensures var h := s.disk.history[id];
            var p, n := h[i - 1].record, h[i].record;
            && n.verifiedAt == (if NamesNobody(h, i) then None
                                else if NamesAgain(h, i) then p.verifiedAt else Some(n.receivedAt))
            && (n.verifiedAt.None? <==> NamesNobody(h, i)) && (n.verifier == "" <==> NamesNobody(h, i))
            && (p.verifiedAt.Some? && p.verifiedAt != Some(n.receivedAt) ==>
                  (n.verifiedAt == p.verifiedAt <==> NamesAgain(h, i)))
  {
    ReachableInv(cfg, s);
    TimestampTraced(cfg, s.logs, s.disk.history[id], i);
  }

  lemma TimestampTraced(cfg: Lookup, logs: Logs, h: seq<Version>, i: nat)
    requires GoodHistory(cfg, logs, h) && 0 < i < |h| && h[i].note.writer == ByRegister
    ensures var p, n := h[i - 1].record, h[i].record;
            && n.verifiedAt == (if NamesNobody(h, i) then None
                                else if NamesAgain(h, i) then p.verifiedAt else Some(n.receivedAt))
            && (n.verifiedAt.None? <==> NamesNobody(h, i)) && (n.verifier == "" <==> NamesNobody(h, i))
            && (p.verifiedAt.Some? && p.verifiedAt != Some(n.receivedAt) ==>
                  (n.verifiedAt == p.verifiedAt <==> NamesAgain(h, i)))
  {
    TimestampRule(cfg, logs, h, i);
    hide GoodHistory, SameDocument;
    VerifierTraced(cfg, logs, h, i);
    VerifierTraced(cfg, logs, h, i - 1);
  }

  /** The timestamp follows the verifier. */
  lemma TimestampRule(cfg: Lookup, logs: Logs, h: seq<Version>, i: nat)
    requires GoodHistory(cfg, logs, h) && 0 < i < |h| && h[i].note.writer == ByRegister
    ensures var p, n := h[i - 1].record, h[i].record;
            && n.verifiedAt == (if n.verifier == "" then None
                                else if p.verifier == n.verifier then p.verifiedAt else Some(n.receivedAt))
            && (p.verifiedAt.Some? <==> p.verifier != "")
  {
    VersionGood(cfg, logs, h, i - 1);
    VersionGood(cfg, logs, h, i);
    hide GoodHistory, Agrees, Inherits, DerivedFor;
  }

  /** In particular a registration of changed data whose first read saw the very version it replaces keeps
      that version's older timestamp exactly when its own derivation names the verifier already on the
      record, and clears it exactly when it derives nobody. */
  lemma ChangedDataTimestamp(cfg: Lookup, s: State, id: string, i: nat)
    requires WellFormed(cfg) && Reachable(cfg, s)
    requires id in s.disk.history && 0 < i < |s.disk.history[id]|
    requires s.disk.history[id][i].note.writer == ByRegister && s.disk.history[id][i].note.seen == Some(i)
    requires !SameDocument(s.disk.history[id][i - 1], s.disk.history[id][i])
    requires s.disk.history[id][i - 1].record.verifiedAt.Some?
    requires s.disk.history[id][i - 1].record.verifiedAt != Some(s.disk.history[id][i].record.receivedAt)
    ensures var p, n := s.disk.history[id][i - 1].record, s.disk.history[id][i].record;
            var derived := s.disk.history[id][i].note.derived;
            && (n.verifiedAt == p.verifiedAt <==> derived == p.verifier)
            && (n.verifiedAt.None? <==> derived == "")
            && (derived != "" && derived != p.verifier ==> n.verifiedAt == Some(n.receivedAt))
  {
    RegistrationTimestamp(cfg, s, id, i);
    ReachableInv(cfg, s);
    TimestampRule(cfg, s.logs, s.disk.history[id], i);
    hide Inv, SameDocument;
  }
}
