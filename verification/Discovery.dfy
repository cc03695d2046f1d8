/** What the discovery links on stored envelopes resolve to. */
module Discovery {
  import opened Gobl
  import opened EndorsementLaws
  import opened Records
  import opened Protocol
  import opened Invariant
  import opened Guarantees
  import Service

  ghost predicate DistinctUuids(records: map<string, Record>) {
    forall a, b :: a in records && b in records && records[a].uuid == records[b].uuid ==> a == b
  }

  /** Following the discovery link of a stored envelope always finds a record whose envelope has that
      UUID, and finds the very record the link was read from when no two records share a UUID. */
  lemma DiscoveryLinksResolve(cfg: Lookup, s: State, id: string, link: Link, key: string, found: Option<Record>)
    requires WellFormed(cfg) && Reachable(cfg, s) && id in s.disk.records
    requires s.disk.records[id].envelope.Some? && s.disk.records[id].envelope.value.head.Some?
    requires Some(link) in LookupLinks(s.disk.records[id].envelope.value.head.value.links)
    requires link.url == cfg.baseURL + "/parties/" + key
    requires Service.FoundFor(cfg, s.disk.records, key, found)
    ensures found.Some? && found.value.envelope.Some? && found.value.envelope.value.head.Some?
    ensures found.value.envelope.value.head.value.uuid == s.disk.records[id].uuid == found.value.uuid
    ensures DistinctUuids(s.disk.records) ==> found.value == s.disk.records[id]
  {
    var r := s.disk.records[id];
    ReachableInv(cfg, s);
    StoredSound(cfg, s, id);
    SameSuffix(cfg.baseURL + "/parties/", key, cfg.uuidString(r.uuid));
    assert cfg.parseUuid(key) == Some(r.uuid);
    assert found.Some?;
    var k :| k in s.disk.records && s.disk.records[k] == found.value;
    StoredSound(cfg, s, k);
    assert cfg.parseUuid(cfg.uuidString(found.value.uuid)) == Some(found.value.uuid);
  }

  lemma SameSuffix(prefix: string, a: string, b: string)
    requires prefix + a == prefix + b
    ensures a == b
  {
    assert (prefix + a)[|prefix|..] == a && (prefix + b)[|prefix|..] == b;
  }
}
