/**
 * The structured database configuration: the typed fields decoded from the raw
 * table, the region lookup, the accessors that resolve the automatic (-1)
 * counts, and equality, which looks only at the raw table.
 */
module Configuration {
  import opened Wrappers
  import opened RawConfiguration
  import opened Regions

  /** A key-value store engine, kept as the opaque tag the decoder stored. */
  datatype KeyValueStoreType = StoreType(tag: int)

  /** The sentinel an explicit count holds when the automatic count is to be used. */
  const AUTO: int := -1

  datatype DatabaseConfiguration = DatabaseConfiguration(
    initialized: bool,
    // master proxies
    masterProxyCount: int,
    autoMasterProxyCount: int,
    // resolvers
    resolverCount: int,
    autoResolverCount: int,
    // transaction logs
    tLogPolicy: PolicyRef,
    desiredTLogCount: int,
    autoDesiredTLogCount: int,
    tLogWriteAntiQuorum: int,
    tLogReplicationFactor: int,
    tLogDataStoreType: KeyValueStoreType,
    // storage servers
    storagePolicy: PolicyRef,
    durableStorageQuorum: int,
    storageTeamSize: int,
    storageServerStoreType: KeyValueStoreType,
    // remote transaction logs
    remoteDesiredTLogCount: int,
    remoteTLogReplicationFactor: int,
    remoteTLogPolicy: PolicyRef,
    // datacenters
    regions: seq<RegionInfo>,
    // the key/value table the fields were decoded from, sorted by key
    rawConfiguration: seq<KeyValue>)

  // ---------------------------------------------------------------------------
  // Region lookup

  /** The index of the first region of `regions` whose datacenter is `dc`, or |regions| if none is. */
  function FirstMatch(regions: seq<RegionInfo>, dc: Key): (i: nat)
    ensures i <= |regions|
    ensures i < |regions| ==> regions[i].dcId == dc
    ensures forall j :: 0 <= j < i ==> regions[j].dcId != dc
  {
    if regions == [] then 0
    else if regions[0].dcId == dc then 0
    else 1 + FirstMatch(regions[1..], dc)
  }

  /** What getRegion answers: the first region of the datacenter, or the default region. */
  function RegionFor(regions: seq<RegionInfo>, dcId: Option<Key>): RegionInfo
  {
    match dcId
    case None => DEFAULT_REGION
    case Some(dc) =>
      var i := FirstMatch(regions, dc);
      if i < |regions| then regions[i] else DEFAULT_REGION
  }

  /** getRegion: a first-match scan of the region list. */
  method GetRegion(c: DatabaseConfiguration, dcId: Option<Key>) returns (r: RegionInfo)
    ensures r == RegionFor(c.regions, dcId)
  {
    if dcId.None? {
      return DEFAULT_REGION;
    }
    for i := 0 to |c.regions|
      invariant forall j :: 0 <= j < i ==> c.regions[j].dcId != dcId.value
    {
      if c.regions[i].dcId == dcId.value {
        return c.regions[i];
      }
    }
    return DEFAULT_REGION;
  }

  /**
   * The lookup returns the default region when no datacenter is given or no region
   * has it, and otherwise the first region that has it.
   */
  lemma RegionForIsFirstMatch(regions: seq<RegionInfo>, dcId: Option<Key>)
    ensures (dcId.None? || forall j :: 0 <= j < |regions| ==> regions[j].dcId != dcId.value) ==>
              RegionFor(regions, dcId) == DEFAULT_REGION
    ensures dcId.Some? && (exists j :: 0 <= j < |regions| && regions[j].dcId == dcId.value) ==>
              exists i :: 0 <= i < |regions| && regions[i].dcId == dcId.value &&
                (forall j :: 0 <= j < i ==> regions[j].dcId != dcId.value) &&
                RegionFor(regions, dcId) == regions[i]
  {
    if dcId.Some? {
      var i := FirstMatch(regions, dcId.value);
      if i < |regions| {
        assert regions[i].dcId == dcId.value;
      }
    }
  }

  /** No two regions share a datacenter. */
  predicate UniqueDcIds(regions: seq<RegionInfo>)
  {
    forall i, j :: 0 <= i < j < |regions| ==> regions[i].dcId != regions[j].dcId
  }

  /** When datacenter ids are unique, looking up a region's own datacenter finds that region. */
  lemma LookupOfUniqueDc(regions: seq<RegionInfo>, k: nat)
    requires UniqueDcIds(regions)
    requires k < |regions|
    ensures RegionFor(regions, Some(regions[k].dcId)) == regions[k]
  {
    var i := FirstMatch(regions, regions[k].dcId);
    assert i == k;
  }

  // ---------------------------------------------------------------------------
  // Desired counts with automatic fallback

  /** An explicit count, unless it holds the sentinel, in which case the automatic count. */
  function WithAutoFallback(explicit: int, auto: int): int
  {
    if explicit == AUTO then auto else explicit
  }

  function GetDesiredProxies(c: DatabaseConfiguration): int
  {
    WithAutoFallback(c.masterProxyCount, c.autoMasterProxyCount)
  }

  function GetDesiredResolvers(c: DatabaseConfiguration): int
  {
    WithAutoFallback(c.resolverCount, c.autoResolverCount)
  }

  function GetDesiredLogs(c: DatabaseConfiguration): int
  {
    WithAutoFallback(c.desiredTLogCount, c.autoDesiredTLogCount)
  }

  /** The remote log count falls back to the primary's desired log count, not to an automatic field. */
  function GetDesiredRemoteLogs(c: DatabaseConfiguration): int
  {
    if c.remoteDesiredTLogCount == AUTO then GetDesiredLogs(c) else c.remoteDesiredTLogCount
  }

  /** The satellite log count of the datacenter's region, falling back to the automatic log count. */
  function GetDesiredSatelliteLogs(c: DatabaseConfiguration, dcId: Option<Key>): int
  {
    WithAutoFallback(RegionFor(c.regions, dcId).satelliteDesiredTLogCount, c.autoDesiredTLogCount)
  }

  /**
   * Proxies, resolvers and logs read the automatic count exactly when the explicit
   * count is the sentinel, and a new automatic count shows through at once in that
   * case and only in that case.
   */
  lemma AutoFallbackReadsThrough(c: DatabaseConfiguration, n: int)
    ensures GetDesiredProxies(c) == (if c.masterProxyCount == AUTO then c.autoMasterProxyCount else c.masterProxyCount)
    ensures GetDesiredResolvers(c) == (if c.resolverCount == AUTO then c.autoResolverCount else c.resolverCount)
    ensures GetDesiredLogs(c) == (if c.desiredTLogCount == AUTO then c.autoDesiredTLogCount else c.desiredTLogCount)
    ensures GetDesiredProxies(c.(autoMasterProxyCount := n)) ==
              if c.masterProxyCount == AUTO then n else GetDesiredProxies(c)
    ensures GetDesiredResolvers(c.(autoResolverCount := n)) ==
              if c.resolverCount == AUTO then n else GetDesiredResolvers(c)
    ensures GetDesiredLogs(c.(autoDesiredTLogCount := n)) ==
              if c.desiredTLogCount == AUTO then n else GetDesiredLogs(c)
  {
  }

  /**
   * The remote log count is its own explicit value unless that is the sentinel;
   * then it is the primary's desired log count, and the automatic log count only
   * when the primary's count is the sentinel too.
   */
  lemma RemoteLogsFallBackToLogs(c: DatabaseConfiguration)
    ensures c.remoteDesiredTLogCount != AUTO ==> GetDesiredRemoteLogs(c) == c.remoteDesiredTLogCount
    ensures c.remoteDesiredTLogCount == AUTO ==> GetDesiredRemoteLogs(c) == GetDesiredLogs(c)
    ensures c.remoteDesiredTLogCount == AUTO && c.desiredTLogCount == AUTO ==>
              GetDesiredRemoteLogs(c) == c.autoDesiredTLogCount
    ensures c.remoteDesiredTLogCount == AUTO && c.desiredTLogCount != AUTO ==>
              GetDesiredRemoteLogs(c) == c.desiredTLogCount
  {
  }

  /**
   * The satellite log count is the automatic log count for a datacenter that is
   * absent or has no region (the default region holds the sentinel), and for a
   * region that holds the sentinel; otherwise it is the region's own count.
   */
  lemma SatelliteLogsFallBack(c: DatabaseConfiguration, dcId: Option<Key>)
    ensures (dcId.None? || forall j :: 0 <= j < |c.regions| ==> c.regions[j].dcId != dcId.value) ==>
              GetDesiredSatelliteLogs(c, dcId) == c.autoDesiredTLogCount
    ensures RegionFor(c.regions, dcId).satelliteDesiredTLogCount == AUTO ==>
              GetDesiredSatelliteLogs(c, dcId) == c.autoDesiredTLogCount
    ensures RegionFor(c.regions, dcId).satelliteDesiredTLogCount != AUTO ==>
              GetDesiredSatelliteLogs(c, dcId) == RegionFor(c.regions, dcId).satelliteDesiredTLogCount
  {
    RegionForIsFirstMatch(c.regions, dcId);
  }

  // ---------------------------------------------------------------------------
  // Equality

  /** operator==: two configurations are equal when their raw tables are. */
  predicate Equals(a: DatabaseConfiguration, b: DatabaseConfiguration)
  {
    a.rawConfiguration == b.rawConfiguration
  }

  /**
   * On canonical raw tables, equality holds exactly when both tables hold the same
   * entries, however each configuration came to hold them; the decoded fields play
   * no part.
   */
  lemma EqualsIffSameEntries(a: DatabaseConfiguration, b: DatabaseConfiguration)
    requires IsCanonical(a.rawConfiguration) && IsCanonical(b.rawConfiguration)
    ensures Equals(a, b) <==> SameEntries(a.rawConfiguration, b.rawConfiguration)
  {
    if SameEntries(a.rawConfiguration, b.rawConfiguration) {
      CanonicalIsUnique(a.rawConfiguration, b.rawConfiguration);
    }
  }

  /** Equality is an equivalence relation. */
  lemma EqualsIsEquivalence(a: DatabaseConfiguration, b: DatabaseConfiguration, d: DatabaseConfiguration)
    ensures Equals(a, a)
    ensures Equals(a, b) ==> Equals(b, a)
    ensures Equals(a, b) && Equals(b, d) ==> Equals(a, d)
  {
  }
}
