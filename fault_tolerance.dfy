/**
 * The fault-tolerance calculator: quantities derived from the region topology
 * and the replication parameters. Each loop of the configuration is a method
 * proved equal to a recursive specification function; what the quantities
 * promise is proved about those functions.
 */
module FaultTolerance {
  import opened Wrappers
  import opened RawConfiguration
  import opened Regions
  import opened Configuration

  /** The largest 32-bit signed integer, where the worst-satellite scan starts. */
  const INT32_MAX: int := 0x7fff_ffff

  function Min(a: int, b: int): int { if a <= b then a else b }

  function Max(a: int, b: int): int { if a >= b then a else b }

  /** Integer division as 32-bit C++ does it: the quotient is truncated toward zero. */
  function TruncDiv(a: int, b: int): (q: int)
    requires b > 0
    ensures 0 <= a ==> 0 <= q * b <= a < q * b + b
    ensures a < 0 ==> q * b - b < a <= q * b <= 0
  {
    if a >= 0 then DivisionBounds(a, b); a / b
    else DivisionBounds(-a, b); -((-a) / b)
  }

  lemma DivisionBounds(n: nat, b: int)
    requires b > 0
    ensures 0 <= (n / b) * b <= n < (n / b) * b + b
  {
    var q, r := n / b, n % b;
    assert n == q * b + r && 0 <= r < b;
    assert q * b >= 0;
  }

  // ---------------------------------------------------------------------------
  // expectedLogSets

  /** The datacenter's region keeps a set of satellite logs. */
  predicate HasSatelliteLogSet(c: DatabaseConfiguration, dcId: Option<Key>)
  {
    dcId.Some? && RegionFor(c.regions, dcId).satelliteTLogReplicationFactor > 0
  }

  /** The configuration keeps a set of remote logs. */
  predicate HasRemoteLogSet(c: DatabaseConfiguration)
  {
    c.remoteTLogReplicationFactor > 0
  }

  /** expectedLogSets: the primary log set, plus a satellite one and a remote one where they exist. */
  method ExpectedLogSets(c: DatabaseConfiguration, dcId: Option<Key>) returns (result: int)
    ensures 1 <= result <= 3
    ensures result == 1 <==> !HasSatelliteLogSet(c, dcId) && !HasRemoteLogSet(c)
    ensures result == 3 <==> HasSatelliteLogSet(c, dcId) && HasRemoteLogSet(c)
    ensures result == 2 <==> HasSatelliteLogSet(c, dcId) != HasRemoteLogSet(c)
  {
    result := 1;
    if dcId.Some? {
      var r := GetRegion(c, Some(dcId.value));
      if r.satelliteTLogReplicationFactor > 0 {
        result := result + 1;
      }
    }
    if c.remoteTLogReplicationFactor > 0 {
      result := result + 1;
    }
  }

  // ---------------------------------------------------------------------------
  // minDatacentersRequired

  /** The datacenters a region occupies: its own and one per satellite. */
  function DatacentersOf(r: RegionInfo): nat
  {
    1 + |r.satellites|
  }

  /** The sum, over the regions, of the datacenters each occupies. */
  function DatacentersNeeded(regions: seq<RegionInfo>): nat
  {
    if regions == [] then 0
    else DatacentersNeeded(regions[..|regions| - 1]) + DatacentersOf(regions[|regions| - 1])
  }

  /** minDatacentersRequired: accumulates the datacenters of each region in turn. */
  method MinDatacentersRequired(c: DatabaseConfiguration) returns (minRequired: int)
    ensures minRequired == DatacentersNeeded(c.regions)
  {
    minRequired := 0;
    for i := 0 to |c.regions|
      invariant minRequired == DatacentersNeeded(c.regions[..i])
    {
      assert c.regions[..i + 1][..i] == c.regions[..i];
      minRequired := minRequired + 1 + |c.regions[i].satellites|;
    }
    assert c.regions[..|c.regions|] == c.regions;
  }

  /** No regions need no datacenters; every region needs at least its own. */
  lemma {:induction false} DatacentersNeededAtLeastRegions(regions: seq<RegionInfo>)
    ensures regions == [] ==> DatacentersNeeded(regions) == 0
    ensures DatacentersNeeded(regions) >= |regions|
  {
    if regions != [] {
      DatacentersNeededAtLeastRegions(regions[..|regions| - 1]);
    }
  }

  /** Replacing one region changes the total by the change in that region's datacenters. */
  lemma {:induction false} DatacentersNeededReplace(regions: seq<RegionInfo>, k: nat, r: RegionInfo)
    requires k < |regions|
    ensures DatacentersNeeded(regions[k := r]) ==
              DatacentersNeeded(regions) - DatacentersOf(regions[k]) + DatacentersOf(r)
  {
    var n := |regions|;
    var updated := regions[k := r];
    if k == n - 1 {
      assert updated[..n - 1] == regions[..n - 1];
    } else {
      assert updated[..n - 1] == regions[..n - 1][k := r];
      DatacentersNeededReplace(regions[..n - 1], k, r);
    }
  }

  /** Adding a satellite to any region needs exactly one more datacenter. */
  lemma AddSatelliteNeedsOneMore(regions: seq<RegionInfo>, k: nat, s: SatelliteInfo)
    requires k < |regions|
    ensures DatacentersNeeded(regions[k := regions[k].(satellites := regions[k].satellites + [s])]) ==
              DatacentersNeeded(regions) + 1
  {
    DatacentersNeededReplace(regions, k, regions[k].(satellites := regions[k].satellites + [s]));
  }

  // ---------------------------------------------------------------------------
  // minMachinesRequiredPerDatacenter

  /** The machines one satellite datacenter of a region needs; the divisor is at least 1. */
  function SatelliteMachines(r: RegionInfo): int
  {
    TruncDiv(r.satelliteTLogReplicationFactor, Max(1, r.satelliteTLogUsableDcs))
  }

  /** The largest of `base` and the satellite machines of every region. */
  function MachinesNeeded(base: int, regions: seq<RegionInfo>): (m: int)
    ensures m >= base
    ensures forall i :: 0 <= i < |regions| ==> m >= SatelliteMachines(regions[i])
    ensures m == base || exists i :: 0 <= i < |regions| && m == SatelliteMachines(regions[i])
  {
    if regions == [] then base
    else
      var prefix := regions[..|regions| - 1];
      var last := SatelliteMachines(regions[|regions| - 1]);
      assert forall i :: 0 <= i < |prefix| ==> prefix[i] == regions[i];
      Max(MachinesNeeded(base, prefix), last)
  }

  /** The larger of the remote and primary log replication factors and the storage team size. */
  function BaseMachines(c: DatabaseConfiguration): int
  {
    Max(c.remoteTLogReplicationFactor, Max(c.tLogReplicationFactor, c.storageTeamSize))
  }

  /** minMachinesRequiredPerDatacenter: a running maximum over the regions. */
  method MinMachinesRequiredPerDatacenter(c: DatabaseConfiguration) returns (minRequired: int)
    ensures minRequired == MachinesNeeded(BaseMachines(c), c.regions)
  {
    minRequired := Max(c.remoteTLogReplicationFactor, Max(c.tLogReplicationFactor, c.storageTeamSize));
    for i := 0 to |c.regions|
      invariant minRequired == MachinesNeeded(BaseMachines(c), c.regions[..i])
    {
      assert c.regions[..i + 1][..i] == c.regions[..i];
      minRequired := Max(minRequired, SatelliteMachines(c.regions[i]));
    }
    assert c.regions[..|c.regions|] == c.regions;
  }

  /**
   * The machines needed per datacenter are the maximum of the remote and primary
   * log replication factors, the storage team size and each region's satellite
   * need: at least each of them, and equal to one of them.
   */
  lemma MachinesNeededIsMaximum(c: DatabaseConfiguration)
    ensures var m := MachinesNeeded(BaseMachines(c), c.regions);
      && m >= c.remoteTLogReplicationFactor
      && m >= c.tLogReplicationFactor
      && m >= c.storageTeamSize
      && (forall i :: 0 <= i < |c.regions| ==> m >= SatelliteMachines(c.regions[i]))
      && (m == c.remoteTLogReplicationFactor || m == c.tLogReplicationFactor || m == c.storageTeamSize ||
          exists i :: 0 <= i < |c.regions| && m == SatelliteMachines(c.regions[i]))
  {
  }

  // ---------------------------------------------------------------------------
  // maxMachineFailuresTolerated

  /** The satellite logs of a region that may fail: replication factor less anti-quorum. */
  function SatelliteMargin(r: RegionInfo): int
  {
    r.satelliteTLogReplicationFactor - r.satelliteTLogWriteAntiQuorum
  }

  /** The running minimum of the satellite margins, starting from INT32_MAX. */
  function WorstMargin(regions: seq<RegionInfo>): (w: int)
    ensures w <= INT32_MAX
    ensures forall i :: 0 <= i < |regions| ==> w <= SatelliteMargin(regions[i])
    ensures w == INT32_MAX || exists i :: 0 <= i < |regions| && w == SatelliteMargin(regions[i])
  {
    if regions == [] then INT32_MAX
    else Min(WorstMargin(regions[..|regions| - 1]), SatelliteMargin(regions[|regions| - 1]))
  }

  /** worstSatellite: 0 without regions, otherwise the worst satellite margin. */
  function WorstSatellite(regions: seq<RegionInfo>): int
  {
    if |regions| == 0 then 0 else WorstMargin(regions)
  }

  /** The three formulas of maxMachineFailuresTolerated, chosen in the source's order. */
  function FailuresFormula(replication: int, antiQuorum: int, quorum: int, remote: int, worst: int): int
  {
    if remote > 0 && worst > 0 then
      1 + Min(Max(replication - 1 - antiQuorum, worst - 1), quorum - 1)
    else if worst > 0 then
      Min(replication + worst - 2 - antiQuorum, quorum - 1)
    else
      Min(replication - 1 - antiQuorum, quorum - 1)
  }

  function FailuresTolerated(c: DatabaseConfiguration): int
  {
    FailuresFormula(c.tLogReplicationFactor, c.tLogWriteAntiQuorum, c.durableStorageQuorum,
                    c.remoteTLogReplicationFactor, WorstSatellite(c.regions))
  }

  /** maxMachineFailuresTolerated: scans for the worst satellite, then picks a formula. */
  method MaxMachineFailuresTolerated(c: DatabaseConfiguration) returns (tolerated: int)
    ensures tolerated == FailuresTolerated(c)
  {
    var worstSatellite := if |c.regions| > 0 then INT32_MAX else 0;
    for i := 0 to |c.regions|
      invariant |c.regions| > 0 ==> worstSatellite == WorstMargin(c.regions[..i])
      invariant |c.regions| == 0 ==> worstSatellite == 0
    {
      assert c.regions[..i + 1][..i] == c.regions[..i];
      var r := c.regions[i];
      worstSatellite := Min(worstSatellite, r.satelliteTLogReplicationFactor - r.satelliteTLogWriteAntiQuorum);
    }
    assert c.regions[..|c.regions|] == c.regions;
    if c.remoteTLogReplicationFactor > 0 && worstSatellite > 0 {
      return 1 + Min(Max(c.tLogReplicationFactor - 1 - c.tLogWriteAntiQuorum, worstSatellite - 1),
                     c.durableStorageQuorum - 1);
    } else if worstSatellite > 0 {
      return Min(c.tLogReplicationFactor + worstSatellite - 2 - c.tLogWriteAntiQuorum,
                 c.durableStorageQuorum - 1);
    }
    return Min(c.tLogReplicationFactor - 1 - c.tLogWriteAntiQuorum, c.durableStorageQuorum - 1);
  }

  /**
   * Which formula applies, in terms of the regions: the last one when there are no
   * regions or some region's satellite margin is not positive, the remote one when
   * every margin is positive and remote logs are replicated, the satellite one when
   * every margin is positive and they are not.
   */
  lemma FailuresToleratedCases(c: DatabaseConfiguration)
    ensures (c.regions == [] || exists i :: 0 <= i < |c.regions| && SatelliteMargin(c.regions[i]) <= 0) ==>
              FailuresTolerated(c) ==
                Min(c.tLogReplicationFactor - 1 - c.tLogWriteAntiQuorum, c.durableStorageQuorum - 1)
    ensures c.regions != [] && (forall i :: 0 <= i < |c.regions| ==> SatelliteMargin(c.regions[i]) > 0) ==>
              var w := WorstMargin(c.regions);
              && w > 0
              && (c.remoteTLogReplicationFactor > 0 ==>
                    FailuresTolerated(c) ==
                      1 + Min(Max(c.tLogReplicationFactor - 1 - c.tLogWriteAntiQuorum, w - 1),
                              c.durableStorageQuorum - 1))
              && (c.remoteTLogReplicationFactor <= 0 ==>
                    FailuresTolerated(c) ==
                      Min(c.tLogReplicationFactor + w - 2 - c.tLogWriteAntiQuorum, c.durableStorageQuorum - 1))
  {
  }

  /**
   * The tolerance never exceeds the durable storage quorum, and only the remote
   * formula can reach it.
   */
  lemma FailuresBoundedByQuorum(c: DatabaseConfiguration)
    ensures FailuresTolerated(c) <= c.durableStorageQuorum
    ensures FailuresTolerated(c) == c.durableStorageQuorum ==>
              c.remoteTLogReplicationFactor > 0 && WorstSatellite(c.regions) > 0
  {
  }

  /**
   * More log replicas or a larger quorum never lower the tolerance, and a larger
   * log anti-quorum never raises it.
   */
  lemma FailuresMonotone(c: DatabaseConfiguration, d: DatabaseConfiguration)
    requires d.regions == c.regions && d.remoteTLogReplicationFactor == c.remoteTLogReplicationFactor
    requires d.tLogReplicationFactor >= c.tLogReplicationFactor
    requires d.tLogWriteAntiQuorum <= c.tLogWriteAntiQuorum
    requires d.durableStorageQuorum >= c.durableStorageQuorum
    ensures FailuresTolerated(d) >= FailuresTolerated(c)
  {
  }

  /** Worked values, including a misconfigured cluster whose tolerance is negative. */
  lemma FailuresWorkedValues(c: DatabaseConfiguration, sat: RegionInfo)
    requires c.tLogReplicationFactor == 3 && c.tLogWriteAntiQuorum == 0 && c.durableStorageQuorum == 3
    requires sat.satelliteTLogWriteAntiQuorum == 0
    ensures FailuresTolerated(c.(regions := [])) == 2
    ensures FailuresTolerated(c.(regions := [sat.(satelliteTLogReplicationFactor := 0)])) == 2
    ensures FailuresTolerated(c.(regions := [sat.(satelliteTLogReplicationFactor := 2)],
                                 remoteTLogReplicationFactor := 2)) == 3
    ensures FailuresTolerated(c.(regions := [sat.(satelliteTLogReplicationFactor := 2)],
                                 remoteTLogReplicationFactor := 0)) == 2
    ensures FailuresTolerated(c.(regions := [], tLogWriteAntiQuorum := 3)) == -1
  {
  }
}
