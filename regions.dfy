/**
 * The region topology: a region is a primary datacenter with its satellite
 * datacenters and the satellite transaction-log parameters; satellites and
 * regions are each ordered by descending priority.
 */
module Regions {
  import opened RawConfiguration

  /** A replication policy, kept as the opaque value the decoder stored; it is never evaluated here. */
  datatype PolicyRef = NoPolicy | Policy(blob: Value)

  datatype SatelliteInfo = SatelliteInfo(dcId: Key, priority: int)

  datatype RegionInfo = RegionInfo(
    dcId: Key,
    priority: int,
    satelliteTLogPolicy: PolicyRef,
    satelliteDesiredTLogCount: int,
    satelliteTLogReplicationFactor: int,
    satelliteTLogWriteAntiQuorum: int,
    satelliteTLogUsableDcs: int,
    satellites: seq<SatelliteInfo>)

  /**
   * The value a default-constructed RegionInfo holds: priority 0, the automatic
   * satellite log count (-1), no satellite replication, no anti-quorum, one
   * usable satellite datacenter and no satellites.
   */
  const DEFAULT_REGION := RegionInfo([], 0, NoPolicy, -1, 0, 0, 1, [])

  /** SatelliteInfo::sort_by_priority: `a` goes first when its priority is higher. */
  predicate SatelliteSortByPriority(a: SatelliteInfo, b: SatelliteInfo)
  {
    a.priority > b.priority
  }

  /** RegionInfo::sort_by_priority: `a` goes first when its priority is higher. */
  predicate RegionSortByPriority(a: RegionInfo, b: RegionInfo)
  {
    a.priority > b.priority
  }

  /** Priorities that never increase along the sequence. */
  predicate Descending(p: seq<int>)
  {
    forall i, j :: 0 <= i < j < |p| ==> p[j] <= p[i]
  }

  /**
   * Both comparators are strict weak orders, as a sort requires of them:
   * irreflexive, transitive, and with "neither goes first" transitive too.
   */
  lemma SortByPriorityIsStrictWeakOrder(a: SatelliteInfo, b: SatelliteInfo, c: SatelliteInfo,
                                        x: RegionInfo, y: RegionInfo, z: RegionInfo)
    ensures !SatelliteSortByPriority(a, a)
    ensures SatelliteSortByPriority(a, b) && SatelliteSortByPriority(b, c) ==> SatelliteSortByPriority(a, c)
    ensures !SatelliteSortByPriority(a, b) && !SatelliteSortByPriority(b, a) &&
            !SatelliteSortByPriority(b, c) && !SatelliteSortByPriority(c, b) ==>
            !SatelliteSortByPriority(a, c) && !SatelliteSortByPriority(c, a)
    ensures !RegionSortByPriority(x, x)
    ensures RegionSortByPriority(x, y) && RegionSortByPriority(y, z) ==> RegionSortByPriority(x, z)
    ensures !RegionSortByPriority(x, y) && !RegionSortByPriority(y, x) &&
            !RegionSortByPriority(y, z) && !RegionSortByPriority(z, y) ==>
            !RegionSortByPriority(x, z) && !RegionSortByPriority(z, x)
  {
  }

  /** Checking neighbours is enough: priorities that never rise from one to the next never rise at all. */
  lemma {:induction false} DescendingByNeighbours(p: seq<int>)
    requires forall i :: 0 < i < |p| ==> p[i] <= p[i - 1]
    ensures Descending(p)
  {
    if |p| > 1 {
      DescendingByNeighbours(p[1..]);
      forall i, j | 0 <= i < j < |p|
        ensures p[j] <= p[i]
      {
        assert p[j] == p[1..][j - 1];
        if i > 0 {
          assert p[i] == p[1..][i - 1];
        } else {
          assert p[1] == p[1..][0] && p[1] <= p[0];
        }
      }
    }
  }

  /**
   * A satellite list in which no satellite should go before its predecessor under
   * the comparator has descending priorities, the first satellite's the highest.
   */
  lemma SatellitesSortedByNeighbours(s: seq<SatelliteInfo>)
    requires forall i :: 0 < i < |s| ==> !SatelliteSortByPriority(s[i], s[i - 1])
    ensures forall i, j :: 0 <= i < j < |s| ==> s[j].priority <= s[i].priority
    ensures forall i :: 0 <= i < |s| ==> s[i].priority <= s[0].priority
  {
    var p := seq(|s|, i requires 0 <= i < |s| => s[i].priority);
    assert forall i :: 0 <= i < |s| ==> p[i] == s[i].priority;
    DescendingByNeighbours(p);
  }

  /** The same for a region list under the region comparator. */
  lemma RegionsSortedByNeighbours(s: seq<RegionInfo>)
    requires forall i :: 0 < i < |s| ==> !RegionSortByPriority(s[i], s[i - 1])
    ensures forall i, j :: 0 <= i < j < |s| ==> s[j].priority <= s[i].priority
    ensures forall i :: 0 <= i < |s| ==> s[i].priority <= s[0].priority
  {
    var p := seq(|s|, i requires 0 <= i < |s| => s[i].priority);
    assert forall i :: 0 <= i < |s| ==> p[i] == s[i].priority;
    DescendingByNeighbours(p);
  }
}
