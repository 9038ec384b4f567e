# FoundationDB database configuration: topology and fault-tolerance calculator

This project models the inline logic of `DatabaseConfiguration` in FoundationDB's
client library: the structured configuration that the cluster's control plane decodes
from its key/value configuration table, the region and satellite topology it holds, the
accessors that resolve "automatic" counts, equality on the raw table, and the derived
fault-tolerance quantities (how many log sets a datacenter runs, how many datacenters
and machines per datacenter the topology needs, and how many machine failures it
tolerates).

Modules:

- `Wrappers` (`wrappers.dfy`): `Option`, the C++ `Optional<Key>` of a datacenter id.
- `RawConfiguration` (`raw_configuration.dfy`): bytes, keys, values, the byte-wise
  lexicographic key order and the canonical (sorted by key, keys unique) raw table.
- `Regions` (`regions.dfy`): `SatelliteInfo`, `RegionInfo`, their default-constructed
  values and their `sort_by_priority` comparators.
- `Configuration` (`configuration.dfy`): the `DatabaseConfiguration` record, `getRegion`,
  the `getDesired*` accessors and `operator==`.
- `FaultTolerance` (`fault_tolerance.dfy`): `expectedLogSets`, `minDatacentersRequired`,
  `minMachinesRequiredPerDatacenter` and `maxMachineFailuresTolerated`.

`DatabaseConfiguration` is a record (`datatype`): the members modelled here
(`getRegion`, the `getDesired*` accessors and the calculator) change no field.
`operator==`, `fromKeyValues` and `serialize` do change fields, through
`makeConfigurationImmutable`, `resetInternal` and `setInternal`, whose bodies are not in
the header. Each C++ `const` member that loops over `regions` is a method
with a loop, proved equal to a recursive specification function (`RegionFor`,
`DatacentersNeeded`, `MachinesNeeded`, `WorstSatellite`/`FailuresTolerated`); what the
quantity promises is proved about that function. `int32_t` fields are `int`; C++'s
truncating `/` is written out as `TruncDiv`.

Edge cases of the calculator and the lookup, as the code decides them:

- Without regions `worstSatellite` starts at 0 (fdbclient/DatabaseConfiguration.h:129),
  so the last formula applies.
- A region whose satellite replication factor minus anti-quorum is 0 or less makes
  `worstSatellite` 0 or less, so the last formula applies
  (fdbclient/DatabaseConfiguration.h:138). One region with satellite replication 0 and
  primary replication 3, anti-quorum 0, durable storage quorum 3 tolerates
  `min(2, 2) = 2` failures (`FailuresWorkedValues`).
- Nothing defined in the header rejects duplicate datacenter ids across regions; the
  lookup answers the first match (`RegionForIsFirstMatch`), and with unique ids it
  answers the one region that has the id (`LookupOfUniqueDc`).

## Model

| member | source | states |
|---|---|---|
| `Regions.DEFAULT_REGION` | fdbclient/DatabaseConfiguration.h:60 | the default-constructed region: priority 0, satellite log count -1, satellite replication 0, anti-quorum 0, one usable satellite datacenter, no satellites, empty id, no policy |
| `Regions.SatelliteSortByPriority` | fdbclient/DatabaseConfiguration.h:39 | a satellite goes before another exactly when its priority is higher |
| `Regions.RegionSortByPriority` | fdbclient/DatabaseConfiguration.h:63 | a region goes before another exactly when its priority is higher |
| `Regions.SortByPriorityIsStrictWeakOrder` | fdbclient/DatabaseConfiguration.h:38-64 | both `sort_by_priority` comparators (lines 39 and 63, higher priority first) are irreflexive, transitive, and incomparability is transitive, so they are valid sort orders |
| `Regions.SatellitesSortedByNeighbours` | fdbclient/DatabaseConfiguration.h:38-40 | a satellite list in which no element should precede its predecessor under the comparator is sorted throughout, and its first satellite has the highest priority |
| `Regions.RegionsSortedByNeighbours` | fdbclient/DatabaseConfiguration.h:62-64 | the same for the region list under the region comparator |
| `Configuration.FirstMatch` | fdbclient/DatabaseConfiguration.h:91-95 | the scan stops at the first region whose datacenter id is the one sought: every earlier region has another id, and the index is the list length when no region has it |
| `Configuration.GetRegion` | fdbclient/DatabaseConfiguration.h:87-97 | the early-return loop answers exactly `RegionFor`: the default region without a datacenter id, else the first matching region, else the default region |
| `Configuration.RegionForIsFirstMatch` | fdbclient/DatabaseConfiguration.h:87-97 | the lookup gives the default region (priority 0, satellite log count -1, satellite replication 0, anti-quorum 0, one usable DC, no satellites; line 60) when the id is absent or unmatched, and otherwise a region with that id preceded by none with it |
| `Configuration.LookupOfUniqueDc` | fdbclient/DatabaseConfiguration.h:87-97 | when no two regions share a datacenter id, looking up a region's own id returns that region |
| `Configuration.GetDesiredProxies` | fdbclient/DatabaseConfiguration.h:175 | the automatic proxy count when the explicit count is -1, the explicit count otherwise |
| `Configuration.GetDesiredResolvers` | fdbclient/DatabaseConfiguration.h:176 | the automatic resolver count when the explicit count is -1, the explicit count otherwise |
| `Configuration.GetDesiredLogs` | fdbclient/DatabaseConfiguration.h:177 | the automatic log count when the explicit count is -1, the explicit count otherwise |
| `Configuration.GetDesiredRemoteLogs` | fdbclient/DatabaseConfiguration.h:178 | the primary's desired log count when the remote count is -1, the remote count otherwise |
| `Configuration.GetDesiredSatelliteLogs` | fdbclient/DatabaseConfiguration.h:179-182 | the automatic log count when the looked-up region's satellite count is -1, that count otherwise |
| `Configuration.AutoFallbackReadsThrough` | fdbclient/DatabaseConfiguration.h:175-177 | proxies, resolvers and logs return the automatic count exactly when the explicit count is -1 and the explicit count otherwise; a new automatic count shows through the accessor exactly when the explicit count is -1 |
| `Configuration.RemoteLogsFallBackToLogs` | fdbclient/DatabaseConfiguration.h:178 | the remote log count is its explicit value unless -1, then the primary's desired log count, which is the automatic log count only when the primary's count is -1 too |
| `Configuration.SatelliteLogsFallBack` | fdbclient/DatabaseConfiguration.h:179-182 | the satellite log count is the automatic log count for an absent or unknown datacenter (the default region holds -1) and for a region holding -1, and the region's own count otherwise |
| `Configuration.Equals` | fdbclient/DatabaseConfiguration.h:184-188 | two configurations are equal when their raw tables are the same sequence |
| `Configuration.EqualsIffSameEntries` | fdbclient/DatabaseConfiguration.h:184-188 | on raw tables in canonical form (sorted by key, line 211) equality holds exactly when both tables hold the same entries; the decoded fields take no part |
| `Configuration.EqualsIsEquivalence` | fdbclient/DatabaseConfiguration.h:184-188 | equality is reflexive, symmetric and transitive |
| `RawConfiguration.CanonicalIsUnique` | fdbclient/DatabaseConfiguration.h:211 | two tables sorted strictly by key that hold the same entries are the same sequence, so comparing canonical tables compares their contents |
| `FaultTolerance.ExpectedLogSets` | fdbclient/DatabaseConfiguration.h:99-109 | the count is 1 for the primary plus 1 when a datacenter id is given and its region's satellite replication factor is positive plus 1 when the remote replication factor is positive; so it is between 1 and 3, 3 exactly when both extra sets exist, 1 exactly when neither does |
| `FaultTolerance.MinDatacentersRequired` | fdbclient/DatabaseConfiguration.h:112-118 | the accumulating loop returns the sum over regions of 1 plus the region's satellite count |
| `FaultTolerance.DatacentersNeededAtLeastRegions` | fdbclient/DatabaseConfiguration.h:112-118 | that sum is 0 without regions and at least the number of regions |
| `FaultTolerance.DatacentersNeededReplace` | fdbclient/DatabaseConfiguration.h:112-118 | replacing one region changes the sum by exactly the change in that region's 1 + satellite count |
| `FaultTolerance.AddSatelliteNeedsOneMore` | fdbclient/DatabaseConfiguration.h:112-118 | adding a satellite to any one region raises the datacenters required by exactly 1 |
| `FaultTolerance.TruncDiv` | fdbclient/DatabaseConfiguration.h:122 | the C++ quotient truncated toward zero: its product with the divisor lies within one divisor of the dividend, between it and zero |
| `FaultTolerance.MachinesNeeded` | fdbclient/DatabaseConfiguration.h:121-123 | the running maximum is at least its start and every region's satellite replication factor divided by max(1, usable satellite DCs), and equals one of them |
| `FaultTolerance.MinMachinesRequiredPerDatacenter` | fdbclient/DatabaseConfiguration.h:119-125 | the loop returns `MachinesNeeded` started from the largest of the remote and primary log replication factors and the storage team size |
| `FaultTolerance.MachinesNeededIsMaximum` | fdbclient/DatabaseConfiguration.h:119-125 | the machines needed per datacenter are at least the remote replication factor, the log replication factor, the storage team size and each region's satellite need, and equal one of them |
| `FaultTolerance.WorstMargin` | fdbclient/DatabaseConfiguration.h:129-132 | the minimum starting from INT32_MAX is at most INT32_MAX and every region's satellite replication factor minus anti-quorum, and equals INT32_MAX or one of them |
| `FaultTolerance.FailuresFormula` | fdbclient/DatabaseConfiguration.h:133-138 | the three formulas in the source's order: the remote one when remote replication and worstSatellite are positive, the satellite one when only worstSatellite is, the last one otherwise |
| `FaultTolerance.FailuresTolerated` | fdbclient/DatabaseConfiguration.h:128-139 | the formula applied to the log replication factor, anti-quorum, durable storage quorum, remote replication factor and worstSatellite of the configuration |
| `FaultTolerance.MaxMachineFailuresTolerated` | fdbclient/DatabaseConfiguration.h:128-139 | the loop and the branches return `FailuresTolerated`: worstSatellite is 0 without regions, else the worst satellite margin, and exactly one of the three formulas applies, in the source's order |
| `FaultTolerance.FailuresToleratedCases` | fdbclient/DatabaseConfiguration.h:133-138 | without regions or with a region whose satellite margin is not positive the last formula applies; with all margins positive the remote formula applies when remote logs are replicated and the satellite formula when they are not |
| `FaultTolerance.FailuresBoundedByQuorum` | fdbclient/DatabaseConfiguration.h:133-138 | the tolerance never exceeds the durable storage quorum, and reaches it only through the remote formula |
| `FaultTolerance.FailuresMonotone` | fdbclient/DatabaseConfiguration.h:133-138 | with the same regions and remote factor, a larger log replication factor or storage quorum or a smaller anti-quorum never lowers the tolerance |
| `FaultTolerance.FailuresWorkedValues` | fdbclient/DatabaseConfiguration.h:128-139 | replication 3, anti-quorum 0, quorum 3 gives 2 without regions, 2 with one region of satellite replication 0, 3 with satellite replication 2 and remote replication 2, 2 with satellite replication 2 and no remote; anti-quorum 3 gives -1 (no clamping) |

## Left out

- `set`, `clear`, `applyMutation`, `get`, `isValid`, `toString`, `toJSON`, `setInternal`, `resetInternal`, `setDefaultReplicationPolicy`, `makeConfigurationMutable` and `makeConfigurationImmutable` are declared in the header but their bodies are not part of this model, so key decoding, recovery classification and canonicalisation are not modelled.
- `fromKeyValues` resets the structured fields (`resetInternal`), stores the given table as the raw table, decodes every entry (`setInternal`) and applies the default replication policies (`setDefaultReplicationPolicy`); the bodies of those three are not in the header, so the update in place of the fields and the raw table is not modelled.
- `DatabaseConfiguration`'s `serialize` first converts to the sorted raw table (`makeConfigurationImmutable`) when writing; when reading, it overwrites the raw table, decodes every entry (`setInternal`) and applies the default replication policies. Those bodies are not in the header, so this update in place is not modelled. The rest of `serialize` is archive plumbing.
- `Configuration.Equals`: the mutable key/value map and the conversion to the sorted table that `operator==` performs in place on both objects first (`makeConfigurationImmutable`) are not modelled; the model compares raw tables that are already in their sorted form.
- `isExcludedServer` and `getExcludedServers` depend on network address types that are not part of this model.
- Replication policies are kept as opaque values (`PolicyRef`) and store types as opaque tags (`KeyValueStoreType`); they are never evaluated here.
- The `serialize` templates of `SatelliteInfo` and `RegionInfo` are archive plumbing and are not modelled.
- The `initialized` flag is carried in the record; nothing defined in the header reads it.
- `FaultTolerance.MaxMachineFailuresTolerated`: 32-bit overflow of the intermediate sums is not modelled (integers are unbounded); the model agrees with the C++ whenever no intermediate value overflows.
- `FaultTolerance.MinDatacentersRequired`: the conversion of the `size_t` sum to `int` is not modelled.
- Copy-on-write sharing and concurrency play no part in the code defined in the header.
