# Verification of the risk collection pipeline

The adapter reads hosts, VMs, stats and properties from the Suite API once per cycle, turns them into risk metrics
per cluster and per host, scores them, and publishes the result onto the native objects. This project models that
pipeline from the first request to the published attributes, in exact arithmetic, and proves what it promises for every
server, every inventory and every run.

How the modules follow the program:

- `Common`, `Sums`: optional values, exceptions, sums over dictionaries.
- `Constants`, `Thresholds`, `Projections`: the tables (stat and property keys, metric keys, bounds, weights, attribute names).
- `Server`: what the Suite API may answer. Request number n of a cycle gets an arbitrary reply: a body, a non-2xx status,
  an exception, or a body that its caller cannot read. Nothing more is assumed unless a lemma says so (`Healthy`: no
  request fails; `Honest`: requests may fail, but a body that is read is true).
- `SuiteApi`, `BulkReads`, `Inventory`: the counters of a cycle (`CallStats`), the chunked bulk reads with two-pass staleness,
  and the paged inventory query, imperative as in the source; `BulkTheorems` holds what they mean. Every operation keeps
  `CallStats.Valid`: calls and failures are those of the log of requests, stale plus returned samples are the picked ones,
  the counts per key sum to `stale`, and `newestMs` is the newest timestamp of all reads of the cycle so far.
- `Samples`, `Traversal`, `Cluster`: the nested host and VM walk and the cluster-only metrics; `TraversalTheorems`; `Readings`:
  that the metrics depend on their readings only; `Meanings`: what each derived value says of its readings.
- `Gathering`: what the replies say of one cluster, and what of it is kept from a given newest sample on, for every server;
  `Fetching`: the methods that read one cluster's snapshot, each proved equal to it, whether it returns or raises;
  `GatherTheorems`, and `Worlds` for a healthy and for an honest server.
- `NonInterference`: powered-off VMs; `Losses`: what lost readings become.
- `Scoring`, `ScoringTheorems`, `BandTheorems`, `ScoringExamples`: bands and the composite; `HostExamples`: a host with a DRAM
  tier, and an orange one as it is published.
- `Pipeline`: from one walk to the bands of the cluster and of its hosts.
- `NativeProjection`, `ProjectionTheorems`, `Adapter`, `Cycle`, `CycleTheorems`: publishing, one cluster's iteration, the whole cycle, its verdict;
  `Isolation`: what a failed iteration does to the others; `Runs`: concrete cycles, each a call of `Cycle.Collect`.

Some promises of the documentation do not hold of the code. The model follows the code; each has a concrete input and the
condition under which it does hold:

- `docs/METRICS.md:201-205` says that only an unknown metric turning green can lower the score. Any metric that starts to
  count lowers the unrounded score exactly when the old weighted average exceeds its floor: an excluded-when-green
  metric that leaves green (`LeaveGreen`, `WorseMetricCanLowerScore`), and an unknown one that turns yellow or orange as well as
  green (`UnknownBecomesKnown`, `UnknownToYellowCanLowerScore`). `OneKeyChange` covers every change of one key.
- `docs/METRICS.md:26-29` takes the newest sample of the same request as the staleness reference. The code keeps one reference
  for the whole cycle. The two agree exactly when everything fresh within its own request is within the limit of the newest
  sample known before it (`CycleWideReference`, `CycleReferenceDropsASample`).
- `app/adapter.py:161` says that one cluster failing must never lose the others. Every iteration, also one that is interrupted or
  raises, leaves the newest sample of its completed reads as the reference of the later ones. Whatever else fails, these
  keep what they would without it exactly when every sample that they then keep is within 10 minutes of that reference
  (`FailedIterationIsFelt`, `FailedIterationPublishes`). In `FailedClusterDropsASample` a cluster fails after its own stats were
  read, and the value of the next one is lost.
- The repository's `README.md:50-51` says that a value whose call failed is never a guess. That is true of everything read
  (`HonestCluster`, `WorstIsARealVm`), but not of values derived from what is left. A failed child listing leaves a host without
  VMs; a failed chunk of the VM properties takes away those of its VMs that are in it, which may be some or all; a failed
  chunk of the VM stats takes away sizes. An overcommit ratio is then the sum of the sizes that are left: it stays what it
  was exactly when the capacity is not known, or the native total is, or the lost sizes sum to 0 (`OvercommitUnderLoss`,
  `OvercommitUnderLossOfPositive`, `OvercommitGuess`, `PartialOvercommit`). A monster ratio is then that of the VMs that are
  left, and 0 when none is: it stays what it was exactly when the monster size is not known, or some largest known VM is
  still known, or no size was known and VMs are left or there were none, or it was 0 and no VM is left (`MonsterUnderLoss`,
  `EmptyListingReadsAsNoVms`, `LostPowerStatesReadAsNoVms`, `FewerStatesFewerVms`). Lost hyper-threading properties read as "not hyper-threaded" and halve
  the imbalance ratio (`ImbalanceUnderLoss`, `LostHyperThreading`). Maxima and P90 are taken over the samples that are left;
  the maxima never look worse for it (`FewerSamplesHost`), a P90 may (`LosingASampleCanRaiseP90`).
- The repository's `README.md:45-48` says that every stats call failing is an error. It is one exactly when, besides, no
  listing and no properties call succeeded, or every cluster was lost; without an error, too, nothing that is published then
  holds a known value (`EveryStatsCallFailed`, `AnsweredListingHidesFailedStats`).
- `app/adapter.py:271-274` says that an error means that nothing usable was collected. A known value is lost with an error
  exactly when some iteration had published one before a lookup of a native object raised something that it does not
  handle (`ErrorLosesNothing`, `InterruptedClusterLosesValues`). That input is hypothetical: the lookup of
  `app/native_projection.py:31-50` handles three types of exceptions, and no resource key is given here that makes it
  raise another one. Without it an error loses nothing.
- `app/suite_api.py:138-139` says that the inventory query raises `SuiteApiError` on any failed page. It does exactly when the first
  page that is not answered has a non-2xx status. A page that raises or cannot be read leaves as another exception, and the
  cycle has the unexpected error instead (`FailureCause`, `RunLostInventory`).
- `app/suite_api.py:133-139` presents the inventory query as reading all pages. Of an inventory whose pages report its true total
  or none, it returns everything exactly when every page before the last needed one reports it (`WholeInventoryNeedsTotals`,
  `SecondPageWithoutTotal`).

## Model

| member | source | states |
|---|---|---|
| `Samples.P90AtRank` | app/traversal.py:98-106 | the P90 of any non-empty samples is one of them; at least 90 % of the samples are at most it and fewer than 90 % are strictly below it |
| `Samples.P90IsSmallest` | app/traversal.py:98-106 | no smaller value has 90 % of the samples at or below it |
| `Samples.AtRank90Unique` | app/traversal.py:98-106 | the counting property determines the P90: two values that have it are equal |
| `Samples.RankInBounds` | app/traversal.py:105-106 | the nearest-rank index lies within the list for every percentage from 0 to 1 |
| `Samples.SortedCounts` | app/traversal.py:268 | sorting keeps how many samples lie at or below, and strictly below, any value |
| `Samples.PoolP90Between` | app/traversal.py:98-106 | the P90 of pooled samples lies between the smallest and the largest P90 of the non-empty parts, for any number of parts |
| `Samples.PoolWorst` | app/traversal.py:268-270 | the largest pooled sample is the largest of the parts' largest samples |
| `Samples.WorstIsWorst` | app/traversal.py:255-257 | the worst of optional values is no data exactly when all are, else one of them and none is larger |
| `Samples.LosingASampleCanRaiseP90` | app/traversal.py:98-106 | P90 is not monotone under sample loss: a concrete list whose P90 rises from 1 to 10 when one sample goes |
| `Traversal.WorstAndP90` | app/traversal.py:268-274 | sorting, taking the last and the ranked element gives the maximum and the P90 of the samples, or neither when there are none |
| `Traversal.WorstP90Into` | app/traversal.py:260-274 | every bucket's two keys are written, from its own samples, and no other key is touched |
| `Traversal.WalkVms` | app/traversal.py:332-354 | the VM loop appends each known sample to the host's and to the cluster's list of its bucket, and keeps totals that are the sums of the known sizes |
| `Traversal.CollectHost` | app/traversal.py:296-394 | one iteration of the host loop makes the host's record out of that host alone, and appends its samples to the cluster's lists |
| `Traversal.WalkHosts` | app/traversal.py:285-394 | the nested loop yields one record per host in order, the six lists of known host values, and the pooled samples of all hosts |
| `Traversal.CollectClusterAndHostMetrics` | app/traversal.py:277-417 | the walk computes, from the same samples, every cluster metric and every host record of their definitions by host and by key |
| `TraversalTheorems.ClusterIsWorstHost` | app/traversal.py:399-415 | on each of the ten max-rolled keys the cluster's value is no data exactly when all hosts' are, else the largest of the hosts' values |
| `TraversalTheorems.ClusterP90BetweenHosts` | app/traversal.py:260-274 | the cluster's pooled P90 is no data exactly when every host's is, else between the smallest and the largest P90 of its hosts |
| `TraversalTheorems.P90AtMostWorst` | app/traversal.py:268-274 | worst and P90 are known together and P90 never exceeds worst |
| `TraversalTheorems.FewerSamplesHost` | app/traversal.py:339-372 | with fewer known VM stats each worst and each monster ratio of a host is no data or at most what it was |
| `TraversalTheorems.FewerSamplesCluster` | app/traversal.py:399-415 | the same for each worst and monster ratio of the cluster |
| `TraversalTheorems.UnknownVmsNoData` | app/traversal.py:244-252 | a host with VMs none of whose stats is known has no worst, no P90 and no monster ratio |
| `TraversalTheorems.HostMonsterAbove1` | app/traversal.py:205-211 | a host's memory ratio exceeds 1 exactly when some VM's known memory exceeds the cap or the percentage of its DRAM, or, without a DRAM value, of its provisioned memory; its CPU ratio likewise against the core percentage |
| `TraversalTheorems.ClusterMonsterAbove1` | app/traversal.py:399-401 | a cluster's monster ratio exceeds 1 exactly when some host's does |
| `Meanings.MemoryIsDram` | app/traversal.py:205-211 | ballooned percentage, zip swap percentage, memory overcommit and memory monster ratio of a host are taken of its DRAM when that is known and not zero, and otherwise of what is provisioned: each value times that memory gives back the reading |
| `Meanings.ProvisionedIgnored` | app/traversal.py:205-211 | while hosts' DRAM is known, no change of what is provisioned on them changes any value of a host or of the cluster |
| `HostExamples.TieredHostReadsDram` | app/traversal.py:205-211 | a host with 100 GB of DRAM in 400 GB provisioned, VMs of 200 GB and 4 GB ballooned reads 2 and 4 %, and 0.5 and 1 % when its DRAM is not known |
| `Meanings.CpuReadings` | app/traversal.py:325-391 | reservation, CPU overcommit and CPU monster ratio: each value times the capacity, the cores, or the percentage of them gives back what it is made of, and it is known exactly when that is and the divisor is not zero |
| `Meanings.ImbalanceReading` | app/traversal.py:224-241 | the imbalance ratio times the core utilization is the thread utilization, or twice that when both properties read "true"; 1 for an idle host, no data for threads running on idle cores or a missing reading |
| `Meanings.HostReadings` | app/traversal.py:299-318 | thread utilization, memory consumed, memory reservation, memory contention and dropped packets are the host's own readings of these |
| `Readings.ReadingsDecide` | app/traversal.py:277-417 | snapshots with the same readings have the same host records and cluster metrics; of a host's memory only the DRAM is read when that is known, and only what is provisioned otherwise |
| `Losses.OvercommitGuess` | app/traversal.py:334-362 | the overcommit ratios are known exactly when the capacity is; without a native total, and with positive sizes, they read 0 exactly when the capacity is known and no VM size is |
| `Losses.OvercommitUnderLoss` | app/traversal.py:339-385 | when VMs or VM stats are lost, an overcommit ratio stays what it was exactly when the capacity is not known, or the native total is, or the sizes lost, with their VM or alone, sum to 0; it never becomes no data |
| `Losses.OvercommitUnderLossOfPositive` | app/traversal.py:339-385 | with positive sizes: exactly when the capacity is not known, or the native total is, or every VM whose size was known is still there with its size |
| `Losses.PartialOvercommit` | app/traversal.py:339-385 | VMs of 8 and 24 vCPUs on 16 cores read 2, and 0.5 when the larger one's stats are lost, or its power state and with it the VM |
| `Losses.MonsterUnderLoss` | app/traversal.py:244-252 | when VMs or VM stats are lost, a monster ratio stays what it was exactly when the monster size is not known, or some largest known VM is still there with its size, or no size was known and VMs are left or there were none, or the ratio was 0 and no VM is left |
| `Losses.FewerStatesFewerVms` | app/traversal.py:188-191 | with fewer known power states each host keeps exactly those of its VMs that they give as on |
| `Losses.ImbalanceUnderLoss` | app/traversal.py:224-241 | when properties are lost the imbalance ratio stays what it was exactly when the host is not hyper-threaded, or is still known to be, or the ratio has no data, or no thread runs; otherwise it is halved |
| `Losses.LostHyperThreading` | app/traversal.py:232-236 | an evenly loaded hyper-threaded host reads 2, red, and 1, green, when its properties are lost |
| `Losses.LostPowerStatesReadAsNoVms` | app/traversal.py:185-191 | whatever chunks of the VM properties fail, the VMs kept are exactly those of answered chunks that are on; none is kept exactly when no such VM is on |
| `TraversalTheorems.EmptyListingReadsAsNoVms` | app/suite_api.py:303-304 | with an empty VM list, as a failed listing leaves it, a monster ratio is 0 whenever the host's capacity is known |
| `SuiteApi.Newest` | app/suite_api.py:250-252 | the newest timestamp after a read is the largest of the previous one and all picked timestamps: at least all of them, and one of them |
| `SuiteApi.FreshWithin` | app/suite_api.py:184-195 | a picked stat counts exactly when its last timestamp is at most 10 minutes behind the newest sample and at most 15 behind the clock |
| `SuiteApi.CallStats.Request` | app/suite_api.py:105-122 | every request is counted once, a failed one as exactly one failure; a failed status is no body, an exception is raised again |
| `SuiteApi.CallStats.Reset` | app/suite_api.py:56-62 | a new cycle starts from zero counters that satisfy the invariant |
| `SuiteApi.CallStats.CountStale` | app/suite_api.py:73-75 | one more stale stat, under its own key only, and the per-key counts still sum to the total |
| `SuiteApi.CallStats.FreshValue` | app/suite_api.py:184-195 | the value is returned exactly when its timestamp is fresh, else exactly one stale stat is counted under its key; the newest timestamp moves first |
| `SuiteApi.CallStats.NoteNewest` | app/suite_api.py:250-252 | the first pass, in any order, leaves the largest of the old reference and all timestamps |
| `SuiteApi.CallStats.Judge` | app/suite_api.py:253-258 | the second pass, in any order, returns exactly the fresh samples, leaves the reference as it is, and counts each of the others as stale under its own key |
| `BulkReads.Chunks` | app/suite_api.py:198-199 | no chunk is empty or longer than 200 |
| `BulkReads.ChunksCover` | app/suite_api.py:198-199 | the chunks, joined, are the ids in order with nothing lost or repeated, and there are no more of them than needed |
| `BulkReads.Sent` | app/suite_api.py:230-237 | a chunked read sends all its requests, or those up to and including the first whose reply raises |
| `BulkReads.BulkLatestStats` | app/suite_api.py:219-258 | the chunked two-pass read returns exactly the picked samples that are fresh against the cycle's new reference, and stale plus returned grows by what was picked; an exception in a chunk ends the requests there and leaves the reference and the sample counters as they were |
| `BulkReads.BulkLatestProperties` | app/suite_api.py:261-291 | the properties of all chunks that were answered, or the exception of the first that raised |
| `BulkTheorems.AggregateInstance` | app/suite_api.py:202-205 | the aggregate instance is put between the group, up to the first bar, and the rest; a key without a bar stays |
| `BulkTheorems.PickedStat` | app/suite_api.py:208-216 | a requested key is answered by the last value of its own last entry with data, only without one by that of its aggregate instance, and by nothing else |
| `BulkTheorems.FoundProperty` | app/suite_api.py:280-291 | a property is found exactly when it is requested and some entry of it has values, and is then the last value of the last such entry |
| `BulkTheorems.NewestIsMaxOfAll` | app/suite_api.py:56-61 | over any sequence of reads the reference is the largest timestamp any of them picked, or 0 |
| `BulkTheorems.NewestNeverDecreases` | app/suite_api.py:250-252 | the reference never decreases |
| `BulkTheorems.ReadIsSurvivorsValues` | app/suite_api.py:229-249 | a chunked read collects exactly what the server holds of the resources whose chunk was answered |
| `BulkTheorems.ChunkingIrrelevant` | app/suite_api.py:198-199 | without failures the result depends neither on chunk size, nor on chunk order, nor on the order of entries in a reply |
| `BulkTheorems.FailedRunKeepsSurvivors` | app/suite_api.py:236-237 | a run with failed chunks picks, for the surviving resources, the very samples of the run without failures |
| `BulkTheorems.FailedChunksLoseOnlyTheirOwn` | app/suite_api.py:230-258 | of two reads of the same ids from the same newest sample, one with failed chunks: what the whole one returns for the surviving ids the other returns with the same values, and nothing for any other id; anything it returns besides is a sample judged stale in the whole one only because a failed chunk carried the newest timestamp |
| `BulkTheorems.CycleWideReference` | app/suite_api.py:252 | the cycle-wide reference and the documented per-request one give the same result exactly when every sample fresh in its request is within the limit of the newest known before |
| `BulkTheorems.LaterReferenceKeeps` | app/suite_api.py:250-258 | the same reads from a later reference keep the same exactly when everything they keep from the earlier one is within 10 minutes of the later one, and never anything else |
| `BulkTheorems.CycleReferenceDropsASample` | app/suite_api.py:252 | a concrete sample that is fresh within its request and dropped by the cycle-wide reference |
| `Inventory.QueryResources` | app/suite_api.py:133-159 | for every server for which the query ends, it asks for pages 0, 1, 2, ... once each until the last reply's total is reached, returns normally only if every page was answered, and raises on the first that was not |
| `Inventory.BoundedTotalsEnd` | app/suite_api.py:144-158 | the query ends whenever the reported totals are bounded and every page reports one, or no page is longer than asked for |
| `Inventory.LongPagesNeverEnd` | app/suite_api.py:156-157 | the query never ends when every page is longer than asked for and none reports a total |
| `Inventory.OneRun` | app/suite_api.py:144-159 | from a given request on, the replies decide whether the query returns or raises, and what it returns |
| `Inventory.FailureCause` | app/suite_api.py:144-155 | the query raises `SuiteApiError` exactly when the first page that is wanted and not answered has a non-2xx status, and the other exception exactly when that page raises or cannot be read |
| `Inventory.StableInventory` | app/suite_api.py:144-159 | against a stable inventory with an honest total a run returns it in order, without loss or repeat, after exactly max(1, ceil(n/1000)) requests |
| `Inventory.WholeInventoryNeedsTotals` | app/suite_api.py:144-159 | of an inventory whose pages report its true total or none, a run returns the first pages in order, and all of it exactly when every page before the last needed one reports the total |
| `Inventory.MissingTotalEndsQuery` | app/suite_api.py:156-157 | a page without a total is the last one, however many resources there are, when no page is longer than asked for |
| `Inventory.SecondPageWithoutTotal` | app/suite_api.py:156-157 | 2500 resources whose total is missing on the second page are a normal return of 2000 |
| `Inventory.Named` | app/suite_api.py:166-169 | ids and names of all entries in order, or an exception when some entry has no key |
| `Inventory.LastKeyWins` | app/suite_api.py:172-181 | an id has the key of its last entry with one, and none exactly when it has no such entry |
| `Inventory.FetchResources` | app/suite_api.py:162-169 | the listing of a complete run; it raises exactly as the query or the reading of an entry does |
| `Inventory.FetchResourceKeys` | app/suite_api.py:172-181 | the keys by id of a complete run; it raises exactly as the query does |
| `Inventory.FetchChildrenOfKind` | app/suite_api.py:294-309 | one counted request; the children of the kind in order, an empty list when the request failed |
| `Inventory.KindInOrder` | app/suite_api.py:305-309 | exactly the children of the kind, each as often as it is listed, in the order of the listing |
| `Constants.EveryReadIsRequested` | app/traversal.py:113-133 | every stat and property any metric reads is among those the snapshot requests, so the key check of the snapshot never raises |
| `Fetching.ListVms` | app/traversal.py:177-180 | for every server: one listing request per host, up to the first whose reply raises; a failed listing is an empty one, one that raises is the exception of all |
| `Fetching.ReadProps` | app/traversal.py:182-186 | for every server: the properties of all hosts, then those of all VMs over them, or the first exception; neither hosts nor VMs are no request |
| `Fetching.ReadAllStats` | app/traversal.py:194-199 | for every server: the reads of the cluster, its hosts and its VMs that are on, each judged against the newest sample the previous ones left; when one raises, the newest sample is that of the completed ones |
| `Fetching.FetchClusterSnapshot` | app/traversal.py:169-202 | for every server the requests, the newest sample and the snapshot, or the exception, are those that the replies give; when it raises, the newest sample is the one its completed stats reads left |
| `GatherTheorems.GatherStarts` | app/traversal.py:169-202 | the first request lists the cluster and the stats requests are the last ones; every VM that is kept is on, by the properties read |
| `GatherTheorems.LastListingWins` | app/traversal.py:177-178 | every host has the VMs of its own last listing, none when that failed, and is in the order once |
| `GatherTheorems.VmsInOrder` | app/traversal.py:179-192 | VMs are requested host by host in the order of the hosts, and of each host in the order of its listing |
| `GatherTheorems.OnInOrder` | app/traversal.py:188-191 | exactly the VMs that are on, each as often as it is listed, in the order of the listing |
| `GatherTheorems.OnByPowerState` | app/traversal.py:188-191 | a VM is on exactly when its power state reads "Powered On" |
| `GatherTheorems.NoStatsNoStat` | app/traversal.py:194-199 | when none of the stats requests of a cluster succeeded its snapshot holds no stat, whatever the newest sample |
| `Worlds.HealthyCluster` | app/traversal.py:169-202 | without a failed request, what is gathered of a cluster is what the server holds of it: its hosts, its VMs that are on, its properties, and the stats of the three reads |
| `Worlds.HonestCluster` | app/traversal.py:169-202 | whatever requests fail, a snapshot read from an honest server holds only what the server holds, and no stat of a VM left out |
| `NonInterference.SnapshotsAgree` | app/traversal.py:188-202 | deleting every VM that is not on from the inventory leaves all stats, everything else the metrics read, and the newest timestamp |
| `NonInterference.PoweredOffVmsDoNotInterfere` | app/traversal.py:188-199 | deleting every VM that is not on changes no host record, no cluster metric and not the newest timestamp |
| `Cluster.HighestHostBallooned` | app/cluster.py:75-90 | the loop returns the worst of the hosts' ballooned percentages, over those that are known |
| `Cluster.HighestThroughput` | app/cluster.py:93-118 | the loop returns the worst of the hosts' throughput percentages, over those that are known |
| `Meanings.ThroughputOfKnownLinks` | app/cluster.py:106-118 | the network throughput has a value exactly when some host has a usage and a non-empty link speed that reads as a number other than zero, and is then the largest of just those hosts' percentages |
| `Meanings.ThroughputUnderLoss` | app/cluster.py:106-118 | when properties are lost the network throughput is no data or at most what it was |
| `Meanings.VmotionPerVm` | app/cluster.py:121-148 | the vMotion percentage times the VMs per host and the hosts is 100 times the vMotions; it is known exactly when both are and that number of VMs is not zero |
| `Cluster.GatherMetricValues` | app/cluster.py:34-56 | the edited dictionary holds each cluster-only metric, the DRS imbalance in units instead of thousandths |
| `Cluster.ThreadUtilizationAgrees` | app/cluster.py:64-72 | the cluster's thread utilization, read on its own, is the worst of the host records' values |
| `Cluster.BallooningAgrees` | app/cluster.py:75-90 | the cluster's ballooned percentage, computed a second time, is the worst of the host records' values |
| `Meanings.OwnReadings` | app/cluster.py:40-54 | the cluster's overcommit ratios are its own readings, and 1000 times its imbalance is its reading of that |
| `Meanings.HighestReadings` | app/cluster.py:64-72 | thread utilization and disk IOPS are the largest known of the hosts' readings |
| `Scoring.Accumulate` | app/scoring.py:69-87 | the loop over the dictionary in any order yields the bands, the weighted sum and the weight of the key-to-value map |
| `Scoring.ComputeComposite` | app/scoring.py:40-104 | score, band and per-metric bands depend only on the key-to-value map, not on the iteration order |
| `BandTheorems.BandByBounds` | app/scoring.py:24-37 | of ordered bounds, a value is green up to the first, at most yellow up to the second, at most orange up to the third and red above, a bound itself being in the better band; a missing value or bound is unknown; the floors are 0, 60, 80 and 90 |
| `BandTheorems.CompositeByBounds` | app/scoring.py:89-95 | the composite is red exactly when some value is above its orange bound, orange when none is but some is above its yellow one, yellow likewise, green when all known ones are within their green bounds, unknown when none is known |
| `BandTheorems.OneKnownMetric` | app/scoring.py:69-104 | an object with one known metric that counts has its band, its floor as the score, and it alone in the worst band |
| `ScoringTheorems.BandIsWorst` | app/scoring.py:89-95 | the composite band is unknown exactly when no metric is known, else the band of some metric, and none is worse |
| `ScoringTheorems.ScoreRange` | app/scoring.py:96-104 | for positive weights the clamp never binds; the score is 0 exactly for green and unknown, in [42, 60] for yellow, [56, 80] for orange and [63, 90] for red, rounding included |
| `ScoringTheorems.RoundedToTenth` | app/scoring.py:102 | the score is rounded to the nearest tenth, and of two nearest ones to the even one |
| `ScoringTheorems.ScoreWithinHundred` | app/scoring.py:102 | for every scope the score lies between 0 and 100, and is the rounded one whenever that is in range |
| `ScoringTheorems.MissingWeightIsOne` | app/scoring.py:85 | a metric without a weight counts as one of weight 1 |
| `ScoringTheorems.ClassifyMonotone` | app/scoring.py:24-37 | raising a value never moves it to a better band |
| `ScoringTheorems.OneKeyChange` | app/scoring.py:73-104 | for any change of one key the unrounded score falls, or rises, exactly as its floors differ while it counts, or as its floor compares with the weighted average when it starts or stops to count; the rounded score never moves the other way; the band is the worse of the key's own and the others' |
| `ScoringTheorems.RaiseMetric` | app/scoring.py:73-104 | raising a known metric never lowers score or band, unless its key is excluded when green and the metric is green |
| `ScoringTheorems.LeaveGreen` | app/scoring.py:83-102 | when an excluded green metric enters a band with floor f the unrounded score falls exactly when the old weighted average exceeds f, and the band never improves |
| `ScoringTheorems.UnknownBecomesKnown` | app/scoring.py:81-102 | an unknown metric that starts to count with floor f lowers the unrounded score exactly when the old weighted average exceeds f, and never improves the band |
| `ScoringExamples.WorseMetricCanLowerScore` | app/scoring.py:83-102 | on the shipped host tables an overcommit ratio turning from green to yellow lowers the score from 90 to 85.5 |
| `ScoringExamples.UnknownToYellowCanLowerScore` | app/scoring.py:81-102 | so does a ballooned percentage turning from unknown to yellow |
| `ScoringTheorems.UnknownBecomesGreen` | app/scoring.py:81-84 | an unknown metric that becomes plain green never raises the score, lowers the unrounded one exactly when some band is worse than green, and leaves a known band as it was |
| `ScoringTheorems.GreenExcludedAsDeleted` | app/scoring.py:83-84 | a green excluded metric gives the score and band of deleting it, as long as another metric is known |
| `ScoringTheorems.DeleteUnknown` | app/scoring.py:73-82 | deleting any set of keys without bounds or without a value changes neither score nor band |
| `ScoringTheorems.UnboundedKeyIgnored` | app/scoring.py:74-75 | the value of a key without bounds does not matter |
| `ScoringTheorems.ExcludeMore` | app/scoring.py:83-84 | a larger excluded set leaves the band and never lowers the score |
| `ScoringTheorems.LevelsFollowFloors` | app/scoring.py:15-21 | band levels are 0 to 3 and rank the known bands as their floors do; only an unknown band has none |
| `ScoringTheorems.WorstCount` | app/scoring.py:107-112 | the worst-band count is none exactly when no metric is known, else at least 1 and at most the number of known metrics |
| `BandTheorems.AllInWorstBand` | app/scoring.py:107-112 | the worst-band count is that of all known metrics exactly when they all share the band |
| `BandTheorems.WorstCountMoves` | app/scoring.py:107-112 | while the composite band stays, a change of one metric changes the count by one when it comes into the band or leaves it, and otherwise not |
| `Thresholds.ShippedScopesValid` | app/cluster.py:29-31 | the merged tables of both object types have ordered bounds and positive weights, as the scoring theorems ask |
| `Pipeline.SameLines` | app/cluster.py:29 | a rolled-up key has the same bounds on the cluster as on the host |
| `Pipeline.ClusterBandIsWorstHostBand` | app/adapter.py:164-180 | on every rolled-up key, with the ten of the walk and the two computed separately, the cluster's band is the worst known host band |
| `Pipeline.ClusterP90BandWithinHosts` | app/adapter.py:164-180 | on every P90 key the cluster's band is unknown exactly when all hosts' are, else between the best and the worst known host band |
| `Pipeline.HostNeverWorseThanCluster` | app/adapter.py:164-180 | the cluster's composite band is at least every host's band on a rolled-up key; a host red there makes it red with a score of at least 63 |
| `NativeProjection.Project` | app/native_projection.py:53-88 | nothing is written and 0 returned without an object; else the rows' attributes, then the composite's, are appended to what it holds, and the result is how many: with distinct names in the table, the number of distinct metric names plus that of distinct property names written |
| `NativeProjection.MetricsAgree` | app/native_projection.py:69-87 | with distinct names and bounded keys a metric attribute is written exactly when its band is known, and no metric name twice |
| `NativeProjection.PropertiesAgree` | app/native_projection.py:69-80 | a band property is written for each row whose key has an entry, and no property name twice |
| `NativeProjection.ContentsAgree` | app/native_projection.py:73-80 | each attribute carries the value, or the band name, of its own key, and the composite attributes the composite |
| `NativeProjection.ExtrasAgree` | app/native_projection.py:82-87 | Band Level and Metrics In Worst Band appear together, exactly when some metric is known; the level is 0 to 3 by the composite band, the count at least 1 and at most the number of known metrics |
| `BandTheorems.PublishedWorstCount` | app/native_projection.py:82-87 | the published count is the number of the object's published row bands that read the same as its composite band, and the level is that of this band |
| `BandTheorems.PublishedBand` | app/native_projection.py:78-80 | the composite band property reads "red", "orange", "yellow", "green" or "unknown" exactly as the values lie to their bounds |
| `BandTheorems.PublishedRowBand` | app/native_projection.py:69-77 | a row's band property reads as the band of its own value by its own bounds, "unknown" when either is missing, and as nothing else |
| `HostExamples.OrangeHostIsPublished` | app/native_projection.py:66-88 | all metrics published of a host that knows only a worst vCPU ready of 10, on the shipped tables: its value, the score 80, the level 2 and a count of 1; both bands read "orange" |
| `NativeProjection.AttrNames` | app/constants_native.py:103-108 | the attribute of a row is the root, its group and its label between bars, and its band the same with " Band" |
| `ProjectionTheorems.ShippedRowsCover` | app/constants_native.py:52-91 | both shipped tables have exactly one row for each metric of their scope |
| `NativeProjection.CountIsDistinctNames` | app/native_projection.py:68-88 | with distinct names in the table no name is written twice, so names and attributes are as many |
| `NativeProjection.BandAttrInjective` | app/constants_native.py:103-108 | two rows with the same band attribute have the same metric attribute |
| `Adapter.CollectResult.NativeObjectOf` | app/native_projection.py:31-50 | the object of a key is made on first use and the same one ever after; keys do not share objects; a missing or unusable key has none; the lookup raises what it does not handle itself and then changes nothing |
| `Adapter.ScoreAndProject` | app/adapter.py:177-180 | exactly the scored dictionary's attributes are added to its key's object and to no other, and the result counts them |
| `Adapter.HostsReached` | app/adapter.py:189-201 | the hosts before the first whose lookup raises, and all of them when none does |
| `Adapter.ProjectHosts` | app/adapter.py:189-200 | every host record up to the first raising lookup is projected once, in order, and the totals grow by exactly that |
| `Adapter.PublishCluster` | app/adapter.py:164-200 | the cluster's publication and then its hosts' are appended to what the cycle has published, and the totals grow by exactly that; a raising lookup ends it there |
| `Adapter.CollectCluster` | app/adapter.py:162-204 | for every server an iteration raises exactly when its snapshot does, and then publishes nothing, or a lookup does, and then what came before stays published; otherwise all of its cluster is; either way the newest sample is the one its completed stats reads left |
| `Cycle.FailuresSince` | app/adapter.py:151-153 | after a prefix of successful requests the failures are at most the later requests, and equal to them exactly when all of those failed |
| `Cycle.ReportFailures` | app/adapter.py:268-296 | the error is set when there are clusters and all are on the failed list, or when there were later requests and each failed, and otherwise left alone |
| `Cycle.CollectClusters` | app/adapter.py:153-204 | the iterations follow one another in the requests and in the newest sample, each from where the one before it ended, raised or not; the failed list names exactly the clusters whose iteration raised, each once; published and totalled is what the iterations published, in order |
| `Cycle.InventoryDecided` | app/adapter.py:148-150 | the replies decide whether the inventory is read or raises, and which clusters and keys it finds |
| `Cycle.ReadInventory` | app/adapter.py:148-153 | the inventory is that of three complete queries, every request of which succeeded, or it raises as one of them does |
| `Cycle.FailedNamesCount` | app/adapter.py:275 | the failed list is as long as the clusters exactly when every iteration raised |
| `Cycle.Collect` | app/adapter.py:121-227 | for every server whose queries end: there is an error exactly when an inventory query or the reading of an entry raised, or there are clusters and all were lost, or later calls were made and all failed; the one error is that of a non-2xx page, the other that of anything else raised; what is published is what the iterations publish |
| `Cycle.InventoryFailsOnce` | app/adapter.py:147-150 | of one server, the inventory raises one thing only |
| `Runs.RunLostInventory` | app/adapter.py:216-222 | calls of the cycle whose first page is not answered, or lists a cluster without a key: an error, that of the status or the unexpected one, and nothing published |
| `CycleTheorems.StepInLog` | app/adapter.py:153-204 | the requests of an iteration are consecutive, after those of the inventory; the first lists its cluster, the last are for stats |
| `CycleTheorems.SettingsAlwaysValid` | app/adapter.py:230-243 | whatever the settings hold, the walk gets those in range as they are, and for every other one its own default of 50 %, 40 % and 256 GB |
| `CycleTheorems.FailuresWithinLaterCalls` | app/adapter.py:279 | failures never exceed the requests made since the inventory, and the equality the verdict checks holds exactly when each of those failed |
| `CycleTheorems.ErrorExactly` | app/adapter.py:268-296 | a cycle that read its inventory has no error exactly when it found no cluster, or some iteration did not raise and some later request succeeded |
| `CycleTheorems.SomethingReadNoError` | app/adapter.py:275-296 | no false alarm: when some iteration did not raise and some cluster listing was answered the cycle has no error |
| `CycleTheorems.EveryStatsCallFailed` | app/adapter.py:279-285 | when every stats call of the cycle failed no stat was read and nothing published holds a known value, and there is still no error exactly when some iteration did not raise and some listing or properties call succeeded |
| `Runs.AnsweredListingHidesFailedStats` | app/adapter.py:279-285 | a cycle of eight requests, of which the two for stats fail: nothing known is published and there is no error |
| `Runs.RunStatsDown` | app/adapter.py:121-227 | the call of the cycle that has this outcome |
| `CycleTheorems.ErrorLosesNothing` | app/adapter.py:268-285 | under an error of a cycle that read its inventory, some publication holds a known value exactly when, in some iteration that a lookup interrupted, the cluster or a host before the interruption has a usable key and a known projected value |
| `Runs.InterruptedClusterLosesValues` | app/adapter.py:189-204 | a cycle over one cluster that publishes its overcommit and whose host's lookup then raises: it has an error, and the published value is dropped with it |
| `Runs.RunInterruptedCluster` | app/adapter.py:121-227 | the call of the cycle that has this outcome |
| `CycleTheorems.NoStatSaysNothing` | app/adapter.py:279-285 | a cluster of which no stat was read publishes no known value, whatever was listed and whatever properties were read |
| `CycleTheorems.ClusterSaysSomething` | app/native_projection.py:53-88 | of what a cluster publishes something holds a known value exactly when its object is found and one of its projected values is known, or so for a host that is reached |
| `CycleTheorems.NoClustersNoError` | app/adapter.py:275-279 | a cycle that found no clusters makes no later request and has no error |
| `CycleTheorems.HealthyCycleNoError` | app/adapter.py:268-296 | a cycle none of whose later requests failed has no error exactly when it found no cluster or some iteration met no raising lookup |
| `CycleTheorems.HealthyStep` | app/adapter.py:160-204 | an iteration none of whose requests failed gathers what the server holds of its cluster, whatever happened to the others |
| `CycleTheorems.HonestStep` | app/adapter.py:160-204 | whatever failed, what an iteration read of an honest server is the server's, and of VMs that it gives as on |
| `CycleTheorems.ReadClusterIsWhole` | app/adapter.py:160-204 | everything a cluster whose iteration did not raise has to publish, its own values and all its hosts', is published, in one block |
| `Isolation.FailedIterationIsFelt` | app/adapter.py:160-204 | of two runs of the loop, with and without one iteration, whatever fails in any of them: the earlier iterations keep the same; the later ones keep the same exactly when every sample they keep without it is within 10 minutes of the newest sample known after it |
| `Isolation.FailedIterationPublishes` | app/adapter.py:160-204 | under that condition both runs publish the same, but for what that iteration itself published; when it raised while reading that is nothing, and the totals agree too |
| `Runs.FailedClusterDropsASample` | app/suite_api.py:250-252 | a cluster is read with its own stats of minute 11, its host's stats raise and its iteration is lost; the value of the next cluster, of minute 0, is then dropped, and is published without the first; neither cycle has an error |
| `Runs.RunFailedCluster` | app/adapter.py:121-227 | the two calls of the cycle that have this outcome |
| `Runs.StableInventoryRead` | app/adapter.py:147-153 | over a stable inventory of clusters that all have keys the three queries end, do not fail, and find just these clusters and keys, with the exact request count |
| `CycleTheorems.TotalsAddUp` | app/adapter.py:169-196 | projected clusters and hosts together are the publications, the attribute total is theirs, and no more is projected than was read |
| `CycleTheorems.PoweredOffVmsPublishNothing` | app/traversal.py:188-199 | over a whole cycle, deleting every VM that is not on changes nothing that is published, no total and not the newest sample |
| `CycleTheorems.RedHostShowsOnCluster` | app/adapter.py:177-180 | a host red on a rolled-up key makes its cluster's object carry the composite band "red" and a score of at least 63 |
| `CycleTheorems.WorstIsARealVm` | app/traversal.py:188-199 | a known worst-VM value, whatever requests failed, is what the server holds for some powered-on VM it lists under that host |

## Left out

- Arithmetic is exact over `real`. IEEE rounding, NaN and infinities are not modelled: `0.9 * n` is 9n/10, and `round(x, 1)` is round-half-even to tenths of the exact number.
- Strings become numbers outside the model: settings arrive parsed or missing, and link speed goes through an arbitrary `parse` function.
- Requests: HTTP, JSON decoding, authentication, headers and retries are one reply per request number. Leaving the response's context is assumed not to raise.
- The collector's clock is a parameter that is fixed per bulk read; `now - t` is otherwise unrestricted.
- `Inventory.QueryResources`: asks that the query ends, because with totals that grow for ever, or long pages without totals, the loop of the source does not (`Inventory.BoundedTotalsEnd` and `Inventory.LongPagesNeverEnd` say when).
- `Scoring.ComputeComposite`, `SuiteApi.CallStats.NoteNewest` and `SuiteApi.CallStats.Judge` run over their dictionary in an arbitrary order, so insertion order is not modelled; that the order does not matter is what they prove.
- `CycleTheorems.PoweredOffVmsPublishNothing`: the clock is taken to read the same at the corresponding reads of the two cycles, because fewer VMs mean fewer requests and so other request numbers.
- `NativeProjection.MetricsAgree`: that the shipped attribute names are distinct is an assumption; it is a finite fact about the tables. That their keys are is proved.
- `Adapter.CollectResult.NativeObjectOf`: building an object's identifiers out of a resource key is an arbitrary function from keys to found, skipped or raising; resource keys are compared as values.
- `Isolation.FailedIterationIsFelt`: the server and the clock are taken to answer the other iterations alike in the two runs; their request numbers differ, because one iteration is missing.
- `Traversal.CollectHost` and the other loop bodies of the walk are methods of their own that return the extended lists; the source appends to shared lists in one function body, so aliasing of these lists is not modelled.
- `ClusterSnapshot.stat` and `prop` raise for a key that is not requested. The model reads by typed keys instead, all of which are requested (`Constants.EveryReadIsRequested`).
- Entries of a bulk reply are taken to carry their resource id.
- A missing Suite API client, which ends a cycle with an error before its first request. Test calls, Collection Health, logging, timers and call summaries: messages and counters only.
- The adapter definition, `main`, `test`, endpoints, relationships and the SDK's result format, dashboards, schemas and release material.
