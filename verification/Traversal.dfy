/**
 One walk over a cluster's hosts and their powered-on VMs that yields the pooled
 cluster metrics and one record per host (app/traversal.py).
 */
module Traversal {
  import opened Common
  import opened Constants
  import opened Samples

  const KB_PER_GB: real := 1048576.0

  /** The adapter instance's monster VM settings. */
  datatype MonsterVmSettings = MonsterVmSettings(cpuPct: real, memoryPct: real, memoryCapGb: real)

  /** Everything one cluster's metrics read. */
  datatype Snapshot = Snapshot(
    clusterId: Id,
    hosts: seq<Resource>,
    vmsByHost: map<Id, seq<Resource>>,
    stats: map<(Id, string), real>,
    props: map<(Id, string), string>,
    vmsNotPoweredOn: int
  ) {
    function Stat(id: Id, key: string): Option<real> {
      if (id, key) in stats then Some(stats[(id, key)]) else None
    }

    function Host(id: Id, k: HostStat): Option<real> {
      Stat(id, HostStatkey(k))
    }

    function Vm(id: Id, k: VmStat): Option<real> {
      Stat(id, VmStatkey(k))
    }

    function Cluster(k: ClusterStat): Option<real> {
      Stat(clusterId, ClusterStatkey(k))
    }

    function Prop(id: Id, p: HostProp): Option<string> {
      var key := HostPropertyKey(p);
      if (id, key) in props then Some(props[(id, key)]) else None
    }

    /** A host's powered-on VMs. */
    function Vms(hostId: Id): seq<Resource> {
      if hostId in vmsByHost then vmsByHost[hostId] else []
    }
  }

  datatype HostRecord = HostRecord(id: Id, name: string, values: map<MetricKey, Option<real>>)

  // ----- one host's own readings -----

  /** DRAM in KB: the DRAM tier stat when it has a value, else the provisioned memory. */
  function HostMemoryCapacityKb(snap: Snapshot, hostId: Id): Option<real> {
    var dram := snap.Host(hostId, DramCapacityKb);
    if Truthy(dram) then dram else snap.Host(hostId, TotalCapacityKb)
  }

  function HostZipSwapPct(snap: Snapshot, hostId: Id, memKb: Option<real>): Option<real> {
    var compressed := snap.Host(hostId, CompressedKb);
    var swapout := snap.Host(hostId, SwapoutKb);
    if compressed.None? || swapout.None? || !Truthy(memKb) then None
    else Some((compressed.value + swapout.value) / memKb.value * 100.0)
  }

  predicate HyperThreaded(snap: Snapshot, hostId: Id) {
    && snap.Prop(hostId, HtAvailable) == Some("true")
    && snap.Prop(hostId, HtActive) == Some("true")
  }

  /** Running threads per running core; an idle host is 1. */
  function ThreadsPerCore(threadUtil: Option<real>, coreUtil: Option<real>, cores: Option<real>, hyperThreaded: bool): Option<real> {
    if threadUtil.None? || coreUtil.None? || !Truthy(cores) then None
    else
      var threads := if hyperThreaded then cores.value * 2.0 else cores.value;
      PerRunningCore(Running(threadUtil.value, threads), Running(coreUtil.value, cores.value))
  }

  function Running(utilPct: real, count: real): real {
    utilPct / 100.0 * count
  }

  function PerRunningCore(threads: real, cores: real): Option<real> {
    if cores == 0.0 then
      if threads == 0.0 then Some(1.0) else None
    else Some(threads / cores)
  }

  function HostCpuImbalance(snap: Snapshot, hostId: Id, cores: Option<real>): Option<real> {
    ThreadsPerCore(snap.Host(hostId, CpuUtilization), snap.Host(hostId, CoreUtilization), cores, HyperThreaded(snap, hostId))
  }

  /** `part / whole * 100`, no data when either is missing or the whole is zero. */
  function PctOf(part: Option<real>, whole: Option<real>): Option<real> {
    if part.Some? && Truthy(whole) then Some(part.value / whole.value * 100.0) else None
  }

  /** `total / capacity`, no data when the capacity is missing or zero. */
  function PerCapacity(total: real, capacity: Option<real>): Option<real> {
    if Truthy(capacity) then Some(total / capacity.value) else None
  }

  // ----- monster VMs -----

  /** The largest VM over the monster size; 0 without VMs, no data when VMs exist but no size is known. */
  function MonsterSizeRatio(sizes: seq<real>, monsterSize: Option<real>, vmCount: nat): Option<real> {
    if !Truthy(monsterSize) then None
    else if sizes == [] then
      if vmCount == 0 then Some(0.0) else None
    else Some(Max(sizes) / monsterSize.value)
  }

  function CpuMonsterSize(cores: Option<real>, monster: MonsterVmSettings): Option<real> {
    if Truthy(cores) then Some(cores.value * monster.cpuPct / 100.0) else None
  }

  function MemoryMonsterKb(memKb: Option<real>, monster: MonsterVmSettings): Option<real> {
    if Truthy(memKb) then
      Some(MinReal(memKb.value * monster.memoryPct / 100.0, monster.memoryCapGb * KB_PER_GB))
    else None
  }

  // ----- VM readings -----

  /** One stat of every VM in a list, no data where it is missing. */
  function VmStats(snap: Snapshot, vms: seq<Resource>, k: VmStat): (options: seq<Option<real>>)
    ensures |options| == |vms|
    ensures forall i :: 0 <= i < |vms| ==> options[i] == snap.Vm(vms[i].id, k)
  {
    seq(|vms|, i requires 0 <= i < |vms| => snap.Vm(vms[i].id, k))
  }

  /** The known samples of one stat over a list of VMs. */
  function VmSamples(snap: Snapshot, vms: seq<Resource>, k: VmStat): seq<real>
  {
    Known(VmStats(snap, vms, k))
  }

  function BucketSamples(snap: Snapshot, vms: seq<Resource>, b: Bucket): seq<real> {
    VmSamples(snap, vms, Level(b))
  }

  function SumSeq(s: seq<real>): real {
    if s == [] then 0.0 else SumSeq(s[..|s| - 1]) + s[|s| - 1]
  }

  // ----- what a host record and the cluster results hold -----

  function TotalVcpu(snap: Snapshot, hostId: Id): real {
    var native := snap.Host(hostId, VcpusAllocated);
    if native.Some? then native.value else SumSeq(VmSamples(snap, snap.Vms(hostId), NumCpu))
  }

  function TotalVmemKb(snap: Snapshot, hostId: Id): real {
    var native := snap.Host(hostId, MemAllocatedKb);
    if native.Some? then native.value else SumSeq(VmSamples(snap, snap.Vms(hostId), MemoryKb))
  }

  function CpuMonsterRatio(snap: Snapshot, monster: MonsterVmSettings, hostId: Id): Option<real> {
    MonsterSizeRatio(VmSamples(snap, snap.Vms(hostId), NumCpu),
                     CpuMonsterSize(snap.Host(hostId, CpuCores), monster), |snap.Vms(hostId)|)
  }

  function MemoryMonsterRatio(snap: Snapshot, monster: MonsterVmSettings, hostId: Id): Option<real> {
    MonsterSizeRatio(VmSamples(snap, snap.Vms(hostId), MemoryKb),
                     MemoryMonsterKb(HostMemoryCapacityKb(snap, hostId), monster), |snap.Vms(hostId)|)
  }

  /** The value of one metric of one host. */
  function HostMetric(snap: Snapshot, monster: MonsterVmSettings, hostId: Id, k: MetricKey): Option<real>
    requires k in HOST_KEYS
  {
    match k
    case HostCpuThreadUtilization => snap.Host(hostId, CpuUtilization)
    case HostMemoryConsumed => snap.Host(hostId, MemUsage)
    case HostMemoryBallooned =>
      PctOf(snap.Host(hostId, BalloonKb), HostMemoryCapacityKb(snap, hostId))
    case HostCpuReservation =>
      PctOf(snap.Host(hostId, CpuReserved), snap.Host(hostId, CpuCapacity))
    case HostMemoryReservation => snap.Host(hostId, MemReservedPct)
    case HostCpuOvercommitRatio =>
      PerCapacity(TotalVcpu(snap, hostId), snap.Host(hostId, CpuCores))
    case HostMemoryOvercommitRatio =>
      PerCapacity(TotalVmemKb(snap, hostId), HostMemoryCapacityKb(snap, hostId))
    case CpuMonsterVmSizeRatio => CpuMonsterRatio(snap, monster, hostId)
    case MemoryMonsterVmSizeRatio => MemoryMonsterRatio(snap, monster, hostId)
    case HostMemoryContention => snap.Host(hostId, MemContention)
    case HostDroppedPackets => snap.Host(hostId, DroppedPct)
    case HostMemoryZipSwap => HostZipSwapPct(snap, hostId, HostMemoryCapacityKb(snap, hostId))
    case HostCpuImbalanceRatio =>
      HostCpuImbalance(snap, hostId, snap.Host(hostId, CpuCores))
    case WorstVm(b) => MaxOrNone(BucketSamples(snap, snap.Vms(hostId), b))
    case P90Vm(b) => P90OrNone(BucketSamples(snap, snap.Vms(hostId), b))
  }

  function HostMetrics(snap: Snapshot, monster: MonsterVmSettings, hostId: Id): map<MetricKey, Option<real>> {
    map k | k in HOST_KEYS :: HostMetric(snap, monster, hostId, k)
  }

  /** One metric across a list of hosts. */
  function Column(snap: Snapshot, monster: MonsterVmSettings, hosts: seq<Resource>, k: MetricKey): (column: seq<Option<real>>)
    requires k in HOST_KEYS
    ensures |column| == |hosts|
    ensures forall i :: 0 <= i < |hosts| ==> column[i] == HostMetric(snap, monster, hosts[i].id, k)
  {
    seq(|hosts|, i requires 0 <= i < |hosts| => HostMetric(snap, monster, hosts[i].id, k))
  }

  /** The samples of one bucket, host by host. */
  function HostParts(snap: Snapshot, hosts: seq<Resource>, b: Bucket): (parts: seq<seq<real>>)
    ensures |parts| == |hosts|
    ensures forall i :: 0 <= i < |hosts| ==> parts[i] == BucketSamples(snap, snap.Vms(hosts[i].id), b)
  {
    seq(|hosts|, i requires 0 <= i < |hosts| => BucketSamples(snap, snap.Vms(hosts[i].id), b))
  }

  /** The value of one cluster metric: the worst host, or a summary of the pooled VM samples. */
  function ClusterMetric(snap: Snapshot, monster: MonsterVmSettings, k: MetricKey): Option<real>
    requires k in SHARED_KEYS
  {
    match k
    case WorstVm(b) => MaxOrNone(Pool(HostParts(snap, snap.hosts, b)))
    case P90Vm(b) => P90OrNone(Pool(HostParts(snap, snap.hosts, b)))
    case _ => Worst(Column(snap, monster, snap.hosts, k))
  }

  function ClusterMetrics(snap: Snapshot, monster: MonsterVmSettings): map<MetricKey, Option<real>> {
    map k | k in SHARED_KEYS :: ClusterMetric(snap, monster, k)
  }

  // ----- the walk -----

  /** One sample list per bucket. */
  datatype SampleLists = SampleLists(
    vcpuReady: seq<real>, vcpuCostop: seq<real>, memoryContention: seq<real>, diskLatency: seq<real>
  ) {
    function Get(b: Bucket): seq<real> {
      match b
      case VcpuReady => vcpuReady
      case VcpuCostop => vcpuCostop
      case MemoryContention => memoryContention
      case DiskLatency => diskLatency
    }

    function Append(b: Bucket, x: real): (lists: SampleLists)
      ensures forall c: Bucket :: lists.Get(c) == if c == b then Get(b) + [x] else Get(c)
    {
      match b
      case VcpuReady => this.(vcpuReady := vcpuReady + [x])
      case VcpuCostop => this.(vcpuCostop := vcpuCostop + [x])
      case MemoryContention => this.(memoryContention := memoryContention + [x])
      case DiskLatency => this.(diskLatency := diskLatency + [x])
    }
  }

  const NO_SAMPLES := SampleLists([], [], [], [])

  /** `values` holds the worst and the P90 of the list of bucket `b`. */
  predicate HasPair(values: map<MetricKey, Option<real>>, lists: SampleLists, b: Bucket) {
    && WorstVm(b) in values && values[WorstVm(b)] == MaxOrNone(lists.Get(b))
    && P90Vm(b) in values && values[P90Vm(b)] == P90OrNone(lists.Get(b))
  }

  /** Writes the worst and the P90 of every sample list into a dictionary of values. */
  method WorstP90Into(target: map<MetricKey, Option<real>>, lists: SampleLists)
    returns (result: map<MetricKey, Option<real>>)
    ensures forall b: Bucket :: HasPair(result, lists, b)
    ensures forall k :: k in result <==> k in target || IsVmPair(k)
    ensures forall k :: k in target && !IsVmPair(k) ==> result[k] == target[k]
  {
    result := target;
    for i := 0 to |BUCKETS|
      invariant forall b: Bucket :: BucketIndex(b) < i ==> HasPair(result, lists, b)
      invariant forall k :: k in result ==> k in target || IsVmPair(k)
      invariant forall k :: k in target ==> k in result && (!IsVmPair(k) ==> result[k] == target[k])
    {
      result := OnePair(result, lists, BUCKETS[i]);
    }
    PairsPresent(result, lists);
  }

  lemma PairsPresent(values: map<MetricKey, Option<real>>, lists: SampleLists)
    requires forall b: Bucket :: HasPair(values, lists, b)
    ensures forall k :: IsVmPair(k) ==> k in values
  {
    forall k | IsVmPair(k) ensures k in values {
      assert HasPair(values, lists, k.bucket);
    }
  }

  /** The pair of one bucket. */
  method OnePair(target: map<MetricKey, Option<real>>, lists: SampleLists, b: Bucket)
    returns (result: map<MetricKey, Option<real>>)
    ensures HasPair(result, lists, b)
    ensures forall c: Bucket :: c != b && HasPair(target, lists, c) ==> HasPair(result, lists, c)
    ensures forall k :: k in result <==> k in target || k == WorstVm(b) || k == P90Vm(b)
    ensures forall k :: k in target && !IsVmPair(k) ==> result[k] == target[k]
  {
    hide MaxOrNone, P90OrNone;
    var worst, p90 := WorstAndP90(lists.Get(b));
    result := target[WorstVm(b) := worst][P90Vm(b) := p90];
  }

  /** Both summaries of one list, from one sort. */
  method WorstAndP90(samples: seq<real>) returns (worst: Option<real>, p90: Option<real>)
    ensures worst == MaxOrNone(samples) && p90 == P90OrNone(samples)
  {
    var sorted := Sorted(samples);
    if sorted != [] {
      LastIsMax(sorted, samples);
      worst, p90 := Some(sorted[|sorted| - 1]), Some(Percentile(sorted, 0.9));
    } else {
      worst, p90 := None, None;
    }
  }

  /** The four sample lists of a list of VMs. */
  predicate SamplesOf(snap: Snapshot, vms: seq<Resource>, lists: SampleLists) {
    forall b: Bucket :: lists.Get(b) == BucketSamples(snap, vms, b)
  }

  /** One more VM adds its known value to a sample list. */
  lemma VmSamplesStep(snap: Snapshot, vms: seq<Resource>, i: nat, k: VmStat)
    requires i < |vms|
    ensures VmSamples(snap, vms[..i + 1], k) == VmSamples(snap, vms[..i], k)
              + (var v := snap.Vm(vms[i].id, k); if v.Some? then [v.value] else [])
  {
    hide Snapshot.Vm;
    assert VmStats(snap, vms[..i + 1], k) == VmStats(snap, vms[..i], k) + [snap.Vm(vms[i].id, k)];
    KnownAppend(VmStats(snap, vms[..i], k), snap.Vm(vms[i].id, k));
  }

  /** A VM's known samples go to the cluster's lists and to its host's lists alike. */
  method AddVmSamples(snap: Snapshot, vmId: Id, clusterLists: SampleLists, hostLists: SampleLists)
    returns (clusterNext: SampleLists, hostNext: SampleLists)
    ensures forall b: Bucket ::
      && clusterNext.Get(b) == clusterLists.Get(b) + OneSample(snap, vmId, b)
      && hostNext.Get(b) == hostLists.Get(b) + OneSample(snap, vmId, b)
  {
    hide Snapshot.Vm, VmStatkey;
    clusterNext, hostNext := clusterLists, hostLists;
    for i := 0 to |BUCKETS|
      invariant forall b: Bucket ::
        && clusterNext.Get(b) == clusterLists.Get(b) + (if BucketIndex(b) < i then OneSample(snap, vmId, b) else [])
        && hostNext.Get(b) == hostLists.Get(b) + (if BucketIndex(b) < i then OneSample(snap, vmId, b) else [])
    {
      var b := BUCKETS[i];
      var value := snap.Vm(vmId, Level(b));
      if value.Some? {
        clusterNext := clusterNext.Append(b, value.value);
        hostNext := hostNext.Append(b, value.value);
      }
    }
  }

  /** What one VM adds to a sample list. */
  function OneSample(snap: Snapshot, vmId: Id, b: Bucket): seq<real> {
    var value := snap.Vm(vmId, Level(b));
    if value.Some? then [value.value] else []
  }

  lemma SumSeqAppend(s: seq<real>, x: real)
    ensures SumSeq(s + [x]) == SumSeq(s) + x
  {
    assert (s + [x])[..|s|] == s;
  }

  /**
   The VM loop of one host: the pooled lists grow by exactly this host's samples, and the
   sums and size lists are those of its VMs.
   */
  method WalkVms(snap: Snapshot, vms: seq<Resource>, clusterLists: SampleLists)
    returns (clusterNext: SampleLists, hostLists: SampleLists,
             totalVcpu: real, totalVmemKb: real, vcpus: seq<real>, memKbs: seq<real>)
    ensures SamplesOf(snap, vms, hostLists)
    ensures forall b: Bucket :: clusterNext.Get(b) == clusterLists.Get(b) + BucketSamples(snap, vms, b)
    ensures vcpus == VmSamples(snap, vms, NumCpu) && totalVcpu == SumSeq(vcpus)
    ensures memKbs == VmSamples(snap, vms, MemoryKb) && totalVmemKb == SumSeq(memKbs)
  {
    hide VmSamples, BucketSamples, SumSeq, OneSample, SampleLists.Get, VmStats, Known;
    clusterNext, hostLists := clusterLists, NO_SAMPLES;
    totalVcpu, totalVmemKb, vcpus, memKbs := 0.0, 0.0, [], [];
    NoVms(snap, vms[..0]);
    for i := 0 to |vms|
      invariant SamplesOf(snap, vms[..i], hostLists)
      invariant forall b: Bucket :: clusterNext.Get(b) == clusterLists.Get(b) + BucketSamples(snap, vms[..i], b)
      invariant vcpus == VmSamples(snap, vms[..i], NumCpu) && totalVcpu == SumSeq(vcpus)
      invariant memKbs == VmSamples(snap, vms[..i], MemoryKb) && totalVmemKb == SumSeq(memKbs)
    {
      var vmId := vms[i].id;
      totalVcpu, vcpus := AddKnown(totalVcpu, vcpus, snap.Vm(vmId, NumCpu));
      totalVmemKb, memKbs := AddKnown(totalVmemKb, memKbs, snap.Vm(vmId, MemoryKb));
      VmSamplesStep(snap, vms, i, NumCpu);
      VmSamplesStep(snap, vms, i, MemoryKb);
      BucketsStep(snap, vms, i);
      clusterNext, hostLists := AddVmSamples(snap, vmId, clusterNext, hostLists);
    }
    assert vms[..|vms|] == vms;
  }

  lemma NoVms(snap: Snapshot, vms: seq<Resource>)
    requires vms == []
    ensures VmSamples(snap, vms, NumCpu) == [] == VmSamples(snap, vms, MemoryKb)
    ensures forall b: Bucket :: BucketSamples(snap, vms, b) == [] == NO_SAMPLES.Get(b)
    ensures SumSeq([]) == 0.0
  {
  }

  lemma BucketsStep(snap: Snapshot, vms: seq<Resource>, i: nat)
    requires i < |vms|
    ensures forall b: Bucket ::
      BucketSamples(snap, vms[..i + 1], b) == BucketSamples(snap, vms[..i], b) + OneSample(snap, vms[i].id, b)
  {
    forall b: Bucket
      ensures BucketSamples(snap, vms[..i + 1], b) == BucketSamples(snap, vms[..i], b) + OneSample(snap, vms[i].id, b)
    {
      VmSamplesStep(snap, vms, i, Level(b));
    }
  }

  /** Adds a known size to a total and to a list; no data adds nothing. */
  method AddKnown(total: real, sizes: seq<real>, value: Option<real>) returns (totalNext: real, sizesNext: seq<real>)
    ensures sizesNext == sizes + (if value.Some? then [value.value] else [])
    ensures total == SumSeq(sizes) ==> totalNext == SumSeq(sizesNext)
  {
    totalNext, sizesNext := total, sizes;
    if value.Some? {
      SumSeqAppend(sizes, value.value);
      totalNext := total + value.value;
      sizesNext := sizes + [value.value];
    }
  }

  /** What the VM loop found for one host. */
  datatype VmTotals = VmTotals(vcpu: real, vmemKb: real, vcpus: seq<real>, memKbs: seq<real>, count: nat)

  predicate TotalsOf(snap: Snapshot, hostId: Id, t: VmTotals) {
    var vms := snap.Vms(hostId);
    && t.vcpus == VmSamples(snap, vms, NumCpu) && t.vcpu == SumSeq(t.vcpus)
    && t.memKbs == VmSamples(snap, vms, MemoryKb) && t.vmemKb == SumSeq(t.memKbs)
    && t.count == |vms|
  }

  /** The host's own six values that the cluster rolls up. */
  method RolledValues(snap: Snapshot, monster: MonsterVmSettings, hostId: Id, totals: VmTotals)
    returns (values: map<MetricKey, Option<real>>)
    requires TotalsOf(snap, hostId, totals)
    ensures values.Keys == HOST_ROLLED_KEYS
    ensures forall k :: k in values ==> values[k] == HostMetric(snap, monster, hostId, k)
  {
    hide VmSamples, SumSeq, HostZipSwapPct, HostCpuImbalance, MonsterSizeRatio, CpuMonsterSize, MemoryMonsterKb,
         HostMemoryCapacityKb, Snapshot.Host;
    var cores := snap.Host(hostId, CpuCores);
    var memKb := HostMemoryCapacityKb(snap, hostId);
    values := map[
      CpuMonsterVmSizeRatio := MonsterSizeRatio(totals.vcpus, CpuMonsterSize(cores, monster), totals.count),
      MemoryMonsterVmSizeRatio := MonsterSizeRatio(totals.memKbs, MemoryMonsterKb(memKb, monster), totals.count),
      HostMemoryContention := snap.Host(hostId, MemContention),
      HostDroppedPackets := snap.Host(hostId, DroppedPct),
      HostMemoryZipSwap := HostZipSwapPct(snap, hostId, memKb),
      HostCpuImbalanceRatio := HostCpuImbalance(snap, hostId, cores)
    ];
  }

  /** The host's seven values that stay with the host. */
  method OwnValues(snap: Snapshot, monster: MonsterVmSettings, hostId: Id, totals: VmTotals)
    returns (values: map<MetricKey, Option<real>>)
    requires TotalsOf(snap, hostId, totals)
    ensures values.Keys == HOST_ONLY_KEYS
    ensures forall k :: k in values ==> values[k] == HostMetric(snap, monster, hostId, k)
  {
    hide VmSamples, SumSeq, PctOf, PerCapacity, HostMemoryCapacityKb, Snapshot.Host, HostMetric, HOST_ONLY_KEYS, HOST_KEYS;
    var cores := snap.Host(hostId, CpuCores);
    var memKb := HostMemoryCapacityKb(snap, hostId);
    // the host's own allocation stats win over the sums of its VMs
    var nativeVcpu := snap.Host(hostId, VcpusAllocated);
    var nativeVmemKb := snap.Host(hostId, MemAllocatedKb);
    var totalVcpu := if nativeVcpu.Some? then nativeVcpu.value else totals.vcpu;
    var totalVmemKb := if nativeVmemKb.Some? then nativeVmemKb.value else totals.vmemKb;
    values := map[
      HostCpuThreadUtilization := snap.Host(hostId, CpuUtilization),
      HostMemoryConsumed := snap.Host(hostId, MemUsage),
      HostMemoryBallooned := PctOf(snap.Host(hostId, BalloonKb), memKb),
      HostCpuReservation := PctOf(snap.Host(hostId, CpuReserved), snap.Host(hostId, CpuCapacity)),
      HostMemoryReservation := snap.Host(hostId, MemReservedPct),
      HostCpuOvercommitRatio := PerCapacity(totalVcpu, cores),
      HostMemoryOvercommitRatio := PerCapacity(totalVmemKb, memKb)
    ];
    OwnMetrics(snap, monster, hostId, values);
  }

  lemma OwnMetrics(snap: Snapshot, monster: MonsterVmSettings, hostId: Id, values: map<MetricKey, Option<real>>)
    requires values == map[
      HostCpuThreadUtilization := snap.Host(hostId, CpuUtilization),
      HostMemoryConsumed := snap.Host(hostId, MemUsage),
      HostMemoryBallooned := PctOf(snap.Host(hostId, BalloonKb), HostMemoryCapacityKb(snap, hostId)),
      HostCpuReservation := PctOf(snap.Host(hostId, CpuReserved), snap.Host(hostId, CpuCapacity)),
      HostMemoryReservation := snap.Host(hostId, MemReservedPct),
      HostCpuOvercommitRatio := PerCapacity(TotalVcpu(snap, hostId), snap.Host(hostId, CpuCores)),
      HostMemoryOvercommitRatio := PerCapacity(TotalVmemKb(snap, hostId), HostMemoryCapacityKb(snap, hostId))]
    ensures values.Keys == HOST_ONLY_KEYS && HOST_ONLY_KEYS <= HOST_KEYS
    ensures forall k :: k in values ==> values[k] == HostMetric(snap, monster, hostId, k)
  {
    hide HostMetric, PctOf, PerCapacity, HostMemoryCapacityKb, Snapshot.Host, TotalVcpu, TotalVmemKb, HOST_ROLLED_KEYS, VM_PAIR_KEYS;
    NativeOwnMetrics(snap, monster, hostId);
    DerivedOwnMetrics(snap, monster, hostId);
  }

  lemma NativeOwnMetrics(snap: Snapshot, monster: MonsterVmSettings, hostId: Id)
    ensures HOST_ONLY_KEYS <= HOST_KEYS
    ensures HostMetric(snap, monster, hostId, HostCpuThreadUtilization) == snap.Host(hostId, CpuUtilization)
    ensures HostMetric(snap, monster, hostId, HostMemoryConsumed) == snap.Host(hostId, MemUsage)
    ensures HostMetric(snap, monster, hostId, HostMemoryReservation) == snap.Host(hostId, MemReservedPct)
  {
    hide Snapshot.Host;
  }

  lemma DerivedOwnMetrics(snap: Snapshot, monster: MonsterVmSettings, hostId: Id)
    ensures HOST_ONLY_KEYS <= HOST_KEYS
    ensures HostMetric(snap, monster, hostId, HostMemoryBallooned)
            == PctOf(snap.Host(hostId, BalloonKb), HostMemoryCapacityKb(snap, hostId))
    ensures HostMetric(snap, monster, hostId, HostCpuReservation)
            == PctOf(snap.Host(hostId, CpuReserved), snap.Host(hostId, CpuCapacity))
    ensures HostMetric(snap, monster, hostId, HostCpuOvercommitRatio)
            == PerCapacity(TotalVcpu(snap, hostId), snap.Host(hostId, CpuCores))
    ensures HostMetric(snap, monster, hostId, HostMemoryOvercommitRatio)
            == PerCapacity(TotalVmemKb(snap, hostId), HostMemoryCapacityKb(snap, hostId))
  {
    hide PctOf, PerCapacity, HostMemoryCapacityKb, Snapshot.Host, TotalVcpu, TotalVmemKb;
  }

  /** The body of the host loop: one host's record, and its samples into the cluster's lists. */
  method CollectHost(snap: Snapshot, monster: MonsterVmSettings, host: Resource, clusterLists: SampleLists)
    returns (record: HostRecord, clusterNext: SampleLists)
    ensures record == HostRecord(host.id, host.name, HostMetrics(snap, monster, host.id))
    ensures forall b: Bucket ::
      clusterNext.Get(b) == clusterLists.Get(b) + BucketSamples(snap, snap.Vms(host.id), b)
  {
    hide BucketSamples, VmSamples, SumSeq, MaxOrNone, P90OrNone, SampleLists.Get, HostMetric, HOST_ROLLED_KEYS, HOST_ONLY_KEYS,
         TotalVcpu, TotalVmemKb;
    var vms := snap.Vms(host.id);
    var hostLists, totalVcpu, totalVmemKb, vcpus, memKbs;
    clusterNext, hostLists, totalVcpu, totalVmemKb, vcpus, memKbs := WalkVms(snap, vms, clusterLists);
    var totals := VmTotals(totalVcpu, totalVmemKb, vcpus, memKbs, |vms|);
    var own := OwnValues(snap, monster, host.id, totals);
    var rolled := RolledValues(snap, monster, host.id, totals);
    var all := WorstP90Into(own + rolled, hostLists);
    HostValuesComplete(snap, monster, host.id, own + rolled, hostLists, all);
    record := HostRecord(host.id, host.name, all);
  }

  lemma HostValuesComplete(snap: Snapshot, monster: MonsterVmSettings, hostId: Id,
                           values: map<MetricKey, Option<real>>, lists: SampleLists, all: map<MetricKey, Option<real>>)
    requires values.Keys == HOST_ROLLED_KEYS + HOST_ONLY_KEYS
    requires forall k :: k in values ==> values[k] == HostMetric(snap, monster, hostId, k)
    requires SamplesOf(snap, snap.Vms(hostId), lists)
    requires forall b: Bucket :: HasPair(all, lists, b)
    requires forall k :: k in all <==> k in values || IsVmPair(k)
    requires forall k :: k in values && !IsVmPair(k) ==> all[k] == values[k]
    ensures all == HostMetrics(snap, monster, hostId)
  {
    hide BucketSamples, MaxOrNone, P90OrNone, SampleLists.Get, HostMetric, HOST_ROLLED_KEYS, HOST_ONLY_KEYS, VM_PAIR_KEYS;
    VmPairKeys();
    forall k | k in HOST_KEYS ensures k in all && all[k] == HostMetric(snap, monster, hostId, k) {
      if IsVmPair(k) {
        assert HasPair(all, lists, k.bucket);
        PairMetrics(snap, monster, hostId, k.bucket);
      }
    }
  }

  lemma PairMetrics(snap: Snapshot, monster: MonsterVmSettings, hostId: Id, b: Bucket)
    ensures WorstVm(b) in HOST_KEYS && P90Vm(b) in HOST_KEYS
    ensures HostMetric(snap, monster, hostId, WorstVm(b)) == MaxOrNone(BucketSamples(snap, snap.Vms(hostId), b))
    ensures HostMetric(snap, monster, hostId, P90Vm(b)) == P90OrNone(BucketSamples(snap, snap.Vms(hostId), b))
  {
    hide BucketSamples, MaxOrNone, P90OrNone;
    VmPairKeys();
  }

  lemma VmPairKeys()
    ensures forall k :: k in VM_PAIR_KEYS <==> IsVmPair(k)
  {
    forall k | IsVmPair(k) ensures k in VM_PAIR_KEYS {
      assert k.bucket.VcpuReady? || k.bucket.VcpuCostop? || k.bucket.MemoryContention? || k.bucket.DiskLatency?;
    }
  }

  /** One more host adds one entry to a column, and its known value to the column's known values. */
  lemma ColumnStep(snap: Snapshot, monster: MonsterVmSettings, i: nat, k: MetricKey)
    requires i < |snap.hosts| && k in HOST_KEYS
    ensures var value := HostMetric(snap, monster, snap.hosts[i].id, k);
      var before, after := Column(snap, monster, snap.hosts[..i], k), Column(snap, monster, snap.hosts[..i + 1], k);
      && after == before + [value]
      && Known(after) == Known(before) + if value.Some? then [value.value] else []
  {
    hide HostMetric;
    var value := HostMetric(snap, monster, snap.hosts[i].id, k);
    var before := Column(snap, monster, snap.hosts[..i], k);
    assert Column(snap, monster, snap.hosts[..i + 1], k) == before + [value];
    KnownAppend(before, value);
  }

  lemma PartsStep(snap: Snapshot, i: nat, b: Bucket)
    requires i < |snap.hosts|
    ensures Pool(HostParts(snap, snap.hosts[..i + 1], b))
            == Pool(HostParts(snap, snap.hosts[..i], b)) + BucketSamples(snap, snap.Vms(snap.hosts[i].id), b)
  {
    hide BucketSamples;
    var before, after := HostParts(snap, snap.hosts[..i], b), HostParts(snap, snap.hosts[..i + 1], b);
    assert after[..i] == before;
  }

  /** The lists the host loop appends to, besides the VM samples. */
  datatype HostLists = HostLists(
    cpuMonster: seq<Option<real>>, memoryMonster: seq<Option<real>>,
    contention: seq<real>, dropped: seq<real>, zipSwap: seq<real>, imbalance: seq<real>
  )

  ghost predicate ListsOf(snap: Snapshot, monster: MonsterVmSettings, hosts: seq<Resource>, lists: HostLists) {
    && lists.cpuMonster == Column(snap, monster, hosts, CpuMonsterVmSizeRatio)
    && lists.memoryMonster == Column(snap, monster, hosts, MemoryMonsterVmSizeRatio)
    && lists.contention == Known(Column(snap, monster, hosts, HostMemoryContention))
    && lists.dropped == Known(Column(snap, monster, hosts, HostDroppedPackets))
    && lists.zipSwap == Known(Column(snap, monster, hosts, HostMemoryZipSwap))
    && lists.imbalance == Known(Column(snap, monster, hosts, HostCpuImbalanceRatio))
  }

  function AppendKnown(samples: seq<real>, value: Option<real>): seq<real> {
    if value.Some? then samples + [value.value] else samples
  }

  /** The appends of one iteration of the host loop. */
  method AppendHost(snap: Snapshot, monster: MonsterVmSettings, i: nat, record: HostRecord, lists: HostLists)
    returns (next: HostLists)
    requires i < |snap.hosts| && record.values == HostMetrics(snap, monster, snap.hosts[i].id)
    requires ListsOf(snap, monster, snap.hosts[..i], lists)
    ensures ListsOf(snap, monster, snap.hosts[..i + 1], next)
  {
    hide HostMetric, Column, Known;
    next := HostLists(
      lists.cpuMonster + [record.values[CpuMonsterVmSizeRatio]],
      lists.memoryMonster + [record.values[MemoryMonsterVmSizeRatio]],
      AppendKnown(lists.contention, record.values[HostMemoryContention]),
      AppendKnown(lists.dropped, record.values[HostDroppedPackets]),
      AppendKnown(lists.zipSwap, record.values[HostMemoryZipSwap]),
      AppendKnown(lists.imbalance, record.values[HostCpuImbalanceRatio]));
    ColumnStep(snap, monster, i, CpuMonsterVmSizeRatio);
    ColumnStep(snap, monster, i, MemoryMonsterVmSizeRatio);
    ColumnStep(snap, monster, i, HostMemoryContention);
    ColumnStep(snap, monster, i, HostDroppedPackets);
    ColumnStep(snap, monster, i, HostMemoryZipSwap);
    ColumnStep(snap, monster, i, HostCpuImbalanceRatio);
  }

  /** The host loop. */
  method WalkHosts(snap: Snapshot, monster: MonsterVmSettings)
    returns (records: seq<HostRecord>, lists: HostLists, samples: SampleLists)
    ensures |records| == |snap.hosts|
    ensures forall i :: 0 <= i < |records| ==>
      records[i] == HostRecord(snap.hosts[i].id, snap.hosts[i].name, HostMetrics(snap, monster, snap.hosts[i].id))
    ensures ListsOf(snap, monster, snap.hosts, lists)
    ensures forall b: Bucket :: samples.Get(b) == Pool(HostParts(snap, snap.hosts, b))
  {
    hide HostMetrics, HostMetric, Column, ListsOf, HostParts, Pool, BucketSamples, SampleLists.Get;
    records, lists, samples := [], HostLists([], [], [], [], [], []), NO_SAMPLES;
    NoHosts(snap, monster, snap.hosts[..0]);
    for i := 0 to |snap.hosts|
      invariant |records| == i
      invariant forall j :: 0 <= j < i ==>
        records[j] == HostRecord(snap.hosts[j].id, snap.hosts[j].name, HostMetrics(snap, monster, snap.hosts[j].id))
      invariant ListsOf(snap, monster, snap.hosts[..i], lists)
      invariant forall b: Bucket :: samples.Get(b) == Pool(HostParts(snap, snap.hosts[..i], b))
    {
      forall b: Bucket
        ensures Pool(HostParts(snap, snap.hosts[..i + 1], b))
                == Pool(HostParts(snap, snap.hosts[..i], b)) + BucketSamples(snap, snap.Vms(snap.hosts[i].id), b)
      {
        PartsStep(snap, i, b);
      }
      var record;
      record, samples := CollectHost(snap, monster, snap.hosts[i], samples);
      lists := AppendHost(snap, monster, i, record, lists);
      records := records + [record];
    }
    assert snap.hosts[..|snap.hosts|] == snap.hosts;
  }

  lemma NoHosts(snap: Snapshot, monster: MonsterVmSettings, hosts: seq<Resource>)
    requires hosts == []
    ensures ListsOf(snap, monster, hosts, HostLists([], [], [], [], [], []))
    ensures forall b: Bucket :: NO_SAMPLES.Get(b) == Pool(HostParts(snap, hosts, b))
  {
    hide HostMetric, BucketSamples;
  }

  /** The whole walk: the cluster's values and one record per host, in host order. */
  method CollectClusterAndHostMetrics(snap: Snapshot, monster: MonsterVmSettings)
    returns (clusterResults: map<MetricKey, Option<real>>, records: seq<HostRecord>)
    ensures clusterResults == ClusterMetrics(snap, monster)
    ensures |records| == |snap.hosts|
    ensures forall i :: 0 <= i < |records| ==>
      records[i] == HostRecord(snap.hosts[i].id, snap.hosts[i].name, HostMetrics(snap, monster, snap.hosts[i].id))
  {
    hide HostMetrics, HostMetric, Column, HostParts, Pool, Known, MaxOrNone, P90OrNone, SampleLists.Get, ClusterMetrics;
    var lists, samples;
    records, lists, samples := WalkHosts(snap, monster);
    var rolled: map<MetricKey, Option<real>> := map[
      CpuMonsterVmSizeRatio := Worst(lists.cpuMonster),
      MemoryMonsterVmSizeRatio := Worst(lists.memoryMonster),
      HostMemoryContention := MaxOrNone(lists.contention),
      HostDroppedPackets := MaxOrNone(lists.dropped),
      HostMemoryZipSwap := MaxOrNone(lists.zipSwap),
      HostCpuImbalanceRatio := MaxOrNone(lists.imbalance)
    ];
    clusterResults := WorstP90Into(rolled, samples);
    ClusterValuesComplete(snap, monster, rolled, samples, clusterResults);
  }

  lemma ClusterValuesComplete(snap: Snapshot, monster: MonsterVmSettings, rolled: map<MetricKey, Option<real>>,
                              samples: SampleLists, all: map<MetricKey, Option<real>>)
    requires rolled.Keys == HOST_ROLLED_KEYS
    requires forall k :: k in rolled ==> rolled[k] == Worst(Column(snap, monster, snap.hosts, k))
    requires forall b: Bucket :: samples.Get(b) == Pool(HostParts(snap, snap.hosts, b))
    requires forall b: Bucket :: HasPair(all, samples, b)
    requires forall k :: k in all <==> k in rolled || IsVmPair(k)
    requires forall k :: k in rolled && !IsVmPair(k) ==> all[k] == rolled[k]
    ensures all == ClusterMetrics(snap, monster)
  {
    hide HostMetric, Column, HostParts, Pool, MaxOrNone, P90OrNone, SampleLists.Get, Worst;
    VmPairKeys();
    forall k | k in SHARED_KEYS ensures k in all && all[k] == ClusterMetric(snap, monster, k) {
      if IsVmPair(k) {
        assert HasPair(all, samples, k.bucket);
      }
    }
  }
}
