/** Object kinds, stat and property keys, metric keys and limits (app/constants_*.py). */
module Constants {

  type Id = string

  datatype Resource = Resource(id: Id, name: string)

  datatype Kind = ClusterKind | HostKind | VmKind | OtherKind

  // ----- freshness limits, in milliseconds -----

  const STALE_AFTER_MS: int := 10 * 60_000
  const CLOCK_SKEW_TOLERANCE_MS: int := 5 * 60_000

  // ----- request sizes -----

  const RESOURCE_QUERY_PAGE_SIZE: int := 1000
  const BULK_MAX_RESOURCE_IDS: int := 200

  // ----- properties -----

  const VM_POWER_STATE_PROPERTY := "summary|runtime|powerState"
  const VM_POWERED_ON := "Powered On"

  datatype HostProp = LinkSpeed | HtAvailable | HtActive

  function HostPropertyKey(p: HostProp): string {
    match p
    case LinkSpeed => "config|network|linkspeed"
    case HtAvailable => "config|hyperThread|available"
    case HtActive => "config|hyperThread|active"
  }

  const HOST_PROPERTY_KEYS: seq<string> :=
    [HostPropertyKey(LinkSpeed), HostPropertyKey(HtAvailable), HostPropertyKey(HtActive)]
  const VM_PROPERTY_KEYS: seq<string> := [VM_POWER_STATE_PROPERTY]

  // ----- stats of a cluster -----

  datatype ClusterStat = TotalImbalance | CpuAllocationRatio | MemoryAllocationRatio | VmCountPerHost | NumberVmotion

  function ClusterStatkey(k: ClusterStat): string {
    match k
    case TotalImbalance => "clusterServices|total_imbalance"
    case CpuAllocationRatio => "cpu|vcpus_to_cores_allocation_ratio"
    case MemoryAllocationRatio => "mem|virtual_to_physical_memory_allocation_ratio"
    case VmCountPerHost => "summary|vm_count_per_host"
    case NumberVmotion => "summary|number_vmotion"
  }

  const CLUSTER_STATKEYS: seq<string> := [
    ClusterStatkey(TotalImbalance), ClusterStatkey(CpuAllocationRatio), ClusterStatkey(MemoryAllocationRatio),
    ClusterStatkey(VmCountPerHost), ClusterStatkey(NumberVmotion)
  ]

  // ----- stats of a host -----

  datatype HostStat =
    | CpuUtilization | CommandsAveraged | CpuCores | DramCapacityKb | TotalCapacityKb | BalloonKb
    | MemContention | DroppedPct | MemUsage | MemReservedPct | CpuReserved | CpuCapacity
    | NetUsage | VcpusAllocated | MemAllocatedKb | CompressedKb | SwapoutKb | CoreUtilization

  function HostStatkey(k: HostStat): string {
    match k
    case CpuUtilization => "cpu|utilization_average"
    case CommandsAveraged => "disk|commandsAveraged_average"
    case CpuCores => "hardware|cpuInfo|num_CpuCores"
    case DramCapacityKb => "mem:DRAM|memory_tier_total_capacity"
    case TotalCapacityKb => "mem|host_provisioned"
    case BalloonKb => "mem|vmmemctl_average"
    case MemContention => "mem|host_contentionPct"
    case DroppedPct => "net|droppedPct"
    case MemUsage => "mem|usage_average"
    case MemReservedPct => "mem|reservedCapacityPct"
    case CpuReserved => "cpu|reservedCapacity_average"
    case CpuCapacity => "cpu|totalCapacity_average"
    case NetUsage => "net|usage_average"
    case VcpusAllocated => "cpu|vcpus_allocated_on_all_powered_on_vms"
    case MemAllocatedKb => "mem|memory_allocated_on_all_powered_on_vms"
    case CompressedKb => "mem|compressed_average"
    case SwapoutKb => "mem|swapout_average"
    case CoreUtilization => "cpu|coreUtilization_average"
  }

  const HOST_STATKEYS: seq<string> := [
    HostStatkey(CpuUtilization), HostStatkey(CommandsAveraged), HostStatkey(CpuCores), HostStatkey(DramCapacityKb),
    HostStatkey(TotalCapacityKb), HostStatkey(BalloonKb), HostStatkey(MemContention), HostStatkey(DroppedPct),
    HostStatkey(MemUsage), HostStatkey(MemReservedPct), HostStatkey(CpuReserved), HostStatkey(CpuCapacity),
    HostStatkey(NetUsage), HostStatkey(VcpusAllocated), HostStatkey(MemAllocatedKb), HostStatkey(CompressedKb),
    HostStatkey(SwapoutKb), HostStatkey(CoreUtilization)
  ]

  // ----- stats of a VM -----

  /** The per-VM sample lists that feed a worst/P90 pair each. */
  datatype Bucket = VcpuReady | VcpuCostop | MemoryContention | DiskLatency

  const BUCKETS: seq<Bucket> := [VcpuReady, VcpuCostop, MemoryContention, DiskLatency]

  /** The position of a bucket in the iteration order. */
  function BucketIndex(b: Bucket): (i: nat)
    ensures i < |BUCKETS| && BUCKETS[i] == b
  {
    match b
    case VcpuReady => 0
    case VcpuCostop => 1
    case MemoryContention => 2
    case DiskLatency => 3
  }

  datatype VmStat = NumCpu | MemoryKb | Level(bucket: Bucket)

  function VmStatkey(k: VmStat): string {
    match k
    case NumCpu => "config|hardware|num_Cpu"
    case MemoryKb => "mem|guest_provisioned"
    case Level(VcpuReady) => "cpu|20_sec_peak_readyPct"
    case Level(VcpuCostop) => "cpu|20_sec_peak_costopPct"
    case Level(MemoryContention) => "mem|20_sec_peak_host_contentionPct"
    case Level(DiskLatency) => "virtualDisk|20_sec_peak_totalLatency_average"
  }

  const VM_STATKEYS: seq<string> := [
    VmStatkey(NumCpu), VmStatkey(MemoryKb), VmStatkey(Level(VcpuReady)), VmStatkey(Level(VcpuCostop)),
    VmStatkey(Level(MemoryContention)), VmStatkey(Level(DiskLatency))
  ]

  /** No metric reads a key that the bulk requests for its kind of object do not ask for. */
  lemma EveryReadIsRequested(c: ClusterStat, h: HostStat, v: VmStat, p: HostProp)
    ensures ClusterStatkey(c) in CLUSTER_STATKEYS
    ensures HostStatkey(h) in HOST_STATKEYS
    ensures VmStatkey(v) in VM_STATKEYS
    ensures HostPropertyKey(p) in HOST_PROPERTY_KEYS
  {
    hide ClusterStatkey, HostStatkey, VmStatkey, HostPropertyKey;
    var i := ClusterStatIndex(c);
    assert CLUSTER_STATKEYS[i] == ClusterStatkey(c);
    var j := HostStatIndex(h);
    assert HOST_STATKEYS[j] == HostStatkey(h);
    assert v.Level? ==> v.bucket.VcpuReady? || v.bucket.VcpuCostop? || v.bucket.MemoryContention? || v.bucket.DiskLatency?;
    assert VM_STATKEYS[0] == VmStatkey(NumCpu) && VM_STATKEYS[1] == VmStatkey(MemoryKb);
    assert VM_STATKEYS[2] == VmStatkey(Level(VcpuReady)) && VM_STATKEYS[3] == VmStatkey(Level(VcpuCostop));
    assert VM_STATKEYS[4] == VmStatkey(Level(MemoryContention)) && VM_STATKEYS[5] == VmStatkey(Level(DiskLatency));
  }

  function ClusterStatIndex(k: ClusterStat): nat {
    match k
    case TotalImbalance => 0 case CpuAllocationRatio => 1 case MemoryAllocationRatio => 2
    case VmCountPerHost => 3 case NumberVmotion => 4
  }

  function HostStatIndex(k: HostStat): nat {
    match k
    case CpuUtilization => 0 case CommandsAveraged => 1 case CpuCores => 2 case DramCapacityKb => 3
    case TotalCapacityKb => 4 case BalloonKb => 5 case MemContention => 6 case DroppedPct => 7
    case MemUsage => 8 case MemReservedPct => 9 case CpuReserved => 10 case CpuCapacity => 11
    case NetUsage => 12 case VcpusAllocated => 13 case MemAllocatedKb => 14 case CompressedKb => 15
    case SwapoutKb => 16 case CoreUtilization => 17
  }

  // ----- metric keys -----

  datatype MetricKey =
    // shared by both object types
    | WorstVm(bucket: Bucket)
    | P90Vm(bucket: Bucket)
    | CpuMonsterVmSizeRatio
    | MemoryMonsterVmSizeRatio
    | HostMemoryContention
    | HostDroppedPackets
    | HostMemoryZipSwap
    | HostCpuImbalanceRatio
    // cluster only
    | CpuThreadUtilization
    | MemoryBallooned
    | NetworkThroughput
    | DiskIops
    | ClusterCpuImbalance
    | VmotionPct
    | ClusterCpuOvercommitRatio
    | ClusterMemoryOvercommitRatio
    // host only
    | HostCpuThreadUtilization
    | HostMemoryConsumed
    | HostMemoryBallooned
    | HostCpuReservation
    | HostMemoryReservation
    | HostCpuOvercommitRatio
    | HostMemoryOvercommitRatio

  const VM_PAIR_KEYS: set<MetricKey> := {
    WorstVm(VcpuReady), P90Vm(VcpuReady), WorstVm(VcpuCostop), P90Vm(VcpuCostop),
    WorstVm(MemoryContention), P90Vm(MemoryContention), WorstVm(DiskLatency), P90Vm(DiskLatency)
  }

  /** Shared keys whose cluster value is read off the hosts one by one. */
  const HOST_ROLLED_KEYS: set<MetricKey> := {
    CpuMonsterVmSizeRatio, MemoryMonsterVmSizeRatio, HostMemoryContention,
    HostDroppedPackets, HostMemoryZipSwap, HostCpuImbalanceRatio
  }

  const SHARED_KEYS: set<MetricKey> := HOST_ROLLED_KEYS + VM_PAIR_KEYS

  const HOST_ONLY_KEYS: set<MetricKey> := {
    HostCpuThreadUtilization, HostMemoryConsumed, HostMemoryBallooned, HostCpuReservation,
    HostMemoryReservation, HostCpuOvercommitRatio, HostMemoryOvercommitRatio
  }

  const CLUSTER_ONLY_KEYS: set<MetricKey> := {
    CpuThreadUtilization, MemoryBallooned, NetworkThroughput, DiskIops,
    ClusterCpuImbalance, VmotionPct, ClusterCpuOvercommitRatio, ClusterMemoryOvercommitRatio
  }

  const HOST_KEYS: set<MetricKey> := SHARED_KEYS + HOST_ONLY_KEYS
  const CLUSTER_KEYS: set<MetricKey> := SHARED_KEYS + CLUSTER_ONLY_KEYS

  predicate IsVmPair(k: MetricKey) {
    k.WorstVm? || k.P90Vm?
  }

  /** A shared key whose cluster value is a maximum over hosts: the six above and the four worst-VM keys. */
  predicate MaxRolled(k: MetricKey) {
    k in HOST_ROLLED_KEYS || k.WorstVm?
  }
}
