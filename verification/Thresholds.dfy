/** Band bounds, weights and excluded-when-green keys of both object types (app/thresholds_*.py). */
module Thresholds {
  import opened Constants
  import opened Scoring

  /** The threshold tables: first the keys both object types share, then the cluster's own, then the hosts' own. */
  function BoundsOf(k: MetricKey): Bounds {
    match k
    case WorstVm(VcpuReady) => Bounds(4.0, 8.0, 16.0)
    case P90Vm(VcpuReady) => Bounds(1.0, 2.0, 4.0)
    case WorstVm(VcpuCostop) => Bounds(2.0, 4.0, 8.0)
    case P90Vm(VcpuCostop) => Bounds(0.5, 1.0, 2.0)
    case WorstVm(MemoryContention) => Bounds(1.0, 2.0, 4.0)
    case P90Vm(MemoryContention) => Bounds(0.5, 1.0, 2.0)
    case WorstVm(DiskLatency) => Bounds(40.0, 80.0, 120.0)
    case P90Vm(DiskLatency) => Bounds(20.0, 40.0, 60.0)
    case HostMemoryContention => Bounds(0.25, 0.5, 1.0)
    case HostDroppedPackets => Bounds(0.0, 0.2, 0.4)
    case HostMemoryZipSwap => Bounds(0.25, 0.5, 1.0)
    case HostCpuImbalanceRatio => Bounds(1.2, 1.4, 1.6)
    case CpuMonsterVmSizeRatio => Bounds(1.0, 2.0, 3.0)
    case MemoryMonsterVmSizeRatio => Bounds(1.0, 2.0, 3.0)
    case CpuThreadUtilization => Bounds(60.0, 80.0, 90.0)
    case MemoryBallooned => Bounds(1.0, 2.0, 4.0)
    case NetworkThroughput => Bounds(1.0, 2.0, 4.0)
    case DiskIops => Bounds(25000.0, 50000.0, 100000.0)
    case ClusterCpuImbalance => Bounds(0.05, 0.08, 0.12)
    case VmotionPct => Bounds(1.0, 2.0, 4.0)
    case ClusterCpuOvercommitRatio => Bounds(1.0, 2.0, 3.0)
    case ClusterMemoryOvercommitRatio => Bounds(1.0, 1.25, 1.5)
    case HostCpuThreadUtilization => Bounds(60.0, 80.0, 90.0)
    case HostMemoryConsumed => Bounds(80.0, 90.0, 95.0)
    case HostMemoryBallooned => Bounds(1.0, 2.0, 4.0)
    case HostCpuReservation => Bounds(10.0, 40.0, 60.0)
    case HostMemoryReservation => Bounds(10.0, 40.0, 60.0)
    case HostCpuOvercommitRatio => Bounds(1.0, 2.0, 3.0)
    case HostMemoryOvercommitRatio => Bounds(1.0, 1.4, 1.8)
  }

  /** The weight tables, in the same order. */
  function WeightOf(k: MetricKey): real {
    match k
    case WorstVm(VcpuReady) => 1.0
    case P90Vm(VcpuReady) => 0.75
    case WorstVm(VcpuCostop) => 1.0
    case P90Vm(VcpuCostop) => 0.75
    case WorstVm(MemoryContention) => 1.0
    case P90Vm(MemoryContention) => 0.75
    case WorstVm(DiskLatency) => 1.0
    case P90Vm(DiskLatency) => 0.75
    case HostMemoryContention => 0.75
    case HostDroppedPackets => 0.75
    case HostMemoryZipSwap => 1.0
    case HostCpuImbalanceRatio => 0.75
    case CpuMonsterVmSizeRatio => 1.25
    case MemoryMonsterVmSizeRatio => 1.25
    case CpuThreadUtilization => 1.0
    case MemoryBallooned => 1.0
    case NetworkThroughput => 0.75
    case DiskIops => 0.75
    case ClusterCpuImbalance => 0.75
    case VmotionPct => 0.75
    case ClusterCpuOvercommitRatio => 1.0
    case ClusterMemoryOvercommitRatio => 1.0
    case HostCpuThreadUtilization => 1.0
    case HostMemoryConsumed => 1.0
    case HostMemoryBallooned => 1.0
    case HostCpuReservation => 0.75
    case HostMemoryReservation => 0.75
    case HostCpuOvercommitRatio => 1.0
    case HostMemoryOvercommitRatio => 1.0
  }

  const SHARED_EXCLUDED: set<MetricKey> := {HostDroppedPackets}

  const CLUSTER_ONLY_EXCLUDED: set<MetricKey> :=
    {CpuThreadUtilization, ClusterCpuOvercommitRatio, ClusterMemoryOvercommitRatio}

  const HOST_ONLY_EXCLUDED: set<MetricKey> := {
    HostCpuThreadUtilization, HostMemoryConsumed, HostCpuReservation,
    HostMemoryReservation, HostCpuOvercommitRatio, HostMemoryOvercommitRatio
  }

  /** What a cluster is scored with. */
  const CLUSTER_SCOPE: Scope<MetricKey> := Scope(
    map k | k in CLUSTER_KEYS :: BoundsOf(k), map k | k in CLUSTER_KEYS :: WeightOf(k), SHARED_EXCLUDED + CLUSTER_ONLY_EXCLUDED)

  /** What a host is scored with. */
  const HOST_SCOPE: Scope<MetricKey> := Scope(
    map k | k in HOST_KEYS :: BoundsOf(k), map k | k in HOST_KEYS :: WeightOf(k), SHARED_EXCLUDED + HOST_ONLY_EXCLUDED)

  lemma OrderedBounds(k: MetricKey)
    ensures Ordered(BoundsOf(k)) && WeightOf(k) > 0.0
  {
  }

  /** The shipped tables meet what the score theorems ask for: ordered bounds and positive weights. */
  lemma ShippedScopesValid()
    ensures ValidScope(CLUSTER_SCOPE) && ValidScope(HOST_SCOPE)
  {
    hide BoundsOf, WeightOf;
    forall k ensures Ordered(BoundsOf(k)) && WeightOf(k) > 0.0 {
      OrderedBounds(k);
    }
  }
}
