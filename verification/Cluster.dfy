/** The cluster-only metrics (app/cluster.py). */
module Cluster {
  import opened Common
  import opened Constants
  import opened Samples
  import opened Traversal

  /** Where a directly mapped metric is read: on the cluster itself, or as the highest of its hosts. */
  datatype Source = OnCluster(stat: ClusterStat) | HighestHost(hostStat: HostStat)

  const NATIVE_STATKEY_MAP: seq<(MetricKey, Source)> := [
    (CpuThreadUtilization, HighestHost(CpuUtilization)),
    (DiskIops, HighestHost(CommandsAveraged)),
    (ClusterCpuImbalance, OnCluster(TotalImbalance)),
    (ClusterCpuOvercommitRatio, OnCluster(CpuAllocationRatio)),
    (ClusterMemoryOvercommitRatio, OnCluster(MemoryAllocationRatio))
  ]

  function HostStats(snap: Snapshot, k: HostStat): (options: seq<Option<real>>)
    ensures |options| == |snap.hosts|
    ensures forall i :: 0 <= i < |options| ==> options[i] == snap.Host(snap.hosts[i].id, k)
  {
    seq(|snap.hosts|, i requires 0 <= i < |snap.hosts| => snap.Host(snap.hosts[i].id, k))
  }

  function HighestHostStat(snap: Snapshot, k: HostStat): Option<real> {
    Worst(HostStats(snap, k))
  }

  function NativeValue(snap: Snapshot, source: Source): Option<real> {
    match source
    case OnCluster(k) => snap.Cluster(k)
    case HighestHost(k) => HighestHostStat(snap, k)
  }

  function BallooningPct(snap: Snapshot, hostId: Id): Option<real> {
    PctOf(snap.Host(hostId, BalloonKb), HostMemoryCapacityKb(snap, hostId))
  }

  /** KB per second over Mb per second, in percent. */
  function LinkUsePct(usageKbps: Option<real>, mbps: Option<real>): Option<real> {
    if usageKbps.Some? && Truthy(mbps) then Some(usageKbps.value * 8.0 / 1000.0 / mbps.value * 100.0) else None
  }

  /** The link speed, no data for a missing, empty or unreadable text. `parse` is the reading of that text. */
  function LinkMbps(speed: Option<string>, parse: string -> Option<real>): Option<real> {
    if speed.None? || speed.value == "" then None else parse(speed.value)
  }

  function ThroughputPct(snap: Snapshot, hostId: Id, parse: string -> Option<real>): Option<real> {
    LinkUsePct(snap.Host(hostId, NetUsage), LinkMbps(snap.Prop(hostId, LinkSpeed), parse))
  }

  function Ballooned(snap: Snapshot, hosts: seq<Resource>): (options: seq<Option<real>>)
    ensures |options| == |hosts|
    ensures forall i :: 0 <= i < |options| ==> options[i] == BallooningPct(snap, hosts[i].id)
  {
    seq(|hosts|, i requires 0 <= i < |hosts| => BallooningPct(snap, hosts[i].id))
  }

  function Throughputs(snap: Snapshot, hosts: seq<Resource>, parse: string -> Option<real>): (options: seq<Option<real>>)
    ensures |options| == |hosts|
    ensures forall i :: 0 <= i < |options| ==> options[i] == ThroughputPct(snap, hosts[i].id, parse)
  {
    seq(|hosts|, i requires 0 <= i < |hosts| => ThroughputPct(snap, hosts[i].id, parse))
  }

  /** vMotions over the estimated number of VMs. */
  function VmotionsPerVm(perHost: Option<real>, vmotions: Option<real>, hostCount: nat): Option<real> {
    if hostCount == 0 || perHost.None? || vmotions.None? then None
    else
      var estimate := perHost.value * hostCount as real;
      if estimate == 0.0 then None else Some(vmotions.value / estimate * 100.0)
  }

  function VmotionShare(snap: Snapshot): Option<real> {
    VmotionsPerVm(snap.Cluster(VmCountPerHost), snap.Cluster(NumberVmotion), |snap.hosts|)
  }

  /** The server reports the DRS imbalance in thousandths. */
  function Thousandths(v: Option<real>): Option<real> {
    if v.Some? then Some(v.value / 1000.0) else None
  }

  /** The value of one cluster-only metric. */
  function ClusterOnlyMetric(snap: Snapshot, parse: string -> Option<real>, k: MetricKey): Option<real>
    requires k in CLUSTER_ONLY_KEYS
  {
    match k
    case CpuThreadUtilization => HighestHostStat(snap, CpuUtilization)
    case DiskIops => HighestHostStat(snap, CommandsAveraged)
    case ClusterCpuImbalance => Thousandths(snap.Cluster(TotalImbalance))
    case ClusterCpuOvercommitRatio => snap.Cluster(CpuAllocationRatio)
    case ClusterMemoryOvercommitRatio => snap.Cluster(MemoryAllocationRatio)
    case MemoryBallooned => Worst(Ballooned(snap, snap.hosts))
    case NetworkThroughput => Worst(Throughputs(snap, snap.hosts, parse))
    case VmotionPct => VmotionShare(snap)
  }

  function ClusterOnlyMetrics(snap: Snapshot, parse: string -> Option<real>): map<MetricKey, Option<real>> {
    map k | k in CLUSTER_ONLY_KEYS :: ClusterOnlyMetric(snap, parse, k)
  }

  method HighestHostBallooned(snap: Snapshot) returns (highest: Option<real>)
    ensures highest == Worst(Ballooned(snap, snap.hosts))
  {
    hide BallooningPct;
    var ratios: seq<real> := [];
    for i := 0 to |snap.hosts|
      invariant ratios == Known(Ballooned(snap, snap.hosts[..i]))
    {
      var ratio := BallooningPct(snap, snap.hosts[i].id);
      assert Ballooned(snap, snap.hosts[..i + 1]) == Ballooned(snap, snap.hosts[..i]) + [ratio];
      KnownAppend(Ballooned(snap, snap.hosts[..i]), ratio);
      if ratio.Some? {
        ratios := ratios + [ratio.value];
      }
    }
    assert snap.hosts[..|snap.hosts|] == snap.hosts;
    highest := if ratios == [] then None else Some(Max(ratios));
  }

  method HighestThroughput(snap: Snapshot, parse: string -> Option<real>) returns (highest: Option<real>)
    ensures highest == Worst(Throughputs(snap, snap.hosts, parse))
  {
    hide ThroughputPct;
    var ratios: seq<real> := [];
    for i := 0 to |snap.hosts|
      invariant ratios == Known(Throughputs(snap, snap.hosts[..i], parse))
    {
      var ratio := ThroughputPct(snap, snap.hosts[i].id, parse);
      assert Throughputs(snap, snap.hosts[..i + 1], parse) == Throughputs(snap, snap.hosts[..i], parse) + [ratio];
      KnownAppend(Throughputs(snap, snap.hosts[..i], parse), ratio);
      if ratio.Some? {
        ratios := ratios + [ratio.value];
      }
    }
    assert snap.hosts[..|snap.hosts|] == snap.hosts;
    highest := if ratios == [] then None else Some(Max(ratios));
  }

  /** The directly mapped metrics. */
  method NativeValues(snap: Snapshot) returns (values: map<MetricKey, Option<real>>)
    ensures values == map[
      CpuThreadUtilization := HighestHostStat(snap, CpuUtilization),
      DiskIops := HighestHostStat(snap, CommandsAveraged),
      ClusterCpuImbalance := snap.Cluster(TotalImbalance),
      ClusterCpuOvercommitRatio := snap.Cluster(CpuAllocationRatio),
      ClusterMemoryOvercommitRatio := snap.Cluster(MemoryAllocationRatio)]
  {
    hide HighestHostStat, Snapshot.Cluster;
    values := map[];
    for i := 0 to |NATIVE_STATKEY_MAP|
      invariant i >= 1 ==> CpuThreadUtilization in values && values[CpuThreadUtilization] == HighestHostStat(snap, CpuUtilization)
      invariant i >= 2 ==> DiskIops in values && values[DiskIops] == HighestHostStat(snap, CommandsAveraged)
      invariant i >= 3 ==> ClusterCpuImbalance in values && values[ClusterCpuImbalance] == snap.Cluster(TotalImbalance)
      invariant i >= 4 ==> ClusterCpuOvercommitRatio in values && values[ClusterCpuOvercommitRatio] == snap.Cluster(CpuAllocationRatio)
      invariant i >= 5 ==> ClusterMemoryOvercommitRatio in values
      invariant i >= 5 ==> values[ClusterMemoryOvercommitRatio] == snap.Cluster(MemoryAllocationRatio)
      invariant values.Keys <= {CpuThreadUtilization, DiskIops, ClusterCpuImbalance, ClusterCpuOvercommitRatio, ClusterMemoryOvercommitRatio}
    {
      values := values[NATIVE_STATKEY_MAP[i].0 := NativeValue(snap, NATIVE_STATKEY_MAP[i].1)];
    }
  }

  /** Fills the cluster-only values and rescales the DRS imbalance in place. */
  method GatherMetricValues(snap: Snapshot, parse: string -> Option<real>) returns (values: map<MetricKey, Option<real>>)
    ensures values == ClusterOnlyMetrics(snap, parse)
  {
    hide HighestHostStat, Snapshot.Cluster, Ballooned, Throughputs, Worst, VmotionShare, ClusterOnlyMetrics;
    values := NativeValues(snap);
    var ballooned := HighestHostBallooned(snap);
    values := values[MemoryBallooned := ballooned];
    var throughput := HighestThroughput(snap, parse);
    values := values[NetworkThroughput := throughput];
    values := values[VmotionPct := VmotionShare(snap)];
    if values[ClusterCpuImbalance].Some? {
      values := values[ClusterCpuImbalance := Some(values[ClusterCpuImbalance].value / 1000.0)];
    }
    AllGathered(snap, parse);
  }

  lemma AllGathered(snap: Snapshot, parse: string -> Option<real>)
    ensures ClusterOnlyMetrics(snap, parse) == map[
      CpuThreadUtilization := HighestHostStat(snap, CpuUtilization),
      DiskIops := HighestHostStat(snap, CommandsAveraged),
      ClusterCpuImbalance := Thousandths(snap.Cluster(TotalImbalance)),
      ClusterCpuOvercommitRatio := snap.Cluster(CpuAllocationRatio),
      ClusterMemoryOvercommitRatio := snap.Cluster(MemoryAllocationRatio),
      MemoryBallooned := Worst(Ballooned(snap, snap.hosts)),
      NetworkThroughput := Worst(Throughputs(snap, snap.hosts, parse)),
      VmotionPct := VmotionShare(snap)]
  {
    hide HighestHostStat, Snapshot.Cluster, Ballooned, Throughputs, Worst, VmotionShare, Thousandths;
  }

  // ----- two separate computations of the same thing -----

  /**
   Thread utilization, which the cluster reads on its own and not from the walk, is the largest
   value of the host records all the same.
   */
  lemma ThreadUtilizationAgrees(snap: Snapshot, parse: string -> Option<real>, monster: MonsterVmSettings)
    ensures IsWorst(ClusterOnlyMetric(snap, parse, CpuThreadUtilization),
                    Column(snap, monster, snap.hosts, HostCpuThreadUtilization))
  {
    hide Snapshot.Host, Known, Max, Worst, IsWorst, SHARED_KEYS;
    WorstIsWorst(HostStats(snap, CpuUtilization));
    assert HostStats(snap, CpuUtilization) == Column(snap, monster, snap.hosts, HostCpuThreadUtilization);
  }

  /** The same for ballooned %, which is computed in a second place. */
  lemma BallooningAgrees(snap: Snapshot, parse: string -> Option<real>, monster: MonsterVmSettings)
    ensures IsWorst(ClusterOnlyMetric(snap, parse, MemoryBallooned),
                    Column(snap, monster, snap.hosts, HostMemoryBallooned))
  {
    hide Snapshot.Host, HostMemoryCapacityKb, PctOf, Known, Max, Worst, IsWorst, SHARED_KEYS;
    WorstIsWorst(Ballooned(snap, snap.hosts));
    assert Ballooned(snap, snap.hosts) == Column(snap, monster, snap.hosts, HostMemoryBallooned);
  }
}
