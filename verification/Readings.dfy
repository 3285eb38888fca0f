/** What the metrics read, and that they depend on nothing else. */
module Readings {
  import opened Common
  import opened Constants
  import opened Samples
  import opened Traversal
  import opened Cluster

  // ----- metrics depend on the readings only -----

  /** A host has the same memory: the same DRAM, or in both none and the same provisioned memory. */
  predicate SameMemory(a: Snapshot, b: Snapshot, h: Id) {
    if Truthy(a.Host(h, DramCapacityKb)) then a.Host(h, DramCapacityKb) == b.Host(h, DramCapacityKb)
    else !Truthy(b.Host(h, DramCapacityKb)) && a.Host(h, TotalCapacityKb) == b.Host(h, TotalCapacityKb)
  }

  /** A host's stats other than the two that say how much memory it has. */
  predicate SameHostStats(a: Snapshot, b: Snapshot, h: Id) {
    forall k: HostStat :: k != DramCapacityKb && k != TotalCapacityKb ==> a.Host(h, k) == b.Host(h, k)
  }

  /** Two snapshots every metric reads the same things from. */
  ghost predicate SameReadings(a: Snapshot, b: Snapshot) {
    && a.clusterId == b.clusterId && a.hosts == b.hosts && a.vmsByHost == b.vmsByHost
    && (forall c: ClusterStat :: a.Cluster(c) == b.Cluster(c))
    && (forall id: Id, k: VmStat :: a.Vm(id, k) == b.Vm(id, k))
    && (forall i :: 0 <= i < |a.hosts| ==> SameHostStats(a, b, a.hosts[i].id) && SameMemory(a, b, a.hosts[i].id))
    && (forall i, p :: 0 <= i < |a.hosts| ==> a.Prop(a.hosts[i].id, p) == b.Prop(a.hosts[i].id, p))
  }

  /** The same stats are the same readings. */
  lemma SameStatsRead(a: Snapshot, b: Snapshot)
    requires a.clusterId == b.clusterId && a.hosts == b.hosts && a.vmsByHost == b.vmsByHost && a.stats == b.stats
    requires forall i, p :: 0 <= i < |a.hosts| ==> a.Prop(a.hosts[i].id, p) == b.Prop(a.hosts[i].id, p)
    ensures SameReadings(a, b)
  {
    hide HostStatkey, VmStatkey, ClusterStatkey, Snapshot.Prop;
    assert forall id: Id, k: HostStat :: a.Host(id, k) == b.Host(id, k);
  }

  lemma SameVmSamples(a: Snapshot, b: Snapshot, vms: seq<Resource>, k: VmStat)
    requires forall id: Id :: a.Vm(id, k) == b.Vm(id, k)
    ensures VmSamples(a, vms, k) == VmSamples(b, vms, k)
  {
    hide Snapshot.Vm;
    assert VmStats(a, vms, k) == VmStats(b, vms, k);
  }

  lemma SameHostMetric(a: Snapshot, b: Snapshot, monster: MonsterVmSettings, i: nat, k: MetricKey)
    requires SameReadings(a, b) && i < |a.hosts| && k in HOST_KEYS
    ensures HostMetric(a, monster, a.hosts[i].id, k) == HostMetric(b, monster, a.hosts[i].id, k)
  {
    hide *;
    ReadOfHost(a, b, i);
    if IsVmPair(k) {
      SamePair(a, b, monster, a.hosts[i].id, k);
    } else {
      SameOwnMetric(a, b, monster, a.hosts[i].id, k);
    }
  }

  lemma ReadOfHost(a: Snapshot, b: Snapshot, i: nat)
    requires SameReadings(a, b) && i < |a.hosts|
    ensures var h := a.hosts[i].id;
      && a.Vms(h) == b.Vms(h) && SameHostStats(a, b, h) && SameMemory(a, b, h)
      && (forall id: Id, k: VmStat :: a.Vm(id, k) == b.Vm(id, k))
      && a.Prop(h, HtAvailable) == b.Prop(h, HtAvailable) && a.Prop(h, HtActive) == b.Prop(h, HtActive)
  {
    hide Snapshot.Host, Snapshot.Vm, Snapshot.Cluster, Snapshot.Prop, SameHostStats, SameMemory;
  }

  lemma SamePair(a: Snapshot, b: Snapshot, monster: MonsterVmSettings, h: Id, k: MetricKey)
    requires IsVmPair(k) && k in HOST_KEYS && a.Vms(h) == b.Vms(h)
    requires forall id: Id, s: VmStat :: a.Vm(id, s) == b.Vm(id, s)
    ensures HostMetric(a, monster, h, k) == HostMetric(b, monster, h, k)
  {
    hide VmSamples, MaxOrNone, P90OrNone, Snapshot.Host, Snapshot.Vm, Snapshot.Vms, HOST_KEYS;
    SameVmSamples(a, b, a.Vms(h), Level(k.bucket));
  }

  lemma SameOwnMetric(a: Snapshot, b: Snapshot, monster: MonsterVmSettings, h: Id, k: MetricKey)
    requires !IsVmPair(k) && k in HOST_KEYS && a.Vms(h) == b.Vms(h) && SameHostStats(a, b, h) && SameMemory(a, b, h)
    requires forall id: Id, s: VmStat :: a.Vm(id, s) == b.Vm(id, s)
    requires a.Prop(h, HtAvailable) == b.Prop(h, HtAvailable) && a.Prop(h, HtActive) == b.Prop(h, HtActive)
    ensures HostMetric(a, monster, h, k) == HostMetric(b, monster, h, k)
  {
    hide VmSamples, SumSeq, PctOf, PerCapacity, MonsterSizeRatio, CpuMonsterSize, MemoryMonsterKb, HOST_KEYS,
         Snapshot.Host, Snapshot.Vm, Snapshot.Vms, Snapshot.Prop, HostCpuImbalance, HostMemoryCapacityKb, SameMemory;
    SameVmSamples(a, b, a.Vms(h), NumCpu);
    SameVmSamples(a, b, a.Vms(h), MemoryKb);
    SameImbalance(a, b, h);
    SameCapacityKb(a, b, h);
  }

  lemma SameImbalance(a: Snapshot, b: Snapshot, h: Id)
    requires SameHostStats(a, b, h)
    requires a.Prop(h, HtAvailable) == b.Prop(h, HtAvailable) && a.Prop(h, HtActive) == b.Prop(h, HtActive)
    ensures HostCpuImbalance(a, h, a.Host(h, CpuCores)) == HostCpuImbalance(b, h, b.Host(h, CpuCores))
  {
    hide Snapshot.Host, Snapshot.Prop, ThreadsPerCore;
  }

  lemma SameCapacityKb(a: Snapshot, b: Snapshot, h: Id)
    requires SameMemory(a, b, h)
    ensures HostMemoryCapacityKb(a, h) == HostMemoryCapacityKb(b, h)
  {
    hide Snapshot.Host;
  }

  lemma SameClusterMetric(a: Snapshot, b: Snapshot, monster: MonsterVmSettings, k: MetricKey)
    requires SameReadings(a, b) && k in SHARED_KEYS
    ensures ClusterMetric(a, monster, k) == ClusterMetric(b, monster, k)
  {
    hide HostMetric, Pool, MaxOrNone, P90OrNone, Worst, VmSamples, Snapshot.Prop, Snapshot.Vm, Snapshot.Host, Snapshot.Cluster;
    if IsVmPair(k) {
      forall i | 0 <= i < |a.hosts|
        ensures HostParts(a, a.hosts, k.bucket)[i] == HostParts(b, b.hosts, k.bucket)[i]
      {
        SameVmSamples(a, b, a.Vms(a.hosts[i].id), Level(k.bucket));
      }
      assert HostParts(a, a.hosts, k.bucket) == HostParts(b, b.hosts, k.bucket);
    } else {
      forall i | 0 <= i < |a.hosts|
        ensures Column(a, monster, a.hosts, k)[i] == Column(b, monster, b.hosts, k)[i]
      {
        SameHostMetric(a, b, monster, i, k);
      }
      assert Column(a, monster, a.hosts, k) == Column(b, monster, b.hosts, k);
    }
  }

  lemma SameClusterOnly(a: Snapshot, b: Snapshot, parse: string -> Option<real>, k: MetricKey)
    requires SameReadings(a, b) && k in CLUSTER_ONLY_KEYS
    ensures ClusterOnlyMetric(a, parse, k) == ClusterOnlyMetric(b, parse, k)
  {
    hide Worst, BallooningPct, ThroughputPct, VmotionsPerVm, Thousandths, Snapshot.Host, Snapshot.Prop, Snapshot.Vm, Snapshot.Cluster,
         SameMemory;
    forall i | 0 <= i < |a.hosts|
      ensures ThroughputPct(a, a.hosts[i].id, parse) == ThroughputPct(b, b.hosts[i].id, parse)
      ensures BallooningPct(a, a.hosts[i].id) == BallooningPct(b, b.hosts[i].id)
      ensures SameHostStats(a, b, a.hosts[i].id)
    {
      SameHostPcts(a, b, i, parse);
    }
    assert Throughputs(a, a.hosts, parse) == Throughputs(b, b.hosts, parse);
    assert Ballooned(a, a.hosts) == Ballooned(b, b.hosts);
    assert HostStats(a, CpuUtilization) == HostStats(b, CpuUtilization);
    assert HostStats(a, CommandsAveraged) == HostStats(b, CommandsAveraged);
  }

  lemma SameHostPcts(a: Snapshot, b: Snapshot, i: nat, parse: string -> Option<real>)
    requires SameReadings(a, b) && i < |a.hosts|
    ensures ThroughputPct(a, a.hosts[i].id, parse) == ThroughputPct(b, b.hosts[i].id, parse)
    ensures BallooningPct(a, a.hosts[i].id) == BallooningPct(b, b.hosts[i].id)
  {
    hide LinkUsePct, PctOf, Snapshot.Host, Snapshot.Prop, Snapshot.Vm, Snapshot.Cluster, HostMemoryCapacityKb, SameMemory;
    assert SameHostStats(a, b, a.hosts[i].id);
    SameCapacityKb(a, b, a.hosts[i].id);
    assert a.Prop(a.hosts[i].id, LinkSpeed) == b.Prop(a.hosts[i].id, LinkSpeed);
  }

  /** Every metric of a cluster and of its hosts is decided by the readings. */
  lemma ReadingsDecide(a: Snapshot, b: Snapshot, monster: MonsterVmSettings, parse: string -> Option<real>)
    requires SameReadings(a, b)
    ensures forall i :: 0 <= i < |b.hosts| ==> HostMetrics(a, monster, b.hosts[i].id) == HostMetrics(b, monster, b.hosts[i].id)
    ensures ClusterMetrics(a, monster) == ClusterMetrics(b, monster)
    ensures ClusterOnlyMetrics(a, parse) == ClusterOnlyMetrics(b, parse)
  {
    hide HostMetric, ClusterMetric, ClusterOnlyMetric, Snapshot.Prop;
    forall i | 0 <= i < |b.hosts| ensures HostMetrics(a, monster, b.hosts[i].id) == HostMetrics(b, monster, b.hosts[i].id) {
      forall k | k in HOST_KEYS
        ensures HostMetric(a, monster, b.hosts[i].id, k) == HostMetric(b, monster, b.hosts[i].id, k)
      {
        SameHostMetric(a, b, monster, i, k);
      }
    }
    forall k | k in SHARED_KEYS ensures ClusterMetric(a, monster, k) == ClusterMetric(b, monster, k) {
      SameClusterMetric(a, b, monster, k);
    }
    forall k | k in CLUSTER_ONLY_KEYS ensures ClusterOnlyMetric(a, parse, k) == ClusterOnlyMetric(b, parse, k) {
      SameClusterOnly(a, b, parse, k);
    }
  }
}
