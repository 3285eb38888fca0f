/** What each derived value says, in the readings it is made of (app/traversal.py, app/cluster.py). */
module Meanings {
  import opened Common
  import opened Constants
  import opened Samples
  import opened Traversal
  import opened TraversalTheorems
  import opened Cluster
  import opened Readings

  /** `v` is so many times `part` over `whole`: known exactly when both are and the whole is not zero. */
  predicate IsQuotient(v: Option<real>, factor: real, part: Option<real>, whole: Option<real>) {
    && (v.Some? <==> part.Some? && whole.Some? && whole.value != 0.0)
    && (v.Some? ==> v.value * whole.value == factor * part.value)
  }

  function BothOf(a: Option<real>, b: Option<real>): Option<real> {
    if a.Some? && b.Some? then Some(a.value + b.value) else None
  }

  lemma Divided(part: real, whole: real, factor: real)
    requires whole != 0.0
    ensures part / whole * whole == part
    ensures part / whole * factor * whole == factor * part
  {
    var q := part / whole;
    assert q * whole == part;
    assert q * factor * whole == factor * (q * whole);
  }

  lemma PctIsQuotient(part: Option<real>, whole: Option<real>)
    ensures IsQuotient(PctOf(part, whole), 100.0, part, whole)
  {
    if part.Some? && Truthy(whole) {
      Divided(part.value, whole.value, 100.0);
    }
  }

  lemma PerIsQuotient(total: real, capacity: Option<real>)
    ensures IsQuotient(PerCapacity(total, capacity), 1.0, Some(total), capacity)
  {
    if Truthy(capacity) {
      Divided(total, capacity.value, 1.0);
    }
  }

  // ----- memory: the DRAM tier, or else the provisioned memory -----

  /** The memory the VMs of a host take: its native total, or the sum of their known sizes. */
  function VmMemoryKb(snap: Snapshot, h: Id): real {
    if snap.Host(h, MemAllocatedKb).Some? then snap.Host(h, MemAllocatedKb).value
    else SumSeq(VmSamples(snap, snap.Vms(h), MemoryKb))
  }

  /** The largest VM over a limit: known when the limit is and some size is or there is no VM; without VMs it is 0. */
  predicate IsLargestOver(v: Option<real>, sizes: seq<real>, vms: nat, limit: Option<real>) {
    && (v.Some? <==> Truthy(limit) && (sizes != [] || vms == 0))
    && (v.Some? ==> v.value * limit.value == if sizes == [] then 0.0 else Max(sizes))
  }

  lemma LargestOver(sizes: seq<real>, vms: nat, limit: Option<real>)
    ensures IsLargestOver(MonsterSizeRatio(sizes, limit, vms), sizes, vms, limit)
  {
    hide Max;
    if Truthy(limit) && sizes != [] {
      Divided(Max(sizes), limit.value, 1.0);
    }
  }

  /** The smaller of the percentage of some memory and the cap in KB; none without that memory. */
  predicate IsMemoryLimit(limit: Option<real>, memKb: Option<real>, monster: MonsterVmSettings) {
    && (limit.Some? <==> Truthy(memKb))
    && (limit.Some? ==>
          var share, cap := memKb.value * monster.memoryPct / 100.0, monster.memoryCapGb * 1048576.0;
          limit.value in {share, cap} && limit.value <= share && limit.value <= cap)
  }

  /** The four values of a host that are taken of its memory are taken of this one. */
  ghost predicate OfMemory(snap: Snapshot, monster: MonsterVmSettings, h: Id, memKb: Option<real>) {
    && {HostMemoryBallooned, HostMemoryZipSwap, HostMemoryOvercommitRatio, MemoryMonsterVmSizeRatio} <= HOST_KEYS
    && IsQuotient(HostMetric(snap, monster, h, HostMemoryBallooned), 100.0, snap.Host(h, BalloonKb), memKb)
    && IsQuotient(HostMetric(snap, monster, h, HostMemoryZipSwap), 100.0,
                  BothOf(snap.Host(h, CompressedKb), snap.Host(h, SwapoutKb)), memKb)
    && IsQuotient(HostMetric(snap, monster, h, HostMemoryOvercommitRatio), 1.0, Some(VmMemoryKb(snap, h)), memKb)
    && exists limit ::
         && IsMemoryLimit(limit, memKb, monster)
         && IsLargestOver(HostMetric(snap, monster, h, MemoryMonsterVmSizeRatio), VmSamples(snap, snap.Vms(h), MemoryKb),
                          |snap.Vms(h)|, limit)
  }

  lemma OfCapacity(snap: Snapshot, monster: MonsterVmSettings, h: Id)
    ensures OfMemory(snap, monster, h, HostMemoryCapacityKb(snap, h))
  {
    hide Snapshot.Host, Snapshot.Vm, Snapshot.Vms, HostMemoryCapacityKb, VmSamples, SumSeq, HostMetric, IsQuotient, IsLargestOver,
         MonsterSizeRatio, PctOf, PerCapacity, HOST_KEYS;
    var memKb := HostMemoryCapacityKb(snap, h);
    MemoryKeys();
    MemoryMetrics(snap, monster, h);
    MonsterMetrics(snap, monster, h);
    DerivedOwnMetrics(snap, monster, h);
    PctIsQuotient(snap.Host(h, BalloonKb), memKb);
    PctIsQuotient(BothOf(snap.Host(h, CompressedKb), snap.Host(h, SwapoutKb)), memKb);
    PerIsQuotient(VmMemoryKb(snap, h), memKb);
    LargestOver(VmSamples(snap, snap.Vms(h), MemoryKb), |snap.Vms(h)|, MemoryMonsterKb(memKb, monster));
    assert IsMemoryLimit(MemoryMonsterKb(memKb, monster), memKb, monster);
  }

  lemma MemoryKeys()
    ensures {HostMemoryBallooned, HostMemoryZipSwap, HostMemoryOvercommitRatio, MemoryMonsterVmSizeRatio} <= HOST_KEYS
  {
    hide VM_PAIR_KEYS;
  }

  lemma MemoryMetrics(snap: Snapshot, monster: MonsterVmSettings, h: Id)
    requires HostMemoryBallooned in HOST_KEYS && HostMemoryZipSwap in HOST_KEYS
    ensures HostMetric(snap, monster, h, HostMemoryBallooned) == PctOf(snap.Host(h, BalloonKb), HostMemoryCapacityKb(snap, h))
    ensures HostMetric(snap, monster, h, HostMemoryZipSwap)
            == PctOf(BothOf(snap.Host(h, CompressedKb), snap.Host(h, SwapoutKb)), HostMemoryCapacityKb(snap, h))
  {
    hide Snapshot.Host, HostMemoryCapacityKb, HOST_KEYS;
  }

  /** A host's memory is its DRAM when that is known and not zero, and only otherwise what is provisioned. */
  lemma MemoryIsDram(snap: Snapshot, monster: MonsterVmSettings, h: Id)
    ensures Truthy(snap.Host(h, DramCapacityKb)) ==> OfMemory(snap, monster, h, snap.Host(h, DramCapacityKb))
    ensures !Truthy(snap.Host(h, DramCapacityKb)) ==> OfMemory(snap, monster, h, snap.Host(h, TotalCapacityKb))
  {
    hide OfMemory, Snapshot.Host;
    OfCapacity(snap, monster, h);
  }

  // ----- provisioned memory beside a DRAM tier -----

  /** The same but for what is provisioned on hosts whose DRAM is known. */
  ghost predicate SameButProvisioned(a: Snapshot, b: Snapshot) {
    && b == a.(stats := b.stats)
    && forall id: Id, key: string :: key != HostStatkey(TotalCapacityKb) || !Truthy(a.Host(id, DramCapacityKb)) ==>
         a.Stat(id, key) == b.Stat(id, key)
  }

  /** No other stat has the key of the provisioned memory. */
  lemma ProvisionedKey(k: HostStat, v: VmStat, c: ClusterStat)
    ensures HostStatkey(k) == HostStatkey(TotalCapacityKb) <==> k == TotalCapacityKb
    ensures VmStatkey(v) != HostStatkey(TotalCapacityKb) && ClusterStatkey(c) != HostStatkey(TotalCapacityKb)
  {
    var key := HostStatkey(TotalCapacityKb);
    assert |key| == 20 && key[..8] == "mem|host" && key[8] == '_' && key[9] == 'p';
  }

  lemma ProvisionedNotRead(a: Snapshot, b: Snapshot)
    requires SameButProvisioned(a, b)
    ensures SameReadings(a, b)
  {
    hide HostStatkey, VmStatkey, ClusterStatkey, HostPropertyKey, Snapshot.Stat, Truthy;
    forall c: ClusterStat ensures a.Cluster(c) == b.Cluster(c) {
      ProvisionedKey(TotalCapacityKb, NumCpu, c);
    }
    forall id: Id, v: VmStat ensures a.Vm(id, v) == b.Vm(id, v) {
      ProvisionedKey(TotalCapacityKb, v, TotalImbalance);
    }
    forall i | 0 <= i < |a.hosts| ensures SameHostStats(a, b, a.hosts[i].id) && SameMemory(a, b, a.hosts[i].id) {
      var h := a.hosts[i].id;
      forall k: HostStat | k != TotalCapacityKb ensures a.Host(h, k) == b.Host(h, k) {
        ProvisionedKey(k, NumCpu, TotalImbalance);
      }
    }
  }

  /** While a host's DRAM is known, no change of what is provisioned changes any value of a host or of the cluster. */
  lemma ProvisionedIgnored(a: Snapshot, b: Snapshot, monster: MonsterVmSettings, parse: string -> Option<real>)
    requires SameButProvisioned(a, b)
    ensures forall i :: 0 <= i < |b.hosts| ==> HostMetrics(a, monster, b.hosts[i].id) == HostMetrics(b, monster, b.hosts[i].id)
    ensures ClusterMetrics(a, monster) == ClusterMetrics(b, monster)
    ensures ClusterOnlyMetrics(a, parse) == ClusterOnlyMetrics(b, parse)
  {
    hide *;
    ProvisionedNotRead(a, b);
    ReadingsDecide(a, b, monster, parse);
  }

  // ----- network throughput: only of hosts with a usage and a readable link speed -----

  /** The host's usage is known, and its link speed is a text that reads as a number other than zero. */
  predicate HasThroughput(snap: Snapshot, h: Id, parse: string -> Option<real>) {
    && snap.Host(h, NetUsage).Some?
    && snap.Prop(h, LinkSpeed).Some? && snap.Prop(h, LinkSpeed).value != ""
    && Truthy(parse(snap.Prop(h, LinkSpeed).value))
  }

  /** KB per second as Mb per second, in percent of the link's Mb per second. */
  function UsedPct(snap: Snapshot, h: Id, parse: string -> Option<real>): real
    requires HasThroughput(snap, h, parse)
  {
    snap.Host(h, NetUsage).value * 8.0 / 1000.0 / parse(snap.Prop(h, LinkSpeed).value).value * 100.0
  }

  lemma OneThroughput(snap: Snapshot, h: Id, parse: string -> Option<real>)
    ensures ThroughputPct(snap, h, parse).Some? <==> HasThroughput(snap, h, parse)
    ensures HasThroughput(snap, h, parse) ==> ThroughputPct(snap, h, parse) == Some(UsedPct(snap, h, parse))
  {
    hide Snapshot.Host, Snapshot.Prop;
  }

  /**
   The cluster's network throughput has a value exactly when some host has one, and is then the largest of just those
   hosts' percentages. A host without a usage, or with an absent, empty, unreadable or zero link speed, is left out.
   */
  lemma ThroughputOfKnownLinks(snap: Snapshot, parse: string -> Option<real>)
    ensures NetworkThroughput in CLUSTER_ONLY_KEYS
    ensures var highest := ClusterOnlyMetric(snap, parse, NetworkThroughput);
      && (highest.Some? <==> exists i :: 0 <= i < |snap.hosts| && HasThroughput(snap, snap.hosts[i].id, parse))
      && (highest.Some? ==>
            && (exists i :: 0 <= i < |snap.hosts| && HasThroughput(snap, snap.hosts[i].id, parse)
                            && UsedPct(snap, snap.hosts[i].id, parse) == highest.value)
            && (forall i :: 0 <= i < |snap.hosts| && HasThroughput(snap, snap.hosts[i].id, parse) ==>
                  UsedPct(snap, snap.hosts[i].id, parse) <= highest.value))
  {
    hide HasThroughput, UsedPct, ThroughputPct, Worst;
    var options := Throughputs(snap, snap.hosts, parse);
    WorstIsWorst(options);
    forall i | 0 <= i < |snap.hosts|
      ensures options[i].Some? <==> HasThroughput(snap, snap.hosts[i].id, parse)
      ensures options[i].Some? ==> options[i] == Some(UsedPct(snap, snap.hosts[i].id, parse)) && options[i] in options
    {
      OneThroughput(snap, snap.hosts[i].id, parse);
    }
  }

  /** The same snapshot with fewer properties. */
  ghost predicate FewerProperties(less: Snapshot, full: Snapshot) {
    && less == full.(props := less.props)
    && forall id: Id, p: HostProp :: less.Prop(id, p).Some? ==> less.Prop(id, p) == full.Prop(id, p)
  }

  /** When properties are lost the throughput is no data or at most what it was: never a guess. */
  lemma ThroughputUnderLoss(less: Snapshot, full: Snapshot, parse: string -> Option<real>)
    requires FewerProperties(less, full)
    ensures NetworkThroughput in CLUSTER_ONLY_KEYS
    ensures NotWorse(ClusterOnlyMetric(less, parse, NetworkThroughput), ClusterOnlyMetric(full, parse, NetworkThroughput))
  {
    hide ClusterOnlyMetric, CLUSTER_ONLY_KEYS;
    ThroughputOfKnownLinks(less, parse);
    ThroughputOfKnownLinks(full, parse);
    assert forall id: Id, k: HostStat :: less.Host(id, k) == full.Host(id, k);
    forall i | 0 <= i < |full.hosts| && HasThroughput(less, full.hosts[i].id, parse)
      ensures HasThroughput(full, full.hosts[i].id, parse)
      ensures UsedPct(less, full.hosts[i].id, parse) == UsedPct(full, full.hosts[i].id, parse)
    {
    }
  }

  // ----- the other values -----

  /** vMotions per estimated VM: known for a cluster with hosts whose estimate of VMs is not zero. */
  lemma VmotionPerVm(snap: Snapshot, parse: string -> Option<real>)
    ensures VmotionPct in CLUSTER_ONLY_KEYS
    ensures var perHost, hosts := snap.Cluster(VmCountPerHost), |snap.hosts| as real;
      IsQuotient(ClusterOnlyMetric(snap, parse, VmotionPct), 100.0, snap.Cluster(NumberVmotion),
                 if perHost.Some? then Some(perHost.value * hosts) else None)
  {
    hide Snapshot.Cluster;
    var perHost, vmotions := snap.Cluster(VmCountPerHost), snap.Cluster(NumberVmotion);
    if snap.hosts != [] && perHost.Some? && vmotions.Some? && perHost.value * |snap.hosts| as real != 0.0 {
      Divided(vmotions.value, perHost.value * |snap.hosts| as real, 100.0);
    }
  }

  /** The cluster's own readings, the DRS imbalance of which comes in thousandths. */
  lemma OwnReadings(snap: Snapshot, parse: string -> Option<real>)
    ensures {ClusterCpuImbalance, ClusterCpuOvercommitRatio, ClusterMemoryOvercommitRatio} <= CLUSTER_ONLY_KEYS
    ensures IsQuotient(ClusterOnlyMetric(snap, parse, ClusterCpuImbalance), 1.0, snap.Cluster(TotalImbalance), Some(1000.0))
    ensures ClusterOnlyMetric(snap, parse, ClusterCpuOvercommitRatio) == snap.Cluster(CpuAllocationRatio)
    ensures ClusterOnlyMetric(snap, parse, ClusterMemoryOvercommitRatio) == snap.Cluster(MemoryAllocationRatio)
  {
    hide Snapshot.Cluster;
  }

  /** The highest of the hosts' readings. */
  lemma HighestReadings(snap: Snapshot, parse: string -> Option<real>)
    ensures {CpuThreadUtilization, DiskIops} <= CLUSTER_ONLY_KEYS
    ensures IsWorst(ClusterOnlyMetric(snap, parse, CpuThreadUtilization),
                    seq(|snap.hosts|, i requires 0 <= i < |snap.hosts| => snap.Host(snap.hosts[i].id, CpuUtilization)))
    ensures IsWorst(ClusterOnlyMetric(snap, parse, DiskIops),
                    seq(|snap.hosts|, i requires 0 <= i < |snap.hosts| => snap.Host(snap.hosts[i].id, CommandsAveraged)))
  {
    hide Snapshot.Host, Worst, IsWorst;
    WorstIsWorst(HostStats(snap, CpuUtilization));
    WorstIsWorst(HostStats(snap, CommandsAveraged));
    assert HostStats(snap, CpuUtilization)
           == seq(|snap.hosts|, i requires 0 <= i < |snap.hosts| => snap.Host(snap.hosts[i].id, CpuUtilization));
    assert HostStats(snap, CommandsAveraged)
           == seq(|snap.hosts|, i requires 0 <= i < |snap.hosts| => snap.Host(snap.hosts[i].id, CommandsAveraged));
  }

  /** A host's values that are readings of its own. */
  lemma HostReadings(snap: Snapshot, monster: MonsterVmSettings, h: Id)
    ensures {HostCpuThreadUtilization, HostMemoryConsumed, HostMemoryReservation, HostMemoryContention, HostDroppedPackets} <= HOST_KEYS
    ensures HostMetric(snap, monster, h, HostCpuThreadUtilization) == snap.Host(h, CpuUtilization)
    ensures HostMetric(snap, monster, h, HostMemoryConsumed) == snap.Host(h, MemUsage)
    ensures HostMetric(snap, monster, h, HostMemoryReservation) == snap.Host(h, MemReservedPct)
    ensures HostMetric(snap, monster, h, HostMemoryContention) == snap.Host(h, MemContention)
    ensures HostMetric(snap, monster, h, HostDroppedPackets) == snap.Host(h, DroppedPct)
  {
    hide Snapshot.Host, VM_PAIR_KEYS;
  }

  /** The vCPUs the VMs of a host take: its native total, or the sum of their known sizes. */
  function VmVcpus(snap: Snapshot, h: Id): real {
    if snap.Host(h, VcpusAllocated).Some? then snap.Host(h, VcpusAllocated).value
    else SumSeq(VmSamples(snap, snap.Vms(h), NumCpu))
  }

  /** The percentage of some cores; none without them. */
  predicate IsCpuLimit(limit: Option<real>, cores: Option<real>, monster: MonsterVmSettings) {
    IsQuotient(limit, monster.cpuPct, cores, Some(100.0)) || (limit.None? && !Truthy(cores))
  }

  /** A host's values that are taken of its cores or of its CPU capacity. */
  lemma CpuReadings(snap: Snapshot, monster: MonsterVmSettings, h: Id)
    ensures {HostCpuReservation, HostCpuOvercommitRatio, CpuMonsterVmSizeRatio} <= HOST_KEYS
    ensures IsQuotient(HostMetric(snap, monster, h, HostCpuReservation), 100.0, snap.Host(h, CpuReserved), snap.Host(h, CpuCapacity))
    ensures IsQuotient(HostMetric(snap, monster, h, HostCpuOvercommitRatio), 1.0, Some(VmVcpus(snap, h)), snap.Host(h, CpuCores))
    ensures exists limit ::
      && IsCpuLimit(limit, snap.Host(h, CpuCores), monster)
      && IsLargestOver(HostMetric(snap, monster, h, CpuMonsterVmSizeRatio), VmSamples(snap, snap.Vms(h), NumCpu), |snap.Vms(h)|, limit)
  {
    hide Snapshot.Host, Snapshot.Vm, Snapshot.Vms, VmSamples, SumSeq, HostMetric, IsLargestOver, MonsterSizeRatio, PctOf, PerCapacity,
         HOST_KEYS;
    CpuKeys();
    MonsterMetrics(snap, monster, h);
    DerivedOwnMetrics(snap, monster, h);
    PctIsQuotient(snap.Host(h, CpuReserved), snap.Host(h, CpuCapacity));
    PerIsQuotient(VmVcpus(snap, h), snap.Host(h, CpuCores));
    var limit := CpuMonsterSize(snap.Host(h, CpuCores), monster);
    LargestOver(VmSamples(snap, snap.Vms(h), NumCpu), |snap.Vms(h)|, limit);
    assert IsCpuLimit(limit, snap.Host(h, CpuCores), monster);
  }

  lemma CpuKeys()
    ensures {HostCpuReservation, HostCpuOvercommitRatio, CpuMonsterVmSizeRatio} <= HOST_KEYS
  {
    hide VM_PAIR_KEYS;
  }

  /** Both hyper-threading properties read "true". */
  predicate IsHyperThreaded(snap: Snapshot, h: Id) {
    snap.Prop(h, HtAvailable) == Some("true") && snap.Prop(h, HtActive) == Some("true")
  }

  /**
   The imbalance ratio: the thread utilization over the core utilization, twice that when the host is hyper-threaded.
   It needs both and the cores; an idle host has 1, and one with running threads on idle cores none.
   */
  lemma ImbalanceReading(snap: Snapshot, monster: MonsterVmSettings, h: Id)
    ensures HostCpuImbalanceRatio in HOST_KEYS
    ensures var threads, cores := snap.Host(h, CpuUtilization), snap.Host(h, CoreUtilization);
      var ratio := HostMetric(snap, monster, h, HostCpuImbalanceRatio);
      && (ratio.Some? <==>
            threads.Some? && cores.Some? && Truthy(snap.Host(h, CpuCores)) && (cores.value == 0.0 ==> threads.value == 0.0))
      && (ratio.Some? ==>
            if cores.value == 0.0 then ratio.value == 1.0
            else ratio.value * cores.value == (if IsHyperThreaded(snap, h) then 2.0 else 1.0) * threads.value)
  {
    hide HostMetric, Snapshot.Host, Snapshot.Prop, HOST_KEYS, PerRunningCore, Running;
    ImbalanceIs(snap, monster, h);
    if snap.Host(h, CpuUtilization).Some? && snap.Host(h, CoreUtilization).Some? && Truthy(snap.Host(h, CpuCores)) {
      var t, c, n := snap.Host(h, CpuUtilization).value, snap.Host(h, CoreUtilization).value, snap.Host(h, CpuCores).value;
      RunningRatio(t, c, n, 1.0);
      RunningRatio(t, c, n, 2.0);
    }
  }

  lemma ImbalanceIs(snap: Snapshot, monster: MonsterVmSettings, h: Id)
    ensures HostCpuImbalanceRatio in HOST_KEYS
    ensures HostMetric(snap, monster, h, HostCpuImbalanceRatio)
            == ThreadsPerCore(snap.Host(h, CpuUtilization), snap.Host(h, CoreUtilization), snap.Host(h, CpuCores), IsHyperThreaded(snap, h))
  {
    hide Snapshot.Host, Snapshot.Prop, ThreadsPerCore, VM_PAIR_KEYS;
  }

  lemma RunningRatio(t: real, c: real, n: real, perCore: real)
    requires n != 0.0 && perCore != 0.0
    ensures var ratio := PerRunningCore(Running(t, n * perCore), Running(c, n));
      && (ratio.Some? <==> (c == 0.0 ==> t == 0.0))
      && (ratio.Some? ==> if c == 0.0 then ratio.value == 1.0 else ratio.value * c == perCore * t)
  {
    var x, y := t / 100.0, c / 100.0;
    NotZero(x, n * perCore);
    NotZero(n, perCore);
    NotZero(y, n);
    if c != 0.0 {
      var q := x * (n * perCore) / (y * n);
      assert q * (y * n) == x * (n * perCore);
      assert (q * y - x * perCore) * n == 0.0;
      NotZero(q * y - x * perCore, n);
    }
  }

  lemma NotZero(a: real, b: real)
    requires b != 0.0
    ensures a * b == 0.0 <==> a == 0.0
  {
  }
}
