/** How the cluster values of one walk relate to the host records of the same walk. */
module TraversalTheorems {
  import opened Common
  import opened Constants
  import opened Samples
  import opened Traversal

  /**
   The cluster value of every max-rolled key is the largest host value, and has no data
   exactly when no host has any: also for the worst-VM keys, which the walk takes from the
   pooled samples and not from the hosts.
   */
  lemma ClusterIsWorstHost(snap: Snapshot, monster: MonsterVmSettings, k: MetricKey)
    requires MaxRolled(k)
    ensures k in SHARED_KEYS
    ensures IsWorst(ClusterMetric(snap, monster, k), Column(snap, monster, snap.hosts, k))
  {
    hide BucketSamples, Pool, MaxOrNone, Worst;
    VmPairKeys();
    if k.WorstVm? {
      var parts := HostParts(snap, snap.hosts, k.bucket);
      PoolWorst(parts);
      assert PartWorsts(parts) == Column(snap, monster, snap.hosts, k);
    } else {
      WorstIsWorst(Column(snap, monster, snap.hosts, k));
    }
  }

  /**
   The cluster's P90 of a bucket lies between the smallest and the largest host P90 of that
   bucket, for any number of hosts and VMs; it has no data exactly when no host has one.
   */
  lemma ClusterP90BetweenHosts(snap: Snapshot, monster: MonsterVmSettings, b: Bucket)
    ensures P90Vm(b) in SHARED_KEYS
    ensures var cluster := ClusterMetric(snap, monster, P90Vm(b));
      var hosts := Column(snap, monster, snap.hosts, P90Vm(b));
      && (cluster.None? <==> forall i :: 0 <= i < |hosts| ==> hosts[i].None?)
      && (cluster.Some? ==>
            && (exists low :: 0 <= low < |hosts| && hosts[low].Some? && hosts[low].value <= cluster.value)
            && (exists high :: 0 <= high < |hosts| && hosts[high].Some? && cluster.value <= hosts[high].value))
  {
    hide BucketSamples, Pool, P90;
    VmPairKeys();
    var parts := HostParts(snap, snap.hosts, b);
    var hosts := Column(snap, monster, snap.hosts, P90Vm(b));
    forall i | 0 <= i < |hosts| ensures hosts[i] == P90OrNone(parts[i]) {
    }
    if Pool(parts) == [] {
      forall i | 0 <= i < |hosts| ensures hosts[i].None? {
        if parts[i] != [] {
          PartWorstInPool(parts, i);
        }
      }
    } else {
      PoolP90Between(parts);
      var low :| 0 <= low < |parts| && parts[low] != [] && P90(parts[low]) <= P90(Pool(parts));
      var high :| 0 <= high < |parts| && parts[high] != [] && P90(Pool(parts)) <= P90(parts[high]);
      assert hosts[low] == Some(P90(parts[low])) && hosts[high] == Some(P90(parts[high]));
    }
  }

  /** On the same samples the P90 is known exactly when the worst is, and never exceeds it. */
  lemma P90AtMostWorst(samples: seq<real>)
    ensures P90OrNone(samples).Some? <==> MaxOrNone(samples).Some?
    ensures samples != [] ==> P90OrNone(samples).value <= MaxOrNone(samples).value
  {
  }

  // ----- losing samples -----

  /** `less` has at most the VM stats of `full`; hosts, VMs, host stats and properties are the same. */
  ghost predicate FewerSamples(less: Snapshot, full: Snapshot) {
    && less.hosts == full.hosts
    && less.vmsByHost == full.vmsByHost
    && (forall h: Resource, k: HostStat :: h in full.hosts ==> less.Host(h.id, k) == full.Host(h.id, k))
    && (forall id: Id, k: VmStat :: less.Vm(id, k).Some? ==> less.Vm(id, k) == full.Vm(id, k))
  }

  /** The settings that reach the walk: out-of-range ones have been replaced by defaults. */
  predicate ValidSettings(monster: MonsterVmSettings) {
    1.0 <= monster.cpuPct <= 100.0 && 1.0 <= monster.memoryPct <= 100.0 && 1.0 <= monster.memoryCapGb
  }

  /** A host whose core count and memory, where known, are not negative. */
  predicate SoundHost(snap: Snapshot, hostId: Id) {
    var cores, dram, total := snap.Host(hostId, CpuCores), snap.Host(hostId, DramCapacityKb), snap.Host(hostId, TotalCapacityKb);
    && (cores.Some? ==> cores.value >= 0.0)
    && (Truthy(dram) ==> dram.value > 0.0)
    && (!Truthy(dram) && total.Some? ==> total.value >= 0.0)
  }

  /** No data, or at most the other value. */
  predicate NotWorse(a: Option<real>, b: Option<real>) {
    a.None? || (b.Some? && a.value <= b.value)
  }

  lemma FewerVmSamples(less: Snapshot, full: Snapshot, vms: seq<Resource>, k: VmStat, x: real)
    requires FewerSamples(less, full)
    requires x in VmSamples(less, vms, k)
    ensures x in VmSamples(full, vms, k)
  {
    hide Snapshot.Vm;
    KnownMembers(VmStats(less, vms, k), x);
    KnownMembers(VmStats(full, vms, k), x);
    var i :| 0 <= i < |vms| && VmStats(less, vms, k)[i] == Some(x);
    assert VmStats(full, vms, k)[i] == Some(x);
  }

  lemma MaxNotWorse(less: seq<real>, full: seq<real>)
    requires forall x :: x in less ==> x in full
    ensures NotWorse(MaxOrNone(less), MaxOrNone(full))
  {
    if less != [] {
      assert Max(less) in full;
    }
  }

  lemma PositiveMonsterSizes(snap: Snapshot, monster: MonsterVmSettings, hostId: Id)
    requires ValidSettings(monster) && SoundHost(snap, hostId)
    ensures var size := CpuMonsterSize(snap.Host(hostId, CpuCores), monster); size.Some? ==> size.value > 0.0
    ensures var size := MemoryMonsterKb(HostMemoryCapacityKb(snap, hostId), monster); size.Some? ==> size.value > 0.0
  {
    hide Snapshot.Host, HostMemoryCapacityKb, CpuMonsterSize, MemoryMonsterKb;
    PositiveMemory(snap, hostId);
    PositiveCpuSize(snap.Host(hostId, CpuCores), monster);
    PositiveMemorySize(HostMemoryCapacityKb(snap, hostId), monster);
  }

  lemma PositiveMemory(snap: Snapshot, hostId: Id)
    requires SoundHost(snap, hostId)
    ensures Truthy(HostMemoryCapacityKb(snap, hostId)) ==> HostMemoryCapacityKb(snap, hostId).value > 0.0
  {
    hide Snapshot.Host;
  }

  lemma PositiveCpuSize(cores: Option<real>, monster: MonsterVmSettings)
    requires ValidSettings(monster) && (cores.Some? ==> cores.value >= 0.0)
    ensures CpuMonsterSize(cores, monster).Some? ==> CpuMonsterSize(cores, monster).value > 0.0
  {
    if Truthy(cores) {
      ProductPositive(cores.value, monster.cpuPct);
    }
  }

  lemma PositiveMemorySize(memKb: Option<real>, monster: MonsterVmSettings)
    requires ValidSettings(monster) && (Truthy(memKb) ==> memKb.value > 0.0)
    ensures MemoryMonsterKb(memKb, monster).Some? ==> MemoryMonsterKb(memKb, monster).value > 0.0
  {
    if Truthy(memKb) {
      ProductPositive(memKb.value, monster.memoryPct);
    }
  }

  lemma ProductPositive(a: real, b: real)
    requires a > 0.0 && b > 0.0
    ensures a * b > 0.0
  {
  }

  lemma MonsterRatioNotWorse(less: seq<real>, full: seq<real>, size: Option<real>, vmCount: nat)
    requires forall x :: x in less ==> x in full
    requires size.Some? ==> size.value > 0.0
    requires vmCount == 0 ==> full == []
    ensures NotWorse(MonsterSizeRatio(less, size, vmCount), MonsterSizeRatio(full, size, vmCount))
  {
    if size.Some? && less != [] {
      assert Max(less) in less;
      assert Max(less) in full;
      QuotientMonotone(Max(less), Max(full), size.value);
    } else if size.Some? && vmCount == 0 {
      assert full == [];
    }
  }

  lemma QuotientMonotone(a: real, b: real, size: real)
    requires a <= b && size > 0.0
    ensures a / size <= b / size
  {
    QuotientTimes(a, size);
    QuotientTimes(b, size);
    var p, q := a / size, b / size;
    if p > q {
      ProductPositive(p - q, size);
    }
  }

  lemma QuotientTimes(a: real, size: real)
    requires size > 0.0
    ensures a / size * size == a
  {
  }

  /** Losing VM samples never makes a worst-VM metric or a monster ratio of a host look worse. */
  lemma FewerSamplesHost(less: Snapshot, full: Snapshot, monster: MonsterVmSettings, host: Resource, k: MetricKey)
    requires FewerSamples(less, full) && host in full.hosts
    requires ValidSettings(monster) && SoundHost(full, host.id)
    requires k.WorstVm? || k in {CpuMonsterVmSizeRatio, MemoryMonsterVmSizeRatio}
    ensures k in HOST_KEYS
    ensures NotWorse(HostMetric(less, monster, host.id, k), HostMetric(full, monster, host.id, k))
  {
    hide VmSamples, MonsterSizeRatio, CpuMonsterSize, MemoryMonsterKb, MaxOrNone, Snapshot.Host, Snapshot.Vm, NotWorse;
    VmPairKeys();
    var vms := full.Vms(host.id);
    var stat := if k.WorstVm? then Level(k.bucket) else if k.CpuMonsterVmSizeRatio? then NumCpu else MemoryKb;
    var fewer, all := VmSamples(less, vms, stat), VmSamples(full, vms, stat);
    forall x | x in fewer ensures x in all {
      FewerVmSamples(less, full, vms, stat, x);
    }
    if k.WorstVm? {
      MaxNotWorse(fewer, all);
    } else {
      var size := if k.CpuMonsterVmSizeRatio? then CpuMonsterSize(full.Host(host.id, CpuCores), monster)
                  else MemoryMonsterKb(HostMemoryCapacityKb(full, host.id), monster);
      PositiveMonsterSizes(full, monster, host.id);
      NoVmsNoSamples(full, vms, stat);
      MonsterRatioNotWorse(fewer, all, size, |vms|);
    }
  }

  lemma NoVmsNoSamples(snap: Snapshot, vms: seq<Resource>, k: VmStat)
    ensures |vms| == 0 ==> VmSamples(snap, vms, k) == []
  {
  }

  /** The same for the cluster's values. */
  lemma FewerSamplesCluster(less: Snapshot, full: Snapshot, monster: MonsterVmSettings, k: MetricKey)
    requires FewerSamples(less, full) && ValidSettings(monster)
    requires forall h: Resource :: h in full.hosts ==> SoundHost(full, h.id)
    requires k.WorstVm? || k in {CpuMonsterVmSizeRatio, MemoryMonsterVmSizeRatio}
    ensures k in SHARED_KEYS
    ensures NotWorse(ClusterMetric(less, monster, k), ClusterMetric(full, monster, k))
  {
    hide HostMetric, ClusterMetric, SoundHost, FewerSamples;
    assert less.hosts == full.hosts by { SameHosts(less, full); }
    ClusterIsWorstHost(less, monster, k);
    ClusterIsWorstHost(full, monster, k);
    var worst := ClusterMetric(less, monster, k);
    if worst.Some? {
      var i :| 0 <= i < |less.hosts| && Column(less, monster, less.hosts, k)[i] == worst;
      FewerSamplesHost(less, full, monster, full.hosts[i], k);
      assert Column(full, monster, full.hosts, k)[i] == HostMetric(full, monster, full.hosts[i].id, k);
    }
  }

  lemma SameHosts(less: Snapshot, full: Snapshot)
    requires FewerSamples(less, full)
    ensures less.hosts == full.hosts
  {
  }

  /** A host with VMs none of whose stats are known has no worst, no P90 and no monster ratio. */
  lemma UnknownVmsNoData(snap: Snapshot, monster: MonsterVmSettings, hostId: Id, b: Bucket)
    requires snap.Vms(hostId) != []
    requires forall vm: Resource, k: VmStat :: vm in snap.Vms(hostId) ==> snap.Vm(vm.id, k).None?
    ensures WorstVm(b) in HOST_KEYS && P90Vm(b) in HOST_KEYS
    ensures HostMetric(snap, monster, hostId, WorstVm(b)).None?
    ensures HostMetric(snap, monster, hostId, P90Vm(b)).None?
    ensures HostMetric(snap, monster, hostId, CpuMonsterVmSizeRatio).None?
    ensures HostMetric(snap, monster, hostId, MemoryMonsterVmSizeRatio).None?
  {
    hide Snapshot.Vm, Snapshot.Host, P90, Max;
    VmPairKeys();
    UnknownVmsNoSamples(snap, snap.Vms(hostId), Level(b));
    UnknownVmsNoSamples(snap, snap.Vms(hostId), NumCpu);
    UnknownVmsNoSamples(snap, snap.Vms(hostId), MemoryKb);
  }

  lemma UnknownVmsNoSamples(snap: Snapshot, vms: seq<Resource>, k: VmStat)
    requires forall vm: Resource :: vm in vms ==> snap.Vm(vm.id, k).None?
    ensures VmSamples(snap, vms, k) == []
  {
    hide Snapshot.Vm;
    var options := VmStats(snap, vms, k);
    forall i | 0 <= i < |options| ensures options[i].None? {
      assert vms[i] in vms;
    }
    NoneKnown(options);
  }

  lemma {:induction false} NoneKnown(options: seq<Option<real>>)
    requires forall i :: 0 <= i < |options| ==> options[i].None?
    ensures Known(options) == []
  {
    if options != [] {
      NoneKnown(options[..|options| - 1]);
    }
  }

  // ----- what a monster ratio above 1 means -----

  /** Some VM of the list has a known size above the limit. */
  ghost predicate SomeVmAbove(snap: Snapshot, vms: seq<Resource>, k: VmStat, limit: real) {
    exists vm: Resource :: vm in vms && snap.Vm(vm.id, k).Some? && snap.Vm(vm.id, k).value > limit
  }

  predicate Above1(ratio: Option<real>) {
    ratio.Some? && ratio.value > 1.0
  }

  lemma RatioAbove1(snap: Snapshot, vms: seq<Resource>, k: VmStat, size: Option<real>)
    requires size.Some? ==> size.value > 0.0
    ensures Above1(MonsterSizeRatio(VmSamples(snap, vms, k), size, |vms|))
            <==> size.Some? && SomeVmAbove(snap, vms, k, size.value)
  {
    hide Snapshot.Vm;
    var sizes := VmSamples(snap, vms, k);
    SamplesAbove(snap, vms, k, size);
    if size.Some? && sizes != [] {
      QuotientAbove1(Max(sizes), size.value);
      assert (exists x :: x in sizes && x > size.value) <==> Max(sizes) > size.value;
    }
  }

  lemma SamplesAbove(snap: Snapshot, vms: seq<Resource>, k: VmStat, size: Option<real>)
    ensures size.Some? ==>
      (SomeVmAbove(snap, vms, k, size.value) <==> exists x :: x in VmSamples(snap, vms, k) && x > size.value)
  {
    hide Snapshot.Vm;
    if size.Some? {
      var options := VmStats(snap, vms, k);
      if vm: Resource :| vm in vms && snap.Vm(vm.id, k).Some? && snap.Vm(vm.id, k).value > size.value {
        var i :| 0 <= i < |vms| && vms[i] == vm;
        assert options[i] == snap.Vm(vm.id, k);
        KnownMembers(options, snap.Vm(vm.id, k).value);
      }
      if x :| x in VmSamples(snap, vms, k) && x > size.value {
        KnownMembers(options, x);
        var i :| 0 <= i < |vms| && options[i] == Some(x);
        assert vms[i] in vms;
      }
    }
  }

  lemma QuotientAbove1(a: real, size: real)
    requires size > 0.0
    ensures a / size > 1.0 <==> a > size
  {
    QuotientTimes(a, size);
    var q := a / size;
    if q > 1.0 {
      ProductPositive(q - 1.0, size);
    }
    if q < 1.0 {
      ProductPositive(1.0 - q, size);
    }
  }

  /** Some powered-on VM of the host has more memory than the percentage of this much memory, or than the GB cap. */
  ghost predicate LargeMemoryVm(snap: Snapshot, monster: MonsterVmSettings, hostId: Id, memKb: real) {
    || SomeVmAbove(snap, snap.Vms(hostId), MemoryKb, memKb * monster.memoryPct / 100.0)
    || SomeVmAbove(snap, snap.Vms(hostId), MemoryKb, monster.memoryCapGb * 1048576.0)
  }

  /**
   A host's memory monster ratio exceeds 1 exactly when some powered-on VM's known memory exceeds the percentage limit or
   the GB cap, where the percentage is of the DRAM, or without a DRAM value of the provisioned memory; its CPU ratio exactly
   when its cores are known and some VM has more vCPUs than the percentage of them.
   */
  lemma HostMonsterAbove1(snap: Snapshot, monster: MonsterVmSettings, hostId: Id)
    requires ValidSettings(monster) && SoundHost(snap, hostId)
    ensures var dram, total := snap.Host(hostId, DramCapacityKb), snap.Host(hostId, TotalCapacityKb);
      Above1(HostMetric(snap, monster, hostId, MemoryMonsterVmSizeRatio)) <==>
        || (Truthy(dram) && LargeMemoryVm(snap, monster, hostId, dram.value))
        || (!Truthy(dram) && Truthy(total) && LargeMemoryVm(snap, monster, hostId, total.value))
    ensures var cores := snap.Host(hostId, CpuCores);
      Above1(HostMetric(snap, monster, hostId, CpuMonsterVmSizeRatio)) <==>
        Truthy(cores) && SomeVmAbove(snap, snap.Vms(hostId), NumCpu, cores.value * monster.cpuPct / 100.0)
  {
    hide Snapshot.Vm, Snapshot.Host, Snapshot.Vms, VmSamples, MonsterSizeRatio, HostMetric, Above1, ValidSettings, SoundHost,
         LargeMemoryVm, CpuMonsterSize, MemoryMonsterKb;
    PositiveMonsterSizes(snap, monster, hostId);
    MonsterMetrics(snap, monster, hostId);
    CpuAbove1(snap, monster, hostId, snap.Host(hostId, CpuCores));
    MemoryAbove1(snap, monster, hostId, HostMemoryCapacityKb(snap, hostId));
  }

  lemma CpuAbove1(snap: Snapshot, monster: MonsterVmSettings, hostId: Id, cores: Option<real>)
    requires CpuMonsterSize(cores, monster).Some? ==> CpuMonsterSize(cores, monster).value > 0.0
    ensures Above1(MonsterSizeRatio(VmSamples(snap, snap.Vms(hostId), NumCpu), CpuMonsterSize(cores, monster), |snap.Vms(hostId)|))
      <==> Truthy(cores) && SomeVmAbove(snap, snap.Vms(hostId), NumCpu, cores.value * monster.cpuPct / 100.0)
  {
    hide Snapshot.Vm, Snapshot.Vms, VmSamples, MonsterSizeRatio, Above1;
    RatioAbove1(snap, snap.Vms(hostId), NumCpu, CpuMonsterSize(cores, monster));
  }

  lemma MemoryAbove1(snap: Snapshot, monster: MonsterVmSettings, hostId: Id, memKb: Option<real>)
    requires MemoryMonsterKb(memKb, monster).Some? ==> MemoryMonsterKb(memKb, monster).value > 0.0
    ensures Above1(MonsterSizeRatio(VmSamples(snap, snap.Vms(hostId), MemoryKb), MemoryMonsterKb(memKb, monster), |snap.Vms(hostId)|))
      <==> Truthy(memKb) && LargeMemoryVm(snap, monster, hostId, memKb.value)
  {
    hide Snapshot.Vm, Snapshot.Vms, VmSamples, MonsterSizeRatio, Above1;
    var vms := snap.Vms(hostId);
    RatioAbove1(snap, vms, MemoryKb, MemoryMonsterKb(memKb, monster));
    if Truthy(memKb) {
      AboveEither(snap, vms, MemoryKb, memKb.value * monster.memoryPct / 100.0, monster.memoryCapGb * 1048576.0);
    }
  }

  lemma AboveEither(snap: Snapshot, vms: seq<Resource>, k: VmStat, a: real, b: real)
    ensures SomeVmAbove(snap, vms, k, MinReal(a, b)) <==> SomeVmAbove(snap, vms, k, a) || SomeVmAbove(snap, vms, k, b)
  {
    hide Snapshot.Vm;
  }

  lemma MonsterMetrics(snap: Snapshot, monster: MonsterVmSettings, hostId: Id)
    ensures HostMetric(snap, monster, hostId, CpuMonsterVmSizeRatio)
            == MonsterSizeRatio(VmSamples(snap, snap.Vms(hostId), NumCpu), CpuMonsterSize(snap.Host(hostId, CpuCores), monster),
                                |snap.Vms(hostId)|)
    ensures HostMetric(snap, monster, hostId, MemoryMonsterVmSizeRatio)
            == MonsterSizeRatio(VmSamples(snap, snap.Vms(hostId), MemoryKb),
                                MemoryMonsterKb(HostMemoryCapacityKb(snap, hostId), monster), |snap.Vms(hostId)|)
  {
    hide Snapshot.Vm, Snapshot.Host, Snapshot.Vms, HostMemoryCapacityKb, VmSamples, MonsterSizeRatio, CpuMonsterSize, MemoryMonsterKb;
  }

  /** The cluster's monster ratios exceed 1 exactly when some host's does. */
  lemma ClusterMonsterAbove1(snap: Snapshot, monster: MonsterVmSettings, k: MetricKey)
    requires k in {CpuMonsterVmSizeRatio, MemoryMonsterVmSizeRatio}
    ensures Above1(ClusterMetric(snap, monster, k)) <==>
      exists i :: 0 <= i < |snap.hosts| && Above1(HostMetric(snap, monster, snap.hosts[i].id, k))
  {
    hide HostMetric, ClusterMetric;
    ClusterIsWorstHost(snap, monster, k);
    var column, worst := Column(snap, monster, snap.hosts, k), ClusterMetric(snap, monster, k);
    if Above1(worst) {
      var i :| 0 <= i < |column| && column[i] == worst;
      assert Above1(HostMetric(snap, monster, snap.hosts[i].id, k));
    }
    if i :| 0 <= i < |snap.hosts| && Above1(HostMetric(snap, monster, snap.hosts[i].id, k)) {
      assert column[i] in column;
    }
  }

  // ----- where missing data does become a value -----

  /** An empty VM list, as after a failed child listing, reads as a host without VMs: ratio 0, not no data. */
  lemma EmptyListingReadsAsNoVms(snap: Snapshot, monster: MonsterVmSettings, hostId: Id)
    requires ValidSettings(monster) && SoundHost(snap, hostId)
    requires snap.Vms(hostId) == []
    ensures HostMetric(snap, monster, hostId, CpuMonsterVmSizeRatio)
            == if Truthy(snap.Host(hostId, CpuCores)) then Some(0.0) else None
    ensures HostMetric(snap, monster, hostId, MemoryMonsterVmSizeRatio)
            == if Truthy(HostMemoryCapacityKb(snap, hostId)) then Some(0.0) else None
  {
    hide Snapshot.Host, HostMemoryCapacityKb;
    PositiveMonsterSizes(snap, monster, hostId);
  }
}
