/** What lost readings become: the derived values that are computed all the same. */
module Losses {
  import opened Common
  import opened Constants
  import opened Server
  import opened BulkReads
  import opened BulkTheorems
  import opened Gathering
  import opened GatherTheorems
  import opened Worlds
  import opened NonInterference
  import opened Traversal
  import opened Samples
  import opened TraversalTheorems
  import opened Scoring
  import opened Thresholds
  import opened ScoringExamples

  // ----- overcommit: a sum over the sizes that are known -----

  /** All known sizes of these VMs are positive. */
  ghost predicate PositiveSizes(snap: Snapshot, vms: seq<Resource>, k: VmStat) {
    forall v :: v in vms && snap.Vm(v.id, k).Some? ==> snap.Vm(v.id, k).value > 0.0
  }

  /**
   `less` has at most the VMs and VM stats of `full`: of each host the VMs whose power state `props` gives as on, and
   of those what it knows. Hosts and their own stats are the same. A failed listing is a host all of whose VMs are missing.
   */
  ghost predicate FewerVms(less: Snapshot, full: Snapshot, props: map<(Id, string), string>) {
    && less.hosts == full.hosts
    && (forall h: Resource :: h in full.hosts ==> less.Vms(h.id) == PoweredOn(full.Vms(h.id), props))
    && (forall h: Resource, k: HostStat :: h in full.hosts ==> less.Host(h.id, k) == full.Host(h.id, k))
    && (forall id: Id, k: VmStat :: less.Vm(id, k).Some? ==> less.Vm(id, k) == full.Vm(id, k))
  }

  /** What `part` says of any VM's power state `full` says too. */
  predicate FewerStates(part: map<(Id, string), string>, full: map<(Id, string), string>) {
    forall k :: k in part && k.1 == VM_POWER_STATE_PROPERTY ==> k in full && full[k] == part[k]
  }

  lemma {:induction false} OnInBoth(vms: seq<Resource>, part: map<(Id, string), string>, full: map<(Id, string), string>)
    requires FewerStates(part, full)
    ensures PoweredOn(PoweredOn(vms, full), part) == PoweredOn(vms, part)
  {
    if vms != [] {
      var n := |vms| - 1;
      OnInBoth(vms[..n], part, full);
      var init, kept := PoweredOn(vms[..n], full), PoweredOn(vms, full);
      if IsOn(vms[n].id, full) {
        assert kept == init + [vms[n]] && kept[..|kept| - 1] == init;
      } else {
        assert kept == init && !IsOn(vms[n].id, part);
      }
    }
  }

  /** Of the same listings, fewer known power states leave each host those of its VMs that they give as on. */
  lemma FewerStatesFewerVms(listings: map<Id, seq<Resource>>, part: map<(Id, string), string>, full: map<(Id, string), string>)
    requires FewerStates(part, full)
    ensures forall h :: h in listings ==> Filtered(listings, part)[h] == PoweredOn(Filtered(listings, full)[h], part)
  {
    hide PoweredOn, FewerStates;
    forall h | h in listings ensures Filtered(listings, part)[h] == PoweredOn(Filtered(listings, full)[h], part) {
      OnInBoth(listings[h], part, full);
    }
  }

  /** The VM is still there, and its stat still known. */
  predicate StillKnown(less: Snapshot, props: map<(Id, string), string>, id: Id, k: VmStat) {
    IsOn(id, props) && less.Vm(id, k).Some?
  }

  /** The sum of the sizes that `full` knows and that are lost, with their VM or alone. */
  function LostSum(less: Snapshot, full: Snapshot, props: map<(Id, string), string>, vms: seq<Resource>, k: VmStat): real {
    if vms == [] then 0.0
    else
      var last := vms[|vms| - 1].id;
      LostSum(less, full, props, vms[..|vms| - 1], k)
      + if full.Vm(last, k).Some? && !StillKnown(less, props, last, k) then full.Vm(last, k).value else 0.0
  }

  lemma {:induction false} SumsDifferByLost(less: Snapshot, full: Snapshot, props: map<(Id, string), string>, vms: seq<Resource>, k: VmStat)
    requires FewerVms(less, full, props)
    ensures SumSeq(VmSamples(full, vms, k))
            == SumSeq(VmSamples(less, PoweredOn(vms, props), k)) + LostSum(less, full, props, vms, k)
  {
    hide Snapshot.Vm, Snapshot.Host, Snapshot.Vms, VmSamples, SumSeq, IsOn;
    if vms == [] {
      NoSum(less, vms, k);
      NoSum(full, vms, k);
    } else {
      var n := |vms| - 1;
      SumsDifferByLost(less, full, props, vms[..n], k);
      SumStep(full, vms, k);
      var init, kept := PoweredOn(vms[..n], props), PoweredOn(vms, props);
      if IsOn(vms[n].id, props) {
        assert kept == init + [vms[n]] && kept[..|kept| - 1] == init;
        SumStep(less, kept, k);
      } else {
        assert kept == init;
      }
    }
  }

  lemma NoSum(snap: Snapshot, vms: seq<Resource>, k: VmStat)
    requires vms == []
    ensures SumSeq(VmSamples(snap, vms, k)) == 0.0
  {
  }

  lemma SumStep(snap: Snapshot, vms: seq<Resource>, k: VmStat)
    requires vms != []
    ensures var n := |vms| - 1;
      var v := snap.Vm(vms[n].id, k);
      SumSeq(VmSamples(snap, vms, k)) == SumSeq(VmSamples(snap, vms[..n], k)) + if v.Some? then v.value else 0.0
  {
    hide Snapshot.Vm, VmSamples, SumSeq;
    var n := |vms| - 1;
    var v := snap.Vm(vms[n].id, k);
    assert vms[..n + 1] == vms;
    VmSamplesStep(snap, vms, n, k);
    if v.Some? {
      SumSeqAppend(VmSamples(snap, vms[..n], k), v.value);
    } else {
      assert VmSamples(snap, vms, k) == VmSamples(snap, vms[..n], k);
    }
  }

  /** Of positive sizes, the lost ones sum to 0 exactly when none is lost. */
  lemma {:induction false} PositiveLost(less: Snapshot, full: Snapshot, props: map<(Id, string), string>, vms: seq<Resource>, k: VmStat)
    requires PositiveSizes(full, vms, k)
    ensures LostSum(less, full, props, vms, k) >= 0.0
    ensures LostSum(less, full, props, vms, k) == 0.0
      <==> forall v :: v in vms && full.Vm(v.id, k).Some? ==> StillKnown(less, props, v.id, k)
  {
    hide Snapshot.Vm, StillKnown;
    if vms != [] {
      var n := |vms| - 1;
      assert vms == vms[..n] + [vms[n]];
      PositiveLost(less, full, props, vms[..n], k);
    }
  }

  /** And the known ones when none is known. */
  lemma {:induction false} PositiveSum(snap: Snapshot, vms: seq<Resource>, k: VmStat)
    requires PositiveSizes(snap, vms, k)
    ensures SumSeq(VmSamples(snap, vms, k)) >= 0.0
    ensures SumSeq(VmSamples(snap, vms, k)) == 0.0 <==> forall v :: v in vms ==> snap.Vm(v.id, k).None?
  {
    hide Snapshot.Vm, VmSamples;
    if vms == [] {
      NoSum(snap, vms, k);
    } else {
      var n := |vms| - 1;
      assert vms == vms[..n] + [vms[n]];
      PositiveSum(snap, vms[..n], k);
      SumStep(snap, vms, k);
    }
  }

  lemma SameCapacity(less: Snapshot, full: Snapshot, props: map<(Id, string), string>, host: Resource)
    requires FewerVms(less, full, props) && host in full.hosts
    ensures forall k: HostStat :: less.Host(host.id, k) == full.Host(host.id, k)
    ensures HostMemoryCapacityKb(less, host.id) == HostMemoryCapacityKb(full, host.id)
    ensures less.Vms(host.id) == PoweredOn(full.Vms(host.id), props)
  {
    hide Snapshot.Host, Snapshot.Vm, Snapshot.Vms, PoweredOn;
  }

  lemma SameQuotient(a: real, b: real, capacity: Option<real>)
    ensures PerCapacity(a, capacity) == PerCapacity(b, capacity) <==> !Truthy(capacity) || a == b
  {
    if Truthy(capacity) {
      assert a / capacity.value * capacity.value == a && b / capacity.value * capacity.value == b;
    }
  }

  /**
   When VMs or VM stats are lost the overcommit ratios stay what they were exactly when the capacity is not
   known, or the host's native total is, or the lost sizes sum to 0. They never become no data.
   */
  lemma OvercommitUnderLoss(less: Snapshot, full: Snapshot, props: map<(Id, string), string>, monster: MonsterVmSettings, host: Resource)
    requires FewerVms(less, full, props) && host in full.hosts
    ensures var cores, vms := full.Host(host.id, CpuCores), full.Vms(host.id);
      var before := HostMetric(full, monster, host.id, HostCpuOvercommitRatio);
      var after := HostMetric(less, monster, host.id, HostCpuOvercommitRatio);
      && (after == before <==>
            !Truthy(cores) || full.Host(host.id, VcpusAllocated).Some? || LostSum(less, full, props, vms, NumCpu) == 0.0)
      && (after.None? <==> before.None?)
    ensures var memKb, vms := HostMemoryCapacityKb(full, host.id), full.Vms(host.id);
      var before := HostMetric(full, monster, host.id, HostMemoryOvercommitRatio);
      var after := HostMetric(less, monster, host.id, HostMemoryOvercommitRatio);
      && (after == before <==>
            !Truthy(memKb) || full.Host(host.id, MemAllocatedKb).Some? || LostSum(less, full, props, vms, MemoryKb) == 0.0)
      && (after.None? <==> before.None?)
  {
    hide Snapshot.Vm, Snapshot.Host, Snapshot.Vms, VmSamples, HostMemoryCapacityKb, LostSum, SumSeq, FewerVms, Truthy, HostMetric,
         PoweredOn;
    var vms := full.Vms(host.id);
    SameCapacity(less, full, props, host);
    SumsDifferByLost(less, full, props, vms, NumCpu);
    SumsDifferByLost(less, full, props, vms, MemoryKb);
    SameQuotient(TotalVcpu(less, host.id), TotalVcpu(full, host.id), full.Host(host.id, CpuCores));
    SameQuotient(TotalVmemKb(less, host.id), TotalVmemKb(full, host.id), HostMemoryCapacityKb(full, host.id));
    DerivedOwnMetrics(less, monster, host.id);
    DerivedOwnMetrics(full, monster, host.id);
  }

  /** With positive sizes: exactly when the capacity is not known, or the native total is, or no known size was lost. */
  lemma OvercommitUnderLossOfPositive(less: Snapshot, full: Snapshot, props: map<(Id, string), string>, monster: MonsterVmSettings,
                                      host: Resource)
    requires FewerVms(less, full, props) && host in full.hosts
    requires PositiveSizes(full, full.Vms(host.id), NumCpu) && PositiveSizes(full, full.Vms(host.id), MemoryKb)
    ensures HostMetric(less, monster, host.id, HostCpuOvercommitRatio) == HostMetric(full, monster, host.id, HostCpuOvercommitRatio)
      <==> || !Truthy(full.Host(host.id, CpuCores)) || full.Host(host.id, VcpusAllocated).Some?
           || forall v :: v in full.Vms(host.id) && full.Vm(v.id, NumCpu).Some? ==> StillKnown(less, props, v.id, NumCpu)
    ensures HostMetric(less, monster, host.id, HostMemoryOvercommitRatio) == HostMetric(full, monster, host.id, HostMemoryOvercommitRatio)
      <==> || !Truthy(HostMemoryCapacityKb(full, host.id)) || full.Host(host.id, MemAllocatedKb).Some?
           || forall v :: v in full.Vms(host.id) && full.Vm(v.id, MemoryKb).Some? ==> StillKnown(less, props, v.id, MemoryKb)
  {
    hide Snapshot.Vm, Snapshot.Host, Snapshot.Vms, HostMetric, HostMemoryCapacityKb, Truthy, LostSum, FewerVms, PositiveSizes, StillKnown;
    OvercommitUnderLoss(less, full, props, monster, host);
    PositiveLost(less, full, props, full.Vms(host.id), NumCpu);
    PositiveLost(less, full, props, full.Vms(host.id), MemoryKb);
  }

  // ----- monster ratios: the largest of what is left -----

  lemma LeftAreKnown(less: Snapshot, full: Snapshot, props: map<(Id, string), string>, vms: seq<Resource>, k: VmStat, x: real)
    requires FewerVms(less, full, props)
    ensures x in VmSamples(less, PoweredOn(vms, props), k) <==>
      exists v :: v in vms && StillKnown(less, props, v.id, k) && full.Vm(v.id, k) == Some(x)
    ensures x in VmSamples(full, vms, k) <==> exists v :: v in vms && full.Vm(v.id, k) == Some(x)
  {
    hide Snapshot.Vm, Snapshot.Host, Snapshot.Vms, PoweredOn, IsOn, Known;
    SampleOfVm(full, vms, k, x);
    SampleOfVm(less, PoweredOn(vms, props), k, x);
    if x in VmSamples(less, PoweredOn(vms, props), k) {
      var v :| v in PoweredOn(vms, props) && less.Vm(v.id, k) == Some(x);
      PoweredOnMembers(vms, props, v);
    }
    if v :| v in vms && StillKnown(less, props, v.id, k) && full.Vm(v.id, k) == Some(x) {
      PoweredOnMembers(vms, props, v);
    }
  }

  lemma SampleOfVm(snap: Snapshot, vms: seq<Resource>, k: VmStat, x: real)
    ensures x in VmSamples(snap, vms, k) <==> exists v :: v in vms && snap.Vm(v.id, k) == Some(x)
  {
    hide Snapshot.Vm, Known;
    var options := VmStats(snap, vms, k);
    KnownMembers(options, x);
    if x in VmSamples(snap, vms, k) {
      var i :| 0 <= i < |vms| && options[i] == Some(x);
      assert vms[i] in vms;
    }
    if v :| v in vms && snap.Vm(v.id, k) == Some(x) {
      var i :| 0 <= i < |vms| && vms[i] == v;
      assert options[i] == Some(x);
    }
  }

  /**
   The ratio survives the loss: some largest known VM is still known; or no size was known, and VMs are left or there were
   none; or no VM is left, which reads as 0, and the largest known size was 0.
   */
  ghost predicate RatioKept(less: Snapshot, full: Snapshot, props: map<(Id, string), string>, vms: seq<Resource>, k: VmStat) {
    var sizes, kept := VmSamples(full, vms, k), PoweredOn(vms, props);
    if sizes == [] then vms == [] || kept != []
    else
      || (kept == [] && Max(sizes) == 0.0)
      || exists v :: v in vms && full.Vm(v.id, k) == Some(Max(sizes)) && StillKnown(less, props, v.id, k)
  }

  lemma MonsterRatioUnderLoss(less: Snapshot, full: Snapshot, props: map<(Id, string), string>, vms: seq<Resource>, k: VmStat,
                              size: Option<real>)
    requires FewerVms(less, full, props)
    ensures var kept := PoweredOn(vms, props);
      MonsterSizeRatio(VmSamples(less, kept, k), size, |kept|) == MonsterSizeRatio(VmSamples(full, vms, k), size, |vms|)
      <==> !Truthy(size) || RatioKept(less, full, props, vms, k)
  {
    hide Snapshot.Vm, Snapshot.Host, Snapshot.Vms, VmSamples, FewerVms, StillKnown, IsOn;
    var kept := PoweredOn(vms, props);
    var sizes, left := VmSamples(full, vms, k), VmSamples(less, kept, k);
    forall x ensures x in left ==> x in sizes {
      LeftAreKnown(less, full, props, vms, k, x);
    }
    NoVmNoSize(less, kept, k);
    if sizes != [] {
      LeftAreKnown(less, full, props, vms, k, Max(sizes));
      if Truthy(size) {
        SameMax(left, sizes, size.value);
      }
    } else {
      NoneOfNone(left, sizes);
    }
  }

  lemma NoVmNoSize(snap: Snapshot, vms: seq<Resource>, k: VmStat)
    ensures vms == [] ==> VmSamples(snap, vms, k) == []
  {
  }

  lemma NoneOfNone(part: seq<real>, whole: seq<real>)
    requires forall x :: x in part ==> x in whole
    ensures part != [] ==> whole != []
  {
    if part != [] {
      var x := part[0];
      assert x in part;
      assert x in whole;
    }
  }

  lemma SameMax(left: seq<real>, sizes: seq<real>, size: real)
    requires size != 0.0 && sizes != [] && forall x :: x in left ==> x in sizes
    ensures Max(sizes) / size == 0.0 <==> Max(sizes) == 0.0
    ensures left != [] ==> (Max(left) / size == Max(sizes) / size <==> Max(sizes) in left)
  {
    assert Max(sizes) / size * size == Max(sizes);
    if left != [] {
      assert Max(left) / size * size == Max(left);
      assert Max(left) in sizes;
    }
  }

  /**
   When VMs or VM stats are lost, a monster ratio stays what it was exactly when the monster size is not known, or some
   largest known VM is still known, or no size was known and VMs are left or there were none, or the ratio was 0 and no
   VM is left.
   */
  lemma MonsterUnderLoss(less: Snapshot, full: Snapshot, props: map<(Id, string), string>, monster: MonsterVmSettings, host: Resource)
    requires FewerVms(less, full, props) && host in full.hosts
    ensures HostMetric(less, monster, host.id, CpuMonsterVmSizeRatio) == HostMetric(full, monster, host.id, CpuMonsterVmSizeRatio)
      <==> !Truthy(CpuMonsterSize(full.Host(host.id, CpuCores), monster)) || RatioKept(less, full, props, full.Vms(host.id), NumCpu)
    ensures HostMetric(less, monster, host.id, MemoryMonsterVmSizeRatio) == HostMetric(full, monster, host.id, MemoryMonsterVmSizeRatio)
      <==> || !Truthy(MemoryMonsterKb(HostMemoryCapacityKb(full, host.id), monster))
           || RatioKept(less, full, props, full.Vms(host.id), MemoryKb)
  {
    hide Snapshot.Vm, Snapshot.Host, Snapshot.Vms, HostMetric, HostMemoryCapacityKb, Truthy, FewerVms, RatioKept, VmSamples,
         MonsterSizeRatio, CpuMonsterSize, MemoryMonsterKb, PoweredOn;
    SameCapacity(less, full, props, host);
    MonsterMetrics(less, monster, host.id);
    MonsterMetrics(full, monster, host.id);
    var vms := full.Vms(host.id);
    MonsterRatioUnderLoss(less, full, props, vms, NumCpu, CpuMonsterSize(full.Host(host.id, CpuCores), monster));
    MonsterRatioUnderLoss(less, full, props, vms, MemoryKb, MemoryMonsterKb(HostMemoryCapacityKb(full, host.id), monster));
  }

  /**
   The overcommit ratios are known exactly when the capacity is, whatever is known of the VMs. Without a
   native total, and with positive sizes, they read 0 exactly when the capacity is known and no VM size is.
   */
  lemma OvercommitGuess(snap: Snapshot, monster: MonsterVmSettings, hostId: Id)
    ensures HostMetric(snap, monster, hostId, HostCpuOvercommitRatio).Some? <==> Truthy(snap.Host(hostId, CpuCores))
    ensures HostMetric(snap, monster, hostId, HostMemoryOvercommitRatio).Some? <==> Truthy(HostMemoryCapacityKb(snap, hostId))
    ensures snap.Host(hostId, VcpusAllocated).None? && PositiveSizes(snap, snap.Vms(hostId), NumCpu) ==>
      (HostMetric(snap, monster, hostId, HostCpuOvercommitRatio) == Some(0.0) <==>
        Truthy(snap.Host(hostId, CpuCores)) && forall v :: v in snap.Vms(hostId) ==> snap.Vm(v.id, NumCpu).None?)
    ensures snap.Host(hostId, MemAllocatedKb).None? && PositiveSizes(snap, snap.Vms(hostId), MemoryKb) ==>
      (HostMetric(snap, monster, hostId, HostMemoryOvercommitRatio) == Some(0.0) <==>
        Truthy(HostMemoryCapacityKb(snap, hostId)) && forall v :: v in snap.Vms(hostId) ==> snap.Vm(v.id, MemoryKb).None?)
  {
    hide Snapshot.Vm, Snapshot.Host, VmSamples, HostMemoryCapacityKb, SumSeq, Truthy, HostMetric, PositiveSizes;
    var vms := snap.Vms(hostId);
    if PositiveSizes(snap, vms, NumCpu) {
      PositiveSum(snap, vms, NumCpu);
    }
    if PositiveSizes(snap, vms, MemoryKb) {
      PositiveSum(snap, vms, MemoryKb);
    }
    DerivedOwnMetrics(snap, monster, hostId);
    SameQuotient(TotalVcpu(snap, hostId), 0.0, snap.Host(hostId, CpuCores));
    SameQuotient(TotalVmemKb(snap, hostId), 0.0, HostMemoryCapacityKb(snap, hostId));
    NothingPer(snap.Host(hostId, CpuCores));
    NothingPer(HostMemoryCapacityKb(snap, hostId));
  }

  lemma NothingPer(capacity: Option<real>)
    ensures PerCapacity(0.0, capacity) == if Truthy(capacity) then Some(0.0) else None
  {
  }

  /** A host with 16 cores and two VMs of 8 and 24 vCPUs; the second one, or only its stats, may be lost. */
  function TwoVms(secondListed: bool, secondKnown: bool): Snapshot {
    Snapshot("c", [Resource("h", "h")],
             map["h" := if secondListed then [Resource("a", "a"), Resource("b", "b")] else [Resource("a", "a")]],
             map[("h", HostStatkey(CpuCores)) := 16.0, ("a", VmStatkey(NumCpu)) := 8.0]
             + (if secondKnown then map[("b", VmStatkey(NumCpu)) := 24.0] else map[]),
             map[], 0)
  }

  /**
   Losing the larger VM's stats, or its power state and with it the VM, turns an overcommit of 2 into one of
   0.5, not into no data.
   */
  lemma PartialOvercommit(monster: MonsterVmSettings)
    ensures HostMetric(TwoVms(true, true), monster, "h", HostCpuOvercommitRatio) == Some(2.0)
    ensures HostMetric(TwoVms(true, false), monster, "h", HostCpuOvercommitRatio) == Some(0.5)
    ensures HostMetric(TwoVms(false, false), monster, "h", HostCpuOvercommitRatio) == Some(0.5)
  {
    hide HostMetric, TwoVms;
    TwoVmTotals(true, true);
    TwoVmTotals(true, false);
    TwoVmTotals(false, false);
    DerivedOwnMetrics(TwoVms(true, true), monster, "h");
    DerivedOwnMetrics(TwoVms(true, false), monster, "h");
    DerivedOwnMetrics(TwoVms(false, false), monster, "h");
  }

  lemma TwoVmTotals(secondListed: bool, secondKnown: bool)
    ensures TwoVms(secondListed, secondKnown).Host("h", CpuCores) == Some(16.0)
    ensures TotalVcpu(TwoVms(secondListed, secondKnown), "h") == if secondListed && secondKnown then 32.0 else 8.0
  {
    hide SumSeq, VmSamples, HostStatkey, VmStatkey;
    var snap := TwoVms(secondListed, secondKnown);
    var one, two := [Resource("a", "a")], [Resource("a", "a"), Resource("b", "b")];
    TwoKeys();
    assert "h" != "a" && "h" != "b" && "a" != "b";
    assert two[..1] == one && one[..0] == [];
    SumStep(snap, two, NumCpu);
    SumStep(snap, one, NumCpu);
    NoSum(snap, one[..0], NumCpu);
  }

  lemma TwoKeys()
    ensures HostStatkey(VcpusAllocated) != HostStatkey(CpuCores)
  {
    assert HostStatkey(VcpusAllocated)[0] == 'c' && HostStatkey(CpuCores)[0] == 'h';
  }

  // ----- imbalance: a lost hyper-threading property reads as "not hyper-threaded" -----

  /** `less` knows the same stats of a host, and of its properties no others than `full`. */
  ghost predicate FewerProps(less: Snapshot, full: Snapshot, hostId: Id) {
    && (forall k: HostStat :: less.Host(hostId, k) == full.Host(hostId, k))
    && (forall p: HostProp :: less.Prop(hostId, p).Some? ==> less.Prop(hostId, p) == full.Prop(hostId, p))
  }

  /**
   When properties are lost the imbalance ratio stays what it was exactly when the host is not
   hyper-threaded, or is still known to be, or the ratio has no data, or no thread runs; otherwise it is halved.
   */
  lemma ImbalanceUnderLoss(less: Snapshot, full: Snapshot, monster: MonsterVmSettings, hostId: Id)
    requires FewerProps(less, full, hostId)
    ensures var before := HostMetric(full, monster, hostId, HostCpuImbalanceRatio);
      var after := HostMetric(less, monster, hostId, HostCpuImbalanceRatio);
      && (after == before <==>
            || !HyperThreaded(full, hostId) || HyperThreaded(less, hostId)
            || before.None? || full.Host(hostId, CpuUtilization) == Some(0.0))
      && (after != before ==> after.Some? && after.value == before.value / 2.0)
  {
    hide Snapshot.Host, Snapshot.Prop, ThreadsPerCore, HostMetric;
    ImbalanceMetric(less, monster, hostId);
    ImbalanceMetric(full, monster, hostId);
    assert HyperThreaded(less, hostId) ==> HyperThreaded(full, hostId);
    HalfTheThreads(full.Host(hostId, CpuUtilization), full.Host(hostId, CoreUtilization), full.Host(hostId, CpuCores));
  }

  lemma ImbalanceMetric(snap: Snapshot, monster: MonsterVmSettings, hostId: Id)
    ensures HostCpuImbalanceRatio in HOST_KEYS
    ensures HostMetric(snap, monster, hostId, HostCpuImbalanceRatio)
            == ThreadsPerCore(snap.Host(hostId, CpuUtilization), snap.Host(hostId, CoreUtilization), snap.Host(hostId, CpuCores),
                              HyperThreaded(snap, hostId))
  {
    hide Snapshot.Host, HyperThreaded, ThreadsPerCore;
  }

  lemma HalfTheThreads(threadUtil: Option<real>, coreUtil: Option<real>, cores: Option<real>)
    ensures var with, without := ThreadsPerCore(threadUtil, coreUtil, cores, true), ThreadsPerCore(threadUtil, coreUtil, cores, false);
      && (without == with <==> with.None? || threadUtil == Some(0.0))
      && (without != with ==> without.Some? && without.value == with.value / 2.0)
  {
    hide Running, PerRunningCore;
    if threadUtil.Some? && coreUtil.Some? && Truthy(cores) {
      Twice(threadUtil.value, cores.value);
      Halved(Running(threadUtil.value, cores.value), Running(threadUtil.value, cores.value * 2.0), Running(coreUtil.value, cores.value));
    }
  }

  lemma Twice(utilPct: real, count: real)
    requires count != 0.0
    ensures Running(utilPct, count * 2.0) == 2.0 * Running(utilPct, count)
    ensures Running(utilPct, count) == 0.0 <==> utilPct == 0.0
  {
  }

  lemma Halved(threads: real, twice: real, cores: real)
    requires twice == 2.0 * threads
    ensures var with, without := PerRunningCore(twice, cores), PerRunningCore(threads, cores);
      && (without == with <==> with.None? || threads == 0.0)
      && (without != with ==> without.Some? && without.value == with.value / 2.0)
  {
    if cores != 0.0 {
      var q := threads / cores;
      assert q * cores == threads;
      assert (2.0 * q) * cores == twice;
      assert twice / cores == 2.0 * q;
    }
  }

  /** An evenly loaded hyper-threaded host of 16 cores, whose hyper-threading properties may be lost. */
  function HyperThreadedHost(propsKnown: bool): Snapshot {
    Snapshot("c", [Resource("h", "h")], map["h" := []],
             map[("h", HostStatkey(CpuCores)) := 16.0, ("h", HostStatkey(CpuUtilization)) := 50.0,
                 ("h", HostStatkey(CoreUtilization)) := 50.0],
             if propsKnown then map[("h", HostPropertyKey(HtAvailable)) := "true", ("h", HostPropertyKey(HtActive)) := "true"]
             else map[], 0)
  }

  /** Losing them turns an imbalance of 2, red, into one of 1, green. */
  lemma LostHyperThreading(monster: MonsterVmSettings)
    ensures HostMetric(HyperThreadedHost(true), monster, "h", HostCpuImbalanceRatio) == Some(2.0)
    ensures HostMetric(HyperThreadedHost(false), monster, "h", HostCpuImbalanceRatio) == Some(1.0)
    ensures ClassifyBand(Some(2.0), HostCpuImbalanceRatio, HOST_SCOPE.bounds) == Red
    ensures ClassifyBand(Some(1.0), HostCpuImbalanceRatio, HOST_SCOPE.bounds) == Green
  {
    hide HostMetric, HOST_SCOPE, HOST_KEYS, HyperThreadedHost, HyperThreaded, Snapshot.Host;
    HyperThreadedReadings(true);
    HyperThreadedReadings(false);
    ImbalanceMetric(HyperThreadedHost(true), monster, "h");
    ImbalanceMetric(HyperThreadedHost(false), monster, "h");
    HostBounds(HostCpuImbalanceRatio);
  }

  lemma HyperThreadedReadings(propsKnown: bool)
    ensures var snap := HyperThreadedHost(propsKnown);
      && snap.Host("h", CpuCores) == Some(16.0)
      && snap.Host("h", CpuUtilization) == Some(50.0) == snap.Host("h", CoreUtilization)
      && (HyperThreaded(snap, "h") <==> propsKnown)
  {
    assert HostStatkey(CpuCores)[0] == 'h' && HostStatkey(CpuUtilization)[4] == 'u' && HostStatkey(CoreUtilization)[4] == 'c';
    assert HostPropertyKey(HtAvailable)[20] == 'v' && HostPropertyKey(HtActive)[20] == 'c';
  }

  // ----- monster ratios: a VM without a power state is no VM -----

  /**
   Whatever chunks of the VM-properties read fail: the VMs kept are exactly those of answered chunks
   that are on. A host whose VMs were all in failed chunks is left with an empty list, as after a failed listing.
   */
  lemma LostPowerStatesReadAsNoVms(replies: seq<PropsReply>, chunks: seq<seq<Id>>, world: World, vms: seq<Resource>)
    requires Serves(replies, chunks, world.props, PropExtract(VM_PROPERTY_KEYS))
    ensures var found := ReadChunks(replies, PropExtract(VM_PROPERTY_KEYS));
      && found.Value?
      && (forall v :: v in PoweredOn(vms, found.value) <==> v in vms && v.id in Survivors(replies, chunks) && OnIn(world, v.id))
      && (PoweredOn(vms, found.value) == [] <==> forall v :: v in vms && v.id in Survivors(replies, chunks) ==> !OnIn(world, v.id))
  {
    hide Survivors, PoweredOn, PropsOf, ReadChunks, Answers;
    ReadIsSurvivorsValues(replies, chunks, world.props, PropExtract(VM_PROPERTY_KEYS));
    var props := ReadChunks(replies, PropExtract(VM_PROPERTY_KEYS)).value;
    var kept := PoweredOn(vms, props);
    forall v ensures v in kept <==> v in vms && v.id in Survivors(replies, chunks) && OnIn(world, v.id) {
      PoweredOnMembers(vms, props, v);
    }
    if kept != [] {
      assert kept[0] in kept;
    }
  }
}
