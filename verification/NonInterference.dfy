/** Powered-off VMs do not interfere: deleting them from the inventory changes no metric. */
module NonInterference {
  import opened Common
  import opened Constants
  import opened Server
  import opened BulkReads
  import opened Inventory
  import opened Traversal
  import opened Cluster
  import opened Gathering
  import opened Worlds
  import opened Readings

  /** The world's own answer to whether a VM is on. */
  predicate OnIn(world: World, vmId: Id) {
    var props := PropsOf(world.props(vmId), VM_PROPERTY_KEYS);
    VM_POWER_STATE_PROPERTY in props && props[VM_POWER_STATE_PROPERTY] == VM_POWERED_ON
  }

  /** A listing without its VMs that are not on. */
  function KeepOn(world: World, children: seq<Child>): seq<Child> {
    if children == [] then []
    else
      var last := children[|children| - 1];
      KeepOn(world, children[..|children| - 1])
      + if last.kind != VmKind || OnIn(world, last.id) then [last] else []
  }

  function FilterOn(world: World, vms: seq<Resource>): seq<Resource> {
    if vms == [] then []
    else
      var last := vms[|vms| - 1];
      FilterOn(world, vms[..|vms| - 1]) + if OnIn(world, last.id) then [last] else []
  }

  /** `less` is `full` with every VM that is not on deleted from the inventory. */
  ghost predicate WithoutPoweredOff(less: World, full: World) {
    && (forall id: Id :: less.children(id) == KeepOn(full, full.children(id)))
    && (forall id: Id :: less.stats(id) == full.stats(id))
    && (forall id: Id :: less.props(id) == full.props(id))
  }

  lemma {:induction false} KeepOnKinds(world: World, children: seq<Child>)
    ensures OfKind(KeepOn(world, children), HostKind) == OfKind(children, HostKind)
    ensures OfKind(KeepOn(world, children), VmKind) == FilterOn(world, OfKind(children, VmKind))
  {
    hide OnIn;
    if children != [] {
      var n := |children| - 1;
      var init, last := children[..n], children[n];
      KeepOnKinds(world, init);
      if last.kind != VmKind || OnIn(world, last.id) {
        OfKindAppend(KeepOn(world, init), last, HostKind);
        OfKindAppend(KeepOn(world, init), last, VmKind);
      } else {
        assert KeepOn(world, children) == KeepOn(world, init);
        assert OfKind(children, HostKind) == OfKind(init, HostKind);
      }
      if last.kind == VmKind {
        FilterOnAppend(world, OfKind(init, VmKind), Resource(last.id, last.name));
      } else {
        assert OfKind(children, VmKind) == OfKind(init, VmKind);
      }
    }
  }

  lemma OfKindAppend(children: seq<Child>, last: Child, kind: Kind)
    ensures OfKind(children + [last], kind)
            == OfKind(children, kind) + if last.kind == kind then [Resource(last.id, last.name)] else []
  {
    assert (children + [last])[..|children|] == children;
  }

  lemma FilterOnAppend(world: World, vms: seq<Resource>, last: Resource)
    ensures FilterOn(world, vms + [last]) == FilterOn(world, vms) + if OnIn(world, last.id) then [last] else []
  {
    hide OnIn;
    assert (vms + [last])[..|vms|] == vms;
  }

  /** Filtering twice is filtering once. */
  lemma {:induction false} FilterOnTwice(world: World, vms: seq<Resource>)
    ensures FilterOn(world, FilterOn(world, vms)) == FilterOn(world, vms)
  {
    hide OnIn;
    if vms != [] {
      var n := |vms| - 1;
      FilterOnTwice(world, vms[..n]);
      FilterOnAppend(world, FilterOn(world, vms[..n]), vms[n]);
      if !OnIn(world, vms[n].id) {
        assert FilterOn(world, vms) == FilterOn(world, vms[..n]);
      }
    }
  }

  lemma {:induction false} FilterOnSame(a: World, b: World, vms: seq<Resource>)
    requires forall id: Id :: a.props(id) == b.props(id)
    ensures FilterOn(a, vms) == FilterOn(b, vms)
  {
    hide PropsOf;
    if vms != [] {
      FilterOnSame(a, b, vms[..|vms| - 1]);
    }
  }

  // ----- the power state a snapshot sees is the world's -----

  lemma {:induction false} PropsOfKeys(content: seq<RawProp>, keys: seq<string>, k: string)
    ensures k in PropsOf(content, keys) ==> k in keys
  {
    if content != [] {
      PropsOfKeys(content[..|content| - 1], keys, k);
    }
  }

  lemma PowerStateIsNoHostProperty(p: HostProp)
    ensures VM_POWER_STATE_PROPERTY !in HOST_PROPERTY_KEYS
    ensures HostPropertyKey(p) !in VM_PROPERTY_KEYS
  {
    assert VM_POWER_STATE_PROPERTY[0] == 's';
    assert HostPropertyKey(LinkSpeed)[0] == 'c' && HostPropertyKey(HtAvailable)[0] == 'c' && HostPropertyKey(HtActive)[0] == 'c';
  }

  /** For a listed VM the snapshot's filter is the world's. */
  lemma SnapshotSeesPowerState(world: World, hostIds: set<Id>, vmId: Id)
    requires vmId in VmIdsUnder(hostIds, AllVms(world))
    ensures IsOn(vmId, PropsUnder(world, hostIds)) <==> OnIn(world, vmId)
  {
    hide PropsOf, VmIdsUnder;
    PowerStateIsNoHostProperty(LinkSpeed);
    PropsOfKeys(world.props(vmId), HOST_PROPERTY_KEYS, VM_POWER_STATE_PROPERTY);
  }

  lemma {:induction false} SameFilter(vms: seq<Resource>, props: map<(Id, string), string>, world: World)
    requires forall v :: v in vms ==> (IsOn(v.id, props) <==> OnIn(world, v.id))
    ensures PoweredOn(vms, props) == FilterOn(world, vms)
  {
    hide IsOn, OnIn;
    if vms != [] {
      var n := |vms| - 1;
      forall v | v in vms[..n] ensures v in vms {
      }
      SameFilter(vms[..n], props, world);
      assert vms[n] in vms;
    }
  }

  lemma OnVmsIsFilter(world: World, hostIds: set<Id>, h: Id)
    requires h in hostIds
    ensures OnVms(world, hostIds, h) == FilterOn(world, VmsOf(world, h))
  {
    hide IsOn, OnIn, PropsUnder, OfKind;
    forall v | v in VmsOf(world, h)
      ensures IsOn(v.id, PropsUnder(world, hostIds)) <==> OnIn(world, v.id)
    {
      assert v in AllVms(world)(h);
      SnapshotSeesPowerState(world, hostIds, v.id);
    }
    SameFilter(VmsOf(world, h), PropsUnder(world, hostIds), world);
  }

  lemma SameOnVms(less: World, full: World, hostIds: set<Id>, h: Id)
    requires WithoutPoweredOff(less, full) && h in hostIds
    ensures OnVms(less, hostIds, h) == OnVms(full, hostIds, h)
  {
    hide OnVms, OnIn, FilterOn, OfKind, KeepOn;
    OnVmsIsFilter(less, hostIds, h);
    OnVmsIsFilter(full, hostIds, h);
    KeepOnKinds(full, full.children(h));
    assert VmsOf(less, h) == FilterOn(full, VmsOf(full, h));
    FilterOnSame(less, full, VmsOf(less, h));
    FilterOnTwice(full, VmsOf(full, h));
  }

  lemma SameHosts(less: World, full: World, clusterId: Id)
    requires WithoutPoweredOff(less, full)
    ensures HostsOf(less, clusterId) == HostsOf(full, clusterId)
  {
    hide KeepOn, OfKind, OnIn;
    KeepOnKinds(full, full.children(clusterId));
  }

  lemma SameOnIds(less: World, full: World, hostIds: set<Id>)
    requires WithoutPoweredOff(less, full)
    ensures OnIds(less, hostIds) == OnIds(full, hostIds)
  {
    hide WithoutPoweredOff, OnVms;
    forall h | h in hostIds ensures AllOnVms(less, hostIds)(h) == AllOnVms(full, hostIds)(h) {
      SameOnVms(less, full, hostIds, h);
    }
    SameUnder(hostIds, AllOnVms(less, hostIds), AllOnVms(full, hostIds));
  }

  lemma SameUnder(hostIds: set<Id>, a: Id -> seq<Resource>, b: Id -> seq<Resource>)
    requires forall h :: h in hostIds ==> a(h) == b(h)
    ensures VmIdsUnder(hostIds, a) == VmIdsUnder(hostIds, b)
  {
    forall id ensures id in VmIdsUnder(hostIds, a) <==> id in VmIdsUnder(hostIds, b) {
      if id in VmIdsUnder(hostIds, a) {
        var h, v :| h in hostIds && v in a(h) && v.id == id;
        assert v in b(h);
      }
      if id in VmIdsUnder(hostIds, b) {
        var h, v :| h in hostIds && v in b(h) && v.id == id;
        assert v in a(h);
      }
    }
  }

  lemma SameStatValues(less: World, full: World, ids: set<Id>, keys: seq<string>)
    requires WithoutPoweredOff(less, full)
    ensures StatValues(less, ids, keys) == StatValues(full, ids, keys)
  {
    hide KeepOn, StatsOf;
    var a, b := StatValues(less, ids, keys), StatValues(full, ids, keys);
    forall k | k in a ensures k in b && a[k] == b[k] {
      assert k.0 in ids && k.1 in StatExtract(keys)(full.stats(k.0));
    }
    forall k | k in b ensures k in a {
      assert k.0 in ids && k.1 in StatExtract(keys)(less.stats(k.0));
    }
  }

  /** A host's own properties are the same in both snapshots. */
  lemma SameHostProp(less: World, full: World, hostIds: set<Id>, h: Id, p: HostProp)
    requires WithoutPoweredOff(less, full) && h in hostIds
    ensures var key, a, b := (h, HostPropertyKey(p)), PropsUnder(less, hostIds), PropsUnder(full, hostIds);
      (key in a <==> key in b) && (key in a ==> a[key] == b[key])
  {
    hide PropsOf, PropsUnder, KeepOn, HostPropertyKey;
    HostPropIsOwn(less, hostIds, h, p);
    HostPropIsOwn(full, hostIds, h, p);
    assert less.props(h) == full.props(h);
  }

  /** A host property in the snapshot is the host's own: the VM properties cannot overwrite it. */
  lemma HostPropIsOwn(world: World, hostIds: set<Id>, h: Id, p: HostProp)
    requires h in hostIds
    ensures var key, props, own := (h, HostPropertyKey(p)), PropsUnder(world, hostIds), PropsOf(world.props(h), HOST_PROPERTY_KEYS);
      (key in props <==> key.1 in own) && (key in props ==> props[key] == own[key.1])
  {
    hide PropsOf, VmIdsUnder, HostPropertyKey;
    PowerStateIsNoHostProperty(p);
    PropsOfKeys(world.props(h), VM_PROPERTY_KEYS, HostPropertyKey(p));
  }

  /** Deleting every VM that is not on leaves what the metrics read, and the newest timestamp, as they were. */
  lemma SnapshotsAgree(less: World, full: World, clusterId: Id, newestMs: int, now: ReadTimes)
    requires WithoutPoweredOff(less, full)
    ensures SameReadings(SnapshotOf(less, clusterId, newestMs, now), SnapshotOf(full, clusterId, newestMs, now))
    ensures SnapshotOf(less, clusterId, newestMs, now).stats == SnapshotOf(full, clusterId, newestMs, now).stats
    ensures NewestAfter(less, clusterId, newestMs, now) == NewestAfter(full, clusterId, newestMs, now)
  {
    hide WithoutPoweredOff, HostsOf, OnVms, PropsUnder, HostPropertyKey, IdSet, ReadsOf, JoinAll;
    SameHosts(less, full, clusterId);
    SameReads(less, full, clusterId, now);
    var hosts := HostsOf(full, clusterId);
    var hostIds := IdSet(IdsOf(hosts));
    forall h | h in hostIds ensures OnVms(less, hostIds, h) == OnVms(full, hostIds, h) {
      SameOnVms(less, full, hostIds, h);
    }
    var a, b := SnapshotOf(less, clusterId, newestMs, now), SnapshotOf(full, clusterId, newestMs, now);
    assert a.vmsByHost == b.vmsByHost;
    forall i, p | 0 <= i < |hosts| ensures a.Prop(hosts[i].id, p) == b.Prop(hosts[i].id, p) {
      HostIdListed(hosts, i);
      SameHostProp(less, full, hostIds, hosts[i].id, p);
    }
    SameStatsRead(a, b);
  }

  lemma SameReads(less: World, full: World, clusterId: Id, now: ReadTimes)
    requires WithoutPoweredOff(less, full)
    ensures ReadsOf(less, clusterId, now) == ReadsOf(full, clusterId, now)
  {
    hide WithoutPoweredOff, HostsOf, OnIds, StatValues, IdSet, CLUSTER_STATKEYS, HOST_STATKEYS, VM_STATKEYS;
    SameHosts(less, full, clusterId);
    var hostIds := IdSet(IdsOf(HostsOf(full, clusterId)));
    SameOnIds(less, full, hostIds);
    SameStatValues(less, full, {clusterId}, CLUSTER_STATKEYS);
    SameStatValues(less, full, hostIds, HOST_STATKEYS);
    SameStatValues(less, full, OnIds(full, hostIds), VM_STATKEYS);
  }

  lemma HostIdListed(hosts: seq<Resource>, i: nat)
    requires i < |hosts|
    ensures hosts[i].id in IdSet(IdsOf(hosts))
  {
    assert IdsOf(hosts)[i] == hosts[i].id;
  }

  /**
   Powered-off VMs do not interfere. Against a healthy server, deleting every VM that is not on from
   the inventory changes no host metric, no cluster metric, and not the cycle's newest timestamp.
   */
  lemma PoweredOffVmsDoNotInterfere(less: World, full: World, clusterId: Id, newestMs: int, now: ReadTimes,
                                    monster: MonsterVmSettings, parse: string -> Option<real>)
    requires WithoutPoweredOff(less, full)
    ensures var a, b := SnapshotOf(less, clusterId, newestMs, now), SnapshotOf(full, clusterId, newestMs, now);
      && a.hosts == b.hosts
      && (forall i :: 0 <= i < |b.hosts| ==> HostMetrics(a, monster, b.hosts[i].id) == HostMetrics(b, monster, b.hosts[i].id))
      && ClusterMetrics(a, monster) == ClusterMetrics(b, monster)
      && ClusterOnlyMetrics(a, parse) == ClusterOnlyMetrics(b, parse)
    ensures NewestAfter(less, clusterId, newestMs, now) == NewestAfter(full, clusterId, newestMs, now)
  {
    hide SnapshotOf, NewestAfter, HostMetrics, ClusterMetrics, ClusterOnlyMetrics, Snapshot.Prop, WithoutPoweredOff;
    SnapshotsAgree(less, full, clusterId, newestMs, now);
    ReadingsDecide(SnapshotOf(less, clusterId, newestMs, now), SnapshotOf(full, clusterId, newestMs, now), monster, parse);
  }
}
