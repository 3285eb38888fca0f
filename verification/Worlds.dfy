/**
 What reading a cluster comes to when the server holds one answer per resource: healthy while no request fails, honest
 when requests may fail but what is read is true.
 */
module Worlds {
  import opened Common
  import opened Constants
  import opened Server
  import opened SuiteApi
  import opened BulkReads
  import opened BulkTheorems
  import opened Inventory
  import opened Traversal
  import opened Gathering
  import opened GatherTheorems

  // ----- a healthy server, and the snapshot it stands for -----

  /** What a server that answers per resource holds. */
  datatype World = World(children: Id -> seq<Child>, stats: Id -> seq<RawStat>, props: Id -> seq<RawProp>)

  /** None of the requests from number `from` up to `end` fails, and every reply is what the world holds of the requested resources. */
  ghost predicate Healthy(api: Api, world: World, from: nat, end: nat) {
    && (forall n: nat, id: Id :: from <= n < end ==> api.children(n, id) == Body(world.children(id)))
    && (forall n: nat, ids: seq<Id>, keys: seq<string> :: from <= n < end ==>
          AnsweredBy(api.stats(n, ids, keys), ids, world.stats, StatExtract(keys)))
    && (forall n: nat, ids: seq<Id>, keys: seq<string> :: from <= n < end ==>
          AnsweredBy(api.props(n, ids, keys), ids, world.props, PropExtract(keys)))
  }

  lemma HealthyPart(api: Api, world: World, from: nat, end: nat, low: nat, high: nat)
    requires from <= low && high <= end
    ensures Healthy(api, world, from, end) ==> Healthy(api, world, low, high)
  {
    hide AnsweredBy;
  }

  /** Requests may fail or raise, but a reply that is read holds what the world holds of the requested resources. */
  ghost predicate Honest(api: Api, world: World) {
    && (forall n: nat, id: Id :: api.children(n, id).Body? ==> api.children(n, id).body == world.children(id))
    && (forall n: nat, ids: seq<Id>, keys: seq<string> ::
          api.stats(n, ids, keys).Body? ==> AnsweredBy(api.stats(n, ids, keys), ids, world.stats, StatExtract(keys)))
    && (forall n: nat, ids: seq<Id>, keys: seq<string> ::
          api.props(n, ids, keys).Body? ==> AnsweredBy(api.props(n, ids, keys), ids, world.props, PropExtract(keys)))
  }

  /** The value is the one the world holds under this key. */
  ghost predicate StatFrom(world: World, k: SampleKey, value: real) {
    exists keys :: k.1 in StatsOf(world.stats(k.0), keys) && StatsOf(world.stats(k.0), keys)[k.1].value == value
  }

  ghost predicate PropFrom(world: World, k: (Id, string), value: string) {
    exists keys :: k.1 in PropsOf(world.props(k.0), keys) && PropsOf(world.props(k.0), keys)[k.1] == value
  }

  ghost predicate PropsFrom(world: World, props: map<(Id, string), string>) {
    forall k :: k in props ==> PropFrom(world, k, props[k])
  }

  /** A snapshot in which every listing and every value is the world's, and no stat is that of a VM left out. */
  ghost predicate Truthful(snap: Snapshot, world: World, clusterId: Id) {
    && (snap.hosts == HostsOf(world, clusterId) || snap.hosts == [])
    && (forall h, v :: h in snap.vmsByHost && v in snap.vmsByHost[h] ==> v in VmsOf(world, h))
    && PropsFrom(world, snap.props)
    && (forall k :: k in snap.stats ==>
          && StatFrom(world, k, snap.stats[k])
          && (k.0 == clusterId || k.0 in IdsOf(snap.hosts)
              || exists h, v :: h in snap.vmsByHost && v in snap.vmsByHost[h] && v.id == k.0))
  }

  ghost predicate AnsweredBy<A(!new), V>(reply: Reply<seq<Entry<A>>>, ids: seq<Id>, answer: Id -> A, extract: A -> map<string, V>) {
    reply.Body? && Answers(reply.body, ids, answer, extract)
  }

  ghost function HostsOf(world: World, clusterId: Id): seq<Resource> {
    OfKind(world.children(clusterId), HostKind)
  }

  ghost function VmsOf(world: World, hostId: Id): seq<Resource> {
    OfKind(world.children(hostId), VmKind)
  }

  ghost function AllVms(world: World): Id -> seq<Resource> {
    h => VmsOf(world, h)
  }

  ghost function AllOnVms(world: World, hostIds: set<Id>): Id -> seq<Resource> {
    h => OnVms(world, hostIds, h)
  }

  ghost function VmIdsUnder(hostIds: set<Id>, vms: Id -> seq<Resource>): set<Id> {
    set h, v | h in hostIds && v in vms(h) :: v.id
  }

  ghost function StatValues(world: World, ids: set<Id>, keys: seq<string>): map<SampleKey, Sample> {
    ValuesOf(world.stats, StatExtract(keys), ids)
  }

  ghost function PropValues(world: World, ids: set<Id>, keys: seq<string>): map<(Id, string), string> {
    ValuesOf(world.props, PropExtract(keys), ids)
  }

  ghost function PropsUnder(world: World, hostIds: set<Id>): map<(Id, string), string> {
    PropValues(world, hostIds, HOST_PROPERTY_KEYS)
    + PropValues(world, VmIdsUnder(hostIds, AllVms(world)), VM_PROPERTY_KEYS)
  }

  ghost function OnVms(world: World, hostIds: set<Id>, hostId: Id): seq<Resource> {
    PoweredOn(VmsOf(world, hostId), PropsUnder(world, hostIds))
  }

  ghost function OnIds(world: World, hostIds: set<Id>): set<Id> {
    VmIdsUnder(hostIds, AllOnVms(world, hostIds))
  }

  /** The three stats reads of a cluster, whatever the reference they are judged against. */
  ghost function ReadsOf(world: World, clusterId: Id, now: ReadTimes): seq<Read> {
    var hostIds := IdSet(IdsOf(HostsOf(world, clusterId)));
    [Read(StatValues(world, {clusterId}, CLUSTER_STATKEYS), now.cluster),
     Read(StatValues(world, hostIds, HOST_STATKEYS), now.hosts),
     Read(StatValues(world, OnIds(world, hostIds), VM_STATKEYS), now.vms)]
  }

  /** The snapshot of a cluster in a healthy world but for its stats; how many VMs are off is left at zero. */
  ghost function ShellOf(world: World, clusterId: Id): Snapshot {
    var hosts := HostsOf(world, clusterId);
    var hostIds := IdSet(IdsOf(hosts));
    Snapshot(clusterId, hosts, map h | h in hostIds :: OnVms(world, hostIds, h), map[], PropsUnder(world, hostIds), 0)
  }

  /** The whole snapshot: its stats are those that its three reads, one after the other, keep. */
  ghost function SnapshotOf(world: World, clusterId: Id, newestMs: int, now: ReadTimes): Snapshot {
    ShellOf(world, clusterId).(stats := JoinAll(Kept(ReadsOf(world, clusterId, now), newestMs)))
  }

  ghost function NewestAfter(world: World, clusterId: Id, newestMs: int, now: ReadTimes): int {
    Reference(ReadsOf(world, clusterId, now), newestMs)
  }

  // ----- bulk reads against a healthy server -----

  lemma HealthyStats(api: Api, world: World, call: nat, ids: seq<Id>, keys: seq<string>)
    requires Healthy(api, world, call, call + Sent(StatReplies(api, call, Chunks(ids), keys)))
    ensures ReadChunks(StatReplies(api, call, Chunks(ids), keys), StatExtract(keys))
            == Value(StatValues(world, IdSet(ids), keys))
  {
    hide Answers, Chunks, StatExtract;
    var chunks := Chunks(ids);
    var replies := StatReplies(api, call, chunks, keys);
    var sent := Sent(replies);
    forall i | 0 <= i < sent
      ensures replies[i].Body? && Answers(replies[i].body, chunks[i], world.stats, StatExtract(keys))
    {
      assert AnsweredBy(api.stats(call + i, chunks[i], keys), chunks[i], world.stats, StatExtract(keys));
    }
    assert sent == |replies|;
    ReadIsSurvivorsValues(replies, chunks, world.stats, StatExtract(keys));
    AllSurvive(replies, chunks);
    ChunkIds(ids);
  }

  lemma HealthyProps(api: Api, world: World, call: nat, ids: seq<Id>, keys: seq<string>)
    requires Healthy(api, world, call, call + Sent(PropReplies(api, call, Chunks(ids), keys)))
    ensures ReadChunks(PropReplies(api, call, Chunks(ids), keys), PropExtract(keys))
            == Value(PropValues(world, IdSet(ids), keys))
  {
    hide Answers, Chunks, PropExtract;
    var chunks := Chunks(ids);
    var replies := PropReplies(api, call, chunks, keys);
    var sent := Sent(replies);
    forall i | 0 <= i < sent
      ensures replies[i].Body? && Answers(replies[i].body, chunks[i], world.props, PropExtract(keys))
    {
      assert AnsweredBy(api.props(call + i, chunks[i], keys), chunks[i], world.props, PropExtract(keys));
    }
    assert sent == |replies|;
    ReadIsSurvivorsValues(replies, chunks, world.props, PropExtract(keys));
    AllSurvive(replies, chunks);
    ChunkIds(ids);
  }

  // ----- bulk reads against an honest server that may fail -----

  /** A read that did not raise had every chunk answered or failed. */
  lemma {:induction false} NoneRaised<A(!new), V>(replies: seq<Reply<seq<Entry<A>>>>, extract: A -> map<string, V>)
    requires ReadChunks(replies, extract).Value?
    ensures forall i :: 0 <= i < |replies| ==> replies[i].Body? || replies[i].NotOk?
  {
    if replies != [] {
      var n := |replies| - 1;
      NoneRaised(replies[..n], extract);
      assert forall i :: 0 <= i < n ==> replies[..n][i] == replies[i];
    }
  }

  lemma SurvivorsAsked<T>(replies: seq<Reply<T>>, ids: seq<Id>)
    requires |replies| == |Chunks(ids)|
    ensures Survivors(replies, Chunks(ids)) <= IdSet(ids)
  {
    hide Chunks;
    ChunkIds(ids);
    ChunksCover(ids);
    forall id | id in Survivors(replies, Chunks(ids)) ensures id in IdsIn(Chunks(ids)) {
      var i :| 0 <= i < |Chunks(ids)| && replies[i].Body? && id in Chunks(ids)[i];
      assert id in IdsIn(Chunks(ids));
    }
  }

  /** Whatever chunks fail, what a read returns is a part of what the world holds of the requested ids. */
  lemma HonestStats(api: Api, world: World, call: nat, ids: seq<Id>, keys: seq<string>)
    requires Honest(api, world)
    ensures var r := ReadChunks(StatReplies(api, call, Chunks(ids), keys), StatExtract(keys));
      r.Value? ==> forall k :: k in r.value ==> k.0 in ids && StatFrom(world, k, r.value[k].value)
  {
    hide Answers, Chunks, Survivors, ReadChunks;
    var chunks := Chunks(ids);
    var replies := StatReplies(api, call, chunks, keys);
    var r := ReadChunks(replies, StatExtract(keys));
    if r.Value? {
      NoneRaised(replies, StatExtract(keys));
      forall i | 0 <= i < |replies| && replies[i].Body?
        ensures Answers(replies[i].body, chunks[i], world.stats, StatExtract(keys))
      {
        assert AnsweredBy(api.stats(call + i, chunks[i], keys), chunks[i], world.stats, StatExtract(keys));
      }
      ReadIsSurvivorsValues(replies, chunks, world.stats, StatExtract(keys));
      SurvivorsAsked(replies, ids);
      forall k | k in r.value ensures k.0 in ids && StatFrom(world, k, r.value[k].value) {
        assert k.1 in StatsOf(world.stats(k.0), keys);
      }
    }
  }

  lemma HonestProps(api: Api, world: World, call: nat, ids: seq<Id>, keys: seq<string>)
    requires Honest(api, world)
    ensures var r := ReadChunks(PropReplies(api, call, Chunks(ids), keys), PropExtract(keys));
      r.Value? ==> PropsFrom(world, r.value)
  {
    hide Answers, Chunks, Survivors, ReadChunks;
    var chunks := Chunks(ids);
    var replies := PropReplies(api, call, chunks, keys);
    var r := ReadChunks(replies, PropExtract(keys));
    if r.Value? {
      NoneRaised(replies, PropExtract(keys));
      forall i | 0 <= i < |replies| && replies[i].Body?
        ensures Answers(replies[i].body, chunks[i], world.props, PropExtract(keys))
      {
        assert AnsweredBy(api.props(call + i, chunks[i], keys), chunks[i], world.props, PropExtract(keys));
      }
      ReadIsSurvivorsValues(replies, chunks, world.props, PropExtract(keys));
      forall k | k in r.value ensures PropFrom(world, k, r.value[k]) {
        assert k.1 in PropsOf(world.props(k.0), keys);
      }
    }
  }

  // ----- ids -----

  lemma IdSetAppend(ids: seq<Id>, id: Id)
    ensures IdSet(ids + [id]) == IdSet(ids) + {id}
  {
  }

  lemma IdsOfStep(hosts: seq<Resource>, i: nat)
    requires i < |hosts|
    ensures IdSet(IdsOf(hosts[..i + 1])) == IdSet(IdsOf(hosts[..i])) + {hosts[i].id}
  {
    assert IdsOf(hosts[..i + 1]) == IdsOf(hosts[..i]) + [hosts[i].id];
    IdSetAppend(IdsOf(hosts[..i]), hosts[i].id);
  }

  lemma {:induction false} VmIdsAreUnder(order: seq<Id>, listings: map<Id, seq<Resource>>, vms: Id -> seq<Resource>)
    requires forall h :: h in order ==> h in listings && listings[h] == vms(h)
    ensures IdSet(VmIds(order, listings)) == VmIdsUnder(IdSet(order), vms)
  {
    if order == [] {
      assert VmIdsUnder(IdSet(order), vms) == {};
    } else {
      var n := |order| - 1;
      var init, last := order[..n], order[n];
      assert order == init + [last];
      VmIdsAreUnder(init, listings, vms);
      UnderAdd(IdSet(init), last, vms);
      IdSetAppend(init, last);
      IdSetJoin(VmIds(init, listings), IdsOf(listings[last]));
    }
  }

  lemma IdSetJoin(a: seq<Id>, b: seq<Id>)
    ensures IdSet(a + b) == IdSet(a) + IdSet(b)
  {
  }

  lemma UnderAdd(hostIds: set<Id>, h: Id, vms: Id -> seq<Resource>)
    ensures VmIdsUnder(hostIds + {h}, vms) == VmIdsUnder(hostIds, vms) + IdSet(IdsOf(vms(h)))
  {
    var under, own := VmIdsUnder(hostIds + {h}, vms), IdSet(IdsOf(vms(h)));
    forall id | id in own ensures id in under {
      var i :| 0 <= i < |IdsOf(vms(h))| && IdsOf(vms(h))[i] == id;
      assert vms(h)[i] in vms(h);
    }
    forall id | id in under ensures id in VmIdsUnder(hostIds, vms) || id in own {
      var g, v :| g in hostIds + {h} && v in vms(g) && v.id == id;
      if g == h {
        var i :| 0 <= i < |vms(h)| && vms(h)[i] == v;
        assert IdsOf(vms(h))[i] == id;
      }
    }
  }

  lemma NoIds()
    ensures IdSet([]) == {}
  {
  }

  lemma OneId(id: Id)
    ensures IdSet([id]) == {id}
  {
  }

  lemma {:induction false} VmIdListed(order: seq<Id>, listings: map<Id, seq<Resource>>, id: Id)
    requires forall h :: h in order ==> h in listings
    requires id in VmIds(order, listings)
    ensures exists h: Id, v: Resource :: h in listings && v in listings[h] && v.id == id
  {
    var n := |order| - 1;
    var last := order[n];
    if id in IdsOf(listings[last]) {
      var i :| 0 <= i < |IdsOf(listings[last])| && IdsOf(listings[last])[i] == id;
      assert listings[last][i] in listings[last];
    } else {
      VmIdListed(order[..n], listings, id);
    }
  }

  // ----- listings -----

  lemma {:induction false} ListingKeys(hosts: seq<Resource>, replies: seq<Reply<seq<Child>>>)
    requires |hosts| == |replies| && ListingOf(hosts, replies).Value?
    ensures var l := ListingOf(hosts, replies).value;
      l.vms.Keys == IdSet(IdsOf(hosts)) == IdSet(l.order)
  {
    hide OfKind, IdSet, IdsOf;
    if hosts == [] {
      assert IdsOf([]) == [];
      NoIds();
    } else {
      var n := |hosts| - 1;
      ListingKeys(hosts[..n], replies[..n]);
      assert hosts[..n + 1] == hosts;
      IdsOfStep(hosts, n);
      IdSetAppend(ListingOf(hosts[..n], replies[..n]).value.order, hosts[n].id);
      IdListed(ListingOf(hosts[..n], replies[..n]).value.order, hosts[n].id);
    }
  }

  lemma IdListed(ids: seq<Id>, id: Id)
    ensures id in IdSet(ids) ==> IdSet(ids) + {id} == IdSet(ids)
  {
  }

  lemma {:induction false} NoListingRaised(hosts: seq<Resource>, replies: seq<Reply<seq<Child>>>)
    requires |hosts| == |replies|
    ensures ListingOf(hosts, replies).Value? <==> forall i :: 0 <= i < |replies| ==> !Raises(replies[i])
  {
    if hosts != [] {
      var n := |hosts| - 1;
      NoListingRaised(hosts[..n], replies[..n]);
      assert forall i :: 0 <= i < n ==> replies[..n][i] == replies[i];
    }
  }

  /** Every listing is that of a reply, or empty when it failed. */
  lemma {:induction false} ListingHolds(hosts: seq<Resource>, replies: seq<Reply<seq<Child>>>, world: World)
    requires |hosts| == |replies| && ListingOf(hosts, replies).Value?
    requires forall i :: 0 <= i < |replies| && replies[i].Body? ==> replies[i].body == world.children(hosts[i].id)
    ensures var l := ListingOf(hosts, replies).value;
      && (forall h :: h in l.vms ==> l.vms[h] == VmsOf(world, h) || l.vms[h] == [])
      && ((forall i :: 0 <= i < |replies| ==> replies[i].Body?) ==> forall h :: h in l.vms ==> l.vms[h] == VmsOf(world, h))
  {
    hide OfKind;
    if hosts != [] {
      var n := |hosts| - 1;
      assert forall i :: 0 <= i < n ==> replies[..n][i] == replies[i] && hosts[..n][i] == hosts[i];
      ListingHolds(hosts[..n], replies[..n], world);
    }
  }

  // ----- a healthy server -----

  lemma HealthyListing(api: Api, world: World, from: nat, end: nat, id: Id)
    ensures from < end && Healthy(api, world, from, end) ==> api.children(from, id) == Body(world.children(id))
  {
    hide AnsweredBy;
  }

  lemma HealthyVms(api: Api, world: World, hosts: seq<Resource>, call: nat)
    requires Healthy(api, world, call, call + Sent(ChildReplies(api, call, hosts)))
    ensures var replies := ChildReplies(api, call, hosts);
      && ListingOf(hosts, replies).Value? && |Outcomes(replies[..Sent(replies)])| == |hosts|
      && forall h :: h in ListingOf(hosts, replies).value.vms ==> ListingOf(hosts, replies).value.vms[h] == VmsOf(world, h)
  {
    hide AnsweredBy, VmsOf;
    var replies := ChildReplies(api, call, hosts);
    forall i | 0 <= i < Sent(replies) ensures replies[i] == Body(world.children(hosts[i].id)) {
      assert api.children(call + i, hosts[i].id) == Body(world.children(hosts[i].id));
    }
    assert Sent(replies) == |replies|;
    NoListingRaised(hosts, replies);
    ListingHolds(hosts, replies, world);
  }

  lemma HealthyAllProps(api: Api, world: World, hostIds: seq<Id>, vmIds: seq<Id>, call: nat)
    requires Healthy(api, world, call, call + |AllProps(api, hostIds, vmIds, call).outcomes|)
    ensures AllProps(api, hostIds, vmIds, call).found
            == Value(PropValues(world, IdSet(hostIds), HOST_PROPERTY_KEYS) + PropValues(world, IdSet(vmIds), VM_PROPERTY_KEYS))
  {
    hide Healthy, PropValues, IdSet, ReadChunks, Sent, PropExtract, PropReplies, HOST_PROPERTY_KEYS, VM_PROPERTY_KEYS;
    var end := call + |AllProps(api, hostIds, vmIds, call).outcomes|;
    var first := OneProps(api, hostIds, HOST_PROPERTY_KEYS, call);
    HealthyPart(api, world, call, end, call, call + |first.outcomes|);
    HealthyProps(api, world, call, hostIds, HOST_PROPERTY_KEYS);
    HealthyPart(api, world, call, end, call + |first.outcomes|, end);
    HealthyProps(api, world, call + |first.outcomes|, vmIds, VM_PROPERTY_KEYS);
  }

  lemma HealthyOneStats(api: Api, world: World, ids: seq<Id>, keys: seq<string>, nowMs: int, call: nat)
    requires Healthy(api, world, call, call + |OneStats(api, ids, keys, nowMs, call).outcomes|)
    ensures var run := OneStats(api, ids, keys, nowMs, call);
      !run.raised && run.run == [Read(StatValues(world, IdSet(ids), keys), nowMs)]
  {
    hide Healthy, StatValues, IdSet, ReadChunks, Sent, StatExtract, StatReplies;
    HealthyStats(api, world, call, ids, keys);
  }

  lemma HealthyAllStats(api: Api, world: World, clusterId: Id, hostIds: seq<Id>, onIds: seq<Id>, now: ReadTimes, call: nat)
    requires Healthy(api, world, call, call + |AllStats(api, clusterId, hostIds, onIds, now, call).outcomes|)
    ensures var run := AllStats(api, clusterId, hostIds, onIds, now, call);
      && !run.raised
      && run.run == [Read(StatValues(world, {clusterId}, CLUSTER_STATKEYS), now.cluster),
                     Read(StatValues(world, IdSet(hostIds), HOST_STATKEYS), now.hosts),
                     Read(StatValues(world, IdSet(onIds), VM_STATKEYS), now.vms)]
  {
    hide Healthy, StatValues, IdSet, OneStats, CLUSTER_STATKEYS, HOST_STATKEYS, VM_STATKEYS;
    OneId(clusterId);
    var end := call + |AllStats(api, clusterId, hostIds, onIds, now, call).outcomes|;
    var one := OneStats(api, [clusterId], CLUSTER_STATKEYS, now.cluster, call);
    HealthyPart(api, world, call, end, call, call + |one.outcomes|);
    HealthyOneStats(api, world, [clusterId], CLUSTER_STATKEYS, now.cluster, call);
    var second := call + |one.outcomes|;
    var two := OneStats(api, hostIds, HOST_STATKEYS, now.hosts, second);
    HealthyPart(api, world, call, end, second, second + |two.outcomes|);
    HealthyOneStats(api, world, hostIds, HOST_STATKEYS, now.hosts, second);
    var third := call + |ThenRun(one, two).outcomes|;
    HealthyPart(api, world, call, end, third, end);
    HealthyOneStats(api, world, onIds, VM_STATKEYS, now.vms, third);
  }

  /**
   Reading a cluster without a failed request gathers what the world holds of it: the snapshot but for
   its stats, and the three stats reads.
   */
  lemma HealthyCluster(api: Api, world: World, clusterId: Id, call: nat, now: ReadTimes)
    requires Healthy(api, world, call, call + |Gather(api, clusterId, call, now).outcomes|)
    ensures var g := Gather(api, clusterId, call, now);
      g.shell.Value? && g.shell.value.(vmsNotPoweredOn := 0) == ShellOf(world, clusterId) && g.run == ReadsOf(world, clusterId, now)
  {
    hide Healthy, GatherBelow, ShellOf, ReadsOf, OfKind;
    var end := call + |Gather(api, clusterId, call, now).outcomes|;
    HealthyListing(api, world, call, end, clusterId);
    HealthyPart(api, world, call, end, call + 1, end);
    HealthyBelow(api, world, clusterId, call + 1, now);
  }

  lemma HealthyBelow(api: Api, world: World, clusterId: Id, call: nat, now: ReadTimes)
    requires Healthy(api, world, call, call + |GatherBelow(api, clusterId, HostsOf(world, clusterId), call, now).outcomes|)
    ensures var g := GatherBelow(api, clusterId, HostsOf(world, clusterId), call, now);
      g.shell.Value? && g.shell.value.(vmsNotPoweredOn := 0) == ShellOf(world, clusterId) && g.run == ReadsOf(world, clusterId, now)
  {
    hide Healthy, GatherRead, ShellOf, ReadsOf, HostsOf, ListingOf, Sent, ChildReplies;
    var hosts := HostsOf(world, clusterId);
    var end := call + |GatherBelow(api, clusterId, hosts, call, now).outcomes|;
    var replies := ChildReplies(api, call, hosts);
    HealthyPart(api, world, call, end, call, call + Sent(replies));
    HealthyVms(api, world, hosts, call);
    ListingKeys(hosts, replies);
    HealthyPart(api, world, call, end, call + Sent(replies), end);
    HealthyRead(api, world, clusterId, ListingOf(hosts, replies).value, call + Sent(replies), now);
  }

  lemma HealthyRead(api: Api, world: World, clusterId: Id, l: Listing, call: nat, now: ReadTimes)
    requires forall h :: h in l.order ==> h in l.vms
    requires l.vms.Keys == IdSet(IdsOf(HostsOf(world, clusterId))) == IdSet(l.order)
    requires forall h :: h in l.vms ==> l.vms[h] == VmsOf(world, h)
    requires Healthy(api, world, call, call + |GatherRead(api, clusterId, HostsOf(world, clusterId), l, call, now).outcomes|)
    ensures var g := GatherRead(api, clusterId, HostsOf(world, clusterId), l, call, now);
      g.shell.Value? && g.shell.value.(vmsNotPoweredOn := 0) == ShellOf(world, clusterId) && g.run == ReadsOf(world, clusterId, now)
  {
    hide Healthy, GatherStats, ShellOf, ReadsOf, HostsOf, AllProps, VmIds, IdsOf, IdSet, VmsOf, PropValues;
    var hosts := HostsOf(world, clusterId);
    var end := call + |GatherRead(api, clusterId, hosts, l, call, now).outcomes|;
    var vmIds := VmIds(l.order, l.vms);
    var props := AllProps(api, IdsOf(hosts), vmIds, call);
    HealthyPart(api, world, call, end, call, call + |props.outcomes|);
    HealthyAllProps(api, world, IdsOf(hosts), vmIds, call);
    HealthyPart(api, world, call, end, call + |props.outcomes|, end);
    HealthyStage(api, world, clusterId, l, props.found.value, call + |props.outcomes|, now);
  }

  lemma HealthyStage(api: Api, world: World, clusterId: Id, l: Listing, props: map<(Id, string), string>, call: nat, now: ReadTimes)
    requires forall h :: h in l.order ==> h in l.vms
    requires l.vms.Keys == IdSet(IdsOf(HostsOf(world, clusterId))) == IdSet(l.order)
    requires forall h :: h in l.vms ==> l.vms[h] == VmsOf(world, h)
    requires props == PropValues(world, IdSet(IdsOf(HostsOf(world, clusterId))), HOST_PROPERTY_KEYS)
                      + PropValues(world, IdSet(VmIds(l.order, l.vms)), VM_PROPERTY_KEYS)
    requires Healthy(api, world, call, call + |GatherStats(api, clusterId, HostsOf(world, clusterId), l, props, call, now).outcomes|)
    ensures var g := GatherStats(api, clusterId, HostsOf(world, clusterId), l, props, call, now);
      g.shell.Value? && g.shell.value.(vmsNotPoweredOn := 0) == ShellOf(world, clusterId) && g.run == ReadsOf(world, clusterId, now)
  {
    hide Healthy, HostsOf, AllStats, VmIds, IdsOf, IdSet, VmsOf, PropValues, OnVms, OnIds, PropsUnder, StatValues;
    var hosts := HostsOf(world, clusterId);
    HealthyListings(world, clusterId, hosts, l.order, l.vms, props);
    HealthyAllStats(api, world, clusterId, IdsOf(hosts), VmIds(l.order, Filtered(l.vms, props)), now, call);
  }

  lemma HealthyListings(world: World, clusterId: Id, hosts: seq<Resource>, order: seq<Id>,
                        listings: map<Id, seq<Resource>>, props: map<(Id, string), string>)
    requires hosts == HostsOf(world, clusterId)
    requires listings.Keys == IdSet(IdsOf(hosts)) == IdSet(order)
    requires forall h :: h in listings ==> listings[h] == VmsOf(world, h)
    requires forall h :: h in order ==> h in listings
    requires props == PropValues(world, IdSet(IdsOf(hosts)), HOST_PROPERTY_KEYS)
                      + PropValues(world, IdSet(VmIds(order, listings)), VM_PROPERTY_KEYS)
    ensures var hostIds := IdSet(IdsOf(hosts));
      var vmsByHost := Filtered(listings, props);
      && props == PropsUnder(world, hostIds)
      && vmsByHost == (map h | h in hostIds :: OnVms(world, hostIds, h))
      && IdSet(VmIds(order, vmsByHost)) == OnIds(world, hostIds)
  {
    hide PropValues, PoweredOn, OfKind, IdsOf, IdSet, VmIds;
    var hostIds := IdSet(IdsOf(hosts));
    VmIdsAreUnder(order, listings, AllVms(world));
    assert props == PropsUnder(world, hostIds);
    var vmsByHost := Filtered(listings, props);
    assert vmsByHost == map h | h in hostIds :: OnVms(world, hostIds, h);
    VmIdsAreUnder(order, vmsByHost, AllOnVms(world, hostIds));
  }

  // ----- an honest server -----

  lemma HonestAllProps(api: Api, world: World, hostIds: seq<Id>, vmIds: seq<Id>, call: nat)
    requires Honest(api, world)
    ensures var found := AllProps(api, hostIds, vmIds, call).found; found.Value? ==> PropsFrom(world, found.value)
  {
    hide Honest, PropFrom, ReadChunks, Sent, PropExtract, PropReplies, HOST_PROPERTY_KEYS, VM_PROPERTY_KEYS;
    HonestProps(api, world, call, hostIds, HOST_PROPERTY_KEYS);
    var first := OneProps(api, hostIds, HOST_PROPERTY_KEYS, call);
    HonestProps(api, world, call + |first.outcomes|, vmIds, VM_PROPERTY_KEYS);
  }

  /** Every sample that a run of reads picks is the world's, and about one of these ids. */
  ghost predicate ReadsFrom(world: World, run: seq<Read>, ids: set<Id>) {
    forall i, k :: 0 <= i < |run| && k in run[i].picked ==> k.0 in ids && StatFrom(world, k, run[i].picked[k].value)
  }

  lemma HonestOneStats(api: Api, world: World, ids: seq<Id>, keys: seq<string>, nowMs: int, call: nat)
    requires Honest(api, world)
    ensures ReadsFrom(world, OneStats(api, ids, keys, nowMs, call).run, IdSet(ids))
  {
    hide Honest, StatFrom, ReadChunks, Sent, StatExtract, StatReplies;
    HonestStats(api, world, call, ids, keys);
  }

  lemma HonestAllStats(api: Api, world: World, clusterId: Id, hostIds: seq<Id>, onIds: seq<Id>, now: ReadTimes, call: nat)
    requires Honest(api, world)
    ensures ReadsFrom(world, AllStats(api, clusterId, hostIds, onIds, now, call).run, {clusterId} + IdSet(hostIds) + IdSet(onIds))
  {
    hide Honest, ReadsFrom, OneStats, IdSet, CLUSTER_STATKEYS, HOST_STATKEYS, VM_STATKEYS;
    OneId(clusterId);
    var one := OneStats(api, [clusterId], CLUSTER_STATKEYS, now.cluster, call);
    HonestOneStats(api, world, [clusterId], CLUSTER_STATKEYS, now.cluster, call);
    var two := OneStats(api, hostIds, HOST_STATKEYS, now.hosts, call + |one.outcomes|);
    HonestOneStats(api, world, hostIds, HOST_STATKEYS, now.hosts, call + |one.outcomes|);
    var three := OneStats(api, onIds, VM_STATKEYS, now.vms, call + |ThenRun(one, two).outcomes|);
    HonestOneStats(api, world, onIds, VM_STATKEYS, now.vms, call + |ThenRun(one, two).outcomes|);
    var ids := {clusterId} + IdSet(hostIds) + IdSet(onIds);
    ReadsFromJoin(world, one.run, {clusterId}, two.run, IdSet(hostIds), ids);
    ReadsFromJoin(world, one.run + two.run, ids, three.run, IdSet(onIds), ids);
    ReadsFromJoin(world, one.run, {clusterId}, [], {}, ids);
  }

  /** Reads about some ids, and more reads about others. */
  lemma ReadsFromJoin(world: World, first: seq<Read>, a: set<Id>, second: seq<Read>, b: set<Id>, ids: set<Id>)
    requires a <= ids && b <= ids
    ensures ReadsFrom(world, first, a) && ReadsFrom(world, second, b) ==> ReadsFrom(world, first + second, ids)
    ensures ReadsFrom(world, [], b) && first + [] == first
  {
    hide StatFrom;
    if ReadsFrom(world, first, a) && ReadsFrom(world, second, b) {
      var both := first + second;
      forall i, k | 0 <= i < |both| && k in both[i].picked ensures k.0 in ids && StatFrom(world, k, both[i].picked[k].value) {
        if i < |first| {
          assert both[i] == first[i];
        } else {
          assert both[i] == second[i - |first|];
        }
      }
    }
  }

  /** What is kept of some reads was picked by one of them. */
  lemma {:induction false} JoinedFrom(world: World, run: seq<Read>, newestMs: int, ids: set<Id>)
    requires ReadsFrom(world, run, ids)
    ensures var table := JoinAll(Kept(run, newestMs));
      forall k :: k in table ==> k.0 in ids && StatFrom(world, k, table[k])
  {
    hide StatFrom, Newest, IsFresh;
    if run != [] {
      var n := |run| - 1;
      assert forall i :: 0 <= i < n ==> run[..n][i] == run[i];
      JoinedFrom(world, run[..n], newestMs, ids);
      assert Kept(run, newestMs)[..n] == Kept(run[..n], newestMs);
    }
  }

  /** A snapshot but for its stats that is truthful with every table of true stats about its own objects. */
  ghost predicate TruthfulShell(shell: Snapshot, run: seq<Read>, world: World, clusterId: Id) {
    && shell.clusterId == clusterId && OnlyPoweredOn(shell)
    && (shell.hosts == HostsOf(world, clusterId) || shell.hosts == [])
    && (forall h, v :: h in shell.vmsByHost && v in shell.vmsByHost[h] ==> v in VmsOf(world, h))
    && PropsFrom(world, shell.props)
    && ReadsFrom(world, run, ObjectsOf(shell))
  }

  /** The cluster, its hosts and the VMs that were kept. */
  ghost function ObjectsOf(snap: Snapshot): set<Id> {
    {snap.clusterId} + IdSet(IdsOf(snap.hosts))
    + (set h, v | h in snap.vmsByHost && v in snap.vmsByHost[h] :: v.id)
  }

  /**
   Whatever requests fail, a snapshot that is read from an honest server holds nothing but what the
   server holds, only VMs that it gives as on, and no stat of a VM left out.
   */
  lemma HonestCluster(api: Api, world: World, clusterId: Id, call: nat, now: ReadTimes, newestMs: int)
    requires Honest(api, world)
    ensures var snap := Judged(Gather(api, clusterId, call, now), newestMs);
      snap.Value? ==> Truthful(snap.value, world, clusterId)
  {
    hide Honest, JoinAll, Kept, PropsFrom, StatFrom, HostsOf, VmsOf, IdSet, IdsOf, Gather, ReadsFrom;
    HonestGather(api, world, clusterId, call, now);
    var g := Gather(api, clusterId, call, now);
    if g.shell.Value? {
      JoinedFrom(world, g.run, newestMs, ObjectsOf(g.shell.value));
      ObjectIds(g.shell.value);
    }
  }

  lemma ObjectIds(snap: Snapshot)
    ensures forall id :: id in ObjectsOf(snap) ==>
      || id == snap.clusterId || id in IdsOf(snap.hosts)
      || exists h: Id, v: Resource :: h in snap.vmsByHost && v in snap.vmsByHost[h] && v.id == id
  {
    hide IdsOf;
  }

  lemma HonestGather(api: Api, world: World, clusterId: Id, call: nat, now: ReadTimes)
    requires Honest(api, world)
    ensures var g := Gather(api, clusterId, call, now);
      g.shell.Value? ==> TruthfulShell(g.shell.value, g.run, world, clusterId)
  {
    hide GatherBelow, AnsweredBy, TruthfulShell, OfKind, StatExtract, PropExtract;
    var reply := api.children(call, clusterId);
    var hosts := if reply.Body? then OfKind(reply.body, HostKind) else [];
    assert hosts == HostsOf(world, clusterId) || hosts == [];
    HonestBelow(api, world, clusterId, hosts, call + 1, now);
  }

  lemma HonestBelow(api: Api, world: World, clusterId: Id, hosts: seq<Resource>, call: nat, now: ReadTimes)
    requires Honest(api, world) && (hosts == HostsOf(world, clusterId) || hosts == [])
    ensures var g := GatherBelow(api, clusterId, hosts, call, now);
      g.shell.Value? ==> TruthfulShell(g.shell.value, g.run, world, clusterId)
  {
    hide Honest, GatherRead, TruthfulShell, HostsOf, ListingOf, VmsOf, Sent;
    var replies := ChildReplies(api, call, hosts);
    if ListingOf(hosts, replies).Value? {
      HonestReplies(api, world, hosts, call);
      ListingHolds(hosts, replies, world);
      HonestRead(api, world, clusterId, hosts, ListingOf(hosts, replies).value, call + |Outcomes(replies[..Sent(replies)])|, now);
    }
  }

  lemma HonestReplies(api: Api, world: World, hosts: seq<Resource>, call: nat)
    requires Honest(api, world)
    ensures var replies := ChildReplies(api, call, hosts);
      forall i :: 0 <= i < |replies| && replies[i].Body? ==> replies[i].body == world.children(hosts[i].id)
  {
    hide AnsweredBy, StatExtract, PropExtract;
  }

  lemma HonestRead(api: Api, world: World, clusterId: Id, hosts: seq<Resource>, l: Listing, call: nat, now: ReadTimes)
    requires Honest(api, world) && (hosts == HostsOf(world, clusterId) || hosts == [])
    requires forall h :: h in l.order ==> h in l.vms
    requires forall h :: h in l.vms ==> l.vms[h] == VmsOf(world, h) || l.vms[h] == []
    ensures var g := GatherRead(api, clusterId, hosts, l, call, now);
      g.shell.Value? ==> TruthfulShell(g.shell.value, g.run, world, clusterId)
  {
    hide Honest, GatherStats, TruthfulShell, HostsOf, AllProps, VmsOf, VmIds, IdsOf, PropsFrom;
    var props := AllProps(api, IdsOf(hosts), VmIds(l.order, l.vms), call);
    if props.found.Value? {
      HonestAllProps(api, world, IdsOf(hosts), VmIds(l.order, l.vms), call);
      HonestStage(api, world, clusterId, hosts, l, props.found.value, call + |props.outcomes|, now);
    }
  }

  lemma HonestStage(api: Api, world: World, clusterId: Id, hosts: seq<Resource>, l: Listing, props: map<(Id, string), string>,
                    call: nat, now: ReadTimes)
    requires Honest(api, world) && (hosts == HostsOf(world, clusterId) || hosts == [])
    requires forall h :: h in l.order ==> h in l.vms
    requires forall h :: h in l.vms ==> l.vms[h] == VmsOf(world, h) || l.vms[h] == []
    requires PropsFrom(world, props)
    ensures var g := GatherStats(api, clusterId, hosts, l, props, call, now);
      g.shell.Value? ==> TruthfulShell(g.shell.value, g.run, world, clusterId)
  {
    hide Honest, HostsOf, VmsOf, AllStats, IdSet, IdsOf, PropsFrom, PoweredOn, ReadsFrom, VmIds;
    var kept := Filtered(l.vms, props);
    var onIds := VmIds(l.order, kept);
    HonestAllStats(api, world, clusterId, IdsOf(hosts), onIds, now, call);
    KeptIds(l.order, kept);
    var shell, run := Shell(clusterId, hosts, l, props), AllStats(api, clusterId, IdsOf(hosts), onIds, now, call).run;
    ReadsFromJoin(world, run, {clusterId} + IdSet(IdsOf(hosts)) + IdSet(onIds), [], {}, ObjectsOf(shell));
    KeptVms(l, props, world);
  }

  lemma KeptVms(l: Listing, props: map<(Id, string), string>, world: World)
    requires forall h :: h in l.vms ==> l.vms[h] == VmsOf(world, h) || l.vms[h] == []
    ensures forall h, v :: h in Filtered(l.vms, props) && v in Filtered(l.vms, props)[h] ==> v in VmsOf(world, h)
    ensures forall h, v :: h in Filtered(l.vms, props) && v in Filtered(l.vms, props)[h] ==> IsOn(v.id, props)
  {
    hide PoweredOn, OfKind;
    var kept := Filtered(l.vms, props);
    forall h, v | h in kept && v in kept[h] ensures v in VmsOf(world, h) {
      PoweredOnMembers(l.vms[h], props, v);
    }
    forall h: Id, v: Resource | h in kept && v in kept[h] ensures IsOn(v.id, props) {
      PoweredOnMembers(l.vms[h], props, v);
    }
  }

  lemma KeptIds(order: seq<Id>, kept: map<Id, seq<Resource>>)
    requires forall h :: h in order ==> h in kept
    ensures IdSet(VmIds(order, kept)) <= set h, v | h in kept && v in kept[h] :: v.id
  {
    hide VmIds;
    forall id | id in IdSet(VmIds(order, kept)) ensures exists h: Id, v: Resource :: h in kept && v in kept[h] && v.id == id {
      VmIdListed(order, kept, id);
    }
  }
}
