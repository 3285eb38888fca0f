/** Whole cycles against small servers: three that break a promise of the documentation, and those that lose their inventory. */
module Runs {
  import opened Common
  import opened Constants
  import opened Server
  import opened SuiteApi
  import opened BulkReads
  import opened BulkTheorems
  import opened Inventory
  import opened Traversal
  import opened Pipeline
  import opened Gathering
  import opened GatherTheorems
  import opened Projections
  import opened ProjectionTheorems
  import opened Adapter
  import opened Cycle
  import opened CycleTheorems

  // ----- cycles over a stable inventory -----

  lemma StableQuery(api: Api, kind: Kind, call: nat, inventory: seq<InventoryEntry>)
    requires Stable(api, kind, inventory)
    ensures Ends(api, kind, call)
    ensures forall error :: !QueryFails(api, kind, call, error)
    ensures forall n: nat, entries ::
      CompleteRun(api, kind, call, n, entries) ==> entries == inventory && n == PagesFor(|inventory|)
  {
    hide PageOf, PagesFor, CompleteRun;
    forall i: nat
      ensures PageReply(api, kind, call, i).Body?
      ensures BoundedReply(PageReply(api, kind, call, i), |inventory|) && ReportsTotal(PageReply(api, kind, call, i))
    {
      assert PageReply(api, kind, call, i) == api.query(call + i, kind, i);
    }
    BoundedTotalsEnd(api, kind, call, |inventory|);
    forall n: nat, error ensures !FailedRun(api, kind, call, n, error) {
      assert n >= 1 ==> PageReply(api, kind, call, n - 1).Body?;
    }
    forall n: nat, entries | CompleteRun(api, kind, call, n, entries)
      ensures entries == inventory && n == PagesFor(|inventory|)
    {
      StableInventory(api, kind, call, n, entries, inventory);
    }
  }

  /** Over a stable inventory of clusters that all have keys the three queries end, do not fail, and find just that inventory. */
  lemma StableInventoryRead(api: Api, clusters: seq<InventoryEntry>, hosts: seq<InventoryEntry>)
    requires Stable(api, ClusterKind, clusters) && Stable(api, HostKind, hosts)
    requires forall i :: 0 <= i < |clusters| ==> clusters[i].key.Some?
    ensures InventoryEnds(api)
    ensures forall error :: !InventoryFails(api, error)
    ensures forall found, clusterKeys, hostKeys, calls ::
      InventoryRead(api, found, clusterKeys, hostKeys, calls) ==>
        && Value(found) == Named(clusters) && clusterKeys == KeysById(clusters) && hostKeys == KeysById(hosts)
        && calls == 2 * PagesFor(|clusters|) + PagesFor(|hosts|)
  {
    hide Stable, Ends, QueryFails, CompleteRun, PagesFor, Named, KeysById;
    forall call: nat
      ensures Ends(api, ClusterKind, call) && Ends(api, HostKind, call)
      ensures forall error :: !QueryFails(api, ClusterKind, call, error) && !QueryFails(api, HostKind, call, error)
      ensures forall n: nat, entries :: CompleteRun(api, ClusterKind, call, n, entries) ==> entries == clusters && n == PagesFor(|clusters|)
      ensures forall n: nat, entries :: CompleteRun(api, HostKind, call, n, entries) ==> entries == hosts && n == PagesFor(|hosts|)
    {
      StableQuery(api, ClusterKind, call, clusters);
      StableQuery(api, HostKind, call, hosts);
    }
  }

  // ----- a small server -----

  /** Objects that are named and identified by their ids. */
  function Listed(ids: seq<Id>): (entries: seq<InventoryEntry>)
    ensures |entries| == |ids|
    ensures forall i :: 0 <= i < |ids| ==> entries[i] == InventoryEntry(ids[i], Some(ResourceKey(ids[i], ids[i])))
  {
    seq(|ids|, i requires 0 <= i < |ids| => InventoryEntry(ids[i], Some(ResourceKey(ids[i], ids[i]))))
  }

  /** A server with a stable inventory that holds no property, lists these children and gives these stats. */
  function SmallServer(clusterIds: seq<Id>, hostIds: seq<Id>, children: Id -> seq<Child>, stats: seq<Id> -> StatsReply): Api {
    Api(
      (call: nat, ids: seq<Id>, keys: seq<string>) => stats(ids),
      (call: nat, ids: seq<Id>, keys: seq<string>) => Body([]),
      (call: nat, id: Id) => Body(children(id)),
      (call: nat, kind: Kind, page: nat) =>
        var inventory := Listed(if kind == ClusterKind then clusterIds else hostIds);
        Body(Page(PageOf(inventory, page), Some(|inventory|))))
  }

  lemma {:induction false} ListedRead(ids: seq<Id>)
    ensures Named(Listed(ids)).Value? && |Named(Listed(ids)).value| == |ids|
    ensures forall i :: 0 <= i < |ids| ==> Named(Listed(ids)).value[i] == Resource(ids[i], ids[i])
    ensures forall id :: id in KeysById(Listed(ids)) <==> id in ids
    ensures forall id :: id in ids ==> KeysById(Listed(ids))[id] == ResourceKey(id, id)
  {
    if ids != [] {
      var n := |ids| - 1;
      ListedRead(ids[..n]);
      assert Listed(ids)[..n] == Listed(ids[..n]);
      assert ids == ids[..n] + [ids[n]];
    }
  }

  /** The inventory of a small server, read with three requests. */
  lemma SmallInventory(clusterIds: seq<Id>, hostIds: seq<Id>, children: Id -> seq<Child>, stats: seq<Id> -> StatsReply)
    requires |clusterIds| <= RESOURCE_QUERY_PAGE_SIZE && |hostIds| <= RESOURCE_QUERY_PAGE_SIZE
    ensures var api := SmallServer(clusterIds, hostIds, children, stats);
      && InventoryEnds(api)
      && (forall error :: !InventoryFails(api, error))
      && (forall found, clusterKeys, hostKeys, calls ::
            InventoryRead(api, found, clusterKeys, hostKeys, calls) ==>
              && Value(found) == Named(Listed(clusterIds))
              && clusterKeys == KeysById(Listed(clusterIds)) && hostKeys == KeysById(Listed(hostIds))
              && calls == 3)
  {
    hide PageOf, Named, KeysById, InventoryEnds, InventoryFails, InventoryRead;
    StableInventoryRead(SmallServer(clusterIds, hostIds, children, stats), Listed(clusterIds), Listed(hostIds));
  }

  /** A cycle over a small server: its clusters in order, all identified, from request 3 on. */
  lemma SmallTrace(clusterIds: seq<Id>, hostIds: seq<Id>, children: Id -> seq<Child>, stats: seq<Id> -> StatsReply,
                   trace: Trace, times: nat -> ReadTimes, log: seq<bool>)
    requires |clusterIds| <= RESOURCE_QUERY_PAGE_SIZE && |hostIds| <= RESOURCE_QUERY_PAGE_SIZE
    requires TraceOf(trace, SmallServer(clusterIds, hostIds, children, stats), times, log)
    ensures trace.inventoryCalls == 3 && |trace.steps| == |trace.clusters| == |clusterIds|
    ensures forall i :: 0 <= i < |clusterIds| ==> trace.clusters[i] == Resource(clusterIds[i], clusterIds[i])
    ensures forall id :: id in clusterIds ==> KeyOf(trace.inputs.natives.clusterKeys, id) == Some(ResourceKey(id, id))
    ensures forall id :: id in hostIds ==> KeyOf(trace.inputs.natives.hostKeys, id) == Some(ResourceKey(id, id))
  {
    hide Listed, Named, KeysById, SmallServer, InventoryEnds, InventoryFails, InventoryRead, Walk, OutcomesOf, SummaryOf;
    SmallInventory(clusterIds, hostIds, children, stats);
    ListedRead(clusterIds);
    ListedRead(hostIds);
  }

  lemma FirstStep(trace: Trace, api: Api, times: nat -> ReadTimes, log: seq<bool>)
    requires WalkedFrom(trace, api, times, log) && trace.steps != []
    ensures var step := trace.steps[0];
      && step.call == trace.inventoryCalls && step.before == 0
      && step.gathered == Gather(api, trace.clusters[0].id, step.call, times(step.call))
  {
    hide Gather, OutcomesOf;
    assert StepAt(api, times, trace.clusters, trace.inventoryCalls, 0, trace.steps, 0);
  }

  lemma NextStep(trace: Trace, api: Api, times: nat -> ReadTimes, log: seq<bool>, i: nat)
    requires WalkedFrom(trace, api, times, log) && i + 1 < |trace.steps|
    ensures var step := trace.steps[i + 1];
      && step.call == trace.steps[i].End() && step.before == trace.steps[i].After()
      && step.gathered == Gather(api, trace.clusters[i + 1].id, step.call, times(step.call))
  {
    hide Gather, OutcomesOf;
    assert StepAt(api, times, trace.clusters, trace.inventoryCalls, 0, trace.steps, i + 1);
  }

  // ----- what is gathered of a small cluster -----

  /** A read of one id is one request, which decides it. */
  lemma OneIdStats(api: Api, id: Id, keys: seq<string>, nowMs: int, call: nat)
    ensures OneStats(api, [id], keys, nowMs, call) ==
      match api.stats(call, [id], keys)
      case Body(entries) => StatsRun(false, [Read(Merged(entries, StatExtract(keys)), nowMs)], [true])
      case NotOk => StatsRun(false, [Read(map[], nowMs)], [false])
      case Raised => StatsRun(true, [], [false])
      case Malformed => StatsRun(true, [], [true])
  {
    hide StatExtract, Merged;
    var replies := StatReplies(api, call, Chunks([id]), keys);
    assert replies == [api.stats(call, [id], keys)];
    assert replies[..0] == [] && replies[..1] == replies;
    assert Outcomes(replies) == [Succeeded(replies[0])];
    assert ReadChunks(replies[..0], StatExtract(keys)) == Value(map[]);
    match api.stats(call, [id], keys)
    case Body(entries) =>
      assert map[] + Merged(entries, StatExtract(keys)) == Merged(entries, StatExtract(keys));
    case _ =>
  }

  lemma NoIdStats(api: Api, keys: seq<string>, nowMs: int, call: nat)
    ensures OneStats(api, [], keys, nowMs, call) == StatsRun(false, [Read(map[], nowMs)], [])
  {
    hide StatExtract;
    NoChunks();
  }

  /** An answer without entries finds no property. */
  lemma OneIdProps(api: Api, id: Id, keys: seq<string>, call: nat)
    requires api.props(call, [id], keys) == Body([])
    ensures OneProps(api, [id], keys, call) == PropsRun(Value(map[]), [true])
  {
    hide PropExtract;
    var replies := PropReplies(api, call, Chunks([id]), keys);
    assert replies == [api.props(call, [id], keys)];
    assert replies[..0] == [] && replies[..1] == replies;
    assert Outcomes(replies) == [true];
    assert ReadChunks(replies, PropExtract(keys)) == Value(map[] + Merged([], PropExtract(keys)));
  }

  lemma NoIdProps(api: Api, keys: seq<string>, call: nat)
    ensures OneProps(api, [], keys, call) == PropsRun(Value(map[]), [])
  {
    hide PropExtract;
    NoChunks();
  }

  /** A cluster without hosts: its listing, and then its own stats. */
  lemma GatherAlone(api: Api, id: Id, call: nat, now: ReadTimes)
    requires api.children(call, id) == Body([])
    ensures var run := AllStats(api, id, [], [], now, call + 1);
      Gather(api, id, call, now)
      == Gathered(if run.raised then Raise(OtherError) else Value(Snapshot(id, [], map[], map[], map[], 0)),
                  run.run, 1, [true] + run.outcomes)
  {
    hide AllStats, OneProps;
    assert OfKind([], HostKind) == [] && IdsOf([]) == [];
    assert ListingOf([], ChildReplies(api, call + 1, [])) == Value(Listing(map[], []));
    assert VmIds([], map[]) == [] && Filtered(map[], map[]) == map[];
    NoIdProps(api, HOST_PROPERTY_KEYS, call + 1);
    NoIdProps(api, VM_PROPERTY_KEYS, call + 1);
    RunAfter([true], AllStats(api, id, [], [], now, call + 1).outcomes);
  }

  lemma RunAfter(earlier: seq<bool>, outcomes: seq<bool>)
    ensures earlier + ([] + ([] + outcomes)) == earlier + outcomes
  {
    assert [] + outcomes == outcomes;
  }

  /** The only listing below a cluster with this host. */
  function HostAlone(host: Resource): Listing {
    Listing(map[host.id := []], [host.id])
  }

  lemma HostAloneListed(host: Resource)
    ensures ListingOf([host], [Body([])]) == Value(HostAlone(host))
    ensures IdsOf([host]) == [host.id]
  {
    var replies: seq<Reply<seq<Child>>> := [Body([])];
    assert [host][..0] == [] && replies[..0] == [] && OfKind([], VmKind) == [];
    assert ListingOf([], []) == Value(Listing(map[], []));
    assert [] + [host.id] == [host.id];
    assert WithListing(Listing(map[], []), host.id, []) == HostAlone(host);
  }

  lemma NoVmBelow(host: Resource)
    ensures var l := HostAlone(host); VmIds(l.order, l.vms) == [] && Filtered(l.vms, map[]) == l.vms
  {
    var l := HostAlone(host);
    assert l.order[..0] == [] && IdsOf([]) == [];
  }

  lemma ReadHostAlone(api: Api, id: Id, host: Resource, call: nat, now: ReadTimes)
    requires api.props(call, [host.id], HOST_PROPERTY_KEYS) == Body([])
    ensures var run := AllStats(api, id, [host.id], [], now, call + 1);
      GatherRead(api, id, [host], HostAlone(host), call, now)
      == Gathered(if run.raised then Raise(OtherError) else Value(Snapshot(id, [host], map[host.id := []], map[], map[], 0)),
                  run.run, 1, [true] + run.outcomes)
  {
    hide AllStats, OneProps, VmIds, Filtered, IdsOf, HOST_PROPERTY_KEYS, VM_PROPERTY_KEYS;
    HostAloneListed(host);
    NoVmBelow(host);
    OneIdProps(api, host.id, HOST_PROPERTY_KEYS, call);
    NoIdProps(api, VM_PROPERTY_KEYS, call + 1);
    var none: map<(Id, string), string> := map[];
    assert none + none == none;
    assert [true] + [] == [true];
  }

  lemma BelowHostAlone(api: Api, id: Id, host: Resource, call: nat, now: ReadTimes)
    requires api.children(call, host.id) == Body([]) && api.props(call + 1, [host.id], HOST_PROPERTY_KEYS) == Body([])
    ensures var run := AllStats(api, id, [host.id], [], now, call + 2);
      GatherBelow(api, id, [host], call, now)
      == Gathered(if run.raised then Raise(OtherError) else Value(Snapshot(id, [host], map[host.id := []], map[], map[], 0)),
                  run.run, 2, [true, true] + run.outcomes)
  {
    hide AllStats, ListingOf, GatherRead, HOST_PROPERTY_KEYS;
    HostAloneListed(host);
    ReadHostAlone(api, id, host, call + 1, now);
    var replies := ChildReplies(api, call, [host]);
    assert replies == [Body([])] && replies[..1] == replies;
    assert Outcomes(replies) == [true];
    var run := AllStats(api, id, [host.id], [], now, call + 2);
    assert [true] + ([true] + run.outcomes) == [true, true] + run.outcomes;
  }

  /** A cluster with one host that runs no VM: two listings, the properties of the host, and then the stats of both. */
  lemma GatherWithHost(api: Api, id: Id, host: Resource, call: nat, now: ReadTimes)
    requires api.children(call, id) == Body([Child(host.id, host.name, HostKind)])
    requires api.children(call + 1, host.id) == Body([])
    requires api.props(call + 2, [host.id], HOST_PROPERTY_KEYS) == Body([])
    ensures var run := AllStats(api, id, [host.id], [], now, call + 3);
      Gather(api, id, call, now)
      == Gathered(if run.raised then Raise(OtherError) else Value(Snapshot(id, [host], map[host.id := []], map[], map[], 0)),
                  run.run, 3, [true, true, true] + run.outcomes)
  {
    hide AllStats, GatherBelow, HOST_PROPERTY_KEYS;
    var child := Child(host.id, host.name, HostKind);
    assert [child][..0] == [] && OfKind([child], HostKind) == [host];
    BelowHostAlone(api, id, host, call + 1, now);
    var run := AllStats(api, id, [host.id], [], now, call + 3);
    assert [true] + ([true, true] + run.outcomes) == [true, true, true] + run.outcomes;
  }

  // ----- one stat of a cluster -----

  const OVERCOMMIT := ClusterStatkey(CpuAllocationRatio)

  function OneStat(id: Id, value: real, stampMs: int): seq<Entry<seq<RawStat>>> {
    [Entry(id, [RawStat(OVERCOMMIT, [value], [stampMs])])]
  }

  /** What a read picks of it. */
  function Picked(id: Id, value: real, stampMs: int): map<SampleKey, Sample> {
    Merged(OneStat(id, value, stampMs), StatExtract(CLUSTER_STATKEYS))
  }

  lemma PickedOvercommit(id: Id, value: real, stampMs: int)
    ensures (id, OVERCOMMIT) in Picked(id, value, stampMs)
    ensures forall k :: k in Picked(id, value, stampMs) ==> Picked(id, value, stampMs)[k] == Sample(value, [stampMs])
  {
    hide StatsOf, ClusterStatkey;
    var stat := RawStat(OVERCOMMIT, [value], [stampMs]);
    OvercommitRequested();
    OnlyStat(stat, CLUSTER_STATKEYS);
    var entries, extract := OneStat(id, value, stampMs), StatExtract(CLUSTER_STATKEYS);
    assert entries[..0] == [] && Merged(entries[..0], extract) == map[];
    assert Merged(entries, extract) == Merged(entries[..0], extract) + Keyed(id, extract([stat]));
    assert extract([stat]) == StatsOf([stat], CLUSTER_STATKEYS);
  }

  lemma OvercommitRequested()
    ensures OVERCOMMIT in CLUSTER_STATKEYS && OVERCOMMIT != ""
  {
    assert CLUSTER_STATKEYS[1] == OVERCOMMIT;
  }

  /** An entry with one stat answers its own key, and every answered key with it. */
  lemma OnlyStat(stat: RawStat, keys: seq<string>)
    requires stat.key != "" && stat.data != [] && stat.key in keys
    ensures stat.key in StatsOf([stat], keys)
    ensures forall k :: k in StatsOf([stat], keys) ==> StatsOf([stat], keys)[k] == LastSample(stat)
  {
    hide AggregateKey;
    assert [stat][..0] == [];
    assert Returned([stat]) == map[stat.key := stat];
  }

  /** Three reads of which only the first picks anything, and that with one timestamp: how it moves the reference, and what is kept. */
  lemma OneStampKept(id: Id, value: real, stampMs: int, nowMs: int, before: int)
    ensures var picked := Picked(id, value, stampMs);
      var run := [Read(picked, nowMs), Read(map[], nowMs), Read(map[], nowMs)];
      var kept := JoinAll(Kept(run, before));
      && Reference([Read(picked, nowMs)], before) == MaxInt(before, stampMs)
      && (before - stampMs > STALE_AFTER_MS ==> kept == map[])
      && (before - stampMs <= STALE_AFTER_MS && nowMs - stampMs <= STALE_AFTER_MS + CLOCK_SKEW_TOLERANCE_MS ==>
            (id, OVERCOMMIT) in kept && kept[(id, OVERCOMMIT)] == value)
  {
    hide Picked, JoinAll, Kept, OVERCOMMIT;
    PickedOvercommit(id, value, stampMs);
    var picked := Picked(id, value, stampMs);
    NewestUnique(Newest(before, picked), MaxInt(before, stampMs), before, picked);
    assert Reference([Read(picked, nowMs)][..0], before) == before;
    var newest := Newest(before, picked);
    assert Newest(newest, map[]) == newest;
    ThreeKept(Read(picked, nowMs), Read(map[], nowMs), Read(map[], nowMs), before);
    assert Fresh(map[], newest, nowMs) == map[];
    JoinFirst(Fresh(picked, newest, nowMs));
  }

  lemma JoinFirst(table: map<SampleKey, real>)
    ensures JoinAll([table, map[], map[]]) == table
  {
    assert [table, map[], map[]][..2] == [table, map[]] && [table, map[]][..1] == [table] && [table][..0] == [];
    var none: map<SampleKey, real> := map[];
    assert none + table == table && table + none == table;
    assert JoinAll([table]) == table;
    assert JoinAll([table, map[]]) == JoinAll([table]) + none;
  }

  /** All stats reads of a cluster whose own stats are answered with one stat and that has no host, or one without stats. */
  lemma OwnStatOnly(api: Api, id: Id, hostIds: seq<Id>, value: real, stampMs: int, nowMs: int, call: nat)
    requires api.stats(call, [id], CLUSTER_STATKEYS) == Body(OneStat(id, value, stampMs))
    requires hostIds == [] || (|hostIds| == 1 && api.stats(call + 1, hostIds, HOST_STATKEYS) == Body([]))
    ensures AllStats(api, id, hostIds, [], ReadTimes(nowMs, nowMs, nowMs), call)
            == StatsRun(false, [Read(Picked(id, value, stampMs), nowMs), Read(map[], nowMs), Read(map[], nowMs)],
                        if hostIds == [] then [true] else [true, true])
  {
    hide OneStats, OneStat, Merged, StatExtract, CLUSTER_STATKEYS, HOST_STATKEYS, VM_STATKEYS;
    OneIdStats(api, id, CLUSTER_STATKEYS, nowMs, call);
    NoIdStats(api, VM_STATKEYS, nowMs, call + 1);
    NoIdStats(api, VM_STATKEYS, nowMs, call + 2);
    if hostIds == [] {
      NoIdStats(api, HOST_STATKEYS, nowMs, call + 1);
    } else {
      assert hostIds == [hostIds[0]];
      OneIdStats(api, hostIds[0], HOST_STATKEYS, nowMs, call + 1);
      NothingMerged(HOST_STATKEYS);
    }
  }

  lemma NothingMerged(keys: seq<string>)
    ensures Merged([], StatExtract(keys)) == map[]
  {
  }

  lemma OwnStatThenRaised(api: Api, id: Id, hostId: Id, value: real, stampMs: int, nowMs: int, call: nat)
    requires api.stats(call, [id], CLUSTER_STATKEYS) == Body(OneStat(id, value, stampMs))
    requires api.stats(call + 1, [hostId], HOST_STATKEYS) == Raised
    ensures AllStats(api, id, [hostId], [], ReadTimes(nowMs, nowMs, nowMs), call)
            == StatsRun(true, [Read(Picked(id, value, stampMs), nowMs)], [true, false])
  {
    hide OneStats, OneStat, Merged, StatExtract, CLUSTER_STATKEYS, HOST_STATKEYS, VM_STATKEYS;
    OneIdStats(api, id, CLUSTER_STATKEYS, nowMs, call);
    OneIdStats(api, hostId, HOST_STATKEYS, nowMs, call + 1);
  }

  // ----- a failed cluster drops a value of another one -----

  /** Cluster "c" has one host, which is "h"; every other object has no children. */
  function HostBelow(c: Id): Id -> seq<Child> {
    (id: Id) => if id == c then [Child("h", "h", HostKind)] else []
  }

  const MINUTE_11 := 660_000

  function At(nowMs: int): nat -> ReadTimes {
    (call: nat) => ReadTimes(nowMs, nowMs, nowMs)
  }

  /** Own stats of now for "a", own stats of minute 0 for "b", and an exception for the host of "a". */
  function RaisingHost(clusterIds: seq<Id>): Api {
    SmallServer(clusterIds, ["h"], HostBelow("a"), RaisingHostStats())
  }

  function RaisingHostStats(): seq<Id> -> StatsReply {
    (ids: seq<Id>) => if ids == ["a"] then Body(OneStat("a", 1.0, MINUTE_11))
                      else if ids == ["b"] then Body(OneStat("b", 2.0, 0)) else Raised
  }

  /** "a" is answered up to its own stats, whose sample is of now, and then raises. */
  lemma GatherA(clusterIds: seq<Id>, call: nat)
    ensures Gather(RaisingHost(clusterIds), "a", call, At(MINUTE_11)(call))
            == Gathered(Raise(OtherError), [Read(Picked("a", 1.0, MINUTE_11), MINUTE_11)], 3, [true, true, true, true, false])
  {
    hide AllStats, OneStat, Gather, Picked, CLUSTER_STATKEYS, HOST_STATKEYS, HOST_PROPERTY_KEYS;
    var api := RaisingHost(clusterIds);
    OwnStatThenRaised(api, "a", "h", 1.0, MINUTE_11, MINUTE_11, call + 3);
    GatherWithHost(api, "a", Resource("h", "h"), call, At(MINUTE_11)(call));
  }

  /** "b" is answered in full: its listing, which is empty, and its own stats. */
  lemma GatherB(clusterIds: seq<Id>, call: nat)
    ensures Gather(RaisingHost(clusterIds), "b", call, At(MINUTE_11)(call))
            == Gathered(Value(Snapshot("b", [], map[], map[], map[], 0)),
                        [Read(Picked("b", 2.0, 0), MINUTE_11), Read(map[], MINUTE_11), Read(map[], MINUTE_11)], 1, [true, true])
  {
    hide AllStats, OneStat, Gather, Picked, CLUSTER_STATKEYS, HOST_STATKEYS, HOST_PROPERTY_KEYS;
    var api := RaisingHost(clusterIds);
    OwnStatOnly(api, "b", [], 2.0, 0, MINUTE_11, call + 1);
    GatherAlone(api, "b", call, At(MINUTE_11)(call));
  }

  /** What is read of "b" after a sample of minute 11 has been seen, and what is read of it first. */
  lemma ReadB(clusterIds: seq<Id>, step: Step)
    requires step.gathered == Gather(RaisingHost(clusterIds), "b", step.call, At(MINUTE_11)(step.call))
    ensures step.Snap().Value? && step.Snap().value.clusterId == "b" && step.Snap().value.hosts == []
    ensures step.before == MINUTE_11 ==> step.Snap().value.stats == map[]
    ensures step.before == 0 ==> step.Snap().value.Cluster(CpuAllocationRatio) == Some(2.0)
  {
    hide Gather, Picked, Kept, JoinAll;
    GatherB(clusterIds, step.call);
    OneStampKept("b", 2.0, 0, MINUTE_11, step.before);
  }

  lemma ReadA(clusterIds: seq<Id>, step: Step)
    requires step.gathered == Gather(RaisingHost(clusterIds), "a", step.call, At(MINUTE_11)(step.call)) && step.before == 0
    ensures step.Snap().Raise? && step.After() == MINUTE_11
  {
    hide Gather, Picked, Kept, JoinAll;
    GatherA(clusterIds, step.call);
    OneStampKept("a", 1.0, MINUTE_11, MINUTE_11, 0);
  }

  /** A known overcommit ratio of the cluster has its row in the projection. */
  lemma KnownOvercommit(snap: Snapshot, monster: MonsterVmSettings, parse: string -> Option<real>)
    requires snap.Cluster(CpuAllocationRatio).Some?
    ensures KnownRow(ClusterValues(snap, monster, parse), CLUSTER_PROJECTION)
  {
    hide Snapshot.Cluster, ClusterValues, SHARED_KEYS, CLUSTER_ONLY_KEYS, CLUSTER_KEYS, SHARED_PROJECTION, CLUSTER_ROWS;
    OvercommitKey();
    KeyedValues(snap, monster, parse);
    ClusterRowsProjected(ClusterCpuOvercommitRatio);
    RowOfEither(SHARED_PROJECTION, CLUSTER_ROWS, ClusterCpuOvercommitRatio);
  }

  lemma OvercommitKey()
    ensures ClusterCpuOvercommitRatio in CLUSTER_ONLY_KEYS && CLUSTER_ONLY_KEYS <= CLUSTER_KEYS
  {
    hide SHARED_KEYS;
  }

  /** What is published of "b" when it is read first, and when it is read after "a". */
  lemma SaidOfB(clusterIds: seq<Id>, step: Step, inputs: Inputs)
    requires step.gathered == Gather(RaisingHost(clusterIds), "b", step.call, At(MINUTE_11)(step.call))
    requires Usable(KeyOf(inputs.natives.clusterKeys, "b"), inputs.natives.lookup)
    ensures !Lost(step, inputs.natives)
    ensures step.before == MINUTE_11 ==> !SaySomething(PublishedByOne(step, inputs))
    ensures step.before == 0 ==> SaySomething(PublishedByOne(step, inputs))
  {
    hide Gather, Step.Snap, KeyOf, ClusterPublications, ClusterValues, SaySomething, Snapshot.Cluster, KnownRow, CLUSTER_PROJECTION;
    ReadB(clusterIds, step);
    var snap := step.Snap().value;
    if step.before == MINUTE_11 {
      NoStatSaysNothing(snap, inputs);
    }
    if step.before == 0 {
      KnownOvercommit(snap, inputs.monster, inputs.parse);
      ClusterSaysSomething(snap, inputs);
    }
  }

  /**
   One failed cluster is felt by another. With "a" before it, "b" is read without its value: "a" had moved the
   newest sample to minute 11 before one of its requests raised and its iteration was lost. Without "a" the value
   of "b" is published, from the same replies at the same clock. Neither cycle has an error.
   */
  lemma FailedClusterDropsASample(both: Trace, log: seq<bool>, alone: Trace, aloneLog: seq<bool>)
    requires TraceOf(both, RaisingHost(["a", "b"]), At(MINUTE_11), log)
    requires TraceOf(alone, RaisingHost(["b"]), At(MINUTE_11), aloneLog)
    requires both.inputs.natives.lookup(ResourceKey("b", "b")) == alone.inputs.natives.lookup(ResourceKey("b", "b")) == Identified
    ensures |both.steps| == 2 && both.steps[0].Snap().Raise? && both.steps[0].After() == MINUTE_11
    ensures |alone.steps| == 1 && both.steps[1].gathered.Alike(alone.steps[0].gathered)
    ensures !SaySomething(PublishedBy(both.steps, both.inputs)) && Verdict(both, log) == None
    ensures SaySomething(PublishedBy(alone.steps, alone.inputs)) && Verdict(alone, aloneLog) == None
  {
    hide Picked, At, Gather, Walk, OutcomesOf, InventoryRead, SummaryOf, Lost, Verdict, PublishedBy, PublishedByOne, SaySomething,
         Step.Snap, Step.After, KeyOf;
    CycleOfBoth(both, log);
    CycleOfB(alone, aloneLog);
    GatherB(["a", "b"], both.steps[1].call);
    GatherB(["b"], alone.steps[0].call);
  }

  lemma CycleOfBoth(trace: Trace, log: seq<bool>)
    requires TraceOf(trace, RaisingHost(["a", "b"]), At(MINUTE_11), log)
    requires trace.inputs.natives.lookup(ResourceKey("b", "b")) == Identified
    ensures |trace.steps| == 2 && trace.steps[0].Snap().Raise? && trace.steps[0].After() == MINUTE_11
    ensures trace.steps[1].gathered == Gather(RaisingHost(["a", "b"]), "b", trace.steps[1].call, At(MINUTE_11)(trace.steps[1].call))
    ensures !SaySomething(PublishedBy(trace.steps, trace.inputs)) && Verdict(trace, log) == None
  {
    hide At, Gather, Walk, OutcomesOf, InventoryRead, SummaryOf, Lost, Verdict, PublishedBy, PublishedByOne, SaySomething,
         Step.Snap, Step.After, KeyOf;
    var api := RaisingHost(["a", "b"]);
    var steps := trace.steps;
    ClustersListed(["a", "b"], trace, log);
    FirstStep(trace, api, At(MINUTE_11), log);
    ReadA(["a", "b"], steps[0]);
    NextStep(trace, api, At(MINUTE_11), log, 0);
    SaidOfB(["a", "b"], steps[1], trace.inputs);
    SomethingReadNoError(trace, api, At(MINUTE_11), log, 1, 1);
    LostPublishesNothing(steps[0], trace.inputs);
    PublishedByFew(steps, trace.inputs);
  }

  lemma PublishedByFew(steps: seq<Step>, inputs: Inputs)
    ensures |steps| == 1 ==> PublishedBy(steps, inputs) == PublishedByOne(steps[0], inputs)
    ensures |steps| == 2 && PublishedByOne(steps[0], inputs) == [] ==> PublishedBy(steps, inputs) == PublishedByOne(steps[1], inputs)
  {
    hide PublishedByOne;
    if |steps| == 1 {
      assert steps[..0] == [];
    } else if |steps| == 2 {
      assert steps[..1] == [steps[0]] && [steps[0]][..0] == [];
    }
  }

  lemma LostPublishesNothing(step: Step, inputs: Inputs)
    requires step.Snap().Raise?
    ensures PublishedByOne(step, inputs) == []
  {
    hide Step.Snap;
  }

  lemma CycleOfB(trace: Trace, log: seq<bool>)
    requires TraceOf(trace, RaisingHost(["b"]), At(MINUTE_11), log)
    requires trace.inputs.natives.lookup(ResourceKey("b", "b")) == Identified
    ensures |trace.steps| == 1
    ensures trace.steps[0].gathered == Gather(RaisingHost(["b"]), "b", trace.steps[0].call, At(MINUTE_11)(trace.steps[0].call))
    ensures SaySomething(PublishedBy(trace.steps, trace.inputs)) && Verdict(trace, log) == None
  {
    hide At, Gather, Walk, OutcomesOf, InventoryRead, SummaryOf, Lost, Verdict, PublishedBy, PublishedByOne, SaySomething, KeyOf;
    var api := RaisingHost(["b"]);
    ClustersListed(["b"], trace, log);
    FirstStep(trace, api, At(MINUTE_11), log);
    SaidOfB(["b"], trace.steps[0], trace.inputs);
    SomethingReadNoError(trace, api, At(MINUTE_11), log, 0, 0);
    PublishedByFew(trace.steps, trace.inputs);
  }

  /** The cycle's clusters, which are identified, and that their listings are answered. */
  lemma ClustersListed(clusterIds: seq<Id>, trace: Trace, log: seq<bool>)
    requires |clusterIds| <= 2 && TraceOf(trace, RaisingHost(clusterIds), At(MINUTE_11), log)
    ensures |trace.steps| == |trace.clusters| == |clusterIds|
    ensures forall i :: 0 <= i < |clusterIds| ==> trace.clusters[i].id == clusterIds[i]
    ensures forall id :: id in clusterIds ==> KeyOf(trace.inputs.natives.clusterKeys, id) == Some(ResourceKey(id, id))
    ensures WalkedFrom(trace, RaisingHost(clusterIds), At(MINUTE_11), log)
    ensures forall call: nat, id :: RaisingHost(clusterIds).children(call, id).Body?
  {
    hide At, Walk, OutcomesOf, InventoryRead, SummaryOf, KeyOf;
    SmallTrace(clusterIds, ["h"], HostBelow("a"), RaisingHostStats(), trace, At(MINUTE_11), log);
  }

  /** The two cycles themselves: with "a" before it nothing of "b" is said, without "a" its value is. */
  method RunFailedCluster(stats: CallStats, parse: string -> Option<real>, lookup: ResourceKey -> Lookup)
    returns (both: CollectResult, alone: CollectResult)
    requires lookup(ResourceKey("b", "b")) == Identified
    modifies stats
    ensures fresh(both) && both.error == None && !SaySomething(both.published)
    ensures fresh(alone) && alone.error == None && SaySomething(alone.published)
  {
    hide Gather, Verdict, PublishedBy, SaySomething, Walk, OutcomesOf, InventoryRead, InventoryEnds, InventoryFails, SummaryOf,
         Step.Snap, Step.After, KeyOf, RaisingHostStats, CallStats.Valid, CollectResult.Valid, SettingsOf;
    ghost var trace, log, aloneTrace;
    SmallInventory(["a", "b"], ["h"], HostBelow("a"), RaisingHostStats());
    both, trace := Collect(RaisingHost(["a", "b"]), stats, At(MINUTE_11), None, None, None, parse, lookup);
    log := stats.log;
    SmallInventory(["b"], ["h"], HostBelow("a"), RaisingHostStats());
    alone, aloneTrace := Collect(RaisingHost(["b"]), stats, At(MINUTE_11), None, None, None, parse, lookup);
    FailedClusterDropsASample(trace, log, aloneTrace, stats.log);
  }

  // ----- answered listings hide that every stats call failed -----

  /** A server that lists and gives properties, and fails every stats call. */
  function StatsDown(): Api {
    SmallServer(["c"], ["h"], HostBelow("c"), (ids: seq<Id>) => NotOk)
  }

  lemma NoneAnswered(api: Api, id: Id, hostId: Id, nowMs: ReadTimes, call: nat)
    requires api.stats(call, [id], CLUSTER_STATKEYS) == NotOk && api.stats(call + 1, [hostId], HOST_STATKEYS) == NotOk
    ensures var run := AllStats(api, id, [hostId], [], nowMs, call); !run.raised && run.outcomes == [false, false]
  {
    hide OneStats, CLUSTER_STATKEYS, HOST_STATKEYS, VM_STATKEYS;
    OneIdStats(api, id, CLUSTER_STATKEYS, nowMs.cluster, call);
    OneIdStats(api, hostId, HOST_STATKEYS, nowMs.hosts, call + 1);
    NoIdStats(api, VM_STATKEYS, nowMs.vms, call + 2);
  }

  lemma GatherStatsDown(step: Step, times: nat -> ReadTimes)
    requires step.gathered == Gather(StatsDown(), "c", step.call, times(step.call))
    ensures step.gathered.outcomes == [true, true, true, false, false] && step.gathered.before == 3 && StatsFailed(step)
    ensures step.Snap().Value? && step.Snap().value.clusterId == "c" && step.Snap().value.hosts == [Resource("h", "h")]
  {
    hide AllStats, Gather, JoinAll, Kept, CLUSTER_STATKEYS, HOST_STATKEYS, HOST_PROPERTY_KEYS;
    var now := times(step.call);
    NoneAnswered(StatsDown(), "c", "h", now, step.call + 3);
    GatherWithHost(StatsDown(), "c", Resource("h", "h"), step.call, now);
    assert step.gathered.outcomes[3..] == [false, false];
  }

  /** Both of the two stats calls of a cycle fail; nothing known is published; and there is no error. */
  lemma AnsweredListingHidesFailedStats(trace: Trace, times: nat -> ReadTimes, log: seq<bool>)
    requires TraceOf(trace, StatsDown(), times, log)
    requires trace.inputs.natives.lookup(ResourceKey("c", "c")) != Unhandled
    requires trace.inputs.natives.lookup(ResourceKey("h", "h")) != Unhandled
    ensures log == [true, true, true, true, true, true, false, false]
    ensures |trace.steps| == 1 && trace.steps[0].StatsFrom() == 6
    ensures Verdict(trace, log) == None && !SaySomething(PublishedBy(trace.steps, trace.inputs))
  {
    hide Gather, Walk, InventoryRead, SummaryOf, Verdict, PublishedBy, SaySomething, Step.Snap, StatsFailed, KeyOf;
    var steps := trace.steps;
    SmallTrace(["c"], ["h"], HostBelow("c"), (ids: seq<Id>) => NotOk, trace, times, log);
    FirstStep(trace, StatsDown(), times, log);
    GatherStatsDown(steps[0], times);
    EveryStatsCallFailed(trace, StatsDown(), times, log);
    SomethingReadNoError(trace, StatsDown(), times, log, 0, 0);
    assert steps[..0] == [] && OutcomesOf(steps) == [] + steps[0].gathered.outcomes;
    assert log == log[..3] + log[3..];
  }

  /** The cycle itself. */
  method RunStatsDown(stats: CallStats, times: nat -> ReadTimes, parse: string -> Option<real>, lookup: ResourceKey -> Lookup)
    returns (result: CollectResult)
    requires lookup(ResourceKey("c", "c")) != Unhandled && lookup(ResourceKey("h", "h")) != Unhandled
    modifies stats
    ensures stats.log == [true, true, true, true, true, true, false, false]
    ensures fresh(result) && result.error == None && !SaySomething(result.published)
  {
    hide Gather, Verdict, PublishedBy, SaySomething, Walk, OutcomesOf, InventoryRead, InventoryEnds, InventoryFails, SummaryOf,
         CallStats.Valid, CollectResult.Valid, SettingsOf;
    ghost var trace;
    SmallInventory(["c"], ["h"], HostBelow("c"), (ids: seq<Id>) => NotOk);
    result, trace := Collect(StatsDown(), stats, times, None, None, None, parse, lookup);
    AnsweredListingHidesFailedStats(trace, times, stats.log);
  }

  // ----- an error hides what an interrupted iteration had published -----

  /** One cluster with an overcommit ratio of 2, and one host without stats. */
  function OvercommittedCluster(): Api {
    SmallServer(["c"], ["h"], HostBelow("c"), OvercommittedStats())
  }

  function OvercommittedStats(): seq<Id> -> StatsReply {
    (ids: seq<Id>) => if ids == ["c"] then Body(OneStat("c", 2.0, 0)) else Body([])
  }

  lemma ReadOvercommitted(step: Step)
    requires step.gathered == Gather(OvercommittedCluster(), "c", step.call, At(0)(step.call)) && step.before == 0
    ensures step.Snap().Value? && step.Snap().value.clusterId == "c" && step.Snap().value.hosts == [Resource("h", "h")]
    ensures step.Snap().value.Cluster(CpuAllocationRatio) == Some(2.0)
  {
    hide AllStats, OneStat, Gather, Picked, JoinAll, Kept, CLUSTER_STATKEYS, HOST_STATKEYS, HOST_PROPERTY_KEYS;
    OwnStatOnly(OvercommittedCluster(), "c", ["h"], 2.0, 0, 0, step.call + 3);
    GatherWithHost(OvercommittedCluster(), "c", Resource("h", "h"), step.call, At(0)(step.call));
    OneStampKept("c", 2.0, 0, 0, 0);
  }

  /** The lookup of the host raises after the cluster's ratio was published: the cycle ends with an error, and the ratio is lost. */
  lemma InterruptedClusterLosesValues(trace: Trace, log: seq<bool>)
    requires TraceOf(trace, OvercommittedCluster(), At(0), log)
    requires trace.inputs.natives.lookup(ResourceKey("c", "c")) == Identified
    requires trace.inputs.natives.lookup(ResourceKey("h", "h")) == Unhandled
    ensures Verdict(trace, log) == Some(AllClustersFailed(1)) && SaySomething(PublishedBy(trace.steps, trace.inputs))
  {
    hide Gather, Walk, OutcomesOf, InventoryRead, SummaryOf, PublishedBy, SaySomething, Step.Snap, KeyOf, KnownRow, ClusterValues,
         Snapshot.Cluster, CLUSTER_PROJECTION, HostPublishesKnown;
    SmallTrace(["c"], ["h"], HostBelow("c"), OvercommittedStats(), trace, At(0), log);
    FirstStep(trace, OvercommittedCluster(), At(0), log);
    ReadOvercommitted(trace.steps[0]);
    var snap := trace.steps[0].Snap().value;
    KnownOvercommit(snap, trace.inputs.monster, trace.inputs.parse);
    assert Raising(KeyOf(trace.inputs.natives.hostKeys, snap.hosts[0].id), trace.inputs.natives.lookup);
    assert NoneCollected(trace.steps, trace.inputs.natives);
    ErrorLosesNothing(trace, OvercommittedCluster(), At(0), log);
  }

  /** The cycle itself. */
  method RunInterruptedCluster(stats: CallStats, parse: string -> Option<real>, lookup: ResourceKey -> Lookup)
    returns (result: CollectResult)
    requires lookup(ResourceKey("c", "c")) == Identified && lookup(ResourceKey("h", "h")) == Unhandled
    modifies stats
    ensures fresh(result) && result.error == Some(AllClustersFailed(1)) && SaySomething(result.published)
  {
    hide Gather, Verdict, PublishedBy, SaySomething, Walk, OutcomesOf, InventoryRead, InventoryEnds, InventoryFails, SummaryOf,
         OvercommittedStats, CallStats.Valid, CollectResult.Valid, SettingsOf;
    ghost var trace;
    SmallInventory(["c"], ["h"], HostBelow("c"), OvercommittedStats());
    result, trace := Collect(OvercommittedCluster(), stats, At(0), None, None, None, parse, lookup);
    InterruptedClusterLosesValues(trace, stats.log);
  }

  // ----- a lost inventory is an error -----

  /** A server that gives one and the same reply to every inventory request. */
  function AlwaysReplies(reply: Reply<Page>): Api {
    SmallServer([], [], (id: Id) => [], (ids: seq<Id>) => NotOk).(query := (call: nat, kind: Kind, page: nat) => reply)
  }

  lemma FirstPageFails(reply: Reply<Page>)
    requires !reply.Body?
    ensures InventoryEnds(AlwaysReplies(reply))
    ensures InventoryFails(AlwaysReplies(reply), if reply.NotOk? then SuiteApiError else OtherError)
  {
    hide PagesWanted, KeyedAs, SmallServer;
    var api := AlwaysReplies(reply);
    forall kind, call: nat ensures PageReply(api, kind, call, 0) == reply && Ends(api, kind, call) {
      assert EndsWith(api, kind, call, 1);
    }
    assert FailedRun(api, ClusterKind, 0, 1, if reply.NotOk? then SuiteApiError else OtherError);
  }

  /** A page that holds a cluster without a resource key, which the listing cannot read. */
  const KEYLESS_PAGE := Page([InventoryEntry("c", None)], Some(1))

  lemma KeylessEntryFails()
    ensures InventoryEnds(AlwaysReplies(Body(KEYLESS_PAGE))) && InventoryFails(AlwaysReplies(Body(KEYLESS_PAGE)), OtherError)
  {
    hide KeyedAs, SmallServer, PagesFor;
    var api := AlwaysReplies(Body(KEYLESS_PAGE));
    OnePage();
    forall kind, call: nat ensures PageReply(api, kind, call, 0) == Body(KEYLESS_PAGE) && Ends(api, kind, call) {
      assert EndsWith(api, kind, call, 1);
    }
    assert CompleteRun(api, ClusterKind, 0, 1, PagesRead(api, ClusterKind, 0, 1));
    assert PagesRead(api, ClusterKind, 0, 0) == [];
    assert Named(KEYLESS_PAGE.resources).Raise?;
  }

  lemma OnePage()
    ensures PagesFor(1) == 1
  {
  }

  /**
   A first inventory page that is not answered, and a listed cluster without a key: a cycle with an error and without
   publications. A non-2xx status is the failed inventory, everything else the unexpected error.
   */
  method RunLostInventory(stats: CallStats, times: nat -> ReadTimes, parse: string -> Option<real>, lookup: ResourceKey -> Lookup,
                          reply: Reply<Page>)
    returns (unanswered: CollectResult, keyless: CollectResult)
    requires !reply.Body?
    modifies stats
    ensures fresh(unanswered) && unanswered.published == []
    ensures unanswered.error == Some(if reply.NotOk? then InventoryFailed else Unexpected)
    ensures fresh(keyless) && keyless.published == [] && keyless.error == Some(Unexpected)
  {
    hide InventoryEnds, InventoryFails, InventoryRead, Verdict, Walk, OutcomesOf, SummaryOf, PublishedBy, NewestOf, NoneCollected,
         AllFailedSince, CallStats.Valid, CollectResult.Valid, SettingsOf, AlwaysReplies;
    ghost var trace, keylessTrace;
    FirstPageFails(reply);
    unanswered, trace := Collect(AlwaysReplies(reply), stats, times, None, None, None, parse, lookup);
    LostIsNotRead(AlwaysReplies(reply), trace, times, stats.log);
    KeylessEntryFails();
    keyless, keylessTrace := Collect(AlwaysReplies(Body(KEYLESS_PAGE)), stats, times, None, None, None, parse, lookup);
    LostIsNotRead(AlwaysReplies(Body(KEYLESS_PAGE)), keylessTrace, times, stats.log);
  }

  lemma LostIsNotRead(api: Api, trace: Trace, times: nat -> ReadTimes, log: seq<bool>)
    requires InventoryFails(api, SuiteApiError) || InventoryFails(api, OtherError)
    ensures !TraceOf(trace, api, times, log)
  {
    hide InventoryFails, InventoryRead, Walk, OutcomesOf, SummaryOf;
    if TraceOf(trace, api, times, log) {
      InventoryDecided(api, trace.clusters, trace.inputs.natives.clusterKeys, trace.inputs.natives.hostKeys, trace.inventoryCalls);
    }
  }
}
